/** The owner's own actions: reading a client's message, a monitor firing, a release, anything else. */
module LeaseSystemActions {
  import opened Common
  import opened LeaseModel
  import opened LeaseInvariant
  import opened LeaseHandlers
  import opened LeaseRefinement
  import opened LeaseResults
  import opened LeaseReplies
  import opened LeaseRejections
  import opened LeaseSystem
  import opened LeaseSystemInvariant
  import opened LeaseSystemOwner
  import opened LeaseSystemSteps
  import opened LeaseSystemClients
  import opened LeaseSystemCalls
  import opened LeaseSystemMessages

  lemma GrowsBy(x: Ctx, z: Sys, m: Message, pid: Pid, w: Sys)
    requires Handling(z, m, pid, w) && !m.CommitMsg? && z.life.Up?
    requires x == CtxOf(z).(named := x.named) && x.named <= z.named
    ensures Grows(x, CtxOf(w)) && CtxOf(w).accepted == x.accepted && CtxOf(w).roots == x.roots
    ensures CtxOf(w).v == Expected(z.owner, m, z.next) && CtxOf(w).mail == w.mail
  {
    hide Expected, ViewOf, Successes, Awaits, Buries, Deciding;
    forall o | o in RejectedBy(w.owner, w.accepted) ensures o in RejectedBy(z.owner, z.accepted) {
      assert Awaits(z.owner, o) || StartsRejection(m, o);
    }
  }

  lemma NoAnswerBy(x: Ctx, z: Sys, m: Message, pid: Pid, w: Sys, r: Ref)
    requires Handling(z, m, pid, w) && z.life.Up? && (Deciding(m) ==> Silently(z, w, r))
    requires x == CtxOf(z).(named := x.named)
    requires forall o :: Awaits(z.owner, o) ==> o in z.accepted
    ensures NoAnswer(x, CtxOf(w), r)
  {
    hide Expected, ViewOf, Successes, Awaits, Buries;
    forall a | a in w.mail && a !in z.mail && RejectsIssue(a) ensures a.request in RejectedBy(z.owner, z.accepted) {
      assert Awaits(z.owner, a.request);
    }
  }

  ghost predicate Silently(z: Sys, w: Sys, r: Ref) {
    forall a :: a in w.mail && a !in z.mail && Decides(a) ==> a.request != r
  }

  /** The head of a process's channel is consumed: whose it is, and what remains. */
  ghost predicate Takes1(y: Sys, z: Sys, pid: Pid, m: Wire) {
    && Unread(y, pid) != [] && m == Unread(y, pid)[0]
    && z == y.(out := y.out[pid := Unread(y, pid)[1..]])
  }

  lemma TakesHead(y: Sys, z: Sys, pid: Pid, m: Wire)
    requires Takes1(y, z, pid, m) && WiresOwned(y)
    ensures Takes(y, z, m.request)
    ensures m.request in y.calls && y.calls[m.request].pid == pid
    ensures WiresOf(y, m.request) != [] && WiresOf(y, m.request)[0] == m && WiresOf(z, m.request) == WiresOf(y, m.request)[1..]
  {
    assert OwnedBy(y, Unread(y, pid)[0], pid);
    forall o | o in y.calls ensures o != m.request ==> WiresOf(z, o) == WiresOf(y, o) { ConsumeWires(y, pid, o); }
    ConsumeWires(y, pid, m.request);
    forall p, i | 0 <= i < |Unread(z, p)| ensures OwnedBy(z, Unread(z, p)[i], p) {
      if p == pid {
        assert Unread(z, p)[i] == Unread(y, p)[i + 1] && OwnedBy(y, Unread(y, p)[i + 1], p);
      } else {
        assert Unread(z, p) == Unread(y, p) && OwnedBy(y, Unread(y, p)[i], p);
      }
    }
  }

  /** What every consumption starts from. */
  lemma Reads(y: Sys, z: Sys, pid: Pid, m: Wire)
    requires Consistent(y) && y.life.Up? && Takes1(y, z, pid, m)
    ensures var r := m.request;
            && Takes(y, z, r) && r in y.calls && y.calls[r].pid == pid && z.owner == y.owner && z.life == y.life && z.next == y.next
            && z.calls == y.calls && z.mail == y.mail && z.named == y.named && CtxOf(z) == CtxOf(y) && OwnerOk(z)
            && z.accepted == y.accepted && z.known == y.known && z.roots == y.roots && z.watched == y.watched
            && WiresOf(y, r) != [] && WiresOf(y, r)[0] == m && WiresOf(z, r) == WiresOf(y, r)[1..]
            && CallInv(CtxOf(y), r, y.calls[r], WiresOf(y, r), pid in y.dead)
            && PendingHeld(ViewOf(y.owner)) && Running(y.owner) && Unused(y.owner, y.next) && ViewFresh(ViewOf(y.owner), y.next)
            && (forall o :: Awaits(y.owner, o) ==> o in y.accepted)
            && Backed(ViewOf(y.owner), y.calls, y.watched, y.roots)
            && CtxOf(y).up && CtxOf(y).on && CtxOf(y).v == ViewOf(y.owner)
            && CtxOf(y).next == y.next && CtxOf(y).roots == y.roots && CtxOf(y).accepted == y.accepted && CtxOf(y).mail == y.mail
  {
    Unpack(y);
    TakesHead(y, z, pid, m);
    TakesKeeps(y, z, m.request);
    CallOf(y, m.request);
    PendingsHeld(y);
  }

  lemma FinishCall(y: Sys, z: Sys, w: Sys, m: Message, pid: Pid, r: Ref)
    requires Handling(z, m, pid, w) && WiresOwned(z) && r in z.calls
    requires CallInv(CtxOf(w), r, z.calls[r], WiresOf(z, r), z.calls[r].pid in z.dead)
    ensures r in w.calls && CallOk(w, r)
  {
    HandledWires(z, m, pid, w);
    hide CallInv, Handling, WiresOf, CtxOf;
  }

  // ---- messages that decide nothing --------------------------------------------------------

  lemma PlainReady(y: Sys, z: Sys, pid: Pid, wire: Wire, m: Message)
    requires Consistent(y) && y.life.Up? && Takes1(y, z, pid, wire) && !Deciding(m) && Admissible(y.owner, m, y.next)
    ensures var w := Handled(z, m, pid);
            && Handling(z, m, pid, w) && OwnerOk(w)
            && Grows(CtxOf(y), CtxOf(w)) && NoAnswer(CtxOf(y), CtxOf(w), wire.request)
            && CtxOf(w).v == Expected(y.owner, m, y.next) && CtxOf(w).accepted == CtxOf(y).accepted && CtxOf(w).roots == CtxOf(y).roots
            && Backed(ViewOf(w.owner), w.calls, w.watched, w.roots)
  {
    assert !m.CommitMsg?;
    hide *;
    var w := Handled(z, m, pid);
    Reads(y, z, pid, wire);
    HandlesMessage(z, m, pid);
    NamedSame(CtxOf(y), z);
    GrowsBy(CtxOf(y), z, m, pid, w);
    NoAnswerBy(CtxOf(y), z, m, pid, w, wire.request);
    HandledBacked(z, m, pid, w);
  }

  lemma NamedSame(x: Ctx, z: Sys)
    requires CtxOf(z) == x
    ensures x == CtxOf(z).(named := x.named) && x.named <= z.named
  {
  }

  lemma PlainDone(y: Sys, z: Sys, pid: Pid, wire: Wire, m: Message, mine: set<Ref>)
    requires Consistent(y) && y.life.Up? && Takes1(y, z, pid, wire) && !Deciding(m) && Admissible(y.owner, m, y.next)
    requires ViewStep(ViewOf(y.owner), Expected(y.owner, m, y.next), y.named, y.known.Keys, y.next, wire.request, mine)
    requires mine !! y.roots && forall o :: o in y.calls && o != wire.request && y.calls[o].kind.Retaining? ==> y.calls[o].kind.child !in mine
    requires wire.request in y.calls
    requires CallInv(CtxOf(Handled(z, m, pid)), wire.request, y.calls[wire.request], WiresOf(y, wire.request)[1..], pid in y.dead)
    ensures Consistent(Handled(z, m, pid))
  {
    assert !m.CommitMsg? && z.dead == y.dead;
    hide *;
    var w := Handled(z, m, pid);
    Reads(y, z, pid, wire);
    PlainReady(y, z, pid, wire, m);
    TakesOwned(y, z, wire.request);
    FinishCall(y, z, w, m, pid, wire.request);
    Concludes(y, z, m, pid, w, wire.request, mine);
  }

  /** A call's own messages fit its kind. */
  lemma WireKind(x: Ctx, r: Ref, q: Call, ws: seq<Wire>, gone: bool)
    requires CallInv(x, r, q, ws, gone) && ws != []
    ensures ws[0].request == r
    ensures (ws[0].AskReserve? || ws[0].SendCommit? || ws[0].DropReservation? || ws[0].ConfirmToken? || ws[0].DropIssue?) ==> q.kind.Issuing?
    ensures ws[0].AskReserve? ==> ws[0] == AskReserve(r, ws[0].metadata)
    ensures (ws[0].AskRetain? || ws[0].ConfirmChild? || ws[0].DropChild?) ==>
              q.kind.Retaining? && ws[0].token == q.kind.token && ws[0].child == q.kind.child
    ensures ws[0].AskRetain? ==> ws[0].parent == q.kind.parent
    ensures ws[0].ConfirmToken? ==> q.phase.Leased? && q.phase.token == ws[0].token
  {
  }

  /** A message that asks for nothing is always admissible, and steps the view as the protocol says. */
  lemma PlainAdmissible(s: Owner, m: Message, supply: Ref)
    requires Unused(s, supply) && !Deciding(m) && !m.DrainMsg?
    ensures Admissible(s, m, supply)
  {
    hide Unused;
  }

  lemma PlainExpected(s: Owner, t: Ref, c: Ref, r: Ref, supply: Ref)
    ensures Expected(s, CancelReservationMsg(r), supply) == ViewOf(s).(reservations := ViewOf(s).reservations - {r})
    ensures Expected(s, ConfirmIssueMsg(t, r), supply) == ExpectedConfirmIssue(ViewOf(s), t, r)
    ensures Expected(s, ConfirmRetainMsg(t, c, r), supply) == ExpectedConfirmRetain(ViewOf(s), t, c, r)
    ensures !Deciding(CancelReservationMsg(r)) && !Deciding(ConfirmIssueMsg(t, r)) && !Deciding(ConfirmRetainMsg(t, c, r))
    ensures !Deciding(CancelIssueMsg(r)) && !Deciding(CancelRetainMsg(t, c))
  {
    hide ViewOf, ExpectedConfirmIssue, ExpectedConfirmRetain;
  }

  lemma ConsumeDropReservation(y: Sys, z: Sys, pid: Pid, wire: Wire)
    requires Consistent(y) && y.life.Up? && Takes1(y, z, pid, wire) && wire.DropReservation?
    ensures Consistent(Handled(z, CancelReservationMsg(wire.request), pid))
  {
    hide *;
    var r, m := wire.request, CancelReservationMsg(wire.request);
    var w := Handled(z, m, pid);
    Reads(y, z, pid, wire);
    WireKind(CtxOf(y), r, y.calls[r], WiresOf(y, r), pid in y.dead);
    PlainExpected(y.owner, 0, 0, r, y.next);
    PlainAdmissible(y.owner, m, y.next);
    PlainReady(y, z, pid, wire, m);
    OwnDropReservation(CtxOf(y), CtxOf(w), r, y.calls[r], WiresOf(y, r), pid in y.dead);
    SameViewStep(ViewOf(y.owner), CtxOf(w).v, y.named, y.known.Keys, y.next, r, {});
    NoMine(y);
    PlainDone(y, z, pid, wire, m, {});
  }

  /** At most one entry awaits a call's confirmation. */
  lemma OnePending(s: Owner, r: Ref)
    requires Running(s)
    ensures forall t :: Pends(ViewOf(s), t, r) ==> r in s.pendingIssues && s.pendingIssues[r] == t
  {
    RunningMonitors(s);
    hide Running;
    forall t | Pends(ViewOf(s), t, r) ensures r in s.pendingIssues && s.pendingIssues[r] == t {
      assert AwaitsConfirm(s, r, t) && Indexed(s, r, t);
    }
  }

  lemma ConsumeConfirmToken(y: Sys, z: Sys, pid: Pid, wire: Wire)
    requires Consistent(y) && y.life.Up? && Takes1(y, z, pid, wire) && wire.ConfirmToken?
    ensures Consistent(Handled(z, ConfirmIssueMsg(wire.token, wire.request), pid))
  {
    hide *;
    var r, m := wire.request, ConfirmIssueMsg(wire.token, wire.request);
    var w := Handled(z, m, pid);
    Reads(y, z, pid, wire);
    WireKind(CtxOf(y), r, y.calls[r], WiresOf(y, r), pid in y.dead);
    PlainExpected(y.owner, wire.token, 0, r, y.next);
    PlainAdmissible(y.owner, m, y.next);
    PlainReady(y, z, pid, wire, m);
    OwnConfirmToken(CtxOf(y), CtxOf(w), r, y.calls[r], WiresOf(y, r), pid in y.dead, wire.token);
    ConfirmSteps(ViewOf(y.owner), wire.token, 0, y.named, y.known.Keys, y.next, r, {});
    NoMine(y);
    PlainDone(y, z, pid, wire, m, {});
  }

  lemma ConsumeConfirmChild(y: Sys, z: Sys, pid: Pid, wire: Wire)
    requires Consistent(y) && y.life.Up? && Takes1(y, z, pid, wire) && wire.ConfirmChild?
    ensures Consistent(Handled(z, ConfirmRetainMsg(wire.token, wire.child, wire.request), pid))
  {
    hide *;
    var r, m := wire.request, ConfirmRetainMsg(wire.token, wire.child, wire.request);
    var w := Handled(z, m, pid);
    Reads(y, z, pid, wire);
    WireKind(CtxOf(y), r, y.calls[r], WiresOf(y, r), pid in y.dead);
    PlainExpected(y.owner, wire.token, wire.child, r, y.next);
    PlainAdmissible(y.owner, m, y.next);
    PlainReady(y, z, pid, wire, m);
    OwnConfirmChild(CtxOf(y), CtxOf(w), r, y.calls[r], WiresOf(y, r), pid in y.dead);
    ConfirmSteps(ViewOf(y.owner), wire.token, wire.child, y.named, y.known.Keys, y.next, r, {});
    NoMine(y);
    PlainDone(y, z, pid, wire, m, {});
  }

  /** A child is never the root of its token, so the cancellation reaches it. */
  lemma ChildNotRoot(y: Sys, t: Ref, c: Ref)
    requires Backed(ViewOf(y.owner), y.calls, y.watched, y.roots) && c !in y.roots
    ensures Expected(y.owner, CancelRetainMsg(t, c), y.next) == Leave(ViewOf(y.owner), t, c)
  {
  }

  lemma ChildIsNew(x: Ctx, r: Ref, q: Call, ws: seq<Wire>, gone: bool)
    requires CallInv(x, r, q, ws, gone) && q.kind.Retaining?
    ensures q.kind.child == r + 1 && q.kind.child !in x.roots && q.kind.token in x.known
  {
  }

  /** Children of different calls differ. */
  lemma OthersChildren(y: Sys, r: Ref, c: Ref)
    requires CallsOk(y) && c == r + 1
    ensures forall o :: o in y.calls && o != r && y.calls[o].kind.Retaining? ==> y.calls[o].kind.child !in {c}
  {
    forall o | o in y.calls && o != r && y.calls[o].kind.Retaining? ensures y.calls[o].kind.child != c { assert CallOk(y, o); }
  }

  lemma MineApart(y: Sys, r: Ref, c: Ref)
    requires Consistent(y) && c == r + 1 && c !in y.roots
    ensures {c} !! y.roots && forall o :: o in y.calls && o != r && y.calls[o].kind.Retaining? ==> y.calls[o].kind.child !in {c}
  {
    Unpack(y);
    hide Consistent;
    OthersChildren(y, r, c);
    hide CallsOk;
  }

  lemma ConsumeDropChild(y: Sys, z: Sys, pid: Pid, wire: Wire)
    requires Consistent(y) && y.life.Up? && Takes1(y, z, pid, wire) && wire.DropChild?
    ensures Consistent(Handled(z, CancelRetainMsg(wire.token, wire.child), pid))
  {
    hide *;
    var r, m := wire.request, CancelRetainMsg(wire.token, wire.child);
    var w := Handled(z, m, pid);
    Reads(y, z, pid, wire);
    WireKind(CtxOf(y), r, y.calls[r], WiresOf(y, r), pid in y.dead);
    ChildIsNew(CtxOf(y), r, y.calls[r], WiresOf(y, r), pid in y.dead);
    PlainExpected(y.owner, wire.token, wire.child, r, y.next);
    PlainAdmissible(y.owner, m, y.next);
    PlainReady(y, z, pid, wire, m);
    ChildNotRoot(y, wire.token, wire.child);
    OwnDropChild(CtxOf(y), CtxOf(w), r, y.calls[r], WiresOf(y, r), pid in y.dead);
    LeaveStep(ViewOf(y.owner), wire.token, wire.child, y.named, y.known.Keys, y.next, r, {wire.child});
    MineApart(y, r, wire.child);
    PlainDone(y, z, pid, wire, m, {wire.child});
  }

  /** A token an `issue` returned awaits, if anything, that call's confirmation. */
  lemma KnownPending(y: Sys, t: Ref, r: Ref)
    requires CallsOk(y) && HistoryOk(y) && On(y) && t in y.known && Pends(ViewOf(y.owner), t, r)
    ensures r == y.known[t] && r in y.calls && y.calls[r].phase.Leased? && WiresOf(y, r) == [ConfirmToken(r, t)]
  {
    assert LeasedBy(y, t);
    var k := y.known[t];
    assert CallOk(y, k);
    assert CtxOf(y).on && CtxOf(y).v == ViewOf(y.owner);
    hide CallsOk, HistoryOk, CtxOf, ViewOf;
    LeasedPending(CtxOf(y), k, y.calls[k], WiresOf(y, k), y.calls[k].pid in y.dead, r);
  }

  lemma LeasedPending(x: Ctx, k: Ref, q: Call, ws: seq<Wire>, gone: bool, r: Ref)
    requires CallInv(x, k, q, ws, gone) && q.kind.Issuing? && q.phase.Leased? && x.on && Pends(x.v, q.phase.token, r)
    ensures r == k && ws == [ConfirmToken(k, q.phase.token)]
  {
  }

  /** After a cancelled issue nothing awaits its confirmation. */
  lemma CancelledNotPending(s: Owner, r: Ref, supply: Ref)
    requires Running(s)
    ensures forall t :: !Pends(Expected(s, CancelIssueMsg(r), supply), t, r)
    ensures Expected(s, CancelIssueMsg(r), supply).reservations == ViewOf(s).reservations
  {
    hide *;
    OnePending(s, r);
    CancelExpected(s, r, supply);
    if r in s.pendingIssues { AllLeft(ViewOf(s), s.pendingIssues[r], r); }
  }

  lemma CancelExpected(s: Owner, r: Ref, supply: Ref)
    ensures Expected(s, CancelIssueMsg(r), supply) == if r in s.pendingIssues then LeaveAll(ViewOf(s), s.pendingIssues[r]) else ViewOf(s)
  {
    hide ViewOf, LeaveAll;
  }

  /** An entry everybody left awaits no confirmation. */
  lemma AllLeft(v: View, t: Ref, r: Ref)
    ensures forall u :: Pends(LeaveAll(v, t), u, r) ==> u != t && Pends(v, u, r)
    ensures LeaveAll(v, t).reservations == v.reservations
  {
  }

  lemma CancelIssueStep(y: Sys, r: Ref)
    requires CallsOk(y) && HistoryOk(y) && y.life.Up? && Running(y.owner) && r in y.calls && WiresOf(y, r) != [] && WiresOf(y, r)[0].DropIssue?
    ensures ViewStep(ViewOf(y.owner), Expected(y.owner, CancelIssueMsg(r), y.next), y.named, y.known.Keys, y.next, r, {})
  {
    var s, v := y.owner, ViewOf(y.owner);
    assert On(y);
    if r in s.pendingIssues {
      var t := s.pendingIssues[r];
      assert Expected(s, CancelIssueMsg(r), y.next) == LeaveAll(v, t);
      hide *;
      IndexedPends(s, r);
      if t in y.known { KnownPending(y, t, r); }
      LeaveAllStep(v, t, y.named, y.known.Keys, y.next, r);
    } else {
      assert Expected(s, CancelIssueMsg(r), y.next) == v;
      hide *;
      SameViewStep(v, v, y.named, y.known.Keys, y.next, r, {});
    }
  }

  lemma IndexedPends(s: Owner, r: Ref)
    requires Running(s) && r in s.pendingIssues
    ensures Pends(ViewOf(s), s.pendingIssues[r], r)
  {
    RunningMonitors(s);
    hide Running;
    assert Indexed(s, r, s.pendingIssues[r]) && AwaitsConfirm(s, r, s.pendingIssues[r]);
  }

  lemma ConsumeDropIssue(y: Sys, z: Sys, pid: Pid, wire: Wire)
    requires Consistent(y) && y.life.Up? && Takes1(y, z, pid, wire) && wire.DropIssue?
    ensures Consistent(Handled(z, CancelIssueMsg(wire.request), pid))
  {
    hide *;
    var r, m := wire.request, CancelIssueMsg(wire.request);
    var w := Handled(z, m, pid);
    Reads(y, z, pid, wire);
    Unpack(y);
    WireKind(CtxOf(y), r, y.calls[r], WiresOf(y, r), pid in y.dead);
    CancelIssueStep(y, r);
    PlainExpected(y.owner, 0, 0, r, y.next);
    PlainAdmissible(y.owner, m, y.next);
    PlainReady(y, z, pid, wire, m);
    CancelledNotPending(y.owner, r, y.next);
    OwnDropIssue(CtxOf(y), CtxOf(w), r, y.calls[r], WiresOf(y, r), pid in y.dead);
    NoMine(y);
    PlainDone(y, z, pid, wire, m, {});
  }
}
