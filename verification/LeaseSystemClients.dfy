/** Client actions, deaths and the owner being killed keep the system invariant. */
module LeaseSystemClients {
  import opened Common
  import opened LeaseModel
  import opened LeaseInvariant
  import opened LeaseHandlers
  import opened LeaseRefinement
  import opened LeaseResults
  import opened LeaseReplies
  import opened LeaseRejections
  import opened LeaseSystem
  import opened LeaseSystemInvariant
  import opened LeaseSystemOwner
  import opened LeaseSystemSteps

  // ---- what each action does to its own call -----------------------------------------------

  lemma ReservedMoves(x: Ctx, r: Ref, q: Call, ws: seq<Wire>, reserved: Reply<Ref>)
    requires CallInv(x, r, q, ws, false) && q.phase.AwaitReservation? && ReservedReply(r, reserved) in x.mail
    ensures q.kind.Issuing? && ws == []
    ensures reserved.Accepted? ==>
              CallInv(x, r, q.(phase := AwaitIssue(reserved.value)), [SendCommit(r, reserved.value, q.kind.backend)], false)
    ensures reserved.Refused? ==> CallInv(x, r, q.(phase := CallerOwned), [], false)
  {
  }

  lemma ReservationGivenUp(x: Ctx, r: Ref, q: Call, ws: seq<Wire>)
    requires CallInv(x, r, q, ws, false) && q.phase.AwaitReservation?
    ensures CallInv(x, r, q.(phase := CallerOwned), ws + [DropReservation(r)], false)
  {
  }

  lemma IssuedMoves(x: Ctx, r: Ref, q: Call, ws: seq<Wire>, issued: Reply<(Ref, Ref)>)
    requires CallInv(x, r, q, ws, false) && q.phase.AwaitIssue? && IssuedReply(r, issued) in x.mail
    ensures q.kind.Issuing?
    ensures issued.Accepted? ==>
              ws == [] && CallInv(x, r, q.(phase := Leased(issued.value.0, issued.value.1)), [ConfirmToken(r, issued.value.0)], false)
    ensures issued.Refused? ==> CallInv(x, r, q.(phase := Rejected), ws, false)
  {
  }

  lemma IssueGivenUp(x: Ctx, r: Ref, q: Call, ws: seq<Wire>)
    requires CallInv(x, r, q, ws, false) && q.phase.AwaitIssue?
    ensures CallInv(x, r, q.(phase := Transferred(q.phase.reservation)), ws + [DropIssue(r)], false)
  {
  }

  lemma RetainedMoves(x: Ctx, r: Ref, q: Call, ws: seq<Wire>, retained: Reply<Ref>)
    requires CallInv(x, r, q, ws, false) && q.phase.AwaitRetain? && RetainedReply(r, retained) in x.mail
    requires x.on ==> PendingHeld(x.v)
    ensures q.kind.Retaining? && ws == []
    ensures retained.Refused? ==> CallInv(x, r, q.(phase := Lost), [], false)
    ensures retained.Accepted? ==> CallInv(x, r, q.(phase := Kept), [ConfirmChild(r, q.kind.token, q.kind.child)], false)
    ensures retained.Accepted? ==> CallInv(x, r, q.(phase := Lost), [DropChild(r, q.kind.token, q.kind.child)], false)
  {
  }

  lemma RetainGivenUp(x: Ctx, r: Ref, q: Call, ws: seq<Wire>)
    requires CallInv(x, r, q, ws, false) && q.phase.AwaitRetain?
    ensures q.kind.Retaining? && CallInv(x, r, q.(phase := Lost), ws + [DropChild(r, q.kind.token, q.kind.child)], false)
  {
  }

  // ---- lifted to the system ----------------------------------------------------------------

  lemma PendingsHeld(y: Sys)
    requires OwnerOk(y) && On(y)
    ensures PendingHeld(ViewOf(y.owner))
  {
    if y.life.Up? {
      RunningEntries(y.owner);
      hide Running, Unused, ViewFresh;
      forall t | t in y.owner.leases ensures y.owner.leases[t].pendingRetains.Keys <= y.owner.leases[t].holders {
        assert EntryShape(y.owner.leases[t]);
      }
    }
  }

  /** `w` is `y` after call `r` moved on and sent `sent`, which is nothing or one message. */
  ghost predicate Moves(y: Sys, w: Sys, r: Ref, sent: seq<Wire>) {
    && r in y.calls && r in w.calls && !y.calls[r].phase.Leased?
    && w.calls == y.calls[r := y.calls[r].(phase := w.calls[r].phase)]
    && (|| (sent == [] && w.out == y.out)
        || (|sent| == 1 && sent[0].request == r && w.out == Send(y, y.calls[r].pid, sent[0]).out))
    && w == y.(calls := w.calls, out := w.out, known := w.known) && y.known.Keys <= w.known.Keys
  }

  lemma MovesWires(y: Sys, w: Sys, r: Ref, sent: seq<Wire>)
    requires Moves(y, w, r, sent)
    ensures WiresOf(w, r) == WiresOf(y, r) + sent
    ensures ClientMoves(y, w, r)
  {
    if sent == [] {
      assert WiresOf(w, r) == WiresOf(y, r);
    } else {
      SendWires(y, y.calls[r].pid, sent[0], r);
      assert SendsOnly(y, w, w.calls[r].pid, sent[0]);
      assert Unread(w, w.calls[r].pid) == Unread(Send(y, y.calls[r].pid, sent[0]), y.calls[r].pid);
    }
  }

  lemma Moved(y: Sys, w: Sys, r: Ref, sent: seq<Wire>)
    requires Consistent(y) && Moves(y, w, r, sent)
    requires forall t :: t in w.known && (t !in y.known || w.known[t] != y.known[t]) ==> LeasedBy(w, t)
    requires CallInv(CtxOf(w), r, w.calls[r], WiresOf(y, r) + sent, y.calls[r].pid in y.dead)
    ensures Consistent(w)
  {
    MovesWires(y, w, r, sent);
    MovedPid(y, w, r, sent);
    hide CallInv, WiresOf, CtxOf, ClientMoves, Moves, Consistent, LeasedBy;
    assert CallOk(w, r);
    hide *;
    ClientStep(y, w, r);
  }

  lemma MovedPid(y: Sys, w: Sys, r: Ref, sent: seq<Wire>)
    requires Moves(y, w, r, sent)
    ensures w.calls[r].pid == y.calls[r].pid && w.dead == y.dead
  {
  }

  lemma CallOf(y: Sys, r: Ref)
    requires Consistent(y) && r in y.calls
    ensures CallInv(CtxOf(y), r, y.calls[r], WiresOf(y, r), y.calls[r].pid in y.dead)
    ensures On(y) ==> PendingHeld(CtxOf(y).v)
  {
    assert CallOk(y, r);
    if On(y) { PendingsHeld(y); }
  }

  lemma KnownCtx(y: Sys, w: Sys)
    requires w == y.(calls := w.calls, out := w.out, known := w.known)
    ensures CtxOf(w) == CtxOf(y).(known := w.known.Keys)
  {
  }

  lemma MoreKnown(x: Ctx, w: Ctx, r: Ref, q: Call, ws: seq<Wire>, gone: bool)
    requires CallInv(x, r, q, ws, gone) && w == x.(known := w.known) && x.known <= w.known
    ensures CallInv(w, r, q, ws, gone)
  {
  }

  /** `y` after call `r` reached `phase` and sent `sent`. */
  ghost function Posted(y: Sys, r: Ref, phase: Phase, sent: seq<Wire>): Sys
    requires r in y.calls && |sent| <= 1
  {
    if sent == [] then Move(y, r, phase) else Send(Move(y, r, phase), y.calls[r].pid, sent[0])
  }

  lemma PostedMoves(y: Sys, r: Ref, phase: Phase, sent: seq<Wire>)
    requires r in y.calls && |sent| <= 1 && !y.calls[r].phase.Leased? && (sent != [] ==> sent[0].request == r)
    ensures var w := Posted(y, r, phase, sent);
            && Moves(y, w, r, sent) && w.calls[r] == y.calls[r].(phase := phase)
            && w == y.(calls := w.calls, out := w.out) && w.known == y.known
  {
  }

  lemma Settles(y: Sys, r: Ref, phase: Phase, sent: seq<Wire>)
    requires Consistent(y) && r in y.calls && !y.calls[r].phase.Leased? && |sent| <= 1 && (sent != [] ==> sent[0].request == r)
    requires CallInv(CtxOf(y), r, y.calls[r].(phase := phase), WiresOf(y, r) + sent, y.calls[r].pid in y.dead)
    ensures Consistent(Posted(y, r, phase, sent))
  {
    var w := Posted(y, r, phase, sent);
    PostedMoves(y, r, phase, sent);
    hide Consistent, CtxOf, CallInv, WiresOf, Moves, Posted, LeasedBy;
    KnownCtx(y, w);
    SameKnown(y, w);
    Moved(y, w, r, sent);
  }

  lemma SameKnown(y: Sys, w: Sys)
    requires w.known == y.known
    ensures CtxOf(y).(known := w.known.Keys) == CtxOf(y)
  {
  }

  lemma ReservedKeeps(y: Sys, r: Ref, reserved: Reply<Ref>)
    requires Consistent(y) && Enabled(y, GetReserved(r, reserved))
    ensures Consistent(Next(y, GetReserved(r, reserved)))
  {
    CallOf(y, r);
    var q, ws := y.calls[r], WiresOf(y, r);
    ReservedMoves(CtxOf(y), r, q, ws, reserved);
    var phase := if reserved.Accepted? then AwaitIssue(reserved.value) else CallerOwned;
    var sent := if reserved.Accepted? then [SendCommit(r, reserved.value, q.kind.backend)] else [];
    assert ws + sent == sent;
    assert Next(y, GetReserved(r, reserved)) == Posted(y, r, phase, sent);
    hide *;
    Settles(y, r, phase, sent);
  }

  lemma GiveUpReservationKeeps(y: Sys, r: Ref)
    requires Consistent(y) && Enabled(y, GiveUpReservation(r))
    ensures Consistent(Next(y, GiveUpReservation(r)))
  {
    CallOf(y, r);
    ReservationGivenUp(CtxOf(y), r, y.calls[r], WiresOf(y, r));
    hide Consistent, CtxOf, CallInv, WiresOf, Unread;
    Settles(y, r, CallerOwned, [DropReservation(r)]);
  }

  lemma GiveUpIssueKeeps(y: Sys, r: Ref)
    requires Consistent(y) && Enabled(y, GiveUpIssue(r))
    ensures Consistent(Next(y, GiveUpIssue(r)))
  {
    CallOf(y, r);
    IssueGivenUp(CtxOf(y), r, y.calls[r], WiresOf(y, r));
    hide Consistent, CtxOf, CallInv, WiresOf, Unread;
    Settles(y, r, Transferred(y.calls[r].phase.reservation), [DropIssue(r)]);
  }

  lemma IssueRefusedKeeps(y: Sys, r: Ref, reason: Reason)
    requires Consistent(y) && Enabled(y, GetIssued(r, Refused(reason)))
    ensures Consistent(Next(y, GetIssued(r, Refused(reason))))
  {
    hide *;
    Issued(y, r, Refused(reason));
    CallOf(y, r);
    var ws := WiresOf(y, r);
    IssuedMoves(CtxOf(y), r, y.calls[r], ws, Refused(reason));
    assert ws + [] == ws;
    Settles(y, r, Rejected, []);
    RefusedShape(y, r, reason);
  }

  lemma Issued(y: Sys, r: Ref, issued: Reply<(Ref, Ref)>)
    requires Enabled(y, GetIssued(r, issued))
    ensures r in y.calls && y.calls[r].phase.AwaitIssue? && y.calls[r].pid !in y.dead && IssuedReply(r, issued) in CtxOf(y).mail
  {
    hide Unread;
  }

  lemma RefusedShape(y: Sys, r: Ref, reason: Reason)
    requires Enabled(y, GetIssued(r, Refused(reason))) && r in y.calls
    ensures Next(y, GetIssued(r, Refused(reason))) == Posted(y, r, Rejected, [])
  {
    hide Unread, Enabled;
  }

  lemma LeasedShape(y: Sys, r: Ref, t: Ref, h: Ref)
    requires Enabled(y, GetIssued(r, Accepted((t, h)))) && r in y.calls && y.calls[r].kind.Issuing?
    ensures var w, sent := Next(y, GetIssued(r, Accepted((t, h)))), [ConfirmToken(r, t)];
            && Moves(y, w, r, sent) && w.calls[r] == y.calls[r].(phase := Leased(t, h)) && w.known == y.known[t := r]
            && w == y.(calls := w.calls, out := w.out, known := w.known) && r in w.calls && LeasedBy(w, t)
  {
    var w := Next(y, GetIssued(r, Accepted((t, h))));
    assert w.calls == y.calls[r := y.calls[r].(phase := w.calls[r].phase)];
  }

  /** The token becomes known with the call that returned it. */
  lemma LeasedKeeps(y: Sys, r: Ref, t: Ref, h: Ref)
    requires Consistent(y) && Enabled(y, GetIssued(r, Accepted((t, h))))
    ensures Consistent(Next(y, GetIssued(r, Accepted((t, h)))))
  {
    hide *;
    Issued(y, r, Accepted((t, h)));
    CallOf(y, r);
    var ws, sent := WiresOf(y, r), [ConfirmToken(r, t)];
    IssuedMoves(CtxOf(y), r, y.calls[r], ws, Accepted((t, h)));
    LeasedShape(y, r, t, h);
    var w := Next(y, GetIssued(r, Accepted((t, h))));
    assert ws + sent == sent;
    KnownCtx(y, w);
    CtxKnown(y);
    MoreKnown(CtxOf(y), CtxOf(w), r, w.calls[r], sent, y.calls[r].pid in y.dead);
    Moved(y, w, r, sent);
  }

  lemma CtxKnown(y: Sys)
    ensures CtxOf(y).known == y.known.Keys
  {
  }

  lemma Retained(y: Sys, r: Ref, retained: Reply<Ref>, validGuard: bool)
    requires Enabled(y, GetRetained(r, retained, validGuard))
    ensures r in y.calls && y.calls[r].phase.AwaitRetain? && y.calls[r].pid !in y.dead && RetainedReply(r, retained) in CtxOf(y).mail
    ensures CtxOf(y).on == On(y)
  {
    hide Unread;
  }

  lemma RetainedShape(y: Sys, r: Ref, retained: Reply<Ref>, validGuard: bool, phase: Phase, sent: seq<Wire>)
    requires Enabled(y, GetRetained(r, retained, validGuard)) && r in y.calls && y.calls[r].kind.Retaining?
    requires var k := y.calls[r].kind;
             && phase == (if retained.Accepted? && validGuard then Kept else Lost)
             && sent == if retained.Refused? then []
                        else if validGuard then [ConfirmChild(r, k.token, k.child)] else [DropChild(r, k.token, k.child)]
    ensures Next(y, GetRetained(r, retained, validGuard)) == Posted(y, r, phase, sent)
  {
    hide Enabled;
  }

  lemma RetainedKeeps(y: Sys, r: Ref, retained: Reply<Ref>, validGuard: bool)
    requires Consistent(y) && Enabled(y, GetRetained(r, retained, validGuard))
    ensures Consistent(Next(y, GetRetained(r, retained, validGuard)))
  {
    hide *;
    Retained(y, r, retained, validGuard);
    CallOf(y, r);
    var q, ws := y.calls[r], WiresOf(y, r);
    RetainedMoves(CtxOf(y), r, q, ws, retained);
    var phase := if retained.Accepted? && validGuard then Kept else Lost;
    var sent := if retained.Refused? then []
                else if validGuard then [ConfirmChild(r, q.kind.token, q.kind.child)] else [DropChild(r, q.kind.token, q.kind.child)];
    assert ws + sent == sent;
    RetainedShape(y, r, retained, validGuard, phase, sent);
    Settles(y, r, phase, sent);
  }

  lemma GiveUpRetainKeeps(y: Sys, r: Ref)
    requires Consistent(y) && Enabled(y, GiveUpRetain(r))
    ensures Consistent(Next(y, GiveUpRetain(r)))
  {
    CallOf(y, r);
    var q := y.calls[r];
    RetainGivenUp(CtxOf(y), r, q, WiresOf(y, r));
    var sent := [DropChild(r, q.kind.token, q.kind.child)];
    assert Next(y, GiveUpRetain(r)) == Posted(y, r, Lost, sent);
    hide *;
    Settles(y, r, Lost, sent);
  }

  // ---- the owner goes away -----------------------------------------------------------------

  function WhenGone(q: Call): Phase {
    match q.phase
    case AwaitReservation => CallerOwned
    case AwaitIssue(reservation) => Transferred(reservation)
    case _ => Lost
  }

  lemma GoneMoves(x: Ctx, r: Ref, q: Call, ws: seq<Wire>)
    requires CallInv(x, r, q, ws, false) && !x.up && (q.phase.AwaitReservation? || q.phase.AwaitIssue? || q.phase.AwaitRetain?)
    requires x.on ==> x.v.claims == map[] && x.v.reservations == map[]
    ensures CallInv(x, r, q.(phase := WhenGone(q)), ws, false)
  {
    assert x.on ==> forall t, o :: !Pends(x.v, t, o);
  }

  lemma StoppedView(y: Sys)
    requires OwnerOk(y) && y.life.Stopped?
    ensures CtxOf(y).v.claims == map[] && CtxOf(y).v.reservations == map[]
  {
  }

  lemma GoneShape(y: Sys, r: Ref)
    requires Consistent(y) && Enabled(y, OwnerGone(r))
    ensures r in y.calls && y.calls[r].pid !in y.dead && !CtxOf(y).up
    ensures y.calls[r].phase.AwaitReservation? || y.calls[r].phase.AwaitIssue? || y.calls[r].phase.AwaitRetain?
    ensures CtxOf(y).on ==> CtxOf(y).v.claims == map[] && CtxOf(y).v.reservations == map[]
    ensures Next(y, OwnerGone(r)) == Posted(y, r, WhenGone(y.calls[r]), [])
  {
    hide CallsOk, WiresOwned, MailOk, HistoryOk, Balanced, Backed, OwnerOk, Unread;
    if y.life.Stopped? { StoppedView(y); }
  }

  lemma OwnerGoneKeeps(y: Sys, r: Ref)
    requires Consistent(y) && Enabled(y, OwnerGone(r))
    ensures Consistent(Next(y, OwnerGone(r)))
  {
    hide *;
    GoneShape(y, r);
    CallOf(y, r);
    var q, ws := y.calls[r], WiresOf(y, r);
    GoneMoves(CtxOf(y), r, q, ws);
    assert ws + [] == ws;
    Settles(y, r, WhenGone(q), []);
  }

  /** Nothing happens to any call when the owner dies: only the claims about its tables are dropped. */
  lemma KillKeeps(y: Sys)
    requires Consistent(y) && y.life.Up?
    ensures Consistent(y.(life := Killed))
  {
    var w := y.(life := Killed);
    Unpack(y);
    NextUncalled(y);
    KilledTables(y, w);
    NoMine(y);
    hide *;
    CallsStay(y, w, y.next, {});
    Pack(w);
  }

  lemma KilledTables(y: Sys, w: Sys)
    requires w == y.(life := Killed) && y.life.Up? && OwnerOk(y) && HistoryOk(y) && WiresOwned(y) && MailOk(y) && Balanced(y)
    ensures Affects(CtxOf(y), CtxOf(w), y.next, {})
    ensures w.calls == y.calls && forall o :: o in w.calls ==> SameCall(y, w, o)
    ensures HistoryOk(w) && WiresOwned(w) && MailOk(w) && OwnerOk(w) && Balanced(w) && !On(w)
  {
    SameHistory(y, w);
    SameOut(y, w);
    assert CtxOf(w) == CtxOf(y).(up := false, on := false);
    assert CtxOf(y).rejecting <= CtxOf(y).accepted;
    hide CtxOf, HistoryOk, WiresOwned;
    IdleAffects(CtxOf(y), CtxOf(w), y.next);
  }

  lemma SameHistory(y: Sys, w: Sys)
    requires HistoryOk(y) && w == y.(life := w.life, dead := w.dead)
    ensures HistoryOk(w)
  {
    forall t | t in w.known ensures LeasedBy(w, t) { assert LeasedBy(y, t); }
  }

  lemma SameOut(y: Sys, w: Sys)
    requires w.out == y.out && w.calls == y.calls
    ensures WiresOwned(y) ==> WiresOwned(w)
    ensures w.dead == y.dead ==> forall o :: o in w.calls ==> SameCall(y, w, o)
  {
    assert forall pid :: Unread(w, pid) == Unread(y, pid);
    assert forall o :: o in w.calls ==> WiresOf(w, o) == WiresOf(y, o);
    assert forall ws: Wire, pid :: OwnedBy(y, ws, pid) ==> OwnedBy(w, ws, pid);
  }

  lemma GoneWeaker(x: Ctx, r: Ref, q: Call, ws: seq<Wire>, gone: bool)
    requires CallInv(x, r, q, ws, gone)
    ensures CallInv(x, r, q, ws, true)
  {
  }

  lemma DieKeeps(y: Sys, pid: Pid)
    requires Consistent(y)
    ensures Consistent(y.(dead := y.dead + {pid}))
  {
    var w := y.(dead := y.dead + {pid});
    Unpack(y);
    SameHistory(y, w);
    SameOut(y, w);
    assert MailOk(w) && OwnerOk(w) && Balanced(w) && ViewOf(w.owner) == ViewOf(y.owner) && On(w) == On(y);
    DeadCalls(y, w);
    hide *;
    Pack(w);
  }

  lemma DeadCalls(y: Sys, w: Sys)
    requires CallsOk(y) && w == y.(dead := w.dead) && y.dead <= w.dead
    ensures CallsOk(w)
  {
    assert CtxOf(w) == CtxOf(y);
    forall r | r in w.calls ensures CallOk(w, r) {
      assert CallOk(y, r) && WiresOf(w, r) == WiresOf(y, r);
      hide CallInv, CtxOf;
      GoneWeaker(CtxOf(y), r, y.calls[r], WiresOf(y, r), y.calls[r].pid in y.dead);
    }
  }

  // ---- new calls ---------------------------------------------------------------------------

  /** Nothing is known about references nobody has used yet. */
  ghost predicate Untouched(x: Ctx, r: Ref, c: Ref) {
    && (forall m :: m in x.mail && (Decides(m) || RejectsIssue(m)) ==> m.request != r)
    && r !in x.accepted
    && (x.on ==> UntouchedView(x.v, r, c))
    && (forall t :: (t, c) !in x.buried)
  }

  ghost predicate UntouchedView(v: View, r: Ref, c: Ref) {
    && r !in v.reservations && (forall t :: !Pends(v, t, r)) && (forall t :: !HeldBy(v, t, c))
    && (forall t, p :: !Unconfirmed(v, t, c, p))
  }

  lemma NewIssue(x: Ctx, r: Ref, pid: Pid, metadata: Term, backend: Term)
    requires Untouched(x, r, r + 1) && r < x.next && x.rejecting <= x.accepted
    ensures CallInv(x, r, Call(pid, Issuing(metadata, backend), AwaitReservation), [AskReserve(r, metadata)], false)
  {
  }

  lemma NewRetain(x: Ctx, r: Ref, pid: Pid, token: Ref, parent: Ref)
    requires Untouched(x, r, r + 1) && r + 1 < x.next && token in x.known && r + 1 !in x.roots
    ensures CallInv(x, r, Call(pid, Retaining(token, parent, r + 1), AwaitRetain), [AskRetain(r, token, parent, r + 1)], false)
  {
  }

  lemma NextUntouched(y: Sys)
    requires Consistent(y)
    ensures y.next !in y.calls && Untouched(CtxOf(y), y.next, y.next + 1) && CtxOf(y).rejecting <= CtxOf(y).accepted
    ensures forall pid :: Of(Unread(y, pid), y.next) == []
    ensures y.next + 1 !in y.roots
  {
    hide *;
    Unpack(y);
    NextUncalled(y);
    if On(y) {
      PendingsHeld(y);
      NextUnheld(y, ViewOf(y.owner), y.next, y.next + 1);
    }
    UntouchedBy(y, y.next, y.next + 1);
  }

  lemma UntouchedBy(y: Sys, r: Ref, c: Ref)
    requires MailOk(y) && HistoryOk(y) && y.next <= r && y.next <= c && r !in y.calls
    requires On(y) ==> UntouchedView(ViewOf(y.owner), r, c)
    ensures Untouched(CtxOf(y), r, c) && CtxOf(y).rejecting <= CtxOf(y).accepted && c !in y.roots
  {
    hide UntouchedView, ViewOf, LeasedBy, Awaits;
  }

  lemma NextUncalled(y: Sys)
    requires CallsOk(y) && WiresOwned(y)
    ensures y.next !in y.calls && forall r :: r in y.calls ==> r < y.next
    ensures forall r :: r in y.calls && y.calls[r].kind.Retaining? ==> y.calls[r].kind.child < y.next
    ensures forall pid :: Of(Unread(y, pid), y.next) == []
  {
    forall r | r in y.calls ensures r < y.next && (y.calls[r].kind.Retaining? ==> y.calls[r].kind.child < y.next) { assert CallOk(y, r); }
    forall pid ensures Of(Unread(y, pid), y.next) == [] { OwnedOf(y, Unread(y, pid), y.next); }
  }

  lemma NextUnheld(y: Sys, v: View, r: Ref, c: Ref)
    requires HistoryOk(y) && Backed(v, y.calls, y.watched, y.roots) && PendingHeld(v) && y.next <= r && y.next <= c
    requires forall o :: o in y.calls ==> o < y.next
    requires forall o :: o in y.calls && y.calls[o].kind.Retaining? ==> y.calls[o].kind.child < y.next
    ensures UntouchedView(v, r, c)
  {
    assert c !in y.roots;
    assert forall t :: HeldBy(v, t, c) ==> IsChild(y.calls, t, c);
  }

  /** A new call changes nothing the others depend on. */
  lemma Starts(y: Sys, later: Ref, q: Call, m: Wire)
    requires Consistent(y) && m.request == y.next && y.next !in y.calls && y.next < later
    requires forall pid :: Of(Unread(y, pid), y.next) == []
    requires CallInv(CtxOf(y).(next := later), y.next, q, [m], false) && q.pid !in y.dead
    ensures Consistent(Send(y.(next := later, calls := y.calls[y.next := q]), q.pid, m))
  {
    var w := Send(y.(next := later, calls := y.calls[y.next := q]), q.pid, m);
    var r := y.next;
    assert SendsOnly(y, w, q.pid, m) && ClientMoves(y, w, r);
    assert WiresOf(w, r) == [m] by {
      OfAppend(Unread(y, q.pid), m, r);
      assert Unread(w, q.pid) == Unread(y, q.pid) + [m];
    }
    assert CtxOf(w) == CtxOf(y).(next := w.next);
    assert w.known == y.known;
    assert CallOk(w, r);
    hide *;
    ClientStep(y, w, r);
  }

  lemma LaterCtx(y: Sys, r: Ref, c: Ref, later: Ref)
    requires Untouched(CtxOf(y), r, c)
    ensures var x := CtxOf(y).(next := later);
            Untouched(x, r, c) && x.known == y.known.Keys && x.roots == y.roots && x.rejecting == CtxOf(y).rejecting && x.accepted == CtxOf(y).accepted
  {
  }

  lemma StartIssueKeeps(y: Sys, pid: Pid, metadata: Term, backend: Term)
    requires Consistent(y) && pid !in y.dead
    ensures Consistent(Next(y, StartIssue(pid, metadata, backend)))
  {
    hide Consistent, CtxOf, CallInv, Untouched, Of, Unread, Send;
    NextUntouched(y);
    LaterCtx(y, y.next, y.next + 1, y.next + 1);
    NewIssue(CtxOf(y).(next := y.next + 1), y.next, pid, metadata, backend);
    Starts(y, y.next + 1, Call(pid, Issuing(metadata, backend), AwaitReservation), AskReserve(y.next, metadata));
  }

  lemma StartRetainKeeps(y: Sys, pid: Pid, token: Ref, parent: Ref)
    requires Consistent(y) && pid !in y.dead && token in y.known
    ensures Consistent(Next(y, StartRetain(pid, token, parent)))
  {
    hide Consistent, CtxOf, CallInv, Untouched, Of, Unread, Send;
    NextUntouched(y);
    LaterCtx(y, y.next, y.next + 1, y.next + 2);
    NewRetain(CtxOf(y).(next := y.next + 2), y.next, pid, token, parent);
    StartRetainShape(y, pid, token, parent);
    hide Next;
    Starts(y, y.next + 2, Call(pid, Retaining(token, parent, y.next + 1), AwaitRetain), AskRetain(y.next, token, parent, y.next + 1));
  }

  lemma StartRetainShape(y: Sys, pid: Pid, token: Ref, parent: Ref)
    requires Enabled(y, StartRetain(pid, token, parent))
    ensures Next(y, StartRetain(pid, token, parent))
            == Send(y.(next := y.next + 2,
                       calls := y.calls[y.next := Call(pid, Retaining(token, parent, y.next + 1), AwaitRetain)]),
                    pid, AskRetain(y.next, token, parent, y.next + 1))
  {
    hide Send;
  }
}
