/** The invariant of owner plus clients, and the proof that every action keeps it. */
module LeaseSystemSteps {
  import opened Common
  import opened LeaseModel
  import opened LeaseInvariant
  import opened LeaseHandlers
  import opened LeaseRefinement
  import opened LeaseResults
  import opened LeaseReplies
  import opened LeaseRejections
  import opened LeaseSystem
  import opened LeaseSystemInvariant
  import opened LeaseSystemOwner

  function WiresOf(y: Sys, r: Ref): seq<Wire>
    requires r in y.calls
  {
    Of(Unread(y, y.calls[r].pid), r)
  }

  ghost predicate CallOk(y: Sys, r: Ref)
    requires r in y.calls
  {
    CallInv(CtxOf(y), r, y.calls[r], WiresOf(y, r), y.calls[r].pid in y.dead)
  }

  ghost predicate CallsOk(y: Sys) { forall r :: r in y.calls ==> CallOk(y, r) }

  /** Every unread message belongs to a call of the process that sent it. */
  ghost predicate WiresOwned(y: Sys) {
    forall pid, i :: 0 <= i < |Unread(y, pid)| ==> OwnedBy(y, Unread(y, pid)[i], pid)
  }

  predicate OwnedBy(y: Sys, w: Wire, pid: Pid) { w.request in y.calls && y.calls[w.request].pid == pid }

  ghost predicate MailOk(y: Sys) { forall m :: m in y.mail && (Decides(m) || RejectsIssue(m)) ==> m.request < y.next }

  predicate LeasedBy(y: Sys, t: Ref) {
    && t in y.known && y.known[t] in y.calls
    && y.calls[y.known[t]].kind.Issuing? && y.calls[y.known[t]].phase.Leased? && y.calls[y.known[t]].phase.token == t
  }

  ghost predicate HistoryOk(y: Sys) {
    && (forall r :: r in y.accepted ==> r in y.calls)
    && (forall r :: Awaits(y.owner, r) ==> r in y.accepted)
    && (forall h :: h in y.roots ==> h < y.next)
    && (forall id :: id in y.owner.tombstones.kinds ==> id.1 < y.next)
    && (forall t :: t in y.known ==> LeasedBy(y, t))
  }

  predicate Watched(watched: map<Ref, Pid>, m: Ref, pid: Pid) { m in watched && watched[m] == pid }

  predicate IssuesFor(calls: map<Ref, Call>, r: Ref, pid: Pid) { r in calls && calls[r].kind.Issuing? && calls[r].pid == pid }

  predicate RetainsFor(calls: map<Ref, Call>, r: Ref, t: Ref, c: Ref) {
    r in calls && calls[r].kind.Retaining? && calls[r].kind.token == t && calls[r].kind.child == c
  }

  /** The holder a retain call made for itself is the reference after its own. */
  predicate IsChild(calls: map<Ref, Call>, t: Ref, h: Ref) { h > 0 && RetainsFor(calls, h - 1, t, h) }

  /** Everything the owner waits for belongs to a call, the owner monitors the process that made it, and
      every holder is a granted root or the child of a retain call. */
  ghost predicate Backed(v: View, calls: map<Ref, Call>, watched: map<Ref, Pid>, roots: set<Ref>) {
    && (forall r :: r in v.reservations ==>
          IssuesFor(calls, r, v.reservations[r].replyTo) && Watched(watched, v.reservations[r].monitor, v.reservations[r].replyTo))
    && (forall t, r :: Pends(v, t, r) ==>
          r in calls && calls[r].kind.Issuing? && Watched(watched, v.claims[t].pendingIssue.value.monitor, calls[r].pid))
    && (forall t, c, p :: Unconfirmed(v, t, c, p) ==>
          RetainsFor(calls, p.request, t, c) && Watched(watched, p.monitor, calls[p.request].pid))
    && (forall t :: t in v.claims && v.claims[t].root.Some? ==> v.claims[t].root.value in roots)
    && (forall t, h :: HeldBy(v, t, h) ==> h in roots || IsChild(calls, t, h))
  }

  ghost predicate Balanced(y: Sys) { |y.accepted| == |y.owner.leases| + Successes(y.owner) }

  ghost predicate On(y: Sys) { y.life.Up? || y.life.Stopped? }

  ghost predicate Consistent(y: Sys) {
    && OwnerOk(y) && CallsOk(y) && WiresOwned(y) && MailOk(y) && HistoryOk(y) && Balanced(y)
    && (On(y) ==> Backed(ViewOf(y.owner), y.calls, y.watched, y.roots))
  }

  // ---- channels ----------------------------------------------------------------------------

  lemma {:induction false} OfAppend(ws: seq<Wire>, w: Wire, r: Ref)
    ensures Of(ws + [w], r) == Of(ws, r) + (if w.request == r then [w] else [])
  {
    if ws == [] {
      assert ws + [w] == [w] && [w][1..] == [];
    } else {
      assert (ws + [w])[0] == ws[0] && (ws + [w])[1..] == ws[1..] + [w];
      OfAppend(ws[1..], w, r);
    }
  }

  lemma SendWires(y: Sys, pid: Pid, w: Wire, r: Ref)
    requires r in y.calls
    ensures WiresOf(Send(y, pid, w), r)
            == WiresOf(y, r) + (if y.calls[r].pid == pid && w.request == r then [w] else [])
  {
    OfAppend(Unread(y, pid), w, r);
  }

  lemma ConsumeWires(y: Sys, pid: Pid, r: Ref)
    requires r in y.calls && Unread(y, pid) != []
    ensures var ws := Unread(y, pid);
            var z := y.(out := y.out[pid := ws[1..]]);
            if y.calls[r].pid == pid && ws[0].request == r then
              WiresOf(y, r) != [] && WiresOf(y, r)[0] == ws[0] && WiresOf(z, r) == WiresOf(y, r)[1..]
            else WiresOf(z, r) == WiresOf(y, r)
  {
  }

  lemma {:induction false} OwnedOf(y: Sys, ws: seq<Wire>, r: Ref)
    ensures Of(ws, r) != [] ==> exists i :: 0 <= i < |ws| && ws[i].request == r && ws[i] == Of(ws, r)[0]
  {
    if ws != [] && ws[0].request != r {
      OwnedOf(y, ws[1..], r);
    }
  }

  // ---- combining ---------------------------------------------------------------------------

  ghost predicate SameCall(y: Sys, w: Sys, r: Ref) {
    r in y.calls && r in w.calls && y.calls[r] == w.calls[r] && WiresOf(y, r) == WiresOf(w, r)
    && (y.calls[r].pid in y.dead <==> w.calls[r].pid in w.dead)
  }

  /** A step taken for call `r0`: the others keep their invariant, so only `r0` is left to check. */
  lemma CallsStay(y: Sys, w: Sys, r0: Ref, mine: set<Ref>)
    requires CallsOk(y) && Affects(CtxOf(y), CtxOf(w), r0, mine) && mine !! y.roots
    requires forall o :: o in w.calls && o != r0 ==> SameCall(y, w, o)
    requires forall o :: o in y.calls && o != r0 && y.calls[o].kind.Retaining? ==> y.calls[o].kind.child !in mine
    requires r0 in w.calls ==> CallOk(w, r0)
    ensures CallsOk(w)
  {
    var x, z := CtxOf(y), CtxOf(w);
    assert x.roots == y.roots;
    forall o | o in w.calls && o != r0 ensures CallOk(w, o) {
      assert CallOk(y, o) && SameCall(y, w, o);
      hide Affects, CallInv, CtxOf, WiresOf;
      OthersStay(x, z, r0, mine, o, y.calls[o], WiresOf(y, o), y.calls[o].pid in y.dead);
    }
  }

  // ---- client actions ----------------------------------------------------------------------

  lemma IdleAffects(x: Ctx, w: Ctx, r: Ref)
    requires w == x.(known := w.known, next := w.next, up := w.up, on := w.on) && x.known <= w.known && x.next <= w.next
    requires x.rejecting <= x.accepted
    requires (w.up ==> x.up) && (w.on ==> x.on)
    ensures Affects(x, w, r, {})
  {
  }

  lemma BackedGrows(v: View, calls: map<Ref, Call>, more: map<Ref, Call>, watched: map<Ref, Pid>, roots: set<Ref>)
    requires Backed(v, calls, watched, roots)
    requires forall r :: r in calls ==> r in more && more[r].kind == calls[r].kind && more[r].pid == calls[r].pid
    ensures Backed(v, more, watched, roots)
  {
  }

  /** `w` is `y` after call `r` moved on, sending nothing or one message. */
  ghost predicate ClientMoves(y: Sys, w: Sys, r: Ref) {
    && w == y.(calls := w.calls, out := w.out, known := w.known, next := w.next)
    && y.known.Keys <= w.known.Keys && y.next <= w.next
    && r in w.calls && w.calls == y.calls[r := w.calls[r]]
    && (r in y.calls ==> w.calls[r].kind == y.calls[r].kind && w.calls[r].pid == y.calls[r].pid && !y.calls[r].phase.Leased?)
    && (w.out == y.out || exists m: Wire :: m.request == r && SendsOnly(y, w, w.calls[r].pid, m))
  }

  ghost predicate SendsOnly(y: Sys, w: Sys, pid: Pid, m: Wire) { w.out == Send(y, pid, m).out }

  lemma MoveWires(y: Sys, w: Sys, r: Ref)
    requires ClientMoves(y, w, r) && WiresOwned(y)
    ensures WiresOwned(w)
    ensures forall o :: o in w.calls && o != r ==> SameCall(y, w, o)
  {
    if w.out == y.out {
      assert forall pid :: Unread(w, pid) == Unread(y, pid);
    } else {
      var m: Wire :| m.request == r && SendsOnly(y, w, w.calls[r].pid, m);
      var z := Send(y, w.calls[r].pid, m);
      assert forall pid :: Unread(w, pid) == Unread(z, pid);
      forall pid, i | 0 <= i < |Unread(w, pid)| ensures OwnedBy(w, Unread(w, pid)[i], pid) {
        if i < |Unread(y, pid)| {
          assert Unread(w, pid)[i] == Unread(y, pid)[i] && OwnedBy(y, Unread(y, pid)[i], pid);
        } else {
          assert pid == w.calls[r].pid && Unread(w, pid)[i] == m;
        }
      }
      forall o | o in w.calls && o != r ensures SameCall(y, w, o) {
        SendWires(y, w.calls[r].pid, m, o);
        assert WiresOf(z, o) == WiresOf(w, o);
      }
    }
  }

  lemma MoveHistory(y: Sys, w: Sys, r: Ref)
    requires ClientMoves(y, w, r) && HistoryOk(y)
    requires forall t :: t in w.known && (t !in y.known || w.known[t] != y.known[t]) ==> LeasedBy(w, t)
    ensures HistoryOk(w)
  {
    forall t | t in w.known && t in y.known && w.known[t] == y.known[t] ensures LeasedBy(w, t) {
      assert LeasedBy(y, t);
    }
  }

  lemma ClientStep(y: Sys, w: Sys, r: Ref)
    requires Consistent(y) && ClientMoves(y, w, r) && CallOk(w, r)
    requires forall t :: t in w.known && (t !in y.known || w.known[t] != y.known[t]) ==> LeasedBy(w, t)
    ensures Consistent(w)
  {
    hide *;
    Unpack(y);
    MoveWires(y, w, r);
    MoveHistory(y, w, r);
    MoveOwner(y, w, r);
    MoveAffects(y, w, r);
    NoMine(y);
    CallsStay(y, w, r, {});
    MoveBacked(y, w, r);
    Pack(w);
  }

  lemma NoMine(y: Sys)
    ensures {} !! y.roots
  {
  }

  lemma Unpack(y: Sys)
    requires Consistent(y)
    ensures OwnerOk(y) && CallsOk(y) && WiresOwned(y) && MailOk(y) && HistoryOk(y) && Balanced(y)
    ensures On(y) ==> Backed(ViewOf(y.owner), y.calls, y.watched, y.roots)
  {
  }

  lemma Pack(y: Sys)
    requires OwnerOk(y) && CallsOk(y) && WiresOwned(y) && MailOk(y) && HistoryOk(y) && Balanced(y)
    requires On(y) ==> Backed(ViewOf(y.owner), y.calls, y.watched, y.roots)
    ensures Consistent(y)
  {
  }

  lemma MoveAffects(y: Sys, w: Sys, r: Ref)
    requires ClientMoves(y, w, r)
    ensures Affects(CtxOf(y), CtxOf(w), r, {})
    ensures r in w.calls && (Balanced(y) ==> Balanced(w))
  {
    assert CtxOf(w) == CtxOf(y).(known := w.known.Keys, next := w.next);
    hide CtxOf;
    IdleAffects(CtxOf(y), CtxOf(w), r);
  }

  lemma MoveBacked(y: Sys, w: Sys, r: Ref)
    requires ClientMoves(y, w, r) && (On(y) ==> Backed(ViewOf(y.owner), y.calls, y.watched, y.roots))
    ensures On(w) ==> Backed(ViewOf(w.owner), w.calls, w.watched, w.roots)
  {
    hide Backed, ViewOf;
    if On(y) { BackedGrows(ViewOf(y.owner), y.calls, w.calls, y.watched, y.roots); }
  }

  lemma MoveOwner(y: Sys, w: Sys, r: Ref)
    requires ClientMoves(y, w, r) && OwnerOk(y) && MailOk(y)
    ensures OwnerOk(w) && MailOk(w)
  {
    if y.life.Up? { LaterFresh(ViewOf(y.owner), y.next, w.next); }
    hide ViewFresh, ViewOf, Running;
  }
}
