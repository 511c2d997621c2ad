/** Every message the owner handles keeps the system invariant. */
module LeaseSystemMessages {
  import opened Common
  import opened LeaseModel
  import opened LeaseInvariant
  import opened LeaseHandlers
  import opened LeaseRefinement
  import opened LeaseResults
  import opened LeaseReplies
  import opened LeaseRejections
  import opened LeaseSystem
  import opened LeaseSystemInvariant
  import opened LeaseSystemOwner
  import opened LeaseSystemSteps
  import opened LeaseSystemClients
  import opened LeaseSystemCalls

  predicate StartsRejection(m: Message, r: Ref) { m.CommitMsg? && m.guard.GuardFailed? && m.request == r }

  /** What handling `m` does to everything the clients depend on. */
  ghost predicate Handling(y: Sys, m: Message, pid: Pid, w: Sys) {
    && w == y.(owner := w.owner, life := w.life, next := y.next + REFS_PER_STEP, watched := y.watched[y.next := pid], mail := w.mail,
               roots := if m.CommitMsg? then y.roots + {y.next + 3} else y.roots,
               accepted := if m.CommitMsg? then y.accepted + {m.request} else y.accepted)
    && (w.life.Up? || w.life.Stopped?)
    && ViewOf(w.owner) == Expected(y.owner, m, y.next)
    && y.mail <= w.mail
    && (forall x :: x in w.mail && x !in y.mail && Decides(x) ==> Deciding(m) && x.request == Asker(m))
    && (forall x :: x in w.mail && x !in y.mail && RejectsIssue(x) ==> Awaits(y.owner, x.request))
    && (forall r :: Awaits(w.owner, r) ==> Awaits(y.owner, r) || StartsRejection(m, r))
    && w.owner.tombstones.kinds.Keys <= y.owner.tombstones.kinds.Keys + Buries(y.owner, m)
    && |w.owner.leases| + Successes(w.owner) == |y.owner.leases| + Successes(y.owner) + (if m.CommitMsg? then 1 else 0)
  }

  lemma FaithfulAwaits(s: Owner, o: Out)
    requires Faithful(s, o)
    ensures forall r :: Awaits(o.state, r) ==> Awaits(s, r)
    ensures forall x :: x in o.sent && RejectsIssue(x) ==> Awaits(s, x.request)
  {
    forall r | Awaits(o.state, r) ensures Awaits(s, r) {
      var j :| InPipeline(o.state, j) && Rejecting(j, r);
      assert InPipeline(s, j);
    }
    forall x | x in o.sent && RejectsIssue(x) ensures Awaits(s, x.request) {
      assert InPipeline(s, s.job.value) && Rejecting(s.job.value, x.request);
    }
  }

  /** Only a commit whose guard failed starts a rejection, and only awaited rejections are answered. */
  lemma RejectionsOnly(s: Owner, m: Message, supply: Ref)
    requires Running(s) && Admissible(s, m, supply)
    ensures Runnable(s)
    ensures forall r :: Awaits(Handle(s, m, supply).state, r) ==> Awaits(s, r) || StartsRejection(m, r)
    ensures forall x :: x in Handle(s, m, supply).sent && RejectsIssue(x) ==> Awaits(s, x.request)
  {
    RunningIsRunnable(s);
    if m.CommitMsg? {
      CommitFaithful(s, m.reservation, m.backend, m.replyTo, m.request, m.guard, m.now, supply);
      var o := Handle(s, m, supply);
      assert o == CommitIssue(s, m.reservation, m.backend, m.replyTo, m.request, m.guard, m.now, supply);
      hide Handle, CommitIssue, Running, Runnable, Unused, CommitMatches;
      forall r | Awaits(o.state, r) ensures Awaits(s, r) || StartsRejection(m, r) {
        var j :| InPipeline(o.state, j) && Rejecting(j, r);
        assert InPipeline(s, j) || StartsRejection(m, r);
      }
    } else {
      hide *;
      HandleFaithful(s, m, supply);
      FaithfulAwaits(s, Handle(s, m, supply));
    }
  }

  lemma HandlesMessage(y: Sys, m: Message, pid: Pid)
    requires OwnerOk(y) && y.life.Up? && Admissible(y.owner, m, y.next)
    ensures Handling(y, m, pid, Handled(y, m, pid)) && OwnerOk(Handled(y, m, pid))
    ensures Runnable(y.owner) && Handled(y, m, pid).mail == y.mail + Handle(y.owner, m, y.next).sent
  {
    assert Running(y.owner) && Unused(y.owner, y.next) && ViewFresh(ViewOf(y.owner), y.next);
    hide *;
    HandledIsAfter(y, m, pid);
    AfterOk(y, m, pid);
    AfterShape(y, m, pid);
    AfterOwner(y, m, pid);
    AfterConserves(y, m, pid);
    RejectionsOnly(y.owner, m, y.next);
    HandlingBy(y, m, pid, After(y, m, pid), Handle(y.owner, m, y.next));
  }

  lemma HandlingBy(y: Sys, m: Message, pid: Pid, w: Sys, o: Out)
    requires w == y.(owner := w.owner, life := w.life, next := y.next + REFS_PER_STEP, watched := y.watched[y.next := pid], mail := w.mail,
                     roots := if m.CommitMsg? then y.roots + {y.next + 3} else y.roots,
                     accepted := if m.CommitMsg? then y.accepted + {m.request} else y.accepted)
    requires w.life.Up? || w.life.Stopped?
    requires ViewOf(w.owner) == Expected(y.owner, m, y.next)
    requires w.owner == o.state && w.mail == y.mail + o.sent && Quietly(y.owner, m, y.next, o)
    requires forall r :: Awaits(o.state, r) ==> Awaits(y.owner, r) || StartsRejection(m, r)
    requires forall x :: x in o.sent && RejectsIssue(x) ==> Awaits(y.owner, x.request)
    requires |w.owner.leases| + Successes(w.owner) == |y.owner.leases| + Successes(y.owner) + (if m.CommitMsg? then 1 else 0)
    ensures Handling(y, m, pid, w)
  {
    hide Expected, ViewOf, Successes, Awaits, Buries;
  }

  // ---- the histories -----------------------------------------------------------------------

  lemma HandledMail(y: Sys, m: Message, pid: Pid, w: Sys)
    requires Handling(y, m, pid, w) && MailOk(y) && HistoryOk(y)
    requires forall r :: r in y.calls ==> r < y.next
    requires Deciding(m) ==> m.request in y.calls
    ensures MailOk(w)
  {
    hide Expected, ViewOf, Successes, Awaits, Buries, LeasedBy, Unread;
  }

  lemma HandledHistory(y: Sys, m: Message, pid: Pid, w: Sys)
    requires Handling(y, m, pid, w) && HistoryOk(y)
    requires Deciding(m) ==> m.request in y.calls
    requires forall id :: id in Buries(y.owner, m) ==> id.1 < y.next
    ensures HistoryOk(w)
  {
    forall t | t in w.known ensures LeasedBy(w, t) { assert LeasedBy(y, t); }
    hide Expected, ViewOf, Successes, Awaits, Buries, LeasedBy, Unread;
    forall id | id in w.owner.tombstones.kinds ensures id.1 < w.next {
      assert id in y.owner.tombstones.kinds.Keys + Buries(y.owner, m);
    }
  }

  lemma HandledBalance(y: Sys, m: Message, pid: Pid, w: Sys)
    requires Handling(y, m, pid, w) && Balanced(y) && (m.CommitMsg? ==> m.request !in y.accepted)
    ensures Balanced(w)
  {
    hide Expected, ViewOf, Successes, Awaits, Buries;
  }

  lemma HandledWires(y: Sys, m: Message, pid: Pid, w: Sys)
    requires Handling(y, m, pid, w) && WiresOwned(y)
    ensures WiresOwned(w)
    ensures w.calls == y.calls && w.dead == y.dead && forall o :: o in y.calls ==> WiresOf(w, o) == WiresOf(y, o)
  {
    hide Expected, ViewOf, Successes, Awaits, Buries;
    SameOut(y, w);
  }

  /** Every buried pair was held when it was buried. */
  lemma BuriedHeld(s: Owner, m: Message)
    ensures forall id :: id in Buries(s, m) ==> HeldBy(ViewOf(s), id.0, id.1)
  {
  }

  lemma HandledAffects(x: Ctx, y: Sys, m: Message, pid: Pid, w: Sys, r: Ref, mine: set<Ref>)
    requires y.life.Up? && Handling(y, m, pid, w)
    requires x == CtxOf(y).(named := x.named) && x.named <= y.named
    requires forall o :: Awaits(y.owner, o) ==> o in y.accepted
    requires ViewStep(ViewOf(y.owner), Expected(y.owner, m, y.next), y.named, y.known.Keys, y.next, r, mine)
    requires Deciding(m) ==> m.request == r
    requires m.CommitMsg? ==> y.next + 3 in mine
    ensures Affects(x, CtxOf(w), r, mine)
  {
    BuriedHeld(y.owner, m);
    hide Expected, ViewOf, Successes, Awaits, Buries, ViewStep;
    forall o | o in RejectedBy(w.owner, w.accepted) ensures o in RejectedBy(y.owner, y.accepted) + {r} {
      assert Awaits(y.owner, o) || StartsRejection(m, o);
    }
    forall a | a in w.mail && a !in y.mail && RejectsIssue(a) ensures a.request in RejectedBy(y.owner, y.accepted) {
      assert Awaits(y.owner, a.request);
    }
    forall id | id in w.owner.tombstones.kinds && id !in y.owner.tombstones.kinds ensures HeldBy(ViewOf(y.owner), id.0, id.1) {
      assert id in y.owner.tombstones.kinds.Keys + Buries(y.owner, m);
    }
  }

  // ---- who backs what ----------------------------------------------------------------------

  /** `w` has at most what `v` has. */
  ghost predicate Shrinks(v: View, w: View) {
    && (forall r :: r in w.reservations ==> r in v.reservations && w.reservations[r] == v.reservations[r])
    && (forall t :: t in w.claims ==> t in v.claims && ClaimShrinks(v.claims[t], w.claims[t]))
  }

  ghost predicate ClaimShrinks(a: Claim, b: Claim) {
    && b.root == a.root && b.holders <= a.holders && (b.pendingIssue.Some? ==> b.pendingIssue == a.pendingIssue)
    && (forall c :: c in b.pendingRetains ==> c in a.pendingRetains && b.pendingRetains[c] == a.pendingRetains[c])
  }

  lemma PutShrinks(v: View, t: Ref, c: Claim)
    requires t in v.claims && ClaimShrinks(v.claims[t], c)
    ensures Shrinks(v, v.(claims := v.claims[t := c]))
  {
    assert forall d: Claim :: ClaimShrinks(d, d);
  }

  lemma FewerShrinks(v: View, w: View)
    requires forall r :: r in w.reservations ==> r in v.reservations && w.reservations[r] == v.reservations[r]
    requires forall t :: t in w.claims ==> t in v.claims && w.claims[t] == v.claims[t]
    ensures Shrinks(v, w)
  {
    assert forall d: Claim :: ClaimShrinks(d, d);
  }

  lemma LeavesShrink(v: View, t: Ref, h: Ref)
    ensures Shrinks(v, Leave(v, t, h)) && Shrinks(v, LeaveAll(v, t))
  {
    FewerShrinks(v, v);
    if t in v.claims {
      var c := v.claims[t];
      PutShrinks(v, t, Cleared(c));
      PutShrinks(v, t, c.(holders := c.holders - {h}, pendingRetains := c.pendingRetains - {h}));
    }
    hide Shrinks;
  }

  lemma ConfirmsShrink(v: View, t: Ref, h: Ref, r: Ref)
    ensures Shrinks(v, ExpectedConfirmIssue(v, t, r)) && Shrinks(v, ExpectedConfirmRetain(v, t, h, r))
  {
    FewerShrinks(v, v);
    if t in v.claims {
      var c := v.claims[t];
      PutShrinks(v, t, c.(pendingIssue := None));
      PutShrinks(v, t, c.(pendingRetains := c.pendingRetains - {h}));
    }
    hide Shrinks;
  }

  lemma ExpectedShrinks(s: Owner, m: Message, supply: Ref)
    requires !Deciding(m)
    ensures Shrinks(ViewOf(s), Expected(s, m, supply))
  {
    var v := ViewOf(s);
    hide ViewOf, Shrinks, Leave, LeaveAll, ExpectedConfirmIssue, ExpectedConfirmRetain, AnswersJob, ExpectedDown;
    FewerShrinks(v, v);
    match m
    case CancelReservationMsg(request) => FewerShrinks(v, v.(reservations := v.reservations - {request}));
    case AbandonedMsg(t, h) => LeavesShrink(v, t, h);
    case ReleaseMsg(t, h) => LeavesShrink(v, t, h);
    case ConfirmIssueMsg(t, request) => ConfirmsShrink(v, t, 0, request);
    case CancelIssueMsg(request) => if request in s.pendingIssues { LeavesShrink(v, s.pendingIssues[request], 0); }
    case ConfirmRetainMsg(t, child, request) => ConfirmsShrink(v, t, child, request);
    case CancelRetainMsg(t, child) => LeavesShrink(v, t, child);
    case DrainMsg(_, _, _) => FewerShrinks(v, v.(closed := true));
    case ResultMsg(_, t, _, _) => FewerShrinks(v, v.(claims := v.claims - {t}, successes := v.successes + 1));
    case BeginDrainMsg => FewerShrinks(v, v.(closed := true));
    case MonitorDownMsg(monitor) => DownShrinks(s, monitor);
    case _ =>
  }

  lemma DownShrinks(s: Owner, monitor: Ref)
    ensures Shrinks(ViewOf(s), ExpectedDown(s, monitor))
  {
    var v := ViewOf(s);
    hide ViewOf, Shrinks, Leave, LeaveAll;
    FewerShrinks(v, v);
    if monitor in s.monitors {
      match s.monitors[monitor]
      case ForReservation(request) => FewerShrinks(v, v.(reservations := v.reservations - {request}));
      case ForIssuePending(_) =>
      case ForRetain(t, child) => LeavesShrink(v, t, child);
      case ForIssue(t, _) => LeavesShrink(v, t, 0);
    }
  }

  ghost predicate MonitorsBelow(v: View, supply: Ref) {
    && (forall r :: r in v.reservations ==> v.reservations[r].monitor < supply)
    && (forall t, r :: Pends(v, t, r) ==> v.claims[t].pendingIssue.value.monitor < supply)
    && (forall t, c, p :: Unconfirmed(v, t, c, p) ==> p.monitor < supply)
  }

  lemma FreshMonitors(v: View, supply: Ref)
    requires ViewFresh(v, supply)
    ensures MonitorsBelow(v, supply)
  {
    forall t, r | Pends(v, t, r) ensures v.claims[t].pendingIssue.value.monitor < supply { assert ClaimFresh(v.claims[t], supply); }
    forall t, c, p | Unconfirmed(v, t, c, p) ensures p.monitor < supply { assert ClaimFresh(v.claims[t], supply); }
  }

  /** The monitor taken out now is not one anybody already waits on. */
  lemma BackedWatched(v: View, calls: map<Ref, Call>, watched: map<Ref, Pid>, roots: set<Ref>, supply: Ref, pid: Pid)
    requires Backed(v, calls, watched, roots) && MonitorsBelow(v, supply)
    ensures Backed(v, calls, watched[supply := pid], roots)
  {
  }

  lemma ShrinksBelow(v: View, w: View)
    requires Shrinks(v, w)
    ensures forall t, r :: Pends(w, t, r) ==> Pends(v, t, r) && w.claims[t].pendingIssue == v.claims[t].pendingIssue
    ensures forall t, c, p :: Unconfirmed(w, t, c, p) ==> Unconfirmed(v, t, c, p)
    ensures forall t, h :: HeldBy(w, t, h) ==> HeldBy(v, t, h)
    ensures forall t :: t in w.claims ==> t in v.claims && w.claims[t].root == v.claims[t].root
  {
    forall t | t in w.claims ensures ClaimShrinks(v.claims[t], w.claims[t]) {}
  }

  lemma BackedShrinks(v: View, w: View, calls: map<Ref, Call>, watched: map<Ref, Pid>, roots: set<Ref>)
    requires Backed(v, calls, watched, roots) && Shrinks(v, w)
    ensures Backed(w, calls, watched, roots)
  {
    ShrinksBelow(v, w);
  }

  lemma HandledBacked(y: Sys, m: Message, pid: Pid, w: Sys)
    requires Handling(y, m, pid, w) && !Deciding(m) && ViewFresh(ViewOf(y.owner), y.next)
    requires Backed(ViewOf(y.owner), y.calls, y.watched, y.roots)
    ensures Backed(ViewOf(w.owner), w.calls, w.watched, w.roots)
  {
    var v := ViewOf(y.owner);
    assert w.watched == y.watched[y.next := pid] && w.calls == y.calls && w.roots == y.roots;
    assert ViewOf(w.owner) == Expected(y.owner, m, y.next);
    hide *;
    ExpectedShrinks(y.owner, m, y.next);
    FreshMonitors(v, y.next);
    BackedWatched(v, y.calls, y.watched, y.roots, y.next, pid);
    BackedShrinks(v, ViewOf(w.owner), y.calls, w.watched, y.roots);
  }

  // ---- putting a step together -------------------------------------------------------------

  /** `z` is `y` with the message taken from its channel, or the name recorded. */
  ghost predicate Takes(y: Sys, z: Sys, r: Ref) {
    && z == y.(out := z.out, named := z.named) && y.named <= z.named
    && (forall o :: o in y.calls && o != r ==> WiresOf(z, o) == WiresOf(y, o))
    && WiresOwned(z)
  }

  lemma TakesKeeps(y: Sys, z: Sys, r: Ref)
    requires Takes(y, z, r)
    ensures OwnerOk(y) ==> OwnerOk(z)
    ensures HistoryOk(y) ==> HistoryOk(z)
    ensures MailOk(y) ==> MailOk(z)
    ensures Balanced(y) ==> Balanced(z)
    ensures CtxOf(y) == CtxOf(z).(named := y.named)
    ensures z.owner == y.owner && z.calls == y.calls && z.life == y.life && z.next == y.next && z.dead == y.dead
    ensures z.watched == y.watched && z.roots == y.roots && z.accepted == y.accepted && z.known == y.known
  {
    if HistoryOk(y) {
      forall t | t in z.known ensures LeasedBy(z, t) { assert LeasedBy(y, t); }
    }
  }

  lemma BuriedBelow(y: Sys, m: Message)
    requires HistoryOk(y) && Backed(ViewOf(y.owner), y.calls, y.watched, y.roots)
    requires forall r :: r in y.calls ==> r < y.next
    requires forall r :: r in y.calls && y.calls[r].kind.Retaining? ==> y.calls[r].kind.child < y.next
    ensures forall id :: id in Buries(y.owner, m) ==> id.1 < y.next
  {
    BuriedHeld(y.owner, m);
    hide ViewOf, Buries, LeasedBy, Awaits;
    forall id | id in Buries(y.owner, m) ensures id.1 < y.next {
      assert HeldBy(ViewOf(y.owner), id.0, id.1);
      if id.1 !in y.roots { assert IsChild(y.calls, id.0, id.1); }
    }
  }

  lemma Concludes(y: Sys, z: Sys, m: Message, pid: Pid, w: Sys, r: Ref, mine: set<Ref>)
    requires Consistent(y) && y.life.Up? && Takes(y, z, r) && Handling(z, m, pid, w) && OwnerOk(w)
    requires ViewStep(ViewOf(y.owner), Expected(y.owner, m, y.next), z.named, y.known.Keys, y.next, r, mine)
    requires Deciding(m) ==> m.request == r && r in y.calls
    requires m.CommitMsg? ==> y.next + 3 in mine && r !in y.accepted
    requires mine !! y.roots && forall o :: o in y.calls && o != r && y.calls[o].kind.Retaining? ==> y.calls[o].kind.child !in mine
    requires r in w.calls ==> CallOk(w, r)
    requires Backed(ViewOf(w.owner), w.calls, w.watched, w.roots)
    ensures Consistent(w)
  {
    assert m.CommitMsg? ==> m.request == r;
    assert Deciding(m) ==> m.request in y.calls;
    hide *;
    Unpack(y);
    TakesKeeps(y, z, r);
    TakesOwned(y, z, r);
    ConcludesTables(y, z, m, pid, w);
    ConcludesCalls(y, z, m, pid, w, r, mine);
    Pack(w);
  }

  lemma ConcludesTables(y: Sys, z: Sys, m: Message, pid: Pid, w: Sys)
    requires Consistent(y) && y.life.Up? && Handling(z, m, pid, w)
    requires OwnerOk(z) && HistoryOk(z) && MailOk(z) && Balanced(z) && WiresOwned(z)
    requires z.owner == y.owner && z.calls == y.calls && z.next == y.next && z.watched == y.watched && z.roots == y.roots && z.accepted == y.accepted
    requires Deciding(m) ==> m.request in y.calls
    requires m.CommitMsg? ==> m.request !in y.accepted
    ensures MailOk(w) && HistoryOk(w) && Balanced(w) && WiresOwned(w)
  {
    hide *;
    Unpack(y);
    NextUncalled(y);
    UpIsOn(y);
    BuriedBelow(z, m);
    HandledMail(z, m, pid, w);
    HandledHistory(z, m, pid, w);
    HandledBalance(z, m, pid, w);
    HandledWires(z, m, pid, w);
  }

  lemma ConcludesCalls(y: Sys, z: Sys, m: Message, pid: Pid, w: Sys, r: Ref, mine: set<Ref>)
    requires Consistent(y) && y.life.Up? && Takes(y, z, r) && Handling(z, m, pid, w)
    requires ViewStep(ViewOf(y.owner), Expected(y.owner, m, y.next), z.named, y.known.Keys, y.next, r, mine)
    requires Deciding(m) ==> m.request == r
    requires m.CommitMsg? ==> y.next + 3 in mine
    requires mine !! y.roots && forall o :: o in y.calls && o != r && y.calls[o].kind.Retaining? ==> y.calls[o].kind.child !in mine
    requires r in w.calls ==> CallOk(w, r)
    ensures CallsOk(w)
  {
    hide *;
    Unpack(y);
    TakesKeeps(y, z, r);
    TakesOwned(y, z, r);
    HistoryAwaits(z);
    HandledWires(z, m, pid, w);
    HandledAffects(CtxOf(y), z, m, pid, w, r, mine);
    OthersSame(y, z, w, r);
    CallsStay(y, w, r, mine);
  }

  lemma TakesOwned(y: Sys, z: Sys, r: Ref)
    requires Takes(y, z, r)
    ensures WiresOwned(z) && y.named <= z.named
  {
  }

  lemma HistoryAwaits(y: Sys)
    requires HistoryOk(y)
    ensures forall r :: Awaits(y.owner, r) ==> r in y.accepted
  {
  }

  lemma UpIsOn(y: Sys)
    requires y.life.Up?
    ensures On(y)
  {
  }

  lemma OthersSame(y: Sys, z: Sys, w: Sys, r: Ref)
    requires Takes(y, z, r) && w.calls == z.calls && w.dead == z.dead
    requires forall o :: o in z.calls ==> WiresOf(w, o) == WiresOf(z, o)
    ensures forall o :: o in w.calls && o != r ==> SameCall(y, w, o)
  {
  }
}
