/** What owner plus clients guarantee in every state of every run. */
module LeaseSystemTheorems {
  import opened Common
  import opened LeaseModel
  import opened LeaseInvariant
  import opened LeaseHandlers
  import opened LeaseRefinement
  import opened LeaseResults
  import opened LeaseReplies
  import opened LeaseRejections
  import opened LeaseSystem
  import opened LeaseSystemInvariant
  import opened LeaseSystemOwner
  import opened LeaseSystemSteps
  import opened LeaseSystemClients
  import opened LeaseSystemActions
  import opened LeaseSystemEvents

  lemma InitialRuns(maxActive: Option<nat>, policy: RetryPolicy)
    ensures Running(InitialOwner(maxActive, policy, 0)) && Unused(InitialOwner(maxActive, policy, 0), 1)
    ensures ViewFresh(ViewOf(InitialOwner(maxActive, policy, 0)), 1)
  {
    var s := InitialOwner(maxActive, policy, 0);
    assert MonitorsInv(s);
    assert JobsInv(s) && HoldersInv(s) && AgeInv(s) && TimersInv(s, None) && WaitersInv(s) && TombstonesInv(s);
    hide MonitorsInv, JobsInv, AgeInv, TimersInv, WaitersInv, TombstonesInv;
  }

  lemma InitialFacts(y: Sys, maxActive: Option<nat>, policy: RetryPolicy)
    requires Initial(y) && y.owner == InitialOwner(maxActive, policy, 0)
    ensures OwnerOk(y) && Backed(ViewOf(y.owner), y.calls, y.watched, y.roots)
    ensures ViewOf(y.owner).claims == map[] && ViewOf(y.owner).reservations == map[]
    ensures forall r :: !Awaits(y.owner, r)
  {
    InitialRuns(maxActive, policy);
    hide Running, Unused, ViewFresh, Backed, ClaimOf;
    assert ViewOf(y.owner).claims == map[];
    hide ViewOf, OwnerOk;
    NothingBacked(ViewOf(y.owner), y.calls, y.watched, y.roots);
  }

  lemma NothingBacked(v: View, calls: map<Ref, Call>, watched: map<Ref, Pid>, roots: set<Ref>)
    requires v.claims == map[] && v.reservations == map[]
    ensures Backed(v, calls, watched, roots)
  {
  }

  lemma InitialConsistent(y: Sys)
    requires Initial(y)
    ensures Consistent(y)
  {
    var maxActive, policy :| y.owner == InitialOwner(maxActive, policy, 0);
    hide Backed, CallInv;
    InitialFacts(y, maxActive, policy);
    hide Running, Unused, ViewFresh, ViewOf, OwnerOk, Awaits, InitialOwner;
  }

  lemma RunStep(states: seq<Sys>, actions: seq<Action>, i: nat)
    requires IsRun(states, actions) && i < |actions|
    ensures |states| == |actions| + 1 && Enabled(states[i], actions[i]) && states[i + 1] == Next(states[i], actions[i])
  {
    hide Enabled, Next, Initial;
  }

  lemma RunStart(states: seq<Sys>, actions: seq<Action>)
    requires IsRun(states, actions)
    ensures |states| == |actions| + 1 && Initial(states[0])
  {
    hide Enabled, Next, Initial;
  }

  /** Every state of every run satisfies the invariant. */
  lemma {:induction false} RunConsistent(states: seq<Sys>, actions: seq<Action>, i: nat)
    requires IsRun(states, actions) && i < |states|
    ensures Consistent(states[i])
  {
    hide *;
    RunStart(states, actions);
    if i == 0 {
      InitialConsistent(states[0]);
    } else {
      RunConsistent(states, actions, i - 1);
      RunStep(states, actions, i - 1);
      StepKeeps(states[i - 1], actions[i - 1]);
    }
  }

  lemma {:induction false} OfHas(ws: seq<Wire>, i: nat)
    requires i < |ws|
    ensures ws[i] in Of(ws, ws[i].request)
  {
    if i > 0 {
      OfHas(ws[1..], i - 1);
      assert ws[1..][i - 1] == ws[i];
    }
  }

  /** `wire` was sent by `pid` and the owner has not read it. */
  ghost predicate InFlight(y: Sys, pid: Pid, wire: Wire) { wire in Unread(y, pid) }

  lemma InFlightOwn(y: Sys, pid: Pid, wire: Wire)
    requires Consistent(y) && InFlight(y, pid, wire)
    ensures wire.request in y.calls && y.calls[wire.request].pid == pid && wire in WiresOf(y, wire.request)
  {
    Unpack(y);
    var i :| 0 <= i < |Unread(y, pid)| && Unread(y, pid)[i] == wire;
    assert OwnedBy(y, Unread(y, pid)[i], pid);
    hide Consistent;
    OfHas(Unread(y, pid), i);
  }

  lemma CommitIsHead(x: Ctx, r: Ref, q: Call, ws: seq<Wire>, gone: bool, wire: Wire)
    requires CallInv(x, r, q, ws, gone) && wire in ws && wire.SendCommit?
    ensures q.kind.Issuing? && ws[0] == wire && wire.request == r && r !in x.accepted && !q.phase.CallerOwned?
    ensures x.on ==> Reserved(x.v, r, wire.reservation, q.pid)
  {
  }

  /** While the owner runs, every commit in flight still has its reservation; so the owner never raises
      and never stops for an "invalid or expired" reservation. */
  lemma CommitsKeepReservations(states: seq<Sys>, actions: seq<Action>, i: nat, pid: Pid, wire: Wire)
    requires IsRun(states, actions) && i < |states|
    ensures states[i].life != Broken
    ensures states[i].life.Up? && InFlight(states[i], pid, wire) && wire.SendCommit? ==>
              CommitMatches(states[i].owner, wire.reservation, pid, wire.request)
  {
    var y := states[i];
    RunConsistent(states, actions, i);
    hide IsRun;
    Unpack(y);
    if y.life.Up? && InFlight(y, pid, wire) && wire.SendCommit? {
      UpFacts(y);
      InFlightOwn(y, pid, wire);
      CallOf(y, wire.request);
      ViewReservations(y.owner);
      hide Consistent, CtxOf, WiresOf, CallInv, ViewOf, Running, Unused;
      CommitIsHead(CtxOf(y), wire.request, y.calls[wire.request], WiresOf(y, wire.request), pid in y.dead, wire);
    }
  }

  /** An owner that stopped normally left no token behind: none is in flight, none is held, and every
      commit it ever accepted was acknowledged as released. */
  lemma NormalStopStrandsNothing(states: seq<Sys>, actions: seq<Action>, i: nat, pid: Pid, wire: Wire)
    requires IsRun(states, actions) && i < |states| && states[i].life.Stopped?
    ensures InFlight(states[i], pid, wire) ==> !wire.SendCommit?
    ensures states[i].owner.leases == map[] && |states[i].accepted| == Successes(states[i].owner)
  {
    var y := states[i];
    RunConsistent(states, actions, i);
    hide IsRun;
    Unpack(y);
    StoppedView(y);
    assert CtxOf(y).on && |y.accepted| == Successes(y.owner);
    assert y.owner.leases == map[];
    if InFlight(y, pid, wire) && wire.SendCommit? {
      InFlightOwn(y, pid, wire);
      CallOf(y, wire.request);
      hide Consistent, CtxOf, WiresOf, CallInv;
      CommitIsHead(CtxOf(y), wire.request, y.calls[wire.request], WiresOf(y, wire.request), pid in y.dead, wire);
    }
  }

  // ---- what a returned call means ----------------------------------------------------------

  predicate Returned(p: Phase) { !p.AwaitReservation? && !p.AwaitIssue? && !p.AwaitRetain? }

  lemma HandledCalls(y: Sys, m: Message, pid: Pid)
    ensures Handled(y, m, pid).calls == y.calls
  {
    hide Handle, Runnable, IsFirstFailure, LifeAfter;
  }

  lemma ConsumedCalls(y: Sys, pid: Pid, guard: Guard, now: int)
    requires Unread(y, pid) != []
    ensures Consumed(y, pid, guard, now).calls == y.calls
  {
    hide Handled, Delivered;
    var wires := Unread(y, pid);
    HandledCalls(y.(out := y.out[pid := wires[1..]]), Delivered(wires[0], pid, guard, now), pid);
  }

  /** A call that has returned stays as it returned. */
  lemma ReturnedStays(y: Sys, a: Action, r: Ref)
    requires Consistent(y) && Enabled(y, a) && r in y.calls && Returned(y.calls[r].phase)
    ensures r in Next(y, a).calls && Next(y, a).calls[r] == y.calls[r]
  {
    hide *;
    Unpack(y);
    NextUncalled(y);
    if a.Consume? || a.WatchFires? || a.NameHolder? || a.Elsewhere? {
      EventCalls(y, a);
    } else if a.OwnerGone? {
      GoneCalls(y, a, r);
    } else {
      ClientCalls(y, a, r);
    }
  }

  lemma GoneCalls(y: Sys, a: Action, r: Ref)
    requires Enabled(y, a) && a.OwnerGone? && r in y.calls && Returned(y.calls[r].phase)
    ensures r in Next(y, a).calls && Next(y, a).calls[r] == y.calls[r]
  {
    hide Unread;
  }

  lemma EventCalls(y: Sys, a: Action)
    requires Enabled(y, a) && (a.Consume? || a.WatchFires? || a.NameHolder? || a.Elsewhere?)
    ensures Next(y, a).calls == y.calls
  {
    hide Handled, Consumed, Unread;
    if a.Consume? {
      ConsumedCalls(y, a.pid, a.guard, a.now);
    } else {
      forall z, m, pid ensures Handled(z, m, pid).calls == z.calls { HandledCalls(z, m, pid); }
    }
  }

  lemma ClientCalls(y: Sys, a: Action, r: Ref)
    requires Enabled(y, a) && r in y.calls && Returned(y.calls[r].phase) && y.next !in y.calls
    requires !a.Consume? && !a.WatchFires? && !a.NameHolder? && !a.Elsewhere? && !a.OwnerGone?
    ensures r in Next(y, a).calls && Next(y, a).calls[r] == y.calls[r]
  {
    hide Unread;
  }

  lemma {:induction false} ReturnedForever(states: seq<Sys>, actions: seq<Action>, i: nat, j: nat, r: Ref)
    requires IsRun(states, actions) && i <= j < |states| && r in states[i].calls && Returned(states[i].calls[r].phase)
    ensures r in states[j].calls && states[j].calls[r] == states[i].calls[r]
    decreases j
  {
    hide *;
    RunStart(states, actions);
    if i < j {
      ReturnedForever(states, actions, i, j - 1, r);
      RunConsistent(states, actions, j - 1);
      RunStep(states, actions, j - 1);
      ReturnedStays(states[j - 1], actions[j - 1], r);
    }
  }

  lemma CallerOwnedUnseen(x: Ctx, r: Ref, q: Call, ws: seq<Wire>, gone: bool)
    requires CallInv(x, r, q, ws, gone) && q.phase.CallerOwned?
    ensures r !in x.accepted && forall wire :: wire in ws ==> !wire.SendCommit?
  {
  }

  /** After `{:error, {:caller_owned, _}}` the owner never sees that token: not then, and not at any later state. */
  lemma CallerOwnedNeverSeen(states: seq<Sys>, actions: seq<Action>, i: nat, j: nat, r: Ref, pid: Pid, wire: Wire)
    requires IsRun(states, actions) && i <= j < |states| && r in states[i].calls && states[i].calls[r].phase.CallerOwned?
    ensures r !in states[j].accepted
    ensures InFlight(states[j], pid, wire) && wire.request == r ==> !wire.SendCommit?
  {
    ReturnedForever(states, actions, i, j, r);
    RunConsistent(states, actions, j);
    var y := states[j];
    CallOf(y, r);
    assert CtxOf(y).accepted == y.accepted;
    hide IsRun, Consistent, CtxOf, WiresOf, CallInv;
    CallerOwnedUnseen(CtxOf(y), r, y.calls[r], WiresOf(y, r), y.calls[r].pid in y.dead);
    if InFlight(y, pid, wire) && wire.request == r { InFlightOwn(y, pid, wire); }
  }

  predicate Holds(s: Owner, t: Ref, h: Ref) { t in s.leases && h in s.leases[t].holders }

  lemma HoldsInView(s: Owner, t: Ref, h: Ref)
    ensures HeldBy(ViewOf(s), t, h) <==> Holds(s, t, h)
  {
  }

  lemma KeptHeld(x: Ctx, r: Ref, q: Call, ws: seq<Wire>, gone: bool)
    requires CallInv(x, r, q, ws, gone) && x.on
    ensures q.phase.Kept? ==> q.kind.Retaining? && ((q.kind.token, q.kind.child) in x.named || HeldBy(x.v, q.kind.token, q.kind.child))
    ensures q.phase.Lost? && ws == [] ==> q.kind.Retaining? && !HeldBy(x.v, q.kind.token, q.kind.child)
    ensures q.phase.Leased? ==> q.kind.Issuing? && ((q.phase.token, q.phase.holder) in x.named || HeldBy(x.v, q.phase.token, q.phase.holder))
  {
  }

  /** The retain handshake. A retain that returned ok has its child registered until a release or an
      abandonment names it; one that returned an error leaves no holder once its messages are read;
      and an issued lease keeps its first holder until that is named. */
  lemma HoldersFollowCalls(states: seq<Sys>, actions: seq<Action>, i: nat, r: Ref)
    requires IsRun(states, actions) && i < |states| && On(states[i]) && r in states[i].calls
    ensures var y := states[i];
            var q := y.calls[r];
            && (q.phase.Kept? ==> q.kind.Retaining? && ((q.kind.token, q.kind.child) in y.named || Holds(y.owner, q.kind.token, q.kind.child)))
            && (q.phase.Lost? && WiresOf(y, r) == [] ==> q.kind.Retaining? && !Holds(y.owner, q.kind.token, q.kind.child))
            && (q.phase.Leased? ==> (q.phase.token, q.phase.holder) in y.named || Holds(y.owner, q.phase.token, q.phase.holder))
  {
    RunConsistent(states, actions, i);
    var y := states[i];
    var q := y.calls[r];
    CallOf(y, r);
    assert CtxOf(y).on && CtxOf(y).named == y.named && CtxOf(y).v == ViewOf(y.owner);
    hide IsRun, Consistent, CtxOf, WiresOf, CallInv, ViewOf, HeldBy, Holds;
    KeptHeld(CtxOf(y), r, q, WiresOf(y, r), q.pid in y.dead);
    if q.kind.Retaining? { HoldsInView(y.owner, q.kind.token, q.kind.child); }
    if q.phase.Leased? { HoldsInView(y.owner, q.phase.token, q.phase.holder); }
  }

  lemma ReturnedIdle(x: Ctx, r: Ref, q: Call, gone: bool)
    requires CallInv(x, r, q, [], gone) && x.on && q.kind.Issuing? && Returned(q.phase)
    ensures r !in x.v.reservations && forall t :: !Pends(x.v, t, r)
  {
  }

  /** An issue that has returned, with its messages read, leaves neither a reservation nor an entry still
      waiting for confirmation, whatever it returned. */
  lemma ReturnedIssueLeavesNothingPending(states: seq<Sys>, actions: seq<Action>, i: nat, r: Ref)
    requires IsRun(states, actions) && i < |states| && states[i].life.Up? && r in states[i].calls
    requires states[i].calls[r].kind.Issuing? && Returned(states[i].calls[r].phase) && WiresOf(states[i], r) == []
    ensures r !in states[i].owner.reservations && r !in states[i].owner.pendingIssues
  {
    RunConsistent(states, actions, i);
    var y := states[i];
    CallOf(y, r);
    UpFacts(y);
    ViewReservations(y.owner);
    hide IsRun, Consistent, CtxOf, WiresOf, CallInv, ViewOf, Running, Unused;
    ReturnedIdle(CtxOf(y), r, y.calls[r], y.calls[r].pid in y.dead);
    if r in y.owner.pendingIssues { IndexedPends(y.owner, r); }
  }

  /** Tokens are conserved, and admission never exceeds its capacity. */
  lemma ConservationAndCapacity(states: seq<Sys>, actions: seq<Action>, i: nat)
    requires IsRun(states, actions) && i < |states|
    ensures var y := states[i];
            && |y.accepted| == |y.owner.leases| + y.owner.counters.callbacks - y.owner.counters.failures
            && (y.life.Up? && y.owner.maxActive.Some? ==> |y.owner.leases| + |y.owner.reservations| <= y.owner.maxActive.value)
  {
    RunConsistent(states, actions, i);
    hide IsRun;
    var y := states[i];
    assert Balanced(y);
    if y.life.Up? {
      UpFacts(y);
      hide Consistent, Unused, ViewFresh, CallsOk, HistoryOk, WiresOwned, OwnerOk, Backed;
      assert CapacityInv(y.owner);
    }
  }
}
