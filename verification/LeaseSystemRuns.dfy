/**
 What is proved of one message, over whole runs: every action is either the clients' own or one message
 a running owner may be given, so releases, draining and the tables carry from step to run.
 */
module LeaseSystemRuns {
  import opened Common
  import opened LeaseModel
  import opened LeaseInvariant
  import opened LeaseHandlers
  import opened LeaseRefinement
  import opened LeaseResults
  import opened LeaseReleases
  import opened LeaseReplies
  import opened LeaseDrains
  import opened LeaseSystem
  import opened LeaseSystemInvariant
  import opened LeaseSystemOwner
  import opened LeaseSystemSteps
  import opened LeaseSystemActions
  import opened LeaseSystemRequests
  import opened LeaseSystemEvents
  import opened LeaseSystemTheorems

  /** What the owner reads when the action is taken, if anything. */
  function MessageOf(y: Sys, a: Action): Option<Message> {
    match a
    case Consume(pid, guard, now) => if Unread(y, pid) != [] then Some(Delivered(Unread(y, pid)[0], pid, guard, now)) else None
    case WatchFires(m) => Some(MonitorDownMsg(m))
    case NameHolder(t, h, kind) => Some(Naming(t, h, kind))
    case Elsewhere(m) => Some(m)
    case _ => None
  }

  lemma HeadAdmissible(y: Sys, z: Sys, pid: Pid, wire: Wire, guard: Guard, now: int)
    requires Consistent(y) && y.life.Up? && Takes1(y, z, pid, wire)
    ensures Admissible(y.owner, Delivered(wire, pid, guard, now), y.next)
  {
    Reads(y, z, pid, wire);
    var r := wire.request;
    var q, ws := y.calls[r], WiresOf(y, r);
    WireKind(CtxOf(y), r, q, ws, pid in y.dead);
    hide *;
    match wire
    case AskReserve(_, metadata) =>
      AskingIsNew(CtxOf(y), r, q, ws, pid in y.dead);
      ReserveAdmissible(y.owner, r, metadata, pid, y.next);
      DeliveredIs(wire, pid, guard, now);
    case SendCommit(_, _, _) =>
      CommittingIsReserved(CtxOf(y), r, q, ws, pid in y.dead);
      CommitAdmissible(y.owner, wire, pid, guard, now, y.next);
      DeliveredIs(wire, pid, guard, now);
    case AskRetain(_, _, _, _) =>
      AskingNotBuried(CtxOf(y), r, q, ws, pid in y.dead);
      BuriedOf(y);
      RetainAdmissible(y.owner, wire, guard, y.next);
      DeliveredIs(wire, pid, guard, now);
    case _ =>
      DeliveredIs(wire, pid, guard, now);
      PlainAdmissible(y.owner, Delivered(wire, pid, guard, now), y.next);
  }

  lemma DeliveredIs(wire: Wire, pid: Pid, guard: Guard, now: int)
    ensures wire.AskReserve? ==> Delivered(wire, pid, guard, now) == ReserveMsg(wire.metadata, pid, wire.request)
    ensures wire.SendCommit? ==> Delivered(wire, pid, guard, now) == CommitMsg(wire.reservation, wire.backend, pid, wire.request, guard, now)
    ensures wire.AskRetain? ==> Delivered(wire, pid, guard, now) == RetainMsg(wire.token, wire.parent, wire.child, wire.request, guard)
    ensures !wire.AskReserve? && !wire.SendCommit? && !wire.AskRetain? ==>
              !Deciding(Delivered(wire, pid, guard, now)) && !Delivered(wire, pid, guard, now).DrainMsg?
  {
  }

  lemma WatchIsPlain(m: Ref)
    ensures !Deciding(MonitorDownMsg(m)) && !MonitorDownMsg(m).DrainMsg?
  {
  }

  lemma MessageIs(y: Sys, a: Action)
    requires Enabled(y, a)
    ensures a.Consume? ==> Unread(y, a.pid) != [] && MessageOf(y, a) == Some(Delivered(Unread(y, a.pid)[0], a.pid, a.guard, a.now))
    ensures a.WatchFires? ==> MessageOf(y, a) == Some(MonitorDownMsg(a.monitor)) && y.life.Up?
    ensures a.NameHolder? ==> MessageOf(y, a) == Some(Naming(a.token, a.holder, a.kind))
    ensures a.Elsewhere? ==> MessageOf(y, a) == Some(a.message)
    ensures MessageOf(y, a).Some? <==> a.Consume? || a.WatchFires? || a.NameHolder? || a.Elsewhere?
  {
    hide IsElsewhere, IsFirstFailure, Delivered;
  }

  /** Every message the owner reads in a run is one the handlers' theorems speak of. */
  lemma ServedAdmissible(y: Sys, a: Action)
    requires Consistent(y) && Enabled(y, a) && MessageOf(y, a).Some?
    ensures y.life.Up? && Running(y.owner) && Unused(y.owner, y.next) && Admissible(y.owner, MessageOf(y, a).value, y.next)
  {
    MessageIs(y, a);
    hide *;
    if a.Consume? {
      ConsumeShape(y, a.pid, a.guard, a.now);
      UpFacts(y);
      HeadAdmissible(y, y.(out := y.out[a.pid := Unread(y, a.pid)[1..]]), a.pid, Unread(y, a.pid)[0], a.guard, a.now);
    } else if a.WatchFires? {
      UpFacts(y);
      WatchIsPlain(a.monitor);
      PlainAdmissible(y.owner, MonitorDownMsg(a.monitor), y.next);
    } else if a.NameHolder? {
      NameShape(y, a.token, a.holder, a.kind);
      UpFacts(y);
      NamingExpected(y.owner, a.token, a.holder, a.kind, y.next);
      PlainAdmissible(y.owner, Naming(a.token, a.holder, a.kind), y.next);
    } else {
      ElsewhereShape(y, a.message);
      UpFacts(y);
      ElsewhereAdmissible(y.owner, a.message, y.next);
    }
  }

  lemma NextIsHandled(y: Sys, a: Action)
    requires Enabled(y, a) && MessageOf(y, a).Some?
    ensures exists z: Sys, pid: Pid :: z.owner == y.owner && z.next == y.next && z.mail == y.mail && Next(y, a) == Handled(z, MessageOf(y, a).value, pid)
  {
    hide Handled, Delivered, IsElsewhere, IsFirstFailure;
    match a
    case Consume(pid, guard, now) =>
      var z := y.(out := y.out[pid := Unread(y, pid)[1..]]);
      assert Next(y, a) == Handled(z, MessageOf(y, a).value, pid);
    case WatchFires(m) => assert Next(y, a) == Handled(y, MessageOf(y, a).value, y.watched[m]);
    case NameHolder(t, h, kind) => assert Next(y, a) == Handled(Recorded(y, t, h), MessageOf(y, a).value, 0);
    case Elsewhere(m) => assert Next(y, a) == Handled(y, MessageOf(y, a).value, 0);
  }

  lemma HandledOwner(z: Sys, m: Message, pid: Pid)
    requires Runnable(z.owner) && (m.DrainMsg? ==> IsFirstFailure(z.owner, m.pick))
    ensures Handled(z, m, pid).owner == Handle(z.owner, m, z.next).state && Handled(z, m, pid).next == z.next + REFS_PER_STEP
    ensures Handled(z, m, pid).mail == z.mail + Handle(z.owner, m, z.next).sent
    ensures Handled(z, m, pid).life == LifeAfter(Handle(z.owner, m, z.next).fate)
  {
    hide Runnable, IsFirstFailure, Handle;
  }

  lemma AdmissibleDrain(s: Owner, m: Message, supply: Ref)
    requires Admissible(s, m, supply)
    ensures m.DrainMsg? ==> IsFirstFailure(s, m.pick)
  {
  }

  /** The owner's part of the action is its handler. */
  lemma ServedStep(y: Sys, a: Action)
    requires Consistent(y) && Enabled(y, a) && MessageOf(y, a).Some?
    ensures Runnable(y.owner) && (MessageOf(y, a).value.DrainMsg? ==> IsFirstFailure(y.owner, MessageOf(y, a).value.pick))
    ensures var o, w := Handle(y.owner, MessageOf(y, a).value, y.next), Next(y, a);
            w.owner == o.state && w.next == y.next + REFS_PER_STEP && w.mail == y.mail + o.sent && w.life == LifeAfter(o.fate)
  {
    hide *;
    ServedAdmissible(y, a);
    RunningIsRunnable(y.owner);
    AdmissibleDrain(y.owner, MessageOf(y, a).value, y.next);
    NextIsHandled(y, a);
    var z: Sys, pid: Pid :| z.owner == y.owner && z.next == y.next && z.mail == y.mail && Next(y, a) == Handled(z, MessageOf(y, a).value, pid);
    HandledOwner(z, MessageOf(y, a).value, pid);
  }

  /** The clients' own actions leave the owner and the replies alone. */
  lemma ClientStep(y: Sys, a: Action)
    requires Enabled(y, a) && MessageOf(y, a).None?
    ensures Next(y, a).owner == y.owner && Next(y, a).mail == y.mail && y.next <= Next(y, a).next
  {
    hide Handled, Consumed, Delivered, IsElsewhere, IsFirstFailure;
    match a
    case GetReserved(_, _) =>
    case GetIssued(_, _) =>
    case GetRetained(_, _, _) =>
    case OwnerGone(_) =>
    case _ =>
  }

  // ---- tokens and callbacks ----------------------------------------------------------------

  ghost predicate Gone(y: Sys, t: Ref) { t < y.next && t !in y.owner.leases }

  lemma NewTokensAreNew(m: Message, supply: Ref)
    ensures forall t :: t in NewTokens(m, supply) ==> supply <= t
  {
  }

  lemma GoneStays(y: Sys, a: Action, t: Ref)
    requires Consistent(y) && Enabled(y, a) && Gone(y, t)
    ensures Gone(Next(y, a), t)
  {
    assert t < y.next && t !in y.owner.leases;
    if MessageOf(y, a).Some? {
      var m := MessageOf(y, a).value;
      hide Consistent, Enabled, Next, MessageOf;
      ServedAdmissible(y, a);
      ServedStep(y, a);
      StepConserves(y.owner, m, y.next);
      NewTokensAreNew(m, y.next);
      hide *;
      assert t !in Next(y, a).owner.leases.Keys;
      GoneBy(Next(y, a), t);
    } else {
      ClientStep(y, a);
      hide Consistent, Enabled, Next, MessageOf;
    }
  }

  lemma GoneBy(y: Sys, t: Ref)
    requires t < y.next && t !in y.owner.leases.Keys
    ensures Gone(y, t)
  {
  }

  /** What a run newly sends the executor is for an entry then live, held and awaited by nobody. */
  lemma CallbackFindsNoHolder(y: Sys, a: Action, x: Sent)
    requires Consistent(y) && Enabled(y, a) && x.ExecuteRelease? && x in Next(y, a).mail && x !in y.mail
    ensures var r := Next(y, a).owner;
            && x.token in r.leases && r.leases[x.token].status == Releasing(x.generation)
            && r.leases[x.token].holders == {} && r.leases[x.token].pendingIssue.None? && r.leases[x.token].pendingRetains == map[]
            && r.leases[x.token].backend == x.backend
  {
    hide *;
    if MessageOf(y, a).Some? {
      ServedAdmissible(y, a);
      ServedStep(y, a);
      CallbackOnlyWhenUnheld(y.owner, MessageOf(y, a).value, y.next, x);
    } else {
      ClientStep(y, a);
    }
  }

  lemma GoneHasNoEntry(y: Sys, t: Ref)
    requires Gone(y, t)
    ensures t !in y.owner.leases
  {
  }

  /** A token that is gone stays gone, and its callback is never asked for again. */
  lemma {:induction false} GoneForever(states: seq<Sys>, actions: seq<Action>, i: nat, j: nat, t: Ref, x: Sent)
    requires IsRun(states, actions) && i <= j < |states| && Gone(states[i], t)
    ensures Gone(states[j], t)
    ensures x.ExecuteRelease? && x in states[j].mail && x !in states[i].mail ==> x.token != t
    decreases j
  {
    hide *;
    RunStart(states, actions);
    if i < j {
      GoneForever(states, actions, i, j - 1, t, x);
      RunConsistent(states, actions, j - 1);
      RunStep(states, actions, j - 1);
      GoneStays(states[j - 1], actions[j - 1], t);
      GoneHasNoEntry(states[j], t);
      if x.ExecuteRelease? && x in states[j].mail && x !in states[j - 1].mail { CallbackFindsNoHolder(states[j - 1], actions[j - 1], x); }
    }
  }

  lemma AcknowledgedIsGone(s: Owner, executor: Ref, t: Ref, generation: Ref, supply: Ref)
    requires Runnable(s) && executor == s.executor && AnswersJob(s, t, generation)
    ensures t !in ReleaseResult(s, executor, t, generation, CallbackOk, supply).state.leases
  {
    FinishOkShape(s, t, generation, supply);
    var r := Succeeded(s, t);
    assert t !in r.leases;
    assert r.queue != [] ==> r.queue[0].token != t;
    hide FinishJob, AnswersJob, Succeeded;
  }

  lemma MessageElsewhere(y: Sys, m: Message)
    ensures MessageOf(y, Elsewhere(m)) == Some(m)
  {
  }

  lemma AnswersFresh(y: Sys, t: Ref)
    requires Unused(y.owner, y.next) && t in y.owner.leases
    ensures t < y.next < y.next + REFS_PER_STEP
  {
  }

  /** After an acknowledged success no later state has the token and no later message asks for its callback:
      not after a crash of the executor, a stale or repeated result, a retry or a drain. */
  lemma ReleasedOnce(states: seq<Sys>, actions: seq<Action>, i: nat, j: nat, executor: Ref, t: Ref, generation: Ref, x: Sent)
    requires IsRun(states, actions) && i < j < |states| && i < |actions|
    requires actions[i] == Elsewhere(ResultMsg(executor, t, generation, CallbackOk))
    requires executor == states[i].owner.executor && AnswersJob(states[i].owner, t, generation)
    ensures t !in states[j].owner.leases
    ensures x.ExecuteRelease? && x in states[j].mail && x !in states[i].mail ==> x.token != t
  {
    hide *;
    RunStart(states, actions);
    var y, a := states[i], actions[i];
    RunConsistent(states, actions, i);
    RunStep(states, actions, i);
    MessageElsewhere(y, ResultMsg(executor, t, generation, CallbackOk));
    JobHasEntry(y.owner, t, generation);
    ServedAdmissible(y, a);
    ServedStep(y, a);
    HandlesResult(y.owner, executor, t, generation, y.next);
    AcknowledgedIsGone(y.owner, executor, t, generation, y.next);
    AnswersFresh(y, t);
    GoneBy(states[i + 1], t);
    GoneForever(states, actions, i + 1, j, t, x);
    GoneHasNoEntry(states[j], t);
    if x.ExecuteRelease? && x in states[i + 1].mail && x !in y.mail { CallbackFindsNoHolder(y, a, x); }
  }

  lemma HandlesResult(s: Owner, executor: Ref, t: Ref, generation: Ref, supply: Ref)
    requires Runnable(s)
    ensures Handle(s, ResultMsg(executor, t, generation, CallbackOk), supply) == ReleaseResult(s, executor, t, generation, CallbackOk, supply)
  {
    hide Runnable, ReleaseResult;
  }

  // ---- draining ----------------------------------------------------------------------------

  lemma ProgressLowers(v: View, w: View)
    requires Progress(v, w)
    ensures Weight(w) <= Weight(v)
  {
    if HoldersOf(w) == HoldersOf(v) && w.reservations == v.reservations {
      assert HoldersOf(v).Keys == v.claims.Keys && HoldersOf(w).Keys == w.claims.Keys;
      assert |w.claims| == |w.claims.Keys| && |v.claims| == |v.claims.Keys|;
    }
  }

  lemma DrainStep(y: Sys, a: Action)
    requires Consistent(y) && Enabled(y, a) && y.owner.mode.Draining?
    ensures Next(y, a).owner.mode.Draining? && Progress(ViewOf(y.owner), ViewOf(Next(y, a).owner))
  {
    if MessageOf(y, a).Some? {
      hide *;
      ServedAdmissible(y, a);
      ServedStep(y, a);
      DrainProgress(y.owner, MessageOf(y, a).value, y.next);
    } else {
      ClientStep(y, a);
      hide Consistent, Enabled, Next, MessageOf;
    }
  }

  /** Admission that has closed never reopens, and what is left to drain only shrinks. */
  lemma {:induction false} DrainingOnlyShrinks(states: seq<Sys>, actions: seq<Action>, i: nat, j: nat)
    requires IsRun(states, actions) && i <= j < |states| && states[i].owner.mode.Draining?
    ensures states[j].owner.mode.Draining? && Weight(ViewOf(states[j].owner)) <= Weight(ViewOf(states[i].owner))
    decreases j
  {
    hide *;
    RunStart(states, actions);
    if i < j {
      DrainingOnlyShrinks(states, actions, i, j - 1);
      RunConsistent(states, actions, j - 1);
      RunStep(states, actions, j - 1);
      DrainStep(states[j - 1], actions[j - 1]);
      ProgressLowers(ViewOf(states[j - 1].owner), ViewOf(states[j].owner));
    }
  }

  /** A running owner that is draining still has something to wait for, and one that stopped normally has
      nothing: the weight is zero exactly then. */
  lemma DrainEndsAtZero(states: seq<Sys>, actions: seq<Action>, i: nat)
    requires IsRun(states, actions) && i < |states|
    ensures states[i].life.Up? && states[i].owner.mode.Draining? ==> Weight(ViewOf(states[i].owner)) > 0
    ensures states[i].life.Stopped? ==> Weight(ViewOf(states[i].owner)) == 0
  {
    var y := states[i];
    RunConsistent(states, actions, i);
    Unpack(y);
    hide IsRun, Consistent, Weight, ViewOf;
    if y.life.Up? {
      assert Running(y.owner);
      WeightZeroIsDrained(y.owner);
    } else if y.life.Stopped? {
      EmptyWeighsNothing(y.owner);
    }
  }

  lemma StoppedSays(y: Sys, a: Action, x: Sent)
    requires Consistent(y) && Enabled(y, a) && SaysDrained(x) && x in Next(y, a).mail && x !in y.mail
    ensures Next(y, a).life.Stopped?
  {
    hide *;
    if MessageOf(y, a).Some? {
      ServedAdmissible(y, a);
      ServedStep(y, a);
      HandleHonest(y.owner, MessageOf(y, a).value, y.next);
      HonestStops(Handle(y.owner, MessageOf(y, a).value, y.next), x);
    } else {
      ClientStep(y, a);
    }
  }

  lemma HonestStops(o: Out, x: Sent)
    requires Honest(o) && x in o.sent && SaysDrained(x)
    ensures LifeAfter(o.fate) == Stopped
  {
  }

  lemma StoppedStays(y: Sys, a: Action)
    requires Consistent(y) && Enabled(y, a) && y.life.Stopped?
    ensures Next(y, a).life.Stopped?
  {
    if MessageOf(y, a).Some? {
      ServedAdmissible(y, a);
      assert false;
    } else {
      ClientLife(y, a);
      assert !a.Kill?;
    }
  }

  lemma ClientLife(y: Sys, a: Action)
    requires Enabled(y, a) && MessageOf(y, a).None?
    ensures a.Kill? || Next(y, a).life == y.life
  {
    hide Handled, Consumed, Delivered, IsElsewhere, IsFirstFailure;
    match a
    case GetReserved(_, _) =>
    case GetIssued(_, _) =>
    case GetRetained(_, _, _) =>
    case OwnerGone(_) =>
    case _ =>
  }

  /** A drain that was answered ok means what it says: the owner has stopped, nothing is leased, and every
      commit it ever accepted was acknowledged as released. */
  lemma {:induction false} DrainedMeansEmpty(states: seq<Sys>, actions: seq<Action>, i: nat, x: Sent)
    requires IsRun(states, actions) && i < |states| && SaysDrained(x) && x in states[i].mail
    ensures states[i].life.Stopped?
    ensures states[i].owner.leases == map[] && |states[i].accepted| == Successes(states[i].owner)
    decreases i
  {
    hide *;
    RunStart(states, actions);
    if i == 0 {
      NothingSaid(states[0]);
      assert false;
    } else {
      RunConsistent(states, actions, i - 1);
      RunStep(states, actions, i - 1);
      if x in states[i - 1].mail {
        DrainedMeansEmpty(states, actions, i - 1, x);
        StoppedStays(states[i - 1], actions[i - 1]);
      } else {
        StoppedSays(states[i - 1], actions[i - 1], x);
      }
      NormalStopStrandsNothing(states, actions, i, 0, AskReserve(0, 0));
    }
  }

  lemma NothingSaid(y: Sys)
    requires Initial(y)
    ensures y.mail == {}
  {
  }

  lemma EmptyWeighsNothing(s: Owner)
    requires s.leases == map[] && s.reservations == map[]
    ensures Weight(ViewOf(s)) == 0
  {
    assert ViewOf(s).claims == map[];
    assert HoldersOf(ViewOf(s)) == map[];
  }

  // ---- the tables --------------------------------------------------------------------------

  /** In every reachable running state the owner's redundant tables agree with the plain ones. */
  lemma TablesAgree(states: seq<Sys>, actions: seq<Action>, i: nat)
    requires IsRun(states, actions) && i < |states| && states[i].life.Up?
    ensures var s := states[i].owner;
            && s.activeHolders == HolderCount(s.leases) && |s.ageIndex| == |s.leases|
            && (forall m, p :: PurposeBacked(s, m, p) <==> Watches(s, m, p))
            && |s.tombstones.kinds| <= RELEASE_TOMBSTONE_LIMIT && TombstonesListed(s.tombstones)
            && (forall t: Ref, h: Ref :: Held(s, t, h) ==> (t, h) !in s.tombstones.kinds)
            && (forall t :: t in s.timers <==> t in s.leases && s.leases[t].status.ReleaseFailed? && RetryAvailable(s.leases[t].attempts, s.policy))
            && (s.drainWaiters != map[] ==> forall t :: t in s.leases ==> !s.leases[t].status.ReleaseFailed?)
  {
    var s := states[i].owner;
    RunConsistent(states, actions, i);
    hide IsRun;
    UpFacts(states[i]);
    hide Consistent, Unused;
    AgeIndexEmptyTogether(s);
    assert HoldersInv(s) && MonitorsInv(s) && TombstonesInv(s) && WaitersInv(s) && TimersInv(s, None);
    forall t ensures t in s.timers <==> t in s.leases && s.leases[t].status.ReleaseFailed? && RetryAvailable(s.leases[t].attempts, s.policy) {
      TimersExact(s, t, 0, 0);
    }
    hide HolderCount, InvBut, Running, RetryAvailable;
  }

  /** Job `i` of the queue releases entry `t` under `generation`. */
  predicate QueuedAt(s: Owner, i: int, t: Ref, generation: Ref) {
    0 <= i < |s.queue| && s.queue[i].token == t && s.queue[i].generation == generation
  }

  /** In every reachable running state the release pipeline is exact: an entry is queued, or with the executor,
      under the generation of its one job; active entries are the held ones; and the executor is never idle
      while a job waits. */
  lemma PipelineExact(states: seq<Sys>, actions: seq<Action>, i: nat, t: Ref, generation: Ref)
    requires IsRun(states, actions) && i < |states| && states[i].life.Up? && t in states[i].owner.leases
    ensures var s := states[i].owner;
            && (s.leases[t].status == ReleaseQueued(generation) <==> exists k :: QueuedAt(s, k, t, generation))
            && (s.leases[t].status == Releasing(generation) <==> s.job.Some? && s.job.value.token == t && s.job.value.generation == generation)
            && (s.leases[t].status.Active? <==> s.leases[t].holders != {})
            && (s.job.None? ==> s.queue == [])
    ensures forall a, b :: 0 <= a < b < |states[i].owner.queue| ==> states[i].owner.queue[a].token != states[i].owner.queue[b].token
  {
    hide *;
    RunConsistent(states, actions, i);
    UpFacts(states[i]);
    PipelineOf(states[i].owner, t, generation);
  }

  lemma PipelineOf(s: Owner, t: Ref, generation: Ref)
    requires Running(s) && t in s.leases
    ensures s.leases[t].status == ReleaseQueued(generation) <==> exists k :: QueuedAt(s, k, t, generation)
    ensures s.leases[t].status == Releasing(generation) <==> s.job.Some? && s.job.value.token == t && s.job.value.generation == generation
    ensures s.leases[t].status.Active? <==> s.leases[t].holders != {}
    ensures s.job.None? ==> s.queue == []
    ensures forall a, b :: 0 <= a < b < |s.queue| ==> s.queue[a].token != s.queue[b].token
  {
    assert JobsInv(s) && Busy(s) && EntryShape(s.leases[t]);
    hide InvBut, Running;
    if s.leases[t].status == ReleaseQueued(generation) {
      var k :| 0 <= k < |s.queue| && s.queue[k].token == t;
      assert QueuedAt(s, k, t, generation);
    }
  }
}
