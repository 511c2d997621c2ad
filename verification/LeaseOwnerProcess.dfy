/**
 The owner as the process that runs: one field per entry of its state map, rewritten step by step by a
 method per message, in the order the source rewrites it.

 `State` is the record the other modules reason about. Each method is proved to leave the record, and to
 have sent the messages, that its handler in `LeaseModel` says; so what is proved there of handlers and of
 whole runs is true of this process.
 */
module LeaseOwnerProcess {
  import opened Common
  import opened LeaseModel
  import opened LeaseInvariant
  import opened LeaseHandlers

  /** Who is told of the monitors of some pending retains. */
  ghost function MonitorsOf(pending: map<Ref, Pending>, children: set<Ref>): set<Ref> {
    set h | h in children && h in pending :: pending[h].monitor
  }

  ghost function WaiterMonitorsOf(waiters: map<Ref, DrainWaiter>, requests: set<Ref>): set<Ref> {
    set r | r in requests && r in waiters :: waiters[r].monitor
  }

  class LeaseOwner {
    const maxActive: Option<nat>
    const policy: RetryPolicy
    var mode: Mode
    var leases: map<Ref, Entry>
    var issueReservations: map<Ref, Reservation>
    var pendingIssues: map<Ref, Ref>
    var activeHolders: int
    var leaseAgeIndex: set<(int, Ref)>
    var releaseExecutor: Ref
    var releaseQueue: seq<Job>
    var releaseJob: Option<Job>
    var protocolMonitors: map<Ref, Purpose>
    var drainWaiters: map<Ref, DrainWaiter>
    var drainMonitors: map<Ref, Ref>
    var retryTimers: map<Ref, Timer>
    var releaseTombstones: map<(Ref, Ref), Tombstone>
    var releaseTombstoneOrder: seq<(Ref, Ref)>
    var tombstoneEvictions: nat
    var abandonmentEvictions: nat
    var counters: Counters
    var sent: set<Sent>

    ghost function State(): Owner
      reads this
    {
      Owner(maxActive, policy, mode, leases, issueReservations, pendingIssues, activeHolders, leaseAgeIndex, releaseExecutor,
            releaseQueue, releaseJob, protocolMonitors, drainWaiters, drainMonitors, retryTimers,
            Tombstones(releaseTombstones, releaseTombstoneOrder, tombstoneEvictions, abandonmentEvictions), counters)
    }

    /** The process did what `o` says, on top of what it had sent. */
    ghost predicate Did(before: set<Sent>, o: Out, fate: Fate)
      reads this
    {
      State() == o.state && sent == before + o.sent && fate == o.fate
    }

    /** The process is in the state, and has sent the messages, that a piece of a handler says. */
    ghost predicate Reached(before: set<Sent>, r: (Owner, set<Sent>))
      reads this
    {
      State() == r.0 && sent == before + r.1
    }

    constructor (maxActive: Option<nat>, policy: RetryPolicy, executor: Ref)
      ensures State() == InitialOwner(maxActive, policy, executor) && sent == {}
      ensures Running(State())
    {
      this.maxActive, this.policy, this.mode, this.releaseExecutor := maxActive, policy, Open, executor;
      leases, issueReservations, pendingIssues, activeHolders, leaseAgeIndex := map[], map[], map[], 0, {};
      releaseQueue, releaseJob, protocolMonitors := [], None, map[];
      drainWaiters, drainMonitors, retryTimers := map[], map[], map[];
      releaseTombstones, releaseTombstoneOrder, tombstoneEvictions, abandonmentEvictions := map[], [], 0, 0;
      counters, sent := NO_COUNTS, {};
      new;
      InitialRunning(maxActive, policy, executor);
    }

    // ---- pieces --------------------------------------------------------------------------

    method ClearPendingIssue(e: Entry) returns (cleared: Entry)
      modifies this`pendingIssues, this`protocolMonitors
      ensures (cleared, State()) == LeaseModel.ClearPendingIssue(e, old(State()))
    {
      if e.pendingIssue.None? {
        return e;
      }
      pendingIssues := pendingIssues - {e.pendingIssue.value.request};
      protocolMonitors := protocolMonitors - {e.pendingIssue.value.monitor};
      return e.(pendingIssue := None);
    }

    method ClearPendingRetain(holder: Ref, e: Entry) returns (cleared: Entry)
      modifies this`protocolMonitors
      ensures (cleared, State()) == LeaseModel.ClearPendingRetain(holder, e, old(State()))
    {
      if holder !in e.pendingRetains {
        return e;
      }
      protocolMonitors := protocolMonitors - {e.pendingRetains[holder].monitor};
      return e.(pendingRetains := e.pendingRetains - {holder});
    }

    /** Every pending retain of the entry is demonitored, in whatever order the map lists them. */
    method ClearAllPendingRetains(e: Entry) returns (cleared: Entry)
      modifies this`protocolMonitors
      ensures cleared == e.(pendingRetains := map[])
      ensures State() == old(State()).(monitors := old(protocolMonitors) - RetainMonitors(e))
    {
      var todo := e.pendingRetains.Keys;
      while todo != {}
        invariant todo <= e.pendingRetains.Keys
        invariant protocolMonitors == old(protocolMonitors) - MonitorsOf(e.pendingRetains, e.pendingRetains.Keys - todo)
      {
        var holder :| holder in todo;
        OneMoreRetain(e.pendingRetains, e.pendingRetains.Keys - todo, holder);
        protocolMonitors := protocolMonitors - {e.pendingRetains[holder].monitor};
        todo := todo - {holder};
        assert e.pendingRetains.Keys - todo == e.pendingRetains.Keys - (todo + {holder}) + {holder};
      }
      assert MonitorsOf(e.pendingRetains, e.pendingRetains.Keys - todo) == RetainMonitors(e);
      return e.(pendingRetains := map[]);
    }

    method CancelRetryTimer(token: Ref)
      modifies this`retryTimers
      ensures State() == LeaseModel.CancelRetryTimer(token, old(State()))
    {
      retryTimers := retryTimers - {token};
    }

    method DispatchNextRelease()
      requires JobsHaveEntries(State())
      modifies this`leases, this`releaseQueue, this`releaseJob, this`sent
      ensures Reached(old(sent), Dispatch(old(State())))
    {
      if releaseJob.Some? || releaseQueue == [] {
        return;
      }
      var job := releaseQueue[0];
      sent := sent + {ExecuteRelease(releaseExecutor, job.token, job.generation, job.backend)};
      releaseQueue := releaseQueue[1..];
      releaseJob := Some(job);
      leases := leases[job.token := leases[job.token].(status := Releasing(job.generation))];
    }

    method ReleaseEntry(token: Ref, e: Entry, retry: bool, waiter: Waiter, generation: Ref)
      requires JobsHaveEntries(State())
      modifies this
      ensures Reached(old(sent), LeaseModel.ReleaseEntry(token, e, old(State()), retry, waiter, generation))
    {
      hide Dispatch;
      var cleared := ClearPendingIssue(e);
      cleared := ClearAllPendingRetains(cleared);
      CancelRetryTimer(token);
      var attempt := cleared.attempts + 1;
      cleared := cleared.(attempts := attempt, status := ReleaseQueued(generation));
      leases := leases[token := cleared];
      releaseQueue := releaseQueue + [Job(token, generation, cleared.backend, attempt, retry, waiter)];
      EnqueuedHere(old(State()), token, e, retry, waiter, generation);
      DispatchNextRelease();
    }

    method RemoveDrainWaiter(request: Ref)
      modifies this`drainWaiters, this`drainMonitors
      ensures State() == LeaseModel.RemoveDrainWaiter(request, old(State()))
    {
      if request in drainWaiters {
        drainMonitors := drainMonitors - {drainWaiters[request].monitor};
        drainWaiters := drainWaiters - {request};
      }
    }

    method ReplyDrainWaiter(request: Ref, result: Reply<()>)
      modifies this`drainWaiters, this`drainMonitors, this`sent
      ensures State() == LeaseModel.RemoveDrainWaiter(request, old(State()))
      ensures sent == old(sent) + (if request in old(drainWaiters) then {DrainedReply(request, result)} else {})
    {
      if request in drainWaiters {
        sent := sent + {DrainedReply(request, result)};
        RemoveDrainWaiter(request);
      }
    }

    /** Every waiter is answered once and forgotten, in whatever order the map lists them. */
    method ReplyAllDrainWaiters(result: Reply<()>)
      modifies this`drainWaiters, this`drainMonitors, this`sent
      ensures Reached(old(sent), LeaseModel.ReplyAllDrainWaiters(old(State()), result))
    {
      var todo := drainWaiters.Keys;
      ghost var waiters := drainWaiters;
      hide DrainReplies, WaiterMonitorsOf;
      NobodyAnswered(waiters, result);
      while todo != {}
        invariant todo <= waiters.Keys
        invariant drainWaiters == waiters - (waiters.Keys - todo)
        invariant drainMonitors == old(drainMonitors) - WaiterMonitorsOf(waiters, waiters.Keys - todo)
        invariant sent == old(sent) + DrainReplies(waiters.Keys - todo, result)
      {
        var request :| request in todo;
        ghost var answered := waiters.Keys - todo;
        assert request in drainWaiters && drainWaiters[request] == waiters[request];
        ReplyDrainWaiter(request, result);
        OneMoreWaiter(waiters, answered, request, result);
        todo := todo - {request};
        assert waiters.Keys - todo == answered + {request};
      }
      assert waiters.Keys - todo == waiters.Keys;
      AllAnswered(old(State()));
    }

    /** The scan over the entries: any failed entry without holders, or none. */
    method FirstReleaseFailure() returns (pick: Option<Ref>)
      ensures IsFirstFailure(State(), pick)
    {
      var todo := leases.Keys;
      while todo != {}
        invariant todo <= leases.Keys
        invariant forall t :: t in leases && t !in todo ==> !(leases[t].status.ReleaseFailed? && leases[t].holders == {})
      {
        var token :| token in todo;
        if leases[token].status.ReleaseFailed? && leases[token].holders == {} {
          return Some(token);
        }
        todo := todo - {token};
      }
      return None;
    }

    method CompleteDrain() returns (fate: Fate)
      modifies this`drainWaiters, this`drainMonitors, this`sent
      ensures State() == LeaseModel.CompleteDrain(old(State()), {}).state && fate == StopNormal
      ensures sent == old(sent) + LeaseModel.CompleteDrain(old(State()), {}).sent
    {
      sent := sent + {StopExecutor(releaseExecutor)};
      ReplyAllDrainWaiters(Accepted(()));
      sent := sent + {DrainedNotice};
      return StopNormal;
    }

    predicate Drained()
      reads this
    {
      leases == map[] && issueReservations == map[] && releaseJob.None? && releaseQueue == []
    }

    /** `earlier` is what the current handler has already sent. */
    method StopOrContinueAfterRelease(ghost before: set<Sent>, ghost earlier: set<Sent>) returns (fate: Fate)
      requires sent == before + earlier
      modifies this`drainWaiters, this`drainMonitors, this`sent
      ensures Did(before, StopOrContinue(old(State()), earlier), fate)
    {
      if mode.Draining? && Drained() {
        fate := CompleteDrain();
      } else {
        return Continue;
      }
    }

    method RemoveIssueReservation(request: Ref)
      modifies this`issueReservations, this`protocolMonitors
      ensures State() == LeaseModel.RemoveIssueReservation(request, old(State()))
    {
      if request in issueReservations {
        protocolMonitors := protocolMonitors - {issueReservations[request].monitor};
        issueReservations := issueReservations - {request};
      }
    }

    method RemoveHolder(token: Ref, holder: Ref, e: Entry, supply: Ref) returns (fate: Fate)
      requires JobsHaveEntries(State())
      modifies this
      ensures Did(old(sent), LeaseModel.RemoveHolder(token, holder, e, old(State()), supply), fate)
    {
      if holder !in e.holders {
        counters := counters.(duplicateReleases := counters.duplicateReleases + 1);
        return Continue;
      }
      var left := e.holders - {holder};
      activeHolders := Max(activeHolders - 1, 0);
      if left == {} {
        ghost var s1 := State();
        assert JobsHaveEntries(s1);
        ReleaseEntry(token, e.(holders := left), false, NoWaiter, supply);
        ghost var more := LeaseModel.ReleaseEntry(token, e.(holders := left), s1, false, NoWaiter, supply).1;
        fate := StopOrContinueAfterRelease(old(sent), more);
      } else {
        leases := leases[token := e.(holders := left)];
        return Continue;
      }
    }

    method CancelPendingIssue(token: Ref, supply: Ref) returns (fate: Fate)
      requires JobsHaveEntries(State())
      modifies this
      ensures Did(old(sent), LeaseModel.CancelPendingIssue(token, old(State()), supply), fate)
    {
      if token in leases && leases[token].status.Active? && leases[token].pendingIssue.Some? {
        var e := ClearPendingIssue(leases[token]);
        var removed := |e.holders|;
        activeHolders := Max(activeHolders - removed, 0);
        ghost var s2 := State();
        assert JobsHaveEntries(s2);
        ReleaseEntry(token, e.(holders := {}), false, NoWaiter, supply);
        ghost var more := LeaseModel.ReleaseEntry(token, e.(holders := {}), s2, false, NoWaiter, supply).1;
        fate := StopOrContinueAfterRelease(old(sent), more);
      } else {
        return Continue;
      }
    }

    method PutReleaseTombstone(id: (Ref, Ref), kind: Tombstone)
      requires TombstonesListed(State().tombstones)
      modifies this`releaseTombstones, this`releaseTombstoneOrder, this`tombstoneEvictions, this`abandonmentEvictions
      ensures State() == old(State()).(tombstones := PutTombstone(old(State()).tombstones, id, kind))
    {
      if id in releaseTombstones {
        releaseTombstones := releaseTombstones[id := kind];
      } else {
        releaseTombstones := releaseTombstones[id := kind];
        releaseTombstoneOrder := releaseTombstoneOrder + [id];
        EvictReleaseTombstones();
      }
    }

    method EvictReleaseTombstones()
      requires releaseTombstoneOrder != [] && releaseTombstoneOrder[0] in releaseTombstones
      modifies this`releaseTombstones, this`releaseTombstoneOrder, this`tombstoneEvictions, this`abandonmentEvictions
      ensures State() == old(State()).(tombstones := EvictTombstone(old(State()).tombstones))
    {
      if |releaseTombstones| <= RELEASE_TOMBSTONE_LIMIT {
        return;
      }
      var id := releaseTombstoneOrder[0];
      releaseTombstoneOrder := releaseTombstoneOrder[1..];
      var kind := releaseTombstones[id];
      releaseTombstones := releaseTombstones - {id};
      tombstoneEvictions := tombstoneEvictions + 1;
      if kind.Abandoned? {
        abandonmentEvictions := abandonmentEvictions + 1;
      }
    }

    method ScheduleRetry(token: Ref, attempts: nat, generation: Ref)
      modifies this`retryTimers
      ensures State() == LeaseModel.ScheduleRetry(token, attempts, old(State()), generation)
    {
      if policy.Exponential? {
        if RetryAvailable(attempts, policy) {
          var delay := RetryDelay(attempts, policy);
          retryTimers := retryTimers[token := Timer(generation, attempts + 1, delay)];
        }
      }
    }

    // ---- messages ------------------------------------------------------------------------

    method HandleReserveIssue(metadata: Term, replyTo: Pid, request: Ref, supply: Ref) returns (fate: Fate)
      modifies this
      ensures Did(old(sent), ReserveIssue(old(State()), metadata, replyTo, request, supply), fate)
    {
      fate := Continue;
      if mode.Draining? {
        sent := sent + {ReservedReply(request, Refused(IsDraining))};
      } else if maxActive.Some? && |leases| + |issueReservations| >= maxActive.value {
        sent := sent + {ReservedReply(request, Refused(Capacity))};
      } else {
        issueReservations := issueReservations[request := Reservation(supply + 1, replyTo, supply, metadata)];
        protocolMonitors := protocolMonitors[supply := ForReservation(request)];
        sent := sent + {ReservedReply(request, Accepted(supply + 1))};
      }
    }

    method HandleCommitIssue(reservation: Ref, backend: Term, replyTo: Pid, request: Ref, guard: Guard, now: int, supply: Ref) returns (fate: Fate)
      requires Runnable(State())
      modifies this
      ensures Did(old(sent), CommitIssue(old(State()), reservation, backend, replyTo, request, guard, now, supply), fate)
    {
      if request in issueReservations && issueReservations[request].reservation == reservation && issueReservations[request].replyTo == replyTo {
        var r := issueReservations[request];
        issueReservations := issueReservations - {request};
        protocolMonitors := protocolMonitors[r.monitor := ForIssuePending(request)];
        AcceptCommit(backend, r.metadata, request, r.monitor, guard, now, supply);
        return Continue;
      } else {
        sent := sent + {CorruptionNotice(reservation)};
        return StopCorrupt(reservation);
      }
    }

    method AcceptCommit(backend: Term, metadata: Term, request: Ref, monitor: Ref, guard: Guard, now: int, supply: Ref)
      requires Runnable(State())
      modifies this
      ensures Did(old(sent), LeaseModel.AcceptCommit(backend, metadata, request, monitor, old(State()), guard, now, supply), Continue)
    {
      hide LeaseModel.AcceptCommit;
      match guard
      case GuardBuilt => PublishLease(backend, metadata, request, monitor, now, supply);
      case GuardFailed(code) => RejectIssue(backend, metadata, request, monitor, code, now, supply);
    }

    method PublishLease(backend: Term, metadata: Term, request: Ref, monitor: Ref, now: int, supply: Ref)
      requires Runnable(State())
      modifies this
      ensures Did(old(sent), LeaseModel.AcceptCommit(backend, metadata, request, monitor, old(State()), GuardBuilt, now, supply), Continue)
    {
      hide LeaseModel.ReleaseEntry, Runnable;
      ghost var o := LeaseModel.AcceptCommit(backend, metadata, request, monitor, State(), GuardBuilt, now, supply);
      var token, holder := supply + 2, supply + 3;
      leases := leases[token := Entry(backend, {holder}, now, metadata, Some(holder), Some(Pending(monitor, request)), map[], 0, Active)];
      pendingIssues := pendingIssues[request := token];
      protocolMonitors := protocolMonitors[monitor := ForIssue(token, request)];
      activeHolders := activeHolders + 1;
      leaseAgeIndex := leaseAgeIndex + {(now, token)};
      counters := counters.(issuedLeases := counters.issuedLeases + 1, issuedHolders := counters.issuedHolders + 1);
      sent := sent + {IssuedReply(request, Accepted((token, holder)))};
      assert State() == o.state;
      assert sent == old(sent) + o.sent;
    }

    /** The guard factory failed: the token is accepted all the same, and goes straight to its release. */
    method RejectIssue(backend: Term, metadata: Term, request: Ref, monitor: Ref, code: Term, now: int, supply: Ref)
      requires Runnable(State())
      modifies this
      ensures Did(old(sent), LeaseModel.AcceptCommit(backend, metadata, request, monitor, old(State()), GuardFailed(code), now, supply), Continue)
    {
      hide LeaseModel.ReleaseEntry;
      var token := supply + 2;
      protocolMonitors := protocolMonitors - {monitor};
      var e := Entry(backend, {}, now, metadata, None, None, map[], 0, Active);
      leases := leases[token := e];
      leaseAgeIndex := leaseAgeIndex + {(now, token)};
      assert JobsHaveEntries(State());
      ReleaseEntry(token, e, false, IssueWaiter(request, code), supply + 4);
    }

    method HandleCancelReservation(request: Ref) returns (fate: Fate)
      modifies this
      ensures Did(old(sent), CancelReservation(old(State()), request), fate)
    {
      RemoveIssueReservation(request);
      fate := StopOrContinueAfterRelease(old(sent), {});
    }

    method HandleAbandoned(token: Ref, holder: Ref, supply: Ref) returns (fate: Fate)
      requires Runnable(State())
      modifies this
      ensures Did(old(sent), AbandonedMessage(old(State()), token, holder, supply), fate)
    {
      hide LeaseModel.RemoveHolder, PutTombstone;
      if token in leases && leases[token].status.Active? && holder in leases[token].holders {
        var e := ClearPendingRetain(holder, leases[token]);
        counters := counters.(abandonments := counters.abandonments + 1);
        PutReleaseTombstone((token, holder), Abandoned);
        fate := RemoveHolder(token, holder, e, supply);
      } else {
        return Continue;
      }
    }

    method HandleRelease(token: Ref, holder: Ref, supply: Ref) returns (fate: Fate)
      requires Runnable(State())
      modifies this
      ensures Did(old(sent), ReleaseMessage(old(State()), token, holder, supply), fate)
    {
      hide LeaseModel.RemoveHolder, PutTombstone;
      var id := (token, holder);
      fate := Continue;
      if id in releaseTombstones {
        if releaseTombstones[id].Abandoned? {
          releaseTombstones := releaseTombstones[id := Explicit];
          counters := counters.(lateReleases := counters.lateReleases + 1);
        } else {
          counters := counters.(duplicateReleases := counters.duplicateReleases + 1);
        }
      } else if token in leases && leases[token].status.Active? && holder in leases[token].holders {
        var e := ClearPendingRetain(holder, leases[token]);
        counters := counters.(explicitReleases := counters.explicitReleases + 1);
        PutReleaseTombstone(id, Explicit);
        fate := RemoveHolder(token, holder, e, supply);
      } else {
        counters := counters.(unclassifiedReleases := counters.unclassifiedReleases + 1);
      }
    }

    method HandleConfirmIssue(token: Ref, request: Ref) returns (fate: Fate)
      modifies this
      ensures Did(old(sent), ConfirmIssue(old(State()), token, request), fate)
    {
      fate := Continue;
      if token in leases && leases[token].status.Active? && leases[token].pendingIssue.Some? && leases[token].pendingIssue.value.request == request {
        var e := ClearPendingIssue(leases[token]);
        leases := leases[token := e];
      }
    }

    method HandleCancelIssue(request: Ref, supply: Ref) returns (fate: Fate)
      requires Runnable(State())
      modifies this
      ensures Did(old(sent), CancelIssue(old(State()), request, supply), fate)
    {
      if request in pendingIssues {
        fate := CancelPendingIssue(pendingIssues[request], supply);
      } else {
        return Continue;
      }
    }

    method AddHolder(token: Ref, child: Ref, request: Ref, monitor: Ref)
      requires token in leases
      modifies this`leases, this`protocolMonitors, this`activeHolders, this`counters
      ensures State() == WithHolder(old(State()), token, child, request, monitor)
    {
      var e := leases[token];
      e := e.(holders := e.holders + {child}, pendingRetains := e.pendingRetains[child := Pending(monitor, request)]);
      leases := leases[token := e];
      protocolMonitors := protocolMonitors[monitor := ForRetain(token, child)];
      activeHolders := activeHolders + 1;
      counters := counters.(issuedHolders := counters.issuedHolders + 1);
    }

    method HandleRetain(token: Ref, parent: Ref, child: Ref, request: Ref, guard: Guard, supply: Ref) returns (fate: Fate)
      modifies this
      ensures Did(old(sent), Retain(old(State()), token, parent, child, request, guard, supply), fate)
    {
      fate := Continue;
      ghost var before := State();
      counters := counters.(retainRequests := counters.retainRequests + 1);
      if mode.Draining? {
        sent := sent + {RetainedReply(request, Refused(IsDraining))};
      } else {
        RetainHolder(token, parent, child, request, guard, supply, before);
      }
    }

    method RetainHolder(token: Ref, parent: Ref, child: Ref, request: Ref, guard: Guard, supply: Ref, ghost before: Owner)
      requires mode.Open? && State() == before.(counters := before.counters.(retainRequests := before.counters.retainRequests + 1))
      modifies this
      ensures Did(old(sent), Retain(before, token, parent, child, request, guard, supply), Continue)
    {
      RetainIs(before, token, parent, child, request, guard, supply);
      hide Retain, WithHolder;
      if token !in leases {
        sent := sent + {RetainedReply(request, Refused(UnknownLease))};
      } else if !leases[token].status.Active? {
        sent := sent + {RetainedReply(request, Refused(LeaseNotActive))};
      } else if parent !in leases[token].holders {
        sent := sent + {RetainedReply(request, Refused(UnknownParentHolder))};
      } else if child in leases[token].holders {
        sent := sent + {RetainedReply(request, Refused(DuplicateHolder))};
      } else {
        match guard
        case GuardBuilt =>
          AddHolder(token, child, request, supply);
          sent := sent + {RetainedReply(request, Accepted(child))};
        case GuardFailed(code) =>
          sent := sent + {RetainedReply(request, Refused(GuardFactoryFailed(code)))};
      }
    }

    method HandleConfirmRetain(token: Ref, child: Ref, request: Ref) returns (fate: Fate)
      modifies this
      ensures Did(old(sent), ConfirmRetain(old(State()), token, child, request), fate)
    {
      fate := Continue;
      if token in leases && leases[token].status.Active? && child in leases[token].pendingRetains
         && leases[token].pendingRetains[child].request == request
      {
        var monitor := leases[token].pendingRetains[child].monitor;
        leases := leases[token := leases[token].(pendingRetains := leases[token].pendingRetains - {child})];
        protocolMonitors := protocolMonitors - {monitor};
      }
    }

    method HandleCancelRetain(token: Ref, child: Ref, supply: Ref) returns (fate: Fate)
      requires Runnable(State())
      modifies this
      ensures Did(old(sent), CancelRetain(old(State()), token, child, supply), fate)
    {
      counters := counters.(retainCancellations := counters.retainCancellations + 1);
      if token in leases && leases[token].status.Active? && leases[token].root != Some(child) {
        var e := ClearPendingRetain(child, leases[token]);
        assert JobsHaveEntries(State());
        fate := RemoveHolder(token, child, e, supply);
      } else {
        return Continue;
      }
    }

    /** Admission closes first; then a failed release, an empty owner, or neither decides the answer. */
    method AddDrainWaiter(replyTo: Pid, request: Ref, monitor: Ref)
      modifies this`mode, this`drainWaiters, this`drainMonitors
      ensures State() == old(State()).(mode := Draining, drainWaiters := old(drainWaiters)[request := DrainWaiter(replyTo, monitor)],
                                       drainMonitors := old(drainMonitors)[monitor := request])
    {
      mode := Draining;
      drainWaiters := drainWaiters[request := DrainWaiter(replyTo, monitor)];
      drainMonitors := drainMonitors[monitor := request];
    }

    method HandleDrain(replyTo: Pid, request: Ref, supply: Ref) returns (fate: Fate, ghost pick: Option<Ref>)
      modifies this
      ensures IsFirstFailure(old(State()), pick)
      ensures Did(old(sent), Drain(old(State()), replyTo, request, pick, supply), fate)
    {
      AddDrainWaiter(replyTo, request, supply);
      var first := FirstReleaseFailure();
      pick := first;
      if first.Some? {
        ReplyDrainWaiter(request, Refused(leases[first.value].status.reason));
        return Continue, pick;
      } else if leases == map[] && issueReservations == map[] {
        fate := CompleteDrain();
      } else {
        return Continue, pick;
      }
    }

    method HandleCancelDrain(request: Ref) returns (fate: Fate)
      modifies this
      ensures Did(old(sent), CancelDrain(old(State()), request), fate)
    {
      RemoveDrainWaiter(request);
      return Continue;
    }

    method ReplyReleaseWaiter(waiter: Waiter, result: CallbackResult, token: Ref)
      modifies this`sent
      ensures sent == old(sent) + JobReply(waiter, result, token)
    {
      match waiter
      case NoWaiter =>
      case RetryWaiter(from) =>
        sent := sent + {RetryReply(from, if result.CallbackOk? then Accepted(()) else Refused(result.reason))};
      case IssueWaiter(request, code) =>
        sent := sent + {IssuedReply(request, Refused(if result.CallbackOk? then GuardFactoryFailed(code) else RejectedAndStuck(code, token)))};
    }

    method CountCallback(retry: bool)
      modifies this`counters
      ensures counters == old(counters).(callbacks := old(counters).callbacks + 1, retries := old(counters).retries + if retry then 1 else 0)
    {
      counters := counters.(callbacks := counters.callbacks + 1);
      if retry {
        counters := counters.(retries := counters.retries + 1);
      }
    }

    method ForgetEntry(token: Ref)
      requires token in leases
      modifies this`leases, this`leaseAgeIndex
      ensures leases == old(leases) - {token}
      ensures leaseAgeIndex == old(leaseAgeIndex) - {(old(leases)[token].issuedAt, token)}
    {
      leaseAgeIndex := leaseAgeIndex - {(leases[token].issuedAt, token)};
      leases := leases - {token};
    }

    /** `finish_release_job`, the branch of an acknowledged success up to the next dispatch. */
    method Acknowledge(job: Job)
      requires releaseJob == Some(job) && job.token in leases
      modifies this`releaseJob, this`counters, this`leases, this`leaseAgeIndex
      ensures State() == Acknowledged(old(State()), job) && sent == old(sent)
    {
      releaseJob := None;
      CountCallback(job.retry);
      ForgetEntry(job.token);
    }

    method ReportSuccess(job: Job)
      modifies this`sent
      ensures sent == old(sent) + ({ReleasedNotice(job.token)} + JobReply(job.waiter, CallbackOk, job.token))
    {
      hide JobReply;
      sent := sent + {ReleasedNotice(job.token)};
      ReplyReleaseWaiter(job.waiter, CallbackOk, job.token);
    }

    method MarkFailed(job: Job, reason: Reason)
      requires releaseJob == Some(job) && job.token in leases
      modifies this`releaseJob, this`leases, this`counters
      ensures State() == Marked(old(State()), job, reason)
    {
      releaseJob := None;
      CountCallback(job.retry);
      leases := leases[job.token := leases[job.token].(status := ReleaseFailed(reason))];
      counters := counters.(failures := counters.failures + 1);
    }

    /** The branch of a failure: the entry stays, every drain waiter hears of it, and a retry may be scheduled. */
    method RecordFailure(job: Job, reason: Reason, supply: Ref)
      requires releaseJob == Some(job) && job.token in leases
      modifies this
      ensures State() == Recorded(old(State()), job, reason, supply)
      ensures sent == old(sent) + ({FailedNotice(job.token, reason)} + JobReply(job.waiter, CallbackError(reason), job.token)
                                   + DrainReplies(old(drainWaiters).Keys, Refused(reason)))
    {
      hide LeaseModel.ReplyAllDrainWaiters, LeaseModel.ScheduleRetry, JobReply, DrainReplies, Marked;
      var attempts := leases[job.token].attempts;
      MarkFailed(job, reason);
      sent := sent + {FailedNotice(job.token, reason)};
      ReplyReleaseWaiter(job.waiter, CallbackError(reason), job.token);
      RepliesSent(State(), Refused(reason));
      ReplyAllDrainWaiters(Refused(reason));
      ScheduleRetry(job.token, attempts, supply + 5);
    }

    method Settle(job: Job, result: CallbackResult, supply: Ref)
      requires releaseJob == Some(job) && job.token in leases
      modifies this
      ensures State() == Settled(old(State()), job, result, supply)
      ensures sent == old(sent) + Answered(old(State()), job, result)
    {
      hide Acknowledged, Recorded, JobReply, DrainReplies;
      if result.CallbackOk? {
        Acknowledge(job);
        ReportSuccess(job);
      } else {
        RecordFailure(job, result.reason, supply);
      }
    }

    method FinishReleaseJob(token: Ref, generation: Ref, result: CallbackResult, supply: Ref) returns (fate: Fate)
      requires Runnable(State())
      modifies this
      ensures Did(old(sent), FinishJob(old(State()), token, generation, result, supply), fate)
    {
      if releaseJob.Some? && releaseJob.value.token == token && releaseJob.value.generation == generation
         && token in leases && leases[token].status == Releasing(generation)
      {
        var job := releaseJob.value;
        FinishedHere(old(State()), token, generation, result, supply);
        hide Settled, Answered, FinishJob, StopOrContinue, Runnable;
        Settle(job, result, supply);
        ghost var settled := State();
        DispatchNextRelease();
        ghost var said := Answered(old(State()), job, result) + Dispatch(settled).1;
        assert sent == old(sent) + said;
        fate := StopOrContinueAfterRelease(old(sent), said);
      } else {
        counters := counters.(malformed := counters.malformed + 1);
        return Continue;
      }
    }

    method HandleReleaseResult(executor: Ref, token: Ref, generation: Ref, result: CallbackResult, supply: Ref) returns (fate: Fate)
      requires Runnable(State())
      modifies this
      ensures Did(old(sent), ReleaseResult(old(State()), executor, token, generation, result, supply), fate)
    {
      if executor == releaseExecutor {
        fate := FinishReleaseJob(token, generation, result, supply);
      } else {
        return Continue;
      }
    }

    method HandleReleaseExecutorDown(code: Term, supply: Ref) returns (fate: Fate)
      requires Runnable(State())
      modifies this
      ensures Did(old(sent), LeaseModel.ExecutorDown(old(State()), code, supply), fate)
    {
      counters := counters.(executorRestarts := counters.executorRestarts + 1);
      releaseExecutor := supply + 6;
      assert Runnable(State());
      if releaseJob.None? {
        DispatchNextRelease();
        return Continue;
      } else {
        fate := FinishReleaseJob(releaseJob.value.token, releaseJob.value.generation, CallbackError(ExecutorDied(code)), supply);
      }
    }

    method HandleRetryTimer(token: Ref, generation: Ref, supply: Ref) returns (fate: Fate)
      requires Runnable(State())
      modifies this
      ensures Did(old(sent), RetryTimerFired(old(State()), token, generation, supply), fate)
    {
      fate := Continue;
      if token in retryTimers && retryTimers[token].generation == generation {
        retryTimers := retryTimers - {token};
        if token in leases && leases[token].status.ReleaseFailed? {
          assert JobsHaveEntries(State());
          ReleaseEntry(token, leases[token], true, NoWaiter, supply);
        }
      }
    }

    method HandleRetryCall(token: Ref, from: Ref, supply: Ref) returns (fate: Fate)
      requires Runnable(State())
      modifies this
      ensures Did(old(sent), RetryCall(old(State()), token, from, supply), fate)
    {
      fate := Continue;
      CancelRetryTimer(token);
      if token !in leases {
        sent := sent + {RetryReply(from, Refused(UnknownLease))};
      } else if leases[token].status.ReleaseFailed? {
        assert JobsHaveEntries(State());
        ReleaseEntry(token, leases[token], true, RetryWaiter(from), supply);
      } else if leases[token].status.Active? {
        sent := sent + {RetryReply(from, Refused(NotReleaseFailed))};
      } else {
        sent := sent + {RetryReply(from, Refused(ReleaseInProgress))};
      }
    }

    /** `close`, and the death of the producer. */
    method HandleClose() returns (fate: Fate)
      modifies this
      ensures Did(old(sent), BeginDrain(old(State())), fate)
    {
      mode := Draining;
      if Drained() {
        fate := CompleteDrain();
      } else {
        return Continue;
      }
    }

    method HandleMonitorDown(monitor: Ref, supply: Ref) returns (fate: Fate)
      requires Runnable(State())
      modifies this
      ensures Did(old(sent), MonitorDown(old(State()), monitor, supply), fate)
    {
      fate := Continue;
      if monitor in protocolMonitors {
        var purpose := protocolMonitors[monitor];
        protocolMonitors := protocolMonitors - {monitor};
        assert JobsHaveEntries(State());
        match purpose
        case ForReservation(request) =>
          RemoveIssueReservation(request);
          fate := StopOrContinueAfterRelease(old(sent), {});
        case ForIssuePending(request) =>
          RemoveIssueReservation(request);
          fate := StopOrContinueAfterRelease(old(sent), {});
        case ForRetain(token, child) =>
          if token in leases && leases[token].status.Active? {
            var e := leases[token];
            fate := RemoveHolder(token, child, e.(pendingRetains := e.pendingRetains - {child}), supply);
          }
        case ForIssue(token, _) =>
          fate := CancelPendingIssue(token, supply);
      } else if monitor in drainMonitors {
        RemoveDrainWaiter(drainMonitors[monitor]);
      }
    }

    /** The clause of `handle_info` or `handle_call` that takes the message. `served` records the failed entry a drain found. */
    method HandleInfo(m: Message, supply: Ref) returns (fate: Fate, ghost served: Message)
      requires Runnable(State())
      modifies this
      ensures served == m || (m.DrainMsg? && served.DrainMsg? && served == m.(pick := served.pick))
      ensures served.DrainMsg? ==> IsFirstFailure(old(State()), served.pick)
      ensures Did(old(sent), Handle(old(State()), served, supply), fate)
    {
      served := m;
      hide IsFirstFailure, Runnable, Did;
      hide ReserveIssue, CommitIssue, CancelReservation, AbandonedMessage, ReleaseMessage, ConfirmIssue, CancelIssue, Retain;
      hide ConfirmRetain, CancelRetain, LeaseModel.Drain, CancelDrain, ReleaseResult, ExecutorDown, RetryTimerFired, RetryCall, BeginDrain, MonitorDown;
      match m
      case ReserveMsg(metadata, replyTo, request) => fate := HandleReserveIssue(metadata, replyTo, request, supply);
      case CommitMsg(reservation, backend, replyTo, request, guard, now) =>
        fate := HandleCommitIssue(reservation, backend, replyTo, request, guard, now, supply);
      case CancelReservationMsg(request) => fate := HandleCancelReservation(request);
      case AbandonedMsg(token, holder) => fate := HandleAbandoned(token, holder, supply);
      case ReleaseMsg(token, holder) => fate := HandleRelease(token, holder, supply);
      case ConfirmIssueMsg(token, request) => fate := HandleConfirmIssue(token, request);
      case CancelIssueMsg(request) => fate := HandleCancelIssue(request, supply);
      case RetainMsg(token, parent, child, request, guard) => fate := HandleRetain(token, parent, child, request, guard, supply);
      case ConfirmRetainMsg(token, child, request) => fate := HandleConfirmRetain(token, child, request);
      case CancelRetainMsg(token, child) => fate := HandleCancelRetain(token, child, supply);
      case DrainMsg(replyTo, request, _) =>
        ghost var pick;
        fate, pick := HandleDrain(replyTo, request, supply);
        served := m.(pick := pick);
      case CancelDrainMsg(request) => fate := HandleCancelDrain(request);
      case ResultMsg(executor, token, generation, result) => fate := HandleReleaseResult(executor, token, generation, result, supply);
      case ExecutorDownMsg(code) => fate := HandleReleaseExecutorDown(code, supply);
      case RetryTimerMsg(token, generation) => fate := HandleRetryTimer(token, generation, supply);
      case RetryCallMsg(token, from) => fate := HandleRetryCall(token, from, supply);
      case BeginDrainMsg => fate := HandleClose();
      case MonitorDownMsg(monitor) => fate := HandleMonitorDown(monitor, supply);
      case MalformedMsg => fate := HandleMalformed();
    }

    method HandleMalformed() returns (fate: Fate)
      modifies this
      ensures Did(old(sent), Out(old(State()).(counters := counters), {}, Continue), fate)
      ensures counters == old(counters).(malformed := old(counters).malformed + 1)
    {
      counters := counters.(malformed := counters.malformed + 1);
      return Continue;
    }

    /** One turn of the mailbox: the tables stay consistent, and the process stops only when they are empty. */
    method Serve(m: Message, supply: Ref) returns (fate: Fate, ghost served: Message)
      requires Running(State()) && Admissible(State(), m, supply)
      modifies this
      ensures Running(old(State())) && Admissible(old(State()), served, supply) && Runnable(old(State()))
      ensures Did(old(sent), Handle(old(State()), served, supply), fate)
      ensures fate.Continue? ==> Running(State())
      ensures !fate.Continue? ==> fate.StopNormal? && IsDrained(State()) && drainWaiters == map[]
    {
      hide Running, Inv, Unused, CommitMatches, IsFirstFailure, Runnable, Handle, IsDrained;
      RunningIsRunnable(State());
      fate, served := HandleInfo(m, supply);
      HandleGood(old(State()), served, supply);
    }
  }

  // ---- what the loops and the two-part handlers rest on ------------------------------------

  lemma InitialRunning(maxActive: Option<nat>, policy: RetryPolicy, executor: Ref)
    ensures Running(InitialOwner(maxActive, policy, executor))
  {
  }

  lemma RepliesSent(s: Owner, result: Reply<()>)
    ensures LeaseModel.ReplyAllDrainWaiters(s, result).1 == DrainReplies(s.drainWaiters.Keys, result)
  {
  }

  lemma OneMoreRetain(pending: map<Ref, Pending>, done: set<Ref>, holder: Ref)
    requires holder in pending
    ensures MonitorsOf(pending, done + {holder}) == MonitorsOf(pending, done) + {pending[holder].monitor}
  {
  }

  lemma NobodyAnswered(waiters: map<Ref, DrainWaiter>, result: Reply<()>)
    ensures WaiterMonitorsOf(waiters, waiters.Keys - waiters.Keys) == {} && DrainReplies(waiters.Keys - waiters.Keys, result) == {}
    ensures waiters - (waiters.Keys - waiters.Keys) == waiters
  {
    assert waiters.Keys - waiters.Keys == {};
  }

  lemma AllAnswered(s: Owner)
    ensures WaiterMonitorsOf(s.drainWaiters, s.drainWaiters.Keys) == WaiterMonitors(s)
    ensures s.drainWaiters - s.drainWaiters.Keys == map[]
  {
  }

  lemma OneMoreWaiter(waiters: map<Ref, DrainWaiter>, done: set<Ref>, request: Ref, result: Reply<()>)
    requires request in waiters
    ensures WaiterMonitorsOf(waiters, done + {request}) == WaiterMonitorsOf(waiters, done) + {waiters[request].monitor}
    ensures DrainReplies(done + {request}, result) == DrainReplies(done, result) + {DrainedReply(request, result)}
    ensures waiters - done - {request} == waiters - (done + {request})
  {
  }

  /** Queueing a job for an entry keeps every queued job's entry in place. */
  lemma EnqueuedHere(s: Owner, token: Ref, e: Entry, retry: bool, waiter: Waiter, generation: Ref)
    requires JobsHaveEntries(s)
    ensures JobsHaveEntries(Enqueue(token, e, s, retry, waiter, generation))
  {
  }

  ghost function WithHolder(s: Owner, token: Ref, child: Ref, request: Ref, monitor: Ref): Owner
    requires token in s.leases
  {
    var e := s.leases[token];
    s.(leases := s.leases[token := e.(holders := e.holders + {child}, pendingRetains := e.pendingRetains[child := Pending(monitor, request)])],
       monitors := s.monitors[monitor := ForRetain(token, child)],
       activeHolders := s.activeHolders + 1,
       counters := s.counters.(issuedHolders := s.counters.issuedHolders + 1))
  }

  /** Who may be refused a child holder, in the order the checks are made. */
  ghost function Refusal(s: Owner, token: Ref, parent: Ref, child: Ref, guard: Guard): Option<Reason> {
    if s.mode.Draining? then Some(IsDraining)
    else if token !in s.leases then Some(UnknownLease)
    else if !s.leases[token].status.Active? then Some(LeaseNotActive)
    else if parent !in s.leases[token].holders then Some(UnknownParentHolder)
    else if child in s.leases[token].holders then Some(DuplicateHolder)
    else if guard.GuardFailed? then Some(GuardFactoryFailed(guard.code))
    else None
  }

  lemma RetainIs(s: Owner, token: Ref, parent: Ref, child: Ref, request: Ref, guard: Guard, supply: Ref)
    ensures var s0 := s.(counters := s.counters.(retainRequests := s.counters.retainRequests + 1));
            match Refusal(s, token, parent, child, guard)
            case Some(reason) => Retain(s, token, parent, child, request, guard, supply) == Out(s0, {RetainedReply(request, Refused(reason))}, Continue)
            case None =>
              token in s0.leases
              && Retain(s, token, parent, child, request, guard, supply)
                 == Out(WithHolder(s0, token, child, request, supply), {RetainedReply(request, Accepted(child))}, Continue)
  {
  }

  ghost function Acknowledged(s: Owner, job: Job): Owner
    requires job.token in s.leases
  {
    s.(job := None,
       counters := s.counters.(callbacks := s.counters.callbacks + 1, retries := s.counters.retries + if job.retry then 1 else 0),
       leases := s.leases - {job.token},
       ageIndex := s.ageIndex - {(s.leases[job.token].issuedAt, job.token)})
  }

  ghost function Marked(s: Owner, job: Job, reason: Reason): Owner
    requires job.token in s.leases
  {
    var c := s.counters;
    s.(job := None,
       counters := c.(callbacks := c.callbacks + 1, retries := c.retries + (if job.retry then 1 else 0), failures := c.failures + 1),
       leases := s.leases[job.token := s.leases[job.token].(status := ReleaseFailed(reason))])
  }

  ghost function Recorded(s: Owner, job: Job, reason: Reason, supply: Ref): Owner
    requires job.token in s.leases
  {
    ScheduleRetry(job.token, s.leases[job.token].attempts, ReplyAllDrainWaiters(Marked(s, job, reason), Refused(reason)).0, supply + 5)
  }

  /** The messages of a finished job, before the next one is dispatched. */
  ghost function Answered(s: Owner, job: Job, result: CallbackResult): set<Sent> {
    match result
    case CallbackOk => {ReleasedNotice(job.token)} + JobReply(job.waiter, result, job.token)
    case CallbackError(reason) =>
      {FailedNotice(job.token, reason)} + JobReply(job.waiter, result, job.token) + DrainReplies(s.drainWaiters.Keys, Refused(reason))
  }

  ghost function Settled(s: Owner, job: Job, result: CallbackResult, supply: Ref): Owner
    requires job.token in s.leases
  {
    if result.CallbackOk? then Acknowledged(s, job) else Recorded(s, job, result.reason, supply)
  }

  /** A finished job: settle, dispatch the next, then stop or go on. */
  lemma FinishedHere(s: Owner, token: Ref, generation: Ref, result: CallbackResult, supply: Ref)
    requires Runnable(s)
    requires s.job.Some? && s.job.value.token == token && s.job.value.generation == generation
    requires token in s.leases && s.leases[token].status == Releasing(generation)
    ensures JobsHaveEntries(Settled(s, s.job.value, result, supply))
    ensures FinishJob(s, token, generation, result, supply) ==
            StopOrContinue(Dispatch(Settled(s, s.job.value, result, supply)).0,
                           Answered(s, s.job.value, result) + Dispatch(Settled(s, s.job.value, result, supply)).1)
  {
  }
}
