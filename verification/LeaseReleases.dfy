/** When the release callback runs, when it is retried, and what `stats` says about age. */
module LeaseReleases {
  import opened Common
  import opened LeaseModel
  import opened LeaseInvariant
  import opened LeaseHandlers

  // ---- dispatching the callback ------------------------------------------------------------

  /** `o` hands the executor at most the job it now waits for, and never one that was already in flight. */
  ghost predicate DispatchesNew(before: Option<Job>, o: Out) {
    forall x :: x in o.sent && x.ExecuteRelease? ==>
      && o.state.job.Some?
      && x == ExecuteRelease(o.state.executor, o.state.job.value.token, o.state.job.value.generation, o.state.job.value.backend)
      && (before.Some? ==> before.value.token != o.state.job.value.token)
  }

  ghost predicate Quiet(sent: set<Sent>) { forall x :: x in sent ==> !x.ExecuteRelease? }

  lemma QuietDispatches(before: Option<Job>, o: Out)
    requires Quiet(o.sent)
    ensures DispatchesNew(before, o)
  {
  }

  lemma DispatchIsNew(s: Owner, before: Option<Job>)
    requires JobsHaveEntries(s)
    requires before.Some? && s.job.None? && s.queue != [] ==> s.queue[0].token != before.value.token
    ensures DispatchesNew(before, Out(Dispatch(s).0, Dispatch(s).1, Continue))
  {
  }

  lemma StopIsNew(before: Option<Job>, s: Owner, sent: set<Sent>)
    requires DispatchesNew(before, Out(s, sent, Continue))
    ensures DispatchesNew(before, StopOrContinue(s, sent))
  {
  }

  lemma ReleaseEntryIsNew(token: Ref, e: Entry, s: Owner, retry: bool, waiter: Waiter, generation: Ref)
    requires JobsHaveEntries(s)
    ensures var (r, sent) := ReleaseEntry(token, e, s, retry, waiter, generation);
            DispatchesNew(s.job, Out(r, sent, Continue)) && DispatchesNew(s.job, StopOrContinue(r, sent))
  {
    var q := Enqueue(token, e, s, retry, waiter, generation);
    assert q.job == s.job;
    DispatchIsNew(q, s.job);
    var (r, sent) := ReleaseEntry(token, e, s, retry, waiter, generation);
    StopIsNew(s.job, r, sent);
  }

  lemma RemoveHolderIsNew(token: Ref, holder: Ref, e: Entry, s: Owner, supply: Ref)
    requires JobsHaveEntries(s)
    ensures DispatchesNew(s.job, RemoveHolder(token, holder, e, s, supply))
  {
    if holder in e.holders && e.holders - {holder} == {} {
      ReleaseEntryIsNew(token, e.(holders := e.holders - {holder}), s.(activeHolders := Max(s.activeHolders - 1, 0)), false, NoWaiter, supply);
    }
    hide ReleaseEntry, StopOrContinue;
  }

  lemma CancelPendingIsNew(token: Ref, s: Owner, supply: Ref)
    requires JobsHaveEntries(s)
    ensures DispatchesNew(s.job, CancelPendingIssue(token, s, supply))
  {
    if token in s.leases && s.leases[token].status.Active? && s.leases[token].pendingIssue.Some? {
      CancelledShape(s, token, supply);
      var d := Cancelled(s, token);
      assert d.job == s.job;
      hide CancelPendingIssue, Cancelled, ReleaseEntry, StopOrContinue, DispatchesNew, JobsHaveEntries;
      ReleaseEntryIsNew(token, d.leases[token], d, false, NoWaiter, supply);
    }
  }

  lemma NamedIsNew(s: Owner, t: Ref, h: Ref, supply: Ref)
    requires Runnable(s)
    ensures DispatchesNew(s.job, AbandonedMessage(s, t, h, supply))
    ensures DispatchesNew(s.job, ReleaseMessage(s, t, h, supply))
  {
    if Held(s, t, h) {
      NamedMessage(s, t, h, supply);
      var e := ClearPendingRetain(h, s.leases[t], s).0;
      RemoveHolderIsNew(t, h, e, Named(s, t, h, Abandoned), supply);
      RemoveHolderIsNew(t, h, e, Named(s, t, h, Explicit), supply);
      assert Named(s, t, h, Abandoned).job == s.job && Named(s, t, h, Explicit).job == s.job;
    }
    hide RemoveHolder, PutTombstone, Runnable, Named;
  }

  lemma CancelRetainIsNew(s: Owner, t: Ref, child: Ref, supply: Ref)
    requires Runnable(s)
    ensures DispatchesNew(s.job, CancelRetain(s, t, child, supply))
  {
    var s0 := s.(counters := s.counters.(retainCancellations := s.counters.retainCancellations + 1));
    QuietDispatches(s.job, Out(s0, {}, Continue));
    CancelRetainStep(s, t, child, supply);
    if t in s.leases {
      var s1 := ClearPendingRetain(child, s.leases[t], s0).1;
      assert s1.job == s.job;
      hide *;
      if s.leases[t].status.Active? && s.leases[t].root != Some(child) {
        RemoveHolderIsNew(t, child, ClearPendingRetain(child, s.leases[t], s0).0, s1, supply);
      }
    }
    hide *;
  }

  lemma CommitIsNew(s: Owner, reservation: Ref, backend: Term, replyTo: Pid, request: Ref, guard: Guard, now: int, supply: Ref)
    requires Runnable(s)
    ensures DispatchesNew(s.job, CommitIssue(s, reservation, backend, replyTo, request, guard, now, supply))
  {
    if CommitMatches(s, reservation, replyTo, request) && guard.GuardFailed? {
      RejectedIsRelease(s, reservation, backend, replyTo, request, guard.code, now, supply);
      var q := Rejected(s, backend, request, now, supply + 2);
      ReleaseEntryIsNew(supply + 2, q.leases[supply + 2], q, false, IssueWaiter(request, guard.code), supply + 4);
    }
    hide ReleaseEntry;
  }

  lemma JobReplyQuiet(waiter: Waiter, result: CallbackResult, token: Ref)
    ensures Quiet(JobReply(waiter, result, token))
  {
  }

  lemma FinishOkIsNew(s: Owner, t: Ref, generation: Ref, supply: Ref)
    requires Runnable(s) && AnswersJob(s, t, generation)
    ensures DispatchesNew(s.job, FinishJob(s, t, generation, CallbackOk, supply))
  {
    var r := Succeeded(s, t);
    FinishOkShape(s, t, generation, supply);
    JobReplyQuiet(s.job.value.waiter, CallbackOk, t);
    assert r.queue == s.queue;
    hide FinishJob, Dispatch, StopOrContinue, JobReply, Succeeded;
    DispatchIsNew(r, s.job);
    StopIsNew(s.job, Dispatch(r).0, {ReleasedNotice(t)} + JobReply(s.job.value.waiter, CallbackOk, t) + Dispatch(r).1);
  }

  lemma FinishErrorIsNew(s: Owner, t: Ref, generation: Ref, reason: Reason, supply: Ref)
    requires Runnable(s) && AnswersJob(s, t, generation) && WaitersInv(s)
    ensures DispatchesNew(s.job, FinishJob(s, t, generation, CallbackError(reason), supply))
  {
    var r := Failed(s, t, reason, supply + 5);
    FinishErrorShape(s, t, generation, reason, supply);
    JobReplyQuiet(s.job.value.waiter, CallbackError(reason), t);
    assert r.queue == s.queue;
    hide FinishJob, Dispatch, StopOrContinue, JobReply, WaitersInv, Failed;
    DispatchIsNew(r, s.job);
    StopIsNew(s.job, Dispatch(r).0, {FailedNotice(t, reason)} + JobReply(s.job.value.waiter, CallbackError(reason), t)
                                    + DrainReplies(s.drainWaiters.Keys, Refused(reason)) + Dispatch(r).1);
  }

  lemma FinishIsNew(s: Owner, t: Ref, generation: Ref, result: CallbackResult, supply: Ref)
    requires Runnable(s) && WaitersInv(s)
    ensures DispatchesNew(s.job, FinishJob(s, t, generation, result, supply))
  {
    if AnswersJob(s, t, generation) {
      match result
      case CallbackOk => FinishOkIsNew(s, t, generation, supply);
      case CallbackError(reason) => FinishErrorIsNew(s, t, generation, reason, supply);
    } else {
      hide WaitersInv, Runnable;
    }
  }

  lemma RetriesAreNew(s: Owner, t: Ref, generation: Ref, from: Ref, supply: Ref)
    requires Runnable(s)
    ensures DispatchesNew(s.job, RetryTimerFired(s, t, generation, supply))
    ensures DispatchesNew(s.job, RetryCall(s, t, from, supply))
  {
    if t in s.leases {
      ReleaseEntryIsNew(t, s.leases[t], CancelRetryTimer(t, s), true, NoWaiter, supply);
      ReleaseEntryIsNew(t, s.leases[t], CancelRetryTimer(t, s), true, RetryWaiter(from), supply);
    }
    hide ReleaseEntry, StopOrContinue;
  }

  lemma DownIsNew(s: Owner, m: Ref, supply: Ref)
    requires Runnable(s)
    ensures DispatchesNew(s.job, MonitorDown(s, m, supply))
  {
    if m in s.monitors {
      var s1 := s.(monitors := s.monitors - {m});
      match s.monitors[m]
      case ForReservation(request) => StopIsNew(s.job, RemoveIssueReservation(request, s1), {});
      case ForIssuePending(request) => StopIsNew(s.job, RemoveIssueReservation(request, s1), {});
      case ForRetain(t, child) =>
        if t in s.leases {
          RemoveHolderIsNew(t, child, s.leases[t].(pendingRetains := s.leases[t].pendingRetains - {child}), s1, supply);
        }
      case ForIssue(t, _) => CancelPendingIsNew(t, s1, supply);
    }
    hide RemoveHolder, CancelPendingIssue, StopOrContinue;
  }

  lemma DrainsAreNew(s: Owner, replyTo: Pid, request: Ref, pick: Option<Ref>, supply: Ref)
    requires IsFirstFailure(s, pick)
    ensures DispatchesNew(s.job, Drain(s, replyTo, request, pick, supply))
    ensures DispatchesNew(s.job, BeginDrain(s))
    ensures DispatchesNew(s.job, CancelReservation(s, request))
  {
    hide IsFirstFailure;
  }

  lemma HandleDispatches(s: Owner, m: Message, supply: Ref)
    requires Running(s) && Admissible(s, m, supply)
    ensures Runnable(s)
    ensures DispatchesNew(s.job, Handle(s, m, supply))
  {
    hide *;
    Routed(s, m, supply);
    RunningWaiters(s);
    match m
    case CommitMsg(reservation, backend, replyTo, request, guard, now) =>
      CommitIsNew(s, reservation, backend, replyTo, request, guard, now, supply);
    case CancelReservationMsg(request) => CancelReservationIsNew(s, request);
    case AbandonedMsg(token, holder) => NamedIsNew(s, token, holder, supply);
    case ReleaseMsg(token, holder) => NamedIsNew(s, token, holder, supply);
    case CancelIssueMsg(request) => CancelIssueIsNew(s, request, supply);
    case CancelRetainMsg(token, child) => CancelRetainIsNew(s, token, child, supply);
    case DrainMsg(replyTo, request, pick) => DrainsAreNew(s, replyTo, request, pick, supply);
    case ResultMsg(executor, token, generation, result) => ResultIsNew(s, executor, token, generation, result, supply);
    case ExecutorDownMsg(code) => ExecutorDownIsNew(s, code, supply);
    case RetryTimerMsg(token, generation) => RetriesAreNew(s, token, generation, 0, supply);
    case RetryCallMsg(token, from) => RetriesAreNew(s, token, 0, from, supply);
    case BeginDrainMsg => BeginDrainIsNew(s);
    case MonitorDownMsg(monitor) => DownIsNew(s, monitor, supply);
    case _ => QuietHandlers(s, m, supply);
  }

  lemma QuietHandlers(s: Owner, m: Message, supply: Ref)
    requires Runnable(s)
    requires m.ReserveMsg? || m.ConfirmIssueMsg? || m.RetainMsg? || m.ConfirmRetainMsg? || m.CancelDrainMsg? || m.MalformedMsg?
    ensures DispatchesNew(s.job, Handle(s, m, supply))
  {
    hide Runnable, CapacityAvailable;
  }

  lemma CancelReservationIsNew(s: Owner, request: Ref)
    ensures DispatchesNew(s.job, CancelReservation(s, request))
  {
  }

  lemma BeginDrainIsNew(s: Owner)
    ensures DispatchesNew(s.job, BeginDrain(s))
  {
  }

  lemma CancelIssueIsNew(s: Owner, request: Ref, supply: Ref)
    requires Runnable(s)
    ensures DispatchesNew(s.job, CancelIssue(s, request, supply))
  {
    if request in s.pendingIssues { CancelPendingIsNew(s.pendingIssues[request], s, supply); }
    hide CancelPendingIssue;
  }

  lemma ResultIsNew(s: Owner, executor: Ref, t: Ref, generation: Ref, result: CallbackResult, supply: Ref)
    requires Runnable(s) && WaitersInv(s)
    ensures DispatchesNew(s.job, ReleaseResult(s, executor, t, generation, result, supply))
  {
    FinishIsNew(s, t, generation, result, supply);
    hide FinishJob;
  }

  lemma ExecutorDownIsNew(s: Owner, code: Term, supply: Ref)
    requires Running(s) && Runnable(s)
    ensures DispatchesNew(s.job, ExecutorDown(s, code, supply))
  {
    assert Busy(s) && WaitersInv(s);
    ExecutorDownShape(s, code, supply);
    assert WaitersInv(Restarted(s, supply));
    hide Running, FinishJob, ExecutorDown, Runnable, WaitersInv;
    if s.job.Some? {
      FinishIsNew(Restarted(s, supply), s.job.value.token, s.job.value.generation, CallbackError(ExecutorDied(code)), supply);
    }
  }

  /** The callback is asked for only when nobody holds or awaits the lease, once per queued job, and for
      the private token the entry was committed with. */
  lemma CallbackOnlyWhenUnheld(s: Owner, m: Message, supply: Ref, x: Sent)
    requires Running(s) && Admissible(s, m, supply)
    requires Runnable(s) && x in Handle(s, m, supply).sent && x.ExecuteRelease?
    ensures var r := Handle(s, m, supply).state;
            && x.token in r.leases && r.leases[x.token].status == Releasing(x.generation)
            && r.leases[x.token].holders == {} && r.leases[x.token].pendingIssue.None? && r.leases[x.token].pendingRetains == map[]
            && r.leases[x.token].backend == x.backend && r.executor == x.executor
    ensures x.token in s.leases ==> !s.leases[x.token].status.Releasing?
  {
    hide *;
    Routed(s, m, supply);
    HandleDispatches(s, m, supply);
    HandleGood(s, m, supply);
    RunningIsInv(s);
    InFlightIsJob(s);
    NewJob(s, Handle(s, m, supply), x);
  }

  /** The executor hears of the job in flight, and only of a new one. */
  lemma NewJob(s: Owner, o: Out, x: Sent)
    requires Inv(s) && Good(o) && DispatchesNew(s.job, o) && x in o.sent && x.ExecuteRelease?
    ensures var r := o.state;
            && x.token in r.leases && r.leases[x.token].status == Releasing(x.generation)
            && r.leases[x.token].holders == {} && r.leases[x.token].pendingIssue.None? && r.leases[x.token].pendingRetains == map[]
            && r.leases[x.token].backend == x.backend && r.executor == x.executor
    ensures x.token in s.leases ==> !s.leases[x.token].status.Releasing?
  {
    InFlightIsJob(s);
    InFlightIsJob(o.state);
  }

  lemma InFlightIsJob(s: Owner)
    requires Inv(s)
    ensures s.job.Some? ==>
              var j := s.job.value;
              j.token in s.leases && s.leases[j.token].status == Releasing(j.generation) && s.leases[j.token].holders == {}
              && s.leases[j.token].pendingIssue.None? && s.leases[j.token].pendingRetains == map[] && s.leases[j.token].backend == j.backend
    ensures forall t :: t in s.leases && s.leases[t].status.Releasing? ==> s.job.Some? && s.job.value.token == t
  {
    assert JobsInv(s);
    if s.job.Some? { assert EntryShape(s.leases[s.job.value.token]); }
  }

  // ---- retry delays ------------------------------------------------------------------------

  lemma {:induction false} Power2Grows(a: nat, b: nat)
    requires a <= b
    ensures 1 <= Power2(a) <= Power2(b)
    decreases b
  {
    if a == b { if 0 < b { Power2Grows(a - 1, b - 1); } }
    else { Power2Grows(a, b - 1); }
  }

  lemma FirstPower()
    ensures Power2(0) == 1
  {
  }

  ghost predicate ValidPolicy(p: RetryPolicy) { p.Exponential? ==> 0 < p.initialMs <= p.maxMs }

  /** Delays start at `initial_ms`, never shrink, never pass `max_ms`. */
  lemma RetryDelaysGrow(a: nat, b: nat, p: RetryPolicy)
    requires p.Exponential? && ValidPolicy(p) && 1 <= a <= b
    ensures p.initialMs <= RetryDelay(a, p) <= RetryDelay(b, p) <= p.maxMs
    ensures RetryDelay(1, p) == p.initialMs
  {
    var x, y := Min(a - 1, 30), Min(b - 1, 30);
    Power2Grows(0, x);
    Power2Grows(x, y);
    TimesGrows(p.initialMs, 1, p.initialMs, Power2(x));
    TimesGrows(p.initialMs, Power2(x), p.initialMs, Power2(y));
    hide Power2;
    assert Power2(0) == 1 by { FirstPower(); }
  }

  /** A failed entry with attempts left has its one timer, nothing else has one, and a timer message
      of another generation changes nothing. */
  lemma TimersExact(s: Owner, t: Ref, generation: Ref, supply: Ref)
    requires Running(s)
    ensures t in s.timers <==> t in s.leases && s.leases[t].status.ReleaseFailed? && RetryAvailable(s.leases[t].attempts, s.policy)
    ensures t in s.timers ==> s.timers[t].delay == RetryDelay(s.leases[t].attempts, s.policy)
    ensures Runnable(s)
    ensures !(t in s.timers && s.timers[t].generation == generation) ==>
              RetryTimerFired(s, t, generation, supply) == Out(s, {}, Continue)
  {
    RunningIsRunnable(s);
    assert TimersInv(s, None);
    hide Runnable, ReleaseEntry;
  }

  // ---- age ---------------------------------------------------------------------------------

  ghost predicate Before(a: (int, Ref), b: (int, Ref)) { a.0 < b.0 || (a.0 == b.0 && a.1 <= b.1) }

  /** The smallest index element, which `stats` reports, is the oldest entry a full scan would find. */
  lemma OldestIsSmallest(s: Owner, least: (int, Ref))
    requires Running(s) && least in s.ageIndex && forall x :: x in s.ageIndex ==> Before(least, x)
    ensures least.1 in s.leases && s.leases[least.1].issuedAt == least.0
    ensures forall t :: t in s.leases ==> least.0 <= s.leases[t].issuedAt
  {
    assert AgeInv(s);
    hide Running;
    var (a, t0) := least;
    assert (a, t0) in s.ageIndex;
    forall t | t in s.leases ensures least.0 <= s.leases[t].issuedAt {
      assert (s.leases[t].issuedAt, t) in s.ageIndex;
    }
  }

  lemma AgeIndexEmptyTogether(s: Owner)
    requires Running(s)
    ensures s.ageIndex == {} <==> s.leases == map[]
    ensures |s.ageIndex| == |s.leases|
  {
    assert AgeInv(s);
    hide Running;
    AgeIndexSize(s.leases, s.ageIndex);
    assert |s.ageIndex| == 0 <==> s.ageIndex == {};
    assert |s.leases| == 0 <==> s.leases == map[];
  }

  function Stamps(leases: map<Ref, Entry>): set<(int, Ref)> { set t | t in leases :: (leases[t].issuedAt, t) }

  lemma AgeIndexSize(leases: map<Ref, Entry>, index: set<(int, Ref)>)
    requires forall a, t :: (a, t) in index <==> t in leases && leases[t].issuedAt == a
    ensures |index| == |leases|
  {
    assert index == Stamps(leases) by {
      forall x ensures x in index <==> x in Stamps(leases) {
        var (a, t) := x;
        assert (a, t) in index <==> t in leases && leases[t].issuedAt == a;
      }
    }
    StampedSize(leases);
  }

  lemma {:induction false} StampedSize(leases: map<Ref, Entry>)
    ensures |Stamps(leases)| == |leases|
    decreases |leases|
  {
    if leases == map[] {
      assert Stamps(leases) == {};
    } else {
      var t :| t in leases;
      var rest := leases - {t};
      var x := (leases[t].issuedAt, t);
      StampedSize(rest);
      assert rest.Keys == leases.Keys - {t};
      assert forall u :: u in leases ==> u == t || u in rest;
      assert Stamps(leases) == Stamps(rest) + {x} by {
        forall y ensures y in Stamps(leases) <==> y in Stamps(rest) + {x} {
          if y in Stamps(leases) {
            var u :| u in leases && y == (leases[u].issuedAt, u);
            if u != t { assert u in rest && rest[u] == leases[u]; }
          }
          if y in Stamps(rest) {
            var u :| u in rest && y == (rest[u].issuedAt, u);
            assert u in leases && rest[u] == leases[u];
          }
        }
      }
      assert x !in Stamps(rest);
    }
  }
}
