/** A rejected issue is answered only through the release job it waits on. */
module LeaseRejections {
  import opened Common
  import opened LeaseModel
  import opened LeaseInvariant
  import opened LeaseHandlers
  import opened LeaseRefinement
  import opened LeaseReleases

  ghost predicate InPipeline(s: Owner, j: Job) { j in s.queue || s.job == Some(j) }

  predicate Rejecting(j: Job, r: Ref) { j.waiter.IssueWaiter? && j.waiter.request == r }

  predicate RejectsIssue(x: Sent) { x.IssuedReply? && x.issued.Refused? }

  /** Some release job will answer the issue `r` with an error. */
  ghost predicate Awaits(s: Owner, r: Ref) { exists j :: InPipeline(s, j) && Rejecting(j, r) }

  /** `o` starts no rejection, and answers only the one its job carries. */
  ghost predicate Faithful(s: Owner, o: Out) {
    && (forall j, r :: InPipeline(o.state, j) && Rejecting(j, r) ==> InPipeline(s, j))
    && (forall x :: x in o.sent && RejectsIssue(x) ==> s.job.Some? && Rejecting(s.job.value, x.request))
  }

  lemma SameJobsFaithful(s: Owner, r: Owner, sent: set<Sent>)
    requires r.queue == s.queue && r.job == s.job
    requires forall x :: x in sent ==> !RejectsIssue(x)
    ensures Faithful(s, Out(r, sent, Continue))
  {
  }

  lemma FaithfulFrom(s: Owner, r: Owner, o: Out)
    requires Faithful(r, o) && r.queue == s.queue && r.job == s.job
    ensures Faithful(s, o)
  {
  }

  lemma StopFaithful(s: Owner, r: Owner, sent: set<Sent>)
    requires Faithful(s, Out(r, sent, Continue))
    ensures Faithful(s, StopOrContinue(r, sent))
  {
  }

  lemma DispatchFaithful(s: Owner)
    requires JobsHaveEntries(s)
    ensures Faithful(s, Out(Dispatch(s).0, Dispatch(s).1, Continue))
  {
  }

  lemma EnqueueFaithful(token: Ref, e: Entry, s: Owner, retry: bool, waiter: Waiter, generation: Ref)
    ensures var q := Enqueue(token, e, s, retry, waiter, generation);
            && q.job == s.job
            && (!waiter.IssueWaiter? ==> forall j, r :: InPipeline(q, j) && Rejecting(j, r) ==> InPipeline(s, j))
            && (forall j, r :: InPipeline(q, j) && Rejecting(j, r) ==> InPipeline(s, j) || j.waiter == waiter)
  {
  }

  lemma ReleaseEntryFaithful(token: Ref, e: Entry, s: Owner, retry: bool, waiter: Waiter, generation: Ref)
    requires JobsHaveEntries(s) && !waiter.IssueWaiter?
    ensures var (r, sent) := ReleaseEntry(token, e, s, retry, waiter, generation);
            Faithful(s, Out(r, sent, Continue)) && Faithful(s, StopOrContinue(r, sent))
  {
    var q := Enqueue(token, e, s, retry, waiter, generation);
    EnqueueFaithful(token, e, s, retry, waiter, generation);
    assert JobsHaveEntries(q);
    DispatchFaithful(q);
    assert forall x :: x in Dispatch(q).1 ==> x.ExecuteRelease?;
    hide Enqueue, Dispatch, JobsHaveEntries, InPipeline;
    assert Faithful(s, Out(Dispatch(q).0, Dispatch(q).1, Continue));
    StopFaithful(s, Dispatch(q).0, Dispatch(q).1);
  }

  lemma RemoveHolderFaithful(token: Ref, holder: Ref, e: Entry, s: Owner, supply: Ref)
    requires JobsHaveEntries(s)
    ensures Faithful(s, RemoveHolder(token, holder, e, s, supply))
  {
    if holder in e.holders && e.holders - {holder} == {} {
      var s1 := s.(activeHolders := Max(s.activeHolders - 1, 0));
      ReleaseEntryFaithful(token, e.(holders := e.holders - {holder}), s1, false, NoWaiter, supply);
      FaithfulFrom(s, s1, RemoveHolder(token, holder, e, s, supply));
    }
    hide ReleaseEntry, StopOrContinue;
  }

  lemma CancelPendingFaithful(token: Ref, s: Owner, supply: Ref)
    requires JobsHaveEntries(s)
    ensures Faithful(s, CancelPendingIssue(token, s, supply))
  {
    SameJobsFaithful(s, s, {});
    if token in s.leases && s.leases[token].status.Active? && s.leases[token].pendingIssue.Some? {
      CancelledShape(s, token, supply);
      var d := Cancelled(s, token);
      assert d.queue == s.queue && d.job == s.job;
      hide CancelPendingIssue, Cancelled, ReleaseEntry, StopOrContinue, JobsHaveEntries, Faithful;
      ReleaseEntryFaithful(token, d.leases[token], d, false, NoWaiter, supply);
      FaithfulFrom(s, d, CancelPendingIssue(token, s, supply));
    }
  }

  lemma UnheldFaithful(s: Owner, t: Ref, h: Ref, supply: Ref)
    requires Runnable(s)
    ensures !Held(s, t, h) ==> Faithful(s, AbandonedMessage(s, t, h, supply))
    ensures !Held(s, t, h) || (t, h) in s.tombstones.kinds ==> Faithful(s, ReleaseMessage(s, t, h, supply))
  {
    hide RemoveHolder, PutTombstone, Runnable, ClearPendingRetain;
  }

  lemma NamedFaithful(s: Owner, t: Ref, h: Ref, kind: Tombstone, supply: Ref)
    requires TombstonesListed(s.tombstones) && Held(s, t, h) && JobsHaveEntries(Named(s, t, h, kind))
    ensures Faithful(s, RemoveHolder(t, h, ClearPendingRetain(h, s.leases[t], s).0, Named(s, t, h, kind), supply))
  {
    var q := Named(s, t, h, kind);
    var e := ClearPendingRetain(h, s.leases[t], s).0;
    assert q.queue == s.queue && q.job == s.job;
    hide *;
    RemoveHolderFaithful(t, h, e, q, supply);
    FaithfulFrom(s, q, RemoveHolder(t, h, e, q, supply));
  }

  lemma NamingFaithful(s: Owner, t: Ref, h: Ref, supply: Ref)
    requires Runnable(s)
    ensures Faithful(s, AbandonedMessage(s, t, h, supply)) && Faithful(s, ReleaseMessage(s, t, h, supply))
  {
    hide *;
    UnheldFaithful(s, t, h, supply);
    if Held(s, t, h) {
      HeldIsLease(s, t, h);
      NamedMessage(s, t, h, supply);
      RunnableParts(s);
      NamedFaithful(s, t, h, Abandoned, supply);
      NamedFaithful(s, t, h, Explicit, supply);
    }
  }

  lemma CancelRetainFaithful(s: Owner, t: Ref, child: Ref, supply: Ref)
    requires Runnable(s)
    ensures Faithful(s, CancelRetain(s, t, child, supply))
  {
    var s0 := s.(counters := s.counters.(retainCancellations := s.counters.retainCancellations + 1));
    SameJobsFaithful(s, s0, {});
    RunnableParts(s);
    CancelRetainStep(s, t, child, supply);
    if t in s.leases {
      var s1 := ClearPendingRetain(child, s.leases[t], s0).1;
      assert s1.queue == s.queue && s1.job == s.job;
      hide *;
      if s.leases[t].status.Active? && s.leases[t].root != Some(child) {
        var e := ClearPendingRetain(child, s.leases[t], s0).0;
        RemoveHolderFaithful(t, child, e, s1, supply);
        FaithfulFrom(s, s1, RemoveHolder(t, child, e, s1, supply));
      }
    }
    hide *;
  }

  /** A job leaves the pipeline with its answer, and the next one moves up. */
  lemma FinishedFaithful(s: Owner, r: Owner, sent: set<Sent>)
    requires s.job.Some? && r.queue == s.queue && r.job.None? && JobsHaveEntries(r)
    requires forall x :: x in sent && RejectsIssue(x) ==> Rejecting(s.job.value, x.request)
    ensures Faithful(s, StopOrContinue(Dispatch(r).0, sent + Dispatch(r).1))
  {
    DispatchFaithful(r);
    assert forall x :: x in Dispatch(r).1 ==> x.ExecuteRelease?;
    hide Dispatch, StopOrContinue;
    StopFaithful(s, Dispatch(r).0, sent + Dispatch(r).1);
  }

  lemma FinishOkFaithful(s: Owner, t: Ref, generation: Ref, supply: Ref)
    requires Runnable(s) && AnswersJob(s, t, generation)
    ensures Faithful(s, FinishJob(s, t, generation, CallbackOk, supply))
  {
    FinishOkShape(s, t, generation, supply);
    var r := Succeeded(s, t);
    var sent := {ReleasedNotice(t)} + JobReply(s.job.value.waiter, CallbackOk, t);
    assert forall x :: x in sent && RejectsIssue(x) ==> Rejecting(s.job.value, x.request);
    assert r.queue == s.queue && r.job.None?;
    hide FinishJob, Dispatch, StopOrContinue, JobReply, Succeeded, Runnable, Faithful;
    FinishedFaithful(s, r, sent);
  }

  lemma FinishErrorFaithful(s: Owner, t: Ref, generation: Ref, reason: Reason, supply: Ref)
    requires Runnable(s) && AnswersJob(s, t, generation) && WaitersInv(s)
    ensures Faithful(s, FinishJob(s, t, generation, CallbackError(reason), supply))
  {
    FinishErrorShape(s, t, generation, reason, supply);
    var r := Failed(s, t, reason, supply + 5);
    var sent := {FailedNotice(t, reason)} + JobReply(s.job.value.waiter, CallbackError(reason), t) + DrainReplies(s.drainWaiters.Keys, Refused(reason));
    assert forall x :: x in sent && RejectsIssue(x) ==> Rejecting(s.job.value, x.request);
    assert r.queue == s.queue && r.job.None?;
    hide FinishJob, Dispatch, StopOrContinue, JobReply, Failed, WaitersInv, Runnable, Faithful, DrainReplies;
    FinishedFaithful(s, r, sent);
  }

  lemma FinishFaithful(s: Owner, t: Ref, generation: Ref, result: CallbackResult, supply: Ref)
    requires Runnable(s) && WaitersInv(s)
    ensures Faithful(s, FinishJob(s, t, generation, result, supply))
  {
    if AnswersJob(s, t, generation) {
      match result
      case CallbackOk => FinishOkFaithful(s, t, generation, supply);
      case CallbackError(reason) => FinishErrorFaithful(s, t, generation, reason, supply);
    } else {
      hide WaitersInv, Runnable;
    }
  }

  lemma ExecutorDownFaithful(s: Owner, code: Term, supply: Ref)
    requires Running(s) && Runnable(s)
    ensures Faithful(s, ExecutorDown(s, code, supply))
  {
    assert Busy(s) && WaitersInv(s);
    ExecutorDownShape(s, code, supply);
    var r := Restarted(s, supply);
    assert WaitersInv(r) && r.queue == s.queue && r.job == s.job;
    SameJobsFaithful(s, r, {});
    hide Running, FinishJob, ExecutorDown, Runnable, WaitersInv, Restarted, Faithful;
    if s.job.Some? {
      FinishFaithful(r, s.job.value.token, s.job.value.generation, CallbackError(ExecutorDied(code)), supply);
      FaithfulFrom(s, r, ExecutorDown(s, code, supply));
    }
  }

  lemma RetriesFaithful(s: Owner, t: Ref, generation: Ref, from: Ref, supply: Ref)
    requires Runnable(s)
    ensures Faithful(s, RetryTimerFired(s, t, generation, supply)) && Faithful(s, RetryCall(s, t, from, supply))
  {
    var s1 := CancelRetryTimer(t, s);
    assert JobsHaveEntries(s1);
    SameJobsFaithful(s, s, {});
    SameJobsFaithful(s, s1, {});
    forall reason ensures Faithful(s, Out(s1, {RetryReply(from, Refused(reason))}, Continue)) {
      SameJobsFaithful(s, s1, {RetryReply(from, Refused(reason))});
    }
    if t in s.leases {
      var timed, called := ReleaseEntry(t, s.leases[t], s1, true, NoWaiter, supply), ReleaseEntry(t, s.leases[t], s1, true, RetryWaiter(from), supply);
      ReleaseEntryFaithful(t, s.leases[t], s1, true, NoWaiter, supply);
      ReleaseEntryFaithful(t, s.leases[t], s1, true, RetryWaiter(from), supply);
      FaithfulFrom(s, s1, Out(timed.0, timed.1, Continue));
      FaithfulFrom(s, s1, Out(called.0, called.1, Continue));
    }
    hide ReleaseEntry, StopOrContinue, Faithful, Runnable, JobsHaveEntries;
  }

  lemma DownFaithful(s: Owner, m: Ref, supply: Ref)
    requires Runnable(s)
    ensures Faithful(s, MonitorDown(s, m, supply))
  {
    SameJobsFaithful(s, s, {});
    var s1 := s.(monitors := s.monitors - {m});
    SameJobsFaithful(s, s1, {});
    if m in s.monitors {
      match s.monitors[m]
      case ForReservation(request) => DroppedFaithful(s, s1, request);
      case ForIssuePending(request) => DroppedFaithful(s, s1, request);
      case ForRetain(t, child) =>
        if t in s.leases {
          RemoveHolderFaithful(t, child, s.leases[t].(pendingRetains := s.leases[t].pendingRetains - {child}), s1, supply);
          FaithfulFrom(s, s1, RemoveHolder(t, child, s.leases[t].(pendingRetains := s.leases[t].pendingRetains - {child}), s1, supply));
        }
      case ForIssue(t, _) => CancelPendingFaithful(t, s1, supply); FaithfulFrom(s, s1, CancelPendingIssue(t, s1, supply));
    }
    DownDrain(s, m);
    hide RemoveHolder, CancelPendingIssue, StopOrContinue, Runnable, Faithful, RemoveDrainWaiter;
  }

  lemma DownDrain(s: Owner, m: Ref)
    ensures m in s.drainMonitors ==> Faithful(s, Out(RemoveDrainWaiter(s.drainMonitors[m], s), {}, Continue))
  {
  }

  lemma DroppedFaithful(s: Owner, r: Owner, request: Ref)
    requires r.queue == s.queue && r.job == s.job
    ensures Faithful(s, StopOrContinue(RemoveIssueReservation(request, r), {}))
  {
    SameJobsFaithful(s, RemoveIssueReservation(request, r), {});
    StopFaithful(s, RemoveIssueReservation(request, r), {});
  }

  lemma ClosingFaithful(s: Owner, request: Ref)
    ensures Faithful(s, CancelReservation(s, request)) && Faithful(s, CancelDrain(s, request)) && Faithful(s, BeginDrain(s))
  {
    assert Faithful(s, CancelDrain(s, request));
    DroppedFaithful(s, s, request);
    var closed := s.(mode := Draining);
    SameJobsFaithful(s, closed, {});
    StopFaithful(s, closed, {});
    hide Faithful, CompleteDrain, RemoveIssueReservation, CancelDrain, IsDrained;
  }

  lemma DrainFaithful(s: Owner, replyTo: Pid, request: Ref, pick: Option<Ref>, supply: Ref)
    requires IsFirstFailure(s, pick)
    ensures Faithful(s, Drain(s, replyTo, request, pick, supply))
  {
    hide IsFirstFailure;
  }

  lemma ConfirmsFaithful(s: Owner, request: Ref, token: Ref, child: Ref)
    ensures Faithful(s, ConfirmIssue(s, token, request)) && Faithful(s, ConfirmRetain(s, token, child, request))
  {
    SameJobsFaithful(s, ConfirmIssue(s, token, request).state, {});
    SameJobsFaithful(s, ConfirmRetain(s, token, child, request).state, {});
    hide Faithful;
  }

  lemma AsksFaithful(s: Owner, metadata: Term, replyTo: Pid, t: Ref, parent: Ref, child: Ref, request: Ref, guard: Guard, supply: Ref)
    ensures Faithful(s, ReserveIssue(s, metadata, replyTo, request, supply))
    ensures Faithful(s, Retain(s, t, parent, child, request, guard, supply))
  {
    ReserveFaithful(s, metadata, replyTo, request, supply);
    RetainFaithful(s, t, parent, child, request, guard, supply);
    hide *;
  }

  lemma ReserveFaithful(s: Owner, metadata: Term, replyTo: Pid, request: Ref, supply: Ref)
    ensures Faithful(s, ReserveIssue(s, metadata, replyTo, request, supply))
  {
    var o := ReserveIssue(s, metadata, replyTo, request, supply);
    assert o.fate.Continue? && o.state.queue == s.queue && o.state.job == s.job && forall x :: x in o.sent ==> x.ReservedReply?;
    hide ReserveIssue, Faithful;
    SameJobsFaithful(s, o.state, o.sent);
  }

  lemma RetainFaithful(s: Owner, t: Ref, parent: Ref, child: Ref, request: Ref, guard: Guard, supply: Ref)
    ensures Faithful(s, Retain(s, t, parent, child, request, guard, supply))
  {
    var o := Retain(s, t, parent, child, request, guard, supply);
    assert o.fate.Continue? && o.state.queue == s.queue && o.state.job == s.job && forall x :: x in o.sent ==> x.RetainedReply?;
    hide Retain, Faithful;
    SameJobsFaithful(s, o.state, o.sent);
  }

  lemma CancelIssueFaithful(s: Owner, request: Ref, supply: Ref)
    requires Runnable(s)
    ensures Faithful(s, CancelIssue(s, request, supply))
  {
    SameJobsFaithful(s, s, {});
    if request in s.pendingIssues { CancelPendingFaithful(s.pendingIssues[request], s, supply); }
    hide CancelPendingIssue, Faithful;
  }

  lemma ResultFaithful(s: Owner, executor: Ref, t: Ref, generation: Ref, result: CallbackResult, supply: Ref)
    requires Runnable(s) && WaitersInv(s)
    ensures Faithful(s, ReleaseResult(s, executor, t, generation, result, supply))
  {
    SameJobsFaithful(s, s, {});
    FinishFaithful(s, t, generation, result, supply);
    hide FinishJob, Faithful;
  }

  lemma MalformedFaithful(s: Owner, supply: Ref)
    requires Runnable(s)
    ensures Faithful(s, Handle(s, MalformedMsg, supply))
  {
  }

  /** Only a commit can start a rejection; any other message answers at most the one its job carries. */
  lemma HandleFaithful(s: Owner, m: Message, supply: Ref)
    requires Running(s) && Admissible(s, m, supply) && !m.CommitMsg?
    ensures Runnable(s)
    ensures Faithful(s, Handle(s, m, supply))
  {
    hide *;
    Routed(s, m, supply);
    RunningWaiters(s);
    match m
    case ReserveMsg(metadata, replyTo, request) => AsksFaithful(s, metadata, replyTo, 0, 0, 0, request, GuardBuilt, supply);
    case CancelReservationMsg(request) => ClosingFaithful(s, request);
    case AbandonedMsg(token, holder) => NamingFaithful(s, token, holder, supply);
    case ReleaseMsg(token, holder) => NamingFaithful(s, token, holder, supply);
    case ConfirmIssueMsg(token, request) => ConfirmsFaithful(s, request, token, 0);
    case CancelIssueMsg(request) => CancelIssueFaithful(s, request, supply);
    case RetainMsg(token, parent, child, request, guard) => AsksFaithful(s, 0, 0, token, parent, child, request, guard, supply);
    case ConfirmRetainMsg(token, child, request) => ConfirmsFaithful(s, request, token, child);
    case CancelRetainMsg(token, child) => CancelRetainFaithful(s, token, child, supply);
    case DrainMsg(replyTo, request, pick) => DrainFaithful(s, replyTo, request, pick, supply);
    case CancelDrainMsg(request) => ClosingFaithful(s, request);
    case ResultMsg(executor, token, generation, result) => ResultFaithful(s, executor, token, generation, result, supply);
    case ExecutorDownMsg(code) => ExecutorDownFaithful(s, code, supply);
    case RetryTimerMsg(token, generation) => RetriesFaithful(s, token, generation, 0, supply);
    case RetryCallMsg(token, from) => RetriesFaithful(s, token, 0, from, supply);
    case BeginDrainMsg => ClosingFaithful(s, 0);
    case MonitorDownMsg(monitor) => DownFaithful(s, monitor, supply);
    case MalformedMsg => MalformedFaithful(s, supply);
  }

  /** A commit starts a rejection only for its own call, and only when the guard could not be built. */
  lemma CommitFaithful(s: Owner, reservation: Ref, backend: Term, replyTo: Pid, request: Ref, guard: Guard, now: int, supply: Ref)
    requires Runnable(s) && CommitMatches(s, reservation, replyTo, request)
    ensures var o := CommitIssue(s, reservation, backend, replyTo, request, guard, now, supply);
            && (forall j, r :: InPipeline(o.state, j) && Rejecting(j, r) ==> InPipeline(s, j) || (r == request && guard.GuardFailed?))
            && (forall x :: x in o.sent ==> !RejectsIssue(x))
  {
    if guard.GuardFailed? {
      RejectedIsRelease(s, reservation, backend, replyTo, request, guard.code, now, supply);
      var q := Rejected(s, backend, request, now, supply + 2);
      assert q.queue == s.queue && q.job == s.job;
      hide CommitIssue, Rejected, Runnable, CommitMatches;
      EnqueueFaithful(supply + 2, q.leases[supply + 2], q, false, IssueWaiter(request, guard.code), supply + 4);
      var d := Enqueue(supply + 2, q.leases[supply + 2], q, false, IssueWaiter(request, guard.code), supply + 4);
      assert JobsHaveEntries(d);
      DispatchFaithful(d);
      assert forall x :: x in Dispatch(d).1 ==> x.ExecuteRelease?;
      hide Enqueue, Dispatch, JobsHaveEntries;
    }
  }
}
