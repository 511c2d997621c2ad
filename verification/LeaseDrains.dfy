/** What a drain is told: `:ok` only by an owner that stops, empty. */
module LeaseDrains {
  import opened Common
  import opened LeaseModel
  import opened LeaseInvariant
  import opened LeaseHandlers

  predicate SaysDrained(x: Sent) { x.DrainedReply? && x.drained.Accepted? }

  ghost predicate NoneDrained(sent: set<Sent>) { forall x :: x in sent ==> !SaysDrained(x) }

  /** A waiter is told that the drain is done only in the step that stops the owner normally. */
  ghost predicate Honest(o: Out) { (exists x :: x in o.sent && SaysDrained(x)) ==> o.fate.StopNormal? }

  lemma StopIsHonest(s: Owner, sent: set<Sent>)
    requires NoneDrained(sent)
    ensures Honest(StopOrContinue(s, sent))
  {
    hide IsDrained, ReplyAllDrainWaiters;
  }

  lemma DispatchTellsNone(s: Owner)
    requires JobsHaveEntries(s)
    ensures NoneDrained(Dispatch(s).1)
  {
  }

  lemma ReleaseTellsNone(token: Ref, e: Entry, s: Owner, retry: bool, waiter: Waiter, generation: Ref)
    requires JobsHaveEntries(s)
    ensures NoneDrained(ReleaseEntry(token, e, s, retry, waiter, generation).1)
  {
    var q := Enqueue(token, e, s, retry, waiter, generation);
    QueueKeepsEntries(token, e, s, retry, waiter, generation);
    hide Enqueue, Dispatch, JobsHaveEntries;
    DispatchTellsNone(q);
  }

  lemma QueueKeepsEntries(token: Ref, e: Entry, s: Owner, retry: bool, waiter: Waiter, generation: Ref)
    requires JobsHaveEntries(s)
    ensures JobsHaveEntries(Enqueue(token, e, s, retry, waiter, generation))
  {
  }

  lemma RemoveHolderHonest(token: Ref, holder: Ref, e: Entry, s: Owner, supply: Ref)
    requires JobsHaveEntries(s)
    ensures Honest(RemoveHolder(token, holder, e, s, supply))
  {
    var e1 := e.(holders := e.holders - {holder});
    var s1 := s.(activeHolders := Max(s.activeHolders - 1, 0));
    assert JobsHaveEntries(s1);
    ReleaseTellsNone(token, e1, s1, false, NoWaiter, supply);
    var (s2, sent) := ReleaseEntry(token, e1, s1, false, NoWaiter, supply);
    StopIsHonest(s2, sent);
    hide ReleaseEntry, StopOrContinue;
  }

  lemma CancelPendingHonest(token: Ref, s: Owner, supply: Ref)
    requires JobsHaveEntries(s)
    ensures Honest(CancelPendingIssue(token, s, supply))
  {
    if token in s.leases && s.leases[token].status.Active? && s.leases[token].pendingIssue.Some? {
      var (e1, s1) := ClearPendingIssue(s.leases[token], s);
      var s2 := s1.(activeHolders := Max(s1.activeHolders - |e1.holders|, 0));
      assert JobsHaveEntries(s2);
      ReleaseTellsNone(token, e1.(holders := {}), s2, false, NoWaiter, supply);
      var (s3, sent) := ReleaseEntry(token, e1.(holders := {}), s2, false, NoWaiter, supply);
      StopIsHonest(s3, sent);
    }
    hide ReleaseEntry, StopOrContinue, ClearPendingIssue;
  }

  lemma NamedHonest(s: Owner, t: Ref, h: Ref, supply: Ref)
    requires Runnable(s)
    ensures Honest(AbandonedMessage(s, t, h, supply)) && Honest(ReleaseMessage(s, t, h, supply))
  {
    if Held(s, t, h) {
      NamedMessage(s, t, h, supply);
      var e := ClearPendingRetain(h, s.leases[t], s).0;
      RemoveHolderHonest(t, h, e, Named(s, t, h, Abandoned), supply);
      RemoveHolderHonest(t, h, e, Named(s, t, h, Explicit), supply);
    }
    hide RemoveHolder, PutTombstone, Runnable, Named;
  }

  lemma CancelRetainHonest(s: Owner, t: Ref, child: Ref, supply: Ref)
    requires Runnable(s)
    ensures Honest(CancelRetain(s, t, child, supply))
  {
    var s0 := s.(counters := s.counters.(retainCancellations := s.counters.retainCancellations + 1));
    if t in s.leases && s.leases[t].status.Active? && s.leases[t].root != Some(child) {
      var (e, s1) := ClearPendingRetain(child, s.leases[t], s0);
      assert JobsHaveEntries(s1);
      RemoveHolderHonest(t, child, e, s1, supply);
    }
    hide RemoveHolder, ClearPendingRetain, Runnable;
  }

  lemma CommitHonest(s: Owner, reservation: Ref, backend: Term, replyTo: Pid, request: Ref, guard: Guard, now: int, supply: Ref)
    requires Runnable(s)
    ensures Honest(CommitIssue(s, reservation, backend, replyTo, request, guard, now, supply))
  {
    if CommitMatches(s, reservation, replyTo, request) && guard.GuardFailed? {
      RejectedIsRelease(s, reservation, backend, replyTo, request, guard.code, now, supply);
      var q := Rejected(s, backend, request, now, supply + 2);
      ReleaseTellsNone(supply + 2, q.leases[supply + 2], q, false, IssueWaiter(request, guard.code), supply + 4);
    }
    hide ReleaseEntry;
  }

  lemma FinishHonest(s: Owner, t: Ref, generation: Ref, result: CallbackResult, supply: Ref)
    requires Runnable(s) && WaitersInv(s)
    ensures Honest(FinishJob(s, t, generation, result, supply))
  {
    if AnswersJob(s, t, generation) {
      match result
      case CallbackOk =>
        FinishOkShape(s, t, generation, supply);
        var r := Succeeded(s, t);
        DispatchTellsNone(r);
        StopIsHonest(Dispatch(r).0, {ReleasedNotice(t)} + JobReply(s.job.value.waiter, CallbackOk, t) + Dispatch(r).1);
      case CallbackError(reason) =>
        FinishErrorShape(s, t, generation, reason, supply);
        var r := Failed(s, t, reason, supply + 5);
        DispatchTellsNone(r);
        StopIsHonest(Dispatch(r).0, {FailedNotice(t, reason)} + JobReply(s.job.value.waiter, CallbackError(reason), t)
                                    + DrainReplies(s.drainWaiters.Keys, Refused(reason)) + Dispatch(r).1);
    } else {
      hide WaitersInv, Runnable;
    }
  }

  lemma RetriesHonest(s: Owner, t: Ref, generation: Ref, from: Ref, supply: Ref)
    requires Runnable(s)
    ensures Honest(RetryTimerFired(s, t, generation, supply)) && Honest(RetryCall(s, t, from, supply))
  {
    if t in s.leases {
      ReleaseTellsNone(t, s.leases[t], CancelRetryTimer(t, s), true, NoWaiter, supply);
      ReleaseTellsNone(t, s.leases[t], CancelRetryTimer(t, s), true, RetryWaiter(from), supply);
    }
    hide ReleaseEntry;
  }

  lemma ExecutorDownHonest(s: Owner, code: Term, supply: Ref)
    requires Running(s) && Runnable(s)
    ensures Honest(ExecutorDown(s, code, supply))
  {
    assert Busy(s) && WaitersInv(s);
    ExecutorDownShape(s, code, supply);
    assert WaitersInv(Restarted(s, supply));
    hide Running, FinishJob, ExecutorDown, Runnable, WaitersInv;
    if s.job.Some? {
      FinishHonest(Restarted(s, supply), s.job.value.token, s.job.value.generation, CallbackError(ExecutorDied(code)), supply);
    }
  }

  lemma DownHonest(s: Owner, m: Ref, supply: Ref)
    requires Runnable(s)
    ensures Honest(MonitorDown(s, m, supply))
  {
    if m in s.monitors {
      var s1 := s.(monitors := s.monitors - {m});
      assert JobsHaveEntries(s1);
      match s.monitors[m]
      case ForReservation(request) => StopIsHonest(RemoveIssueReservation(request, s1), {});
      case ForIssuePending(request) => StopIsHonest(RemoveIssueReservation(request, s1), {});
      case ForRetain(t, child) =>
        if t in s.leases {
          RemoveHolderHonest(t, child, s.leases[t].(pendingRetains := s.leases[t].pendingRetains - {child}), s1, supply);
        }
      case ForIssue(t, _) => CancelPendingHonest(t, s1, supply);
    }
    hide RemoveHolder, CancelPendingIssue, StopOrContinue;
  }

  lemma ClosingHonest(s: Owner, replyTo: Pid, request: Ref, pick: Option<Ref>, supply: Ref)
    requires IsFirstFailure(s, pick)
    ensures Honest(Drain(s, replyTo, request, pick, supply)) && Honest(BeginDrain(s)) && Honest(CancelReservation(s, request))
  {
    StopIsHonest(RemoveIssueReservation(request, s), {});
    hide IsFirstFailure, StopOrContinue, ReplyAllDrainWaiters, RemoveIssueReservation;
  }

  lemma CancelIssueHonest(s: Owner, request: Ref, supply: Ref)
    requires Runnable(s)
    ensures Honest(CancelIssue(s, request, supply))
  {
    if request in s.pendingIssues { CancelPendingHonest(s.pendingIssues[request], s, supply); }
    hide CancelPendingIssue;
  }

  lemma AskingHonest(s: Owner, m: Message, supply: Ref)
    requires Runnable(s)
    requires m.ReserveMsg? || m.ConfirmIssueMsg? || m.RetainMsg? || m.ConfirmRetainMsg? || m.CancelDrainMsg? || m.MalformedMsg?
    ensures Honest(Handle(s, m, supply))
  {
    hide Runnable, CapacityAvailable;
  }

  lemma ClosingOnly(s: Owner, request: Ref)
    ensures Honest(BeginDrain(s)) && Honest(CancelReservation(s, request))
  {
    StopIsHonest(RemoveIssueReservation(request, s), {});
    hide StopOrContinue, ReplyAllDrainWaiters, RemoveIssueReservation;
  }

  lemma ResultHonest(s: Owner, executor: Ref, t: Ref, generation: Ref, result: CallbackResult, supply: Ref)
    requires Runnable(s) && WaitersInv(s)
    ensures Honest(ReleaseResult(s, executor, t, generation, result, supply))
  {
    FinishHonest(s, t, generation, result, supply);
    hide FinishJob;
  }

  /** Whatever the message, nobody is told that the drain is done unless the owner stops with it. */
  lemma HandleHonest(s: Owner, m: Message, supply: Ref)
    requires Running(s) && Admissible(s, m, supply)
    ensures Runnable(s) && Honest(Handle(s, m, supply))
  {
    hide *;
    Routed(s, m, supply);
    RunningWaiters(s);
    match m
    case CommitMsg(reservation, backend, replyTo, request, guard, now) => CommitHonest(s, reservation, backend, replyTo, request, guard, now, supply);
    case CancelReservationMsg(request) => ClosingOnly(s, request);
    case AbandonedMsg(t, h) => NamedHonest(s, t, h, supply);
    case ReleaseMsg(t, h) => NamedHonest(s, t, h, supply);
    case CancelIssueMsg(request) => CancelIssueHonest(s, request, supply);
    case CancelRetainMsg(t, child) => CancelRetainHonest(s, t, child, supply);
    case DrainMsg(replyTo, request, pick) => ClosingHonest(s, replyTo, request, pick, supply);
    case ResultMsg(executor, t, generation, result) => ResultHonest(s, executor, t, generation, result, supply);
    case ExecutorDownMsg(code) => ExecutorDownHonest(s, code, supply);
    case RetryTimerMsg(t, generation) => RetriesHonest(s, t, generation, 0, supply);
    case RetryCallMsg(t, from) => RetriesHonest(s, t, 0, from, supply);
    case BeginDrainMsg => ClosingOnly(s, 0);
    case MonitorDownMsg(monitor) => DownHonest(s, monitor, supply);
    case _ => AskingHonest(s, m, supply);
  }
}
