/** Which handler grants what, and which references a handler can leave in the owner's tables. */
module LeaseReplies {
  import opened Common
  import opened LeaseModel
  import opened LeaseInvariant
  import opened LeaseHandlers
  import opened LeaseRefinement
  import opened LeaseReleases

  /** A reply that hands the client something, or tells it a reserve or retain was decided. */
  predicate Decides(x: Sent) {
    x.ReservedReply? || x.RetainedReply? || (x.IssuedReply? && x.issued.Accepted?)
  }

  ghost predicate Silent(sent: set<Sent>) { forall x :: x in sent ==> !Decides(x) }

  /** `o` decides no request, watches no new drain caller, and buries at most the ids in `named`. */
  ghost predicate Bland(s: Owner, o: Out, named: set<(Ref, Ref)>) {
    && Silent(o.sent)
    && o.state.drainMonitors.Keys <= s.drainMonitors.Keys
    && o.state.tombstones.kinds.Keys <= s.tombstones.kinds.Keys + named
  }

  lemma StopBland(s: Owner, r: Owner, sent: set<Sent>, named: set<(Ref, Ref)>)
    requires Bland(s, Out(r, sent, Continue), named)
    ensures Bland(s, StopOrContinue(r, sent), named)
  {
  }

  lemma ReleaseEntryBland(token: Ref, e: Entry, s: Owner, retry: bool, waiter: Waiter, generation: Ref)
    requires JobsHaveEntries(s)
    ensures var (r, sent) := ReleaseEntry(token, e, s, retry, waiter, generation);
            && Bland(s, Out(r, sent, Continue), {}) && Bland(s, StopOrContinue(r, sent), {})
  {
    var (r, sent) := ReleaseEntry(token, e, s, retry, waiter, generation);
    assert Bland(s, Out(r, sent, Continue), {});
    StopBland(s, r, sent, {});
  }

  lemma RemoveHolderBland(token: Ref, holder: Ref, e: Entry, s: Owner, supply: Ref)
    requires JobsHaveEntries(s)
    ensures Bland(s, RemoveHolder(token, holder, e, s, supply), {})
  {
    if holder in e.holders && e.holders - {holder} == {} {
      ReleaseEntryBland(token, e.(holders := e.holders - {holder}), s.(activeHolders := Max(s.activeHolders - 1, 0)), false, NoWaiter, supply);
    }
    hide ReleaseEntry, StopOrContinue;
  }

  lemma CancelPendingBland(token: Ref, s: Owner, supply: Ref)
    requires JobsHaveEntries(s)
    ensures Bland(s, CancelPendingIssue(token, s, supply), {})
  {
    if token in s.leases && s.leases[token].status.Active? && s.leases[token].pendingIssue.Some? {
      CancelledShape(s, token, supply);
      var d := Cancelled(s, token);
      assert d.drainMonitors == s.drainMonitors && d.tombstones == s.tombstones;
      hide CancelPendingIssue, Cancelled, ReleaseEntry, StopOrContinue, JobsHaveEntries;
      ReleaseEntryBland(token, d.leases[token], d, false, NoWaiter, supply);
    }
  }

  /** A step blamed on `r` is blamed on `s` when `r` only buried `named`. */
  lemma BlandFrom(s: Owner, r: Owner, o: Out, named: set<(Ref, Ref)>)
    requires Bland(r, o, {})
    requires r.drainMonitors == s.drainMonitors && r.tombstones.kinds.Keys <= s.tombstones.kinds.Keys + named
    ensures Bland(s, o, named)
  {
  }

  lemma QuietBland(s: Owner, r: Owner, named: set<(Ref, Ref)>)
    requires r.drainMonitors == s.drainMonitors && r.tombstones.kinds.Keys <= s.tombstones.kinds.Keys
    ensures Bland(s, Out(r, {}, Continue), named)
  {
  }

  lemma NamedBland(s: Owner, t: Ref, h: Ref, kind: Tombstone, supply: Ref)
    requires Runnable(s) && |s.tombstones.kinds| <= RELEASE_TOMBSTONE_LIMIT && Held(s, t, h)
    requires JobsHaveEntries(Named(s, t, h, kind))
    ensures Bland(s, RemoveHolder(t, h, ClearPendingRetain(h, s.leases[t], s).0, Named(s, t, h, kind), supply), {(t, h)})
  {
    var q := Named(s, t, h, kind);
    var e := ClearPendingRetain(h, s.leases[t], s).0;
    PutTombstoneListed(s.tombstones, (t, h), kind);
    assert q.drainMonitors == s.drainMonitors && q.tombstones.kinds.Keys <= s.tombstones.kinds.Keys + {(t, h)};
    hide *;
    RemoveHolderBland(t, h, e, q, supply);
    BlandFrom(s, q, RemoveHolder(t, h, e, q, supply), {(t, h)});
  }

  /** Counting a late release, or turning an abandonment into one, buries nothing new. */
  lemma UnheldBland(s: Owner, t: Ref, h: Ref, supply: Ref)
    requires Runnable(s)
    ensures !Held(s, t, h) ==> Bland(s, AbandonedMessage(s, t, h, supply), {})
    ensures !Held(s, t, h) || (t, h) in s.tombstones.kinds ==> Bland(s, ReleaseMessage(s, t, h, supply), {})
  {
    hide RemoveHolder, PutTombstone, Runnable, ClearPendingRetain;
    if (t, h) in s.tombstones.kinds { assert s.tombstones.kinds[(t, h) := Explicit].Keys == s.tombstones.kinds.Keys; }
  }

  lemma WidenBland(s: Owner, o: Out, named: set<(Ref, Ref)>)
    requires Bland(s, o, {})
    ensures Bland(s, o, named)
  {
  }

  lemma NamingBland(s: Owner, t: Ref, h: Ref, supply: Ref)
    requires Runnable(s) && |s.tombstones.kinds| <= RELEASE_TOMBSTONE_LIMIT
    ensures Bland(s, AbandonedMessage(s, t, h, supply), if Held(s, t, h) then {(t, h)} else {})
    ensures Bland(s, ReleaseMessage(s, t, h, supply), if Held(s, t, h) then {(t, h)} else {})
  {
    hide *;
    UnheldBland(s, t, h, supply);
    if Held(s, t, h) {
      HeldIsLease(s, t, h);
      NamedMessage(s, t, h, supply);
      RunnableParts(s);
      NamedBland(s, t, h, Abandoned, supply);
      NamedBland(s, t, h, Explicit, supply);
      if (t, h) in s.tombstones.kinds { WidenBland(s, ReleaseMessage(s, t, h, supply), {(t, h)}); }
    }
  }

  lemma CancelRetainBland(s: Owner, t: Ref, child: Ref, supply: Ref)
    requires Runnable(s)
    ensures Bland(s, CancelRetain(s, t, child, supply), {})
  {
    var s0 := s.(counters := s.counters.(retainCancellations := s.counters.retainCancellations + 1));
    QuietBland(s, s0, {});
    RunnableParts(s);
    CancelRetainStep(s, t, child, supply);
    hide *;
    if t in s.leases && s.leases[t].status.Active? && s.leases[t].root != Some(child) {
      ClearedBland(s, s0, t, child, supply);
    }
  }

  lemma ClearedBland(s: Owner, s0: Owner, t: Ref, child: Ref, supply: Ref)
    requires JobsHaveEntries(s) && s0 == s.(counters := s0.counters) && t in s.leases
    ensures JobsHaveEntries(ClearPendingRetain(child, s.leases[t], s0).1)
    ensures Bland(s, RemoveHolder(t, child, ClearPendingRetain(child, s.leases[t], s0).0, ClearPendingRetain(child, s.leases[t], s0).1, supply), {})
  {
    var e, s1 := ClearPendingRetain(child, s.leases[t], s0).0, ClearPendingRetain(child, s.leases[t], s0).1;
    assert s1.drainMonitors == s.drainMonitors && s1.tombstones == s.tombstones;
    hide Bland, RemoveHolder;
    RemoveHolderBland(t, child, e, s1, supply);
    BlandFrom(s, s1, RemoveHolder(t, child, e, s1, supply), {});
  }

  lemma FinishOkBland(s: Owner, t: Ref, generation: Ref, supply: Ref)
    requires Runnable(s) && AnswersJob(s, t, generation)
    ensures Bland(s, FinishJob(s, t, generation, CallbackOk, supply), {})
  {
    FinishOkShape(s, t, generation, supply);
    var r := Succeeded(s, t);
    DispatchBland(r);
    JobReplySilent(s.job.value.waiter, CallbackOk, t);
    assert r.drainMonitors == s.drainMonitors && r.tombstones == s.tombstones;
    hide FinishJob, Dispatch, StopOrContinue, JobReply, Succeeded;
    StopBland(s, Dispatch(r).0, {ReleasedNotice(t)} + JobReply(s.job.value.waiter, CallbackOk, t) + Dispatch(r).1, {});
  }

  lemma FinishErrorBland(s: Owner, t: Ref, generation: Ref, reason: Reason, supply: Ref)
    requires Runnable(s) && AnswersJob(s, t, generation) && WaitersInv(s)
    ensures Bland(s, FinishJob(s, t, generation, CallbackError(reason), supply), {})
  {
    FinishErrorShape(s, t, generation, reason, supply);
    var r := Failed(s, t, reason, supply + 5);
    DispatchBland(r);
    JobReplySilent(s.job.value.waiter, CallbackError(reason), t);
    assert r.drainMonitors == map[] && r.tombstones == s.tombstones;
    hide FinishJob, Dispatch, StopOrContinue, JobReply, Failed, WaitersInv;
    StopBland(s, Dispatch(r).0, {FailedNotice(t, reason)} + JobReply(s.job.value.waiter, CallbackError(reason), t)
                                + DrainReplies(s.drainWaiters.Keys, Refused(reason)) + Dispatch(r).1, {});
  }

  lemma DispatchBland(s: Owner)
    requires JobsHaveEntries(s)
    ensures Bland(s, Out(Dispatch(s).0, Dispatch(s).1, Continue), {})
  {
  }

  lemma JobReplySilent(waiter: Waiter, result: CallbackResult, token: Ref)
    ensures Silent(JobReply(waiter, result, token))
  {
  }

  lemma FinishBland(s: Owner, t: Ref, generation: Ref, result: CallbackResult, supply: Ref)
    requires Runnable(s) && WaitersInv(s)
    ensures Bland(s, FinishJob(s, t, generation, result, supply), {})
  {
    if AnswersJob(s, t, generation) {
      match result
      case CallbackOk => FinishOkBland(s, t, generation, supply);
      case CallbackError(reason) => FinishErrorBland(s, t, generation, reason, supply);
    } else {
      hide WaitersInv, Runnable;
    }
  }

  lemma ExecutorDownBland(s: Owner, code: Term, supply: Ref)
    requires Running(s) && Runnable(s)
    ensures Bland(s, ExecutorDown(s, code, supply), {})
  {
    assert Busy(s) && WaitersInv(s);
    ExecutorDownShape(s, code, supply);
    var r := Restarted(s, supply);
    assert WaitersInv(r) && r.drainMonitors == s.drainMonitors && r.tombstones == s.tombstones;
    QuietBland(s, r, {});
    hide Running, FinishJob, ExecutorDown, Runnable, WaitersInv, Bland, Restarted;
    if s.job.Some? {
      FinishBland(r, s.job.value.token, s.job.value.generation, CallbackError(ExecutorDied(code)), supply);
      BlandFrom(s, r, ExecutorDown(s, code, supply), {});
    }
  }

  lemma RetriesBland(s: Owner, t: Ref, generation: Ref, from: Ref, supply: Ref)
    requires Runnable(s)
    ensures Bland(s, RetryTimerFired(s, t, generation, supply), {})
    ensures Bland(s, RetryCall(s, t, from, supply), {})
  {
    var s1 := CancelRetryTimer(t, s);
    assert JobsHaveEntries(s1);
    QuietBland(s, s, {});
    QuietBland(s, s1, {});
    RetryRefusedBland(s, s1, from);
    if t in s.leases {
      var timed, called := ReleaseEntry(t, s.leases[t], s1, true, NoWaiter, supply), ReleaseEntry(t, s.leases[t], s1, true, RetryWaiter(from), supply);
      ReleaseEntryBland(t, s.leases[t], s1, true, NoWaiter, supply);
      ReleaseEntryBland(t, s.leases[t], s1, true, RetryWaiter(from), supply);
      BlandFrom(s, s1, Out(timed.0, timed.1, Continue), {});
      BlandFrom(s, s1, Out(called.0, called.1, Continue), {});
    }
    hide ReleaseEntry, StopOrContinue, Bland, Runnable, JobsHaveEntries;
  }

  lemma RetryRefusedBland(s: Owner, r: Owner, from: Ref)
    requires r.drainMonitors == s.drainMonitors && r.tombstones == s.tombstones
    ensures forall reason :: Bland(s, Out(r, {RetryReply(from, Refused(reason))}, Continue), {})
  {
  }

  lemma DownBland(s: Owner, m: Ref, supply: Ref)
    requires Runnable(s)
    ensures Bland(s, MonitorDown(s, m, supply), {})
  {
    if m in s.monitors {
      var s1 := s.(monitors := s.monitors - {m});
      match s.monitors[m]
      case ForReservation(request) => StopBland(s, RemoveIssueReservation(request, s1), {}, {});
      case ForIssuePending(request) => StopBland(s, RemoveIssueReservation(request, s1), {}, {});
      case ForRetain(t, child) =>
        if t in s.leases {
          RemoveHolderBland(t, child, s.leases[t].(pendingRetains := s.leases[t].pendingRetains - {child}), s1, supply);
        }
      case ForIssue(t, _) => CancelPendingBland(t, s1, supply);
    }
    hide RemoveHolder, CancelPendingIssue, StopOrContinue, Runnable;
  }

  lemma CommitReplies(s: Owner, reservation: Ref, backend: Term, replyTo: Pid, request: Ref, guard: Guard, now: int, supply: Ref)
    requires Runnable(s) && CommitMatches(s, reservation, replyTo, request)
    ensures var o := CommitIssue(s, reservation, backend, replyTo, request, guard, now, supply);
            && o.state.drainMonitors.Keys <= s.drainMonitors.Keys && o.state.tombstones == s.tombstones
            && (guard.GuardBuilt? ==> o.sent == {IssuedReply(request, Accepted((supply + 2, supply + 3)))})
            && (guard.GuardFailed? ==> Silent(o.sent))
  {
    if guard.GuardFailed? {
      RejectedIsRelease(s, reservation, backend, replyTo, request, guard.code, now, supply);
      var q := Rejected(s, backend, request, now, supply + 2);
      assert q.drainMonitors == s.drainMonitors && q.tombstones == s.tombstones;
      ReleaseEntryBland(supply + 2, q.leases[supply + 2], q, false, IssueWaiter(request, guard.code), supply + 4);
      ReleaseEntryTombstones(supply + 2, q.leases[supply + 2], q, false, IssueWaiter(request, guard.code), supply + 4);
      hide CommitIssue, ReleaseEntry, Rejected;
    }
    hide Runnable;
  }

  lemma ReleaseEntryTombstones(token: Ref, e: Entry, s: Owner, retry: bool, waiter: Waiter, generation: Ref)
    requires JobsHaveEntries(s)
    ensures ReleaseEntry(token, e, s, retry, waiter, generation).0.tombstones == s.tombstones
  {
  }

  /** Ids the message may bury: the pair a release or abandonment names, if it is held. */
  ghost function Buries(s: Owner, m: Message): set<(Ref, Ref)> {
    match m
    case AbandonedMsg(t, h) => if Held(s, t, h) then {(t, h)} else {}
    case ReleaseMsg(t, h) => if Held(s, t, h) then {(t, h)} else {}
    case _ => {}
  }

  predicate Deciding(m: Message) { m.ReserveMsg? || m.CommitMsg? || m.RetainMsg? }

  lemma DecidingKinds(m: Message)
    ensures Deciding(m) <==> m.ReserveMsg? || m.CommitMsg? || m.RetainMsg?
  {
  }

  lemma Burial(s: Owner, m: Message)
    ensures match m
            case AbandonedMsg(t, h) => Buries(s, m) == if Held(s, t, h) then {(t, h)} else {}
            case ReleaseMsg(t, h) => Buries(s, m) == if Held(s, t, h) then {(t, h)} else {}
            case _ => Buries(s, m) == {}
  {
    hide Held;
  }

  lemma HandleBland(s: Owner, m: Message, supply: Ref)
    requires Running(s) && Admissible(s, m, supply) && !Deciding(m) && !m.DrainMsg?
    ensures Runnable(s)
    ensures Bland(s, Handle(s, m, supply), Buries(s, m))
  {
    hide *;
    Routed(s, m, supply);
    RunningWaiters(s);
    Burial(s, m);
    DecidingKinds(m);
    match m
    case CancelReservationMsg(request) => PlainBland(s, request, 0, 0);
    case AbandonedMsg(token, holder) => NamingBland(s, token, holder, supply);
    case ReleaseMsg(token, holder) => NamingBland(s, token, holder, supply);
    case ConfirmIssueMsg(token, request) => PlainBland(s, request, token, 0);
    case CancelIssueMsg(request) => CancelIssueBland(s, request, supply);
    case ConfirmRetainMsg(token, child, request) => PlainBland(s, request, token, child);
    case CancelRetainMsg(token, child) => CancelRetainBland(s, token, child, supply);
    case CancelDrainMsg(request) => PlainBland(s, request, 0, 0);
    case ResultMsg(executor, token, generation, result) => ResultBland(s, executor, token, generation, result, supply);
    case ExecutorDownMsg(code) => ExecutorDownBland(s, code, supply);
    case RetryTimerMsg(token, generation) => RetriesBland(s, token, generation, 0, supply);
    case RetryCallMsg(token, from) => RetriesBland(s, token, 0, from, supply);
    case BeginDrainMsg => PlainBland(s, 0, 0, 0);
    case MonitorDownMsg(monitor) => DownBland(s, monitor, supply);
    case MalformedMsg => MalformedBland(s, supply);
  }

  lemma MalformedBland(s: Owner, supply: Ref)
    requires Runnable(s)
    ensures Bland(s, Handle(s, MalformedMsg, supply), {})
  {
  }

  lemma PlainBland(s: Owner, request: Ref, token: Ref, child: Ref)
    ensures Bland(s, CancelReservation(s, request), {})
    ensures Bland(s, ConfirmIssue(s, token, request), {})
    ensures Bland(s, ConfirmRetain(s, token, child, request), {})
    ensures Bland(s, CancelDrain(s, request), {})
    ensures Bland(s, BeginDrain(s), {})
  {
    ClosingBland(s, request);
    ConfirmsBland(s, request, token, child);
    hide *;
  }

  lemma ClosingBland(s: Owner, request: Ref)
    ensures Bland(s, CancelReservation(s, request), {})
    ensures Bland(s, CancelDrain(s, request), {})
    ensures Bland(s, BeginDrain(s), {})
  {
    assert Bland(s, CancelDrain(s, request), {});
    var r := RemoveIssueReservation(request, s);
    var closed := s.(mode := Draining);
    assert r.drainMonitors == s.drainMonitors && r.tombstones == s.tombstones;
    hide CancelDrain, RemoveIssueReservation, IsDrained;
    QuietBland(s, r, {});
    QuietBland(s, closed, {});
    StopBland(s, r, {}, {});
    StopBland(s, closed, {}, {});
    hide Bland, CompleteDrain;
  }

  lemma ConfirmsBland(s: Owner, request: Ref, token: Ref, child: Ref)
    ensures Bland(s, ConfirmIssue(s, token, request), {})
    ensures Bland(s, ConfirmRetain(s, token, child, request), {})
  {
    QuietBland(s, ConfirmIssue(s, token, request).state, {});
    QuietBland(s, ConfirmRetain(s, token, child, request).state, {});
    hide Bland;
  }

  lemma CancelIssueBland(s: Owner, request: Ref, supply: Ref)
    requires Runnable(s)
    ensures Bland(s, CancelIssue(s, request, supply), {})
  {
    if request in s.pendingIssues { CancelPendingBland(s.pendingIssues[request], s, supply); }
    hide CancelPendingIssue;
  }

  lemma ResultBland(s: Owner, executor: Ref, t: Ref, generation: Ref, result: CallbackResult, supply: Ref)
    requires Runnable(s) && WaitersInv(s)
    ensures Bland(s, ReleaseResult(s, executor, t, generation, result, supply), {})
  {
    FinishBland(s, t, generation, result, supply);
    hide FinishJob;
  }

  // ---- deciding handlers -------------------------------------------------------------------

  lemma ReserveReplies(s: Owner, metadata: Term, replyTo: Pid, request: Ref, supply: Ref)
    ensures var o := ReserveIssue(s, metadata, replyTo, request, supply);
            && o.state.drainMonitors == s.drainMonitors && o.state.tombstones == s.tombstones
            && (|| (&& o.sent == {ReservedReply(request, Accepted(supply + 1))}
                    && ExpectedReserve(s, metadata, replyTo, request, supply)
                       == ViewOf(s).(reservations := s.reservations[request := Reservation(supply + 1, replyTo, supply, metadata)]))
                || (exists reason :: o.sent == {ReservedReply(request, Refused(reason))}
                                     && ExpectedReserve(s, metadata, replyTo, request, supply) == ViewOf(s)))
  {
    var o := ReserveIssue(s, metadata, replyTo, request, supply);
    if s.mode.Draining? {
      assert o.sent == {ReservedReply(request, Refused(IsDraining))};
    } else if !CapacityAvailable(s) {
      assert o.sent == {ReservedReply(request, Refused(Capacity))};
    }
    hide CapacityAvailable;
  }

  lemma RetainReplies(s: Owner, t: Ref, parent: Ref, child: Ref, request: Ref, guard: Guard, supply: Ref)
    requires EntriesInv(s, None)
    ensures var o := Retain(s, t, parent, child, request, guard, supply);
            && o.state.drainMonitors == s.drainMonitors && o.state.tombstones == s.tombstones
            && (|| (o.sent == {RetainedReply(request, Accepted(child))}
                    && !ViewOf(s).closed && t in s.leases && parent in s.leases[t].holders && child !in s.leases[t].holders && guard.GuardBuilt?)
                || (exists reason :: o.sent == {RetainedReply(request, Refused(reason))}
                                     && (ExpectedRetain(ViewOf(s), t, parent, child, request, guard, supply) == ViewOf(s))))
  {
    var o := Retain(s, t, parent, child, request, guard, supply);
    if t in s.leases { assert EntryShape(s.leases[t]); }
    hide EntriesInv;
    if s.mode.Draining? {
      assert o.sent == {RetainedReply(request, Refused(IsDraining))};
    } else if t !in s.leases {
      assert o.sent == {RetainedReply(request, Refused(UnknownLease))};
    } else if !s.leases[t].status.Active? {
      assert o.sent == {RetainedReply(request, Refused(LeaseNotActive))};
    } else if parent !in s.leases[t].holders {
      assert o.sent == {RetainedReply(request, Refused(UnknownParentHolder))};
    } else if child in s.leases[t].holders {
      assert o.sent == {RetainedReply(request, Refused(DuplicateHolder))};
    } else if guard.GuardFailed? {
      assert o.sent == {RetainedReply(request, Refused(GuardFactoryFailed(guard.code)))};
    }
  }

  lemma DrainTables(s: Owner, replyTo: Pid, request: Ref, pick: Option<Ref>, supply: Ref)
    requires IsFirstFailure(s, pick)
    ensures var o := Drain(s, replyTo, request, pick, supply);
            && Silent(o.sent) && o.state.tombstones == s.tombstones
            && o.state.drainMonitors.Keys <= s.drainMonitors.Keys + {supply}
  {
    hide IsFirstFailure;
  }

  // ---- freshness ---------------------------------------------------------------------------

  ghost predicate ClaimFresh(c: Claim, supply: Ref) {
    && (c.pendingIssue.Some? ==> c.pendingIssue.value.monitor < supply)
    && (forall h :: h in c.pendingRetains ==> c.pendingRetains[h].monitor < supply)
  }

  ghost predicate ViewFresh(v: View, supply: Ref) {
    && (forall r :: r in v.reservations ==> v.reservations[r].monitor < supply)
    && (forall t :: t in v.claims ==> t < supply && ClaimFresh(v.claims[t], supply))
  }

  /** Every monitor in the table belongs to something in the view, so fresh views mean fresh monitors. */
  lemma ViewFreshMonitors(s: Owner, supply: Ref)
    requires MonitorsInv(s) && ViewFresh(ViewOf(s), supply)
    ensures forall m :: m in s.monitors ==> m < supply
    ensures forall t :: t in s.leases ==> t < supply
  {
    var v := ViewOf(s);
    forall m | m in s.monitors ensures m < supply {
      var p := s.monitors[m];
      assert Watches(s, m, p) && PurposeBacked(s, m, p);
      match p
      case ForReservation(r) => assert r in v.reservations;
      case ForIssue(t, _) => assert t in v.claims && ClaimFresh(v.claims[t], supply);
      case ForRetain(t, _) => assert t in v.claims && ClaimFresh(v.claims[t], supply);
    }
    forall t | t in s.leases ensures t < supply { assert t in v.claims; }
  }

  lemma ClaimPutFresh(v: View, t: Ref, c: Claim, supply: Ref, later: Ref)
    requires ViewFresh(v, supply) && supply <= later && t < later && ClaimFresh(c, later)
    ensures ViewFresh(v.(claims := v.claims[t := c]), later)
  {
    forall u | u in v.claims ensures ClaimFresh(v.claims[u], later) { assert ClaimFresh(v.claims[u], supply); }
  }

  lemma LaterFresh(v: View, supply: Ref, later: Ref)
    requires ViewFresh(v, supply) && supply <= later
    ensures ViewFresh(v, later)
  {
    forall u | u in v.claims ensures ClaimFresh(v.claims[u], later) { assert ClaimFresh(v.claims[u], supply); }
  }

  lemma FewerFresh(v: View, w: View, supply: Ref)
    requires ViewFresh(v, supply)
    requires forall r :: r in w.reservations ==> r in v.reservations && w.reservations[r] == v.reservations[r]
    requires forall t :: t in w.claims ==> t in v.claims && w.claims[t] == v.claims[t]
    ensures ViewFresh(w, supply)
  {
  }

  lemma LeavesFresh(v: View, t: Ref, h: Ref, supply: Ref)
    requires ViewFresh(v, supply)
    ensures ViewFresh(Leave(v, t, h), supply) && ViewFresh(LeaveAll(v, t), supply)
  {
    if t in v.claims {
      assert ClaimFresh(v.claims[t], supply);
      var c := v.claims[t];
      ClaimPutFresh(v, t, Cleared(c), supply, supply);
      ClaimPutFresh(v, t, c.(holders := c.holders - {h}, pendingRetains := c.pendingRetains - {h}), supply, supply);
    }
    hide ViewFresh;
  }

  lemma ConfirmsFresh(v: View, t: Ref, child: Ref, request: Ref, supply: Ref)
    requires ViewFresh(v, supply)
    ensures ViewFresh(ExpectedConfirmIssue(v, t, request), supply) && ViewFresh(ExpectedConfirmRetain(v, t, child, request), supply)
  {
    if t in v.claims {
      assert ClaimFresh(v.claims[t], supply);
      var c := v.claims[t];
      ClaimPutFresh(v, t, c.(pendingIssue := None), supply, supply);
      ClaimPutFresh(v, t, c.(pendingRetains := c.pendingRetains - {child}), supply, supply);
    }
    hide ViewFresh;
  }

  lemma CommitFresh(v: View, request: Ref, guard: Guard, supply: Ref)
    requires ViewFresh(v, supply)
    ensures ViewFresh(ExpectedCommit(v, request, guard, supply), supply + REFS_PER_STEP)
  {
    LaterFresh(v, supply, supply + REFS_PER_STEP);
    if request in v.reservations {
      var c := if guard.GuardBuilt? then Claim({supply + 3}, Some(supply + 3), Some(Pending(v.reservations[request].monitor, request)), map[])
               else Claim({}, None, None, map[]);
      var w := v.(reservations := v.reservations - {request});
      FewerFresh(v, w, supply);
      ClaimPutFresh(w, supply + 2, c, supply, supply + REFS_PER_STEP);
    }
    hide ViewFresh;
  }

  lemma RetainFresh(v: View, t: Ref, parent: Ref, child: Ref, request: Ref, guard: Guard, supply: Ref)
    requires ViewFresh(v, supply)
    ensures ViewFresh(ExpectedRetain(v, t, parent, child, request, guard, supply), supply + REFS_PER_STEP)
  {
    LaterFresh(v, supply, supply + REFS_PER_STEP);
    if t in v.claims {
      assert ClaimFresh(v.claims[t], supply);
      var c := v.claims[t];
      ClaimPutFresh(v, t, c.(holders := c.holders + {child}, pendingRetains := c.pendingRetains[child := Pending(supply, request)]), supply, supply + REFS_PER_STEP);
    }
    hide ViewFresh;
  }

  lemma ReserveFresh(s: Owner, metadata: Term, replyTo: Pid, request: Ref, supply: Ref)
    requires ViewFresh(ViewOf(s), supply)
    ensures ViewFresh(ExpectedReserve(s, metadata, replyTo, request, supply), supply + REFS_PER_STEP)
  {
    hide ViewOf, CapacityAvailable;
    LaterFresh(ViewOf(s), supply, supply + REFS_PER_STEP);
  }

  lemma DownFresh(s: Owner, m: Ref, supply: Ref)
    requires ViewFresh(ViewOf(s), supply)
    ensures ViewFresh(ExpectedDown(s, m), supply)
  {
    var v := ViewOf(s);
    hide ViewOf;
    if m in s.monitors {
      match s.monitors[m]
      case ForReservation(request) => FewerFresh(v, v.(reservations := v.reservations - {request}), supply);
      case ForIssuePending(_) =>
      case ForRetain(t, child) => LeavesFresh(v, t, child, supply);
      case ForIssue(t, _) => LeavesFresh(v, t, 0, supply);
    }
    hide ViewFresh, Leave, LeaveAll;
  }

  /** Whatever a message leaves in the tables was there, or is one of the references it was given. */
  lemma ExpectedFresh(s: Owner, m: Message, supply: Ref)
    requires ViewFresh(ViewOf(s), supply)
    ensures ViewFresh(Expected(s, m, supply), supply + REFS_PER_STEP)
  {
    if IssueMessage(m) { IssueFresh(s, m, supply); } else { HolderFresh(s, m, supply); }
  }

  predicate IssueMessage(m: Message) {
    m.ReserveMsg? || m.CommitMsg? || m.CancelReservationMsg? || m.ConfirmIssueMsg? || m.CancelIssueMsg? || m.DrainMsg? || m.BeginDrainMsg?
  }

  lemma IssueFresh(s: Owner, m: Message, supply: Ref)
    requires ViewFresh(ViewOf(s), supply) && IssueMessage(m)
    ensures ViewFresh(Expected(s, m, supply), supply + REFS_PER_STEP)
  {
    var v := ViewOf(s);
    var later := supply + REFS_PER_STEP;
    LaterFresh(v, supply, later);
    hide ViewOf, ViewFresh, AnswersJob, Leave, LeaveAll, ExpectedConfirmIssue, ExpectedConfirmRetain, ExpectedCommit, ExpectedRetain, ExpectedReserve, ExpectedDown;
    match m
    case ReserveMsg(metadata, replyTo, request) => ReserveFresh(s, metadata, replyTo, request, supply);
    case CommitMsg(_, _, _, request, guard, _) => CommitFresh(v, request, guard, supply);
    case CancelReservationMsg(request) => FewerFresh(v, v.(reservations := v.reservations - {request}), later);
    case ConfirmIssueMsg(t, request) => ConfirmsFresh(v, t, 0, request, later);
    case CancelIssueMsg(request) => if request in s.pendingIssues { LeavesFresh(v, s.pendingIssues[request], 0, later); }
    case DrainMsg(_, _, _) => FewerFresh(v, v.(closed := true), later);
    case BeginDrainMsg => FewerFresh(v, v.(closed := true), later);
  }

  lemma HolderFresh(s: Owner, m: Message, supply: Ref)
    requires ViewFresh(ViewOf(s), supply) && !IssueMessage(m)
    ensures ViewFresh(Expected(s, m, supply), supply + REFS_PER_STEP)
  {
    var v := ViewOf(s);
    var later := supply + REFS_PER_STEP;
    LaterFresh(v, supply, later);
    hide ViewOf, ViewFresh, AnswersJob, Leave, LeaveAll, ExpectedConfirmIssue, ExpectedConfirmRetain, ExpectedCommit, ExpectedRetain, ExpectedReserve, ExpectedDown;
    match m
    case AbandonedMsg(t, h) => LeavesFresh(v, t, h, later);
    case ReleaseMsg(t, h) => LeavesFresh(v, t, h, later);
    case RetainMsg(t, parent, child, request, guard) => RetainFresh(v, t, parent, child, request, guard, supply);
    case ConfirmRetainMsg(t, child, request) => ConfirmsFresh(v, t, child, request, later);
    case CancelRetainMsg(t, child) => LeavesFresh(v, t, child, later);
    case ResultMsg(_, t, _, _) => FewerFresh(v, v.(claims := v.claims - {t}, successes := v.successes + 1), later);
    case MonitorDownMsg(monitor) => DownFresh(s, monitor, supply); LaterFresh(ExpectedDown(s, monitor), supply, later);
    case _ =>
  }
}
