/** Every remaining handler of the lease owner keeps its invariant, and the theorem over all messages. */
module LeaseHandlers {
  import opened Common
  import opened LeaseModel
  import opened LeaseInvariant

  // ---- confirmations -----------------------------------------------------------------------

  lemma ConfirmIssueGood(s: Owner, t: Ref, request: Ref)
    requires Running(s)
    ensures Good(ConfirmIssue(s, t, request))
  {
    hide Inv;
    if ConfirmIssue(s, t, request).state != s {
      RunningIsInv(s);
      ClearIssueKeeps(s, t);
      assert ConfirmIssue(s, t, request).state == Put(ClearPendingIssue(s.leases[t], s).1, t, ClearPendingIssue(s.leases[t], s).0);
      assert t in ConfirmIssue(s, t, request).state.leases;
    }
    hide InvBut;
  }

  lemma ConfirmRetainGood(s: Owner, t: Ref, child: Ref, request: Ref)
    requires Running(s)
    ensures Good(ConfirmRetain(s, t, child, request))
  {
    if ConfirmRetain(s, t, child, request).state != s {
      ClearRetainKeeps(s, t, child);
      assert ConfirmRetain(s, t, child, request).state
             == Put(ClearPendingRetain(child, s.leases[t], s).1, t, ClearPendingRetain(child, s.leases[t], s).0);
      assert t in ConfirmRetain(s, t, child, request).state.leases;
    }
    hide InvBut;
  }

  // ---- cancellations -----------------------------------------------------------------------

  lemma CancelRetainShape(s: Owner, t: Ref, child: Ref, supply: Ref)
    requires Runnable(s) && Held(s, t, child) && s.leases[t].root != Some(child)
    ensures var (e, s1) := ClearPendingRetain(child, s.leases[t], s);
            var s2 := s1.(counters := s.counters.(retainCancellations := s.counters.retainCancellations + 1));
            JobsHaveEntries(s2) && CancelRetain(s, t, child, supply) == RemoveHolder(t, child, e, s2, supply)
  {
    hide RemoveHolder, TombstonesListed;
  }

  /** A cancellation of anything but the root is the removal of that holder, held or not. */
  lemma CancelRetainStep(s: Owner, t: Ref, child: Ref, supply: Ref)
    requires Runnable(s)
    ensures var s0 := s.(counters := s.counters.(retainCancellations := s.counters.retainCancellations + 1));
            if t in s.leases && s.leases[t].status.Active? && s.leases[t].root != Some(child) then
              var e, s1 := ClearPendingRetain(child, s.leases[t], s0).0, ClearPendingRetain(child, s.leases[t], s0).1;
              JobsHaveEntries(s1) && CancelRetain(s, t, child, supply) == RemoveHolder(t, child, e, s1, supply)
            else CancelRetain(s, t, child, supply) == Out(s0, {}, Continue)
  {
    hide RemoveHolder, TombstonesListed;
  }

  lemma RunnableParts(s: Owner)
    requires Runnable(s)
    ensures TombstonesListed(s.tombstones) && JobsHaveEntries(s)
  {
  }

  lemma PendingLeaves(s: Owner, t: Ref, child: Ref, c: Counters)
    requires Inv(s) && Held(s, t, child)
    ensures var (e, s1) := ClearPendingRetain(child, s.leases[t], s);
            child in e.holders && HolderLeft(WithoutHolder(t, child, e, s1.(counters := c)), t)
  {
    var (e, s1) := ClearPendingRetain(child, s.leases[t], s);
    NamedShape(s, t, child, s.tombstones, c);
    assert s1.(counters := c, tombstones := s.tombstones) == s1.(counters := c);
    ClearRetainKeeps(s, t, child);
    hide InvBut, WithoutHolder, Put, ClearPendingRetain;
    var b := Put(s1, t, e);
    HolderLeaves(b, t, child);
    var d := WithoutHolder(t, child, e, b);
    SameTablesKeeps(d, d.(counters := c), if d.leases[t].holders == {} then Some(t) else None);
    assert d.(counters := c, tombstones := s.tombstones) == d.(counters := c);
  }

  lemma CancelRetainGood(s: Owner, t: Ref, child: Ref, supply: Ref)
    requires Running(s)
    ensures Runnable(s)
    ensures Good(CancelRetain(s, t, child, supply))
  {
    InvIsRunnable(s);
    if Held(s, t, child) && s.leases[t].root != Some(child) {
      var c := s.counters.(retainCancellations := s.counters.retainCancellations + 1);
      CancelRetainShape(s, t, child, supply);
      PendingLeaves(s, t, child, c);
      hide *;
      RemoveHolderGood(t, child, ClearPendingRetain(child, s.leases[t], s).0,
                       ClearPendingRetain(child, s.leases[t], s).1.(counters := c), supply);
    } else {
      NotHeldCancels(s, t, child, supply);
      SameTablesRunning(s, CancelRetain(s, t, child, supply).state);
    }
  }

  lemma NotHeldCancels(s: Owner, t: Ref, child: Ref, supply: Ref)
    requires Inv(s) && Runnable(s) && !(Held(s, t, child) && s.leases[t].root != Some(child))
    ensures SameTables(s, CancelRetain(s, t, child, supply).state) && CancelRetain(s, t, child, supply).fate == Continue
  {
    if t in s.leases { assert EntryShape(s.leases[t]); }
  }

  /** The record after `cancel_pending_issue` took every holder, before anything is queued. */
  ghost function Cancelled(s: Owner, t: Ref): Owner
    requires t in s.leases
  {
    var (e, s1) := ClearPendingIssue(s.leases[t], s);
    Put(s1.(activeHolders := Max(s1.activeHolders - |e.holders|, 0)), t, e.(holders := {}))
  }

  lemma CancelledShape(s: Owner, t: Ref, supply: Ref)
    requires JobsHaveEntries(s) && t in s.leases && s.leases[t].status.Active? && s.leases[t].pendingIssue.Some?
    ensures var d := Cancelled(s, t);
            t in d.leases && JobsHaveEntries(d)
            && CancelPendingIssue(t, s, supply) ==
               var (r, sent) := ReleaseEntry(t, d.leases[t], d, false, NoWaiter, supply); StopOrContinue(r, sent)
  {
    var (e, s1) := ClearPendingIssue(s.leases[t], s);
    var s2 := s1.(activeHolders := Max(s1.activeHolders - |e.holders|, 0));
    EnqueuePut(t, e.(holders := {}), s2, false, NoWaiter, supply);
  }

  lemma CancelledRetires(s: Owner, t: Ref)
    requires Inv(s) && t in s.leases && s.leases[t].status.Active?
    ensures InvBut(Cancelled(s, t), Some(t)) && Retiring(Cancelled(s, t), t)
  {
    var (e, s1) := ClearPendingIssue(s.leases[t], s);
    var b := Put(s1, t, e);
    assert t in b.leases && b.leases[t] == e && e.status.Active? && b.activeHolders == s1.activeHolders;
    assert e.holders - e.holders == {};
    assert s1.leases[t := e][t := e.(holders := {})] == s1.leases[t := e.(holders := {})];
    assert DropHolders(b, t, e.holders) == Cancelled(s, t);
    ClearIssueKeeps(s, t);
    hide *;
    DropAllKeeps(b, t);
  }

  lemma CancelPendingIssueGood(s: Owner, t: Ref, supply: Ref)
    requires Running(s)
    ensures Runnable(s)
    ensures Good(CancelPendingIssue(t, s, supply))
  {
    InvIsRunnable(s);
    if t in s.leases && s.leases[t].status.Active? && s.leases[t].pendingIssue.Some? {
      CancelledShape(s, t, supply);
      var d := Cancelled(s, t);
      hide *;
      CancelledRetires(s, t);
      ReleaseEntryKeeps(t, d, false, NoWaiter, supply);
      var (r, sent) := ReleaseEntry(t, d.leases[t], d, false, NoWaiter, supply);
      StopOrContinueGood(r, sent);
    }
  }

  lemma CancelIssueGood(s: Owner, request: Ref, supply: Ref)
    requires Running(s)
    ensures Runnable(s)
    ensures Good(CancelIssue(s, request, supply))
  {
    InvIsRunnable(s);
    if request in s.pendingIssues { CancelPendingIssueGood(s, s.pendingIssues[request], supply); }
    hide InvBut, CancelPendingIssue, Runnable;
  }

  // ---- retains -----------------------------------------------------------------------------

  /** `r` is `s` with the new holder `child` registered and pending under monitor `m`. */
  ghost predicate Registers(s: Owner, r: Owner, t: Ref, child: Ref, p: Pending) {
    && t in s.leases && s.leases[t].status.Active? && child !in s.leases[t].holders
    && r == s.(leases := s.leases[t := s.leases[t].(holders := s.leases[t].holders + {child},
                                                    pendingRetains := s.leases[t].pendingRetains[child := p])],
               monitors := s.monitors[p.monitor := ForRetain(t, child)],
               activeHolders := s.activeHolders + 1, counters := r.counters)
  }

  lemma RegistersMonitors(s: Owner, r: Owner, t: Ref, child: Ref, p: Pending)
    requires Registers(s, r, t, child, p) && MonitorsInv(s) && EntriesInv(s, None) && p.monitor !in s.monitors
    ensures MonitorsInv(r)
  {
    assert EntryShape(s.leases[t]);
    forall m, q ensures PurposeBacked(r, m, q) <==> Watches(r, m, q) {
      assert PurposeBacked(s, m, q) <==> Watches(s, m, q);
    }
    forall q, u ensures AwaitsConfirm(r, q, u) <==> Indexed(r, q, u) {
      assert AwaitsConfirm(s, q, u) <==> Indexed(s, q, u);
    }
  }

  lemma RegistersPipeline(s: Owner, r: Owner, t: Ref, child: Ref, p: Pending)
    requires Registers(s, r, t, child, p) && JobsInv(s) && Busy(s) && TimersInv(s, None)
    ensures JobsInv(r) && Busy(r) && TimersInv(r, None)
  {
    RegistersJobs(s, r, t, child, p);
    hide JobsInv;
  }

  lemma RegistersJobs(s: Owner, r: Owner, t: Ref, child: Ref, p: Pending)
    requires Registers(s, r, t, child, p) && JobsInv(s)
    ensures JobsInv(r)
  {
  }

  lemma RegistersHolders(s: Owner, r: Owner, t: Ref, child: Ref, p: Pending)
    requires Registers(s, r, t, child, p) && EntriesInv(s, None) && HoldersInv(s)
    ensures EntriesInv(r, None) && HoldersInv(r)
  {
    HolderCountPut(s.leases, t, r.leases[t]);
    assert EntryShape(s.leases[t]);
  }

  lemma RegistersTables(s: Owner, r: Owner, t: Ref, child: Ref, p: Pending)
    requires Registers(s, r, t, child, p) && (t, child) !in s.tombstones.kinds
    requires AgeInv(s) && WaitersInv(s) && CapacityInv(s) && TombstonesInv(s)
    ensures AgeInv(r) && WaitersInv(r) && CapacityInv(r) && TombstonesInv(r)
  {
    assert r.leases.Keys == s.leases.Keys;
  }

  lemma RegistersKeeps(s: Owner, r: Owner, t: Ref, child: Ref, p: Pending)
    requires Inv(s) && Registers(s, r, t, child, p) && p.monitor !in s.monitors && (t, child) !in s.tombstones.kinds
    ensures Inv(r)
  {
    RegistersMonitors(s, r, t, child, p);
    RegistersPipeline(s, r, t, child, p);
    RegistersHolders(s, r, t, child, p);
    RegistersTables(s, r, t, child, p);
    hide *;
  }

  lemma RetainShape(s: Owner, t: Ref, parent: Ref, child: Ref, request: Ref, guard: Guard, supply: Ref)
    ensures var o := Retain(s, t, parent, child, request, guard, supply);
            o.fate == Continue && o.state.mode == s.mode
            && (SameTables(s, o.state) || Registers(s, o.state, t, child, Pending(supply, request)))
  {
  }

  lemma RetainGood(s: Owner, t: Ref, parent: Ref, child: Ref, request: Ref, guard: Guard, supply: Ref)
    requires Running(s) && Unused(s, supply) && (t, child) !in s.tombstones.kinds
    ensures Good(Retain(s, t, parent, child, request, guard, supply))
  {
    var o := Retain(s, t, parent, child, request, guard, supply);
    RetainShape(s, t, parent, child, request, guard, supply);
    if SameTables(s, o.state) {
      SameTablesRunning(s, o.state);
    } else {
      RegistersKeeps(s, o.state, t, child, Pending(supply, request));
      assert t in o.state.leases;
    }
    hide InvBut, Retain;
  }

  // ---- monitors ----------------------------------------------------------------------------

  lemma ReservationDownGood(s: Owner, m: Ref, supply: Ref)
    requires Running(s) && m in s.monitors && (s.monitors[m].ForReservation? || s.monitors[m].ForIssuePending?)
    ensures Runnable(s)
    ensures Good(MonitorDown(s, m, supply))
  {
    InvIsRunnable(s);
    assert Watches(s, m, s.monitors[m]) && PurposeBacked(s, m, s.monitors[m]);
    var request := s.monitors[m].request;
    assert s.monitors - {m} - {m} == s.monitors - {m};
    assert MonitorDown(s, m, supply) == StopOrContinue(RemoveIssueReservation(request, s), {});
    hide *;
    assert Inv(s) by { RunningIsInv(s); }
    DropReservationKeeps(s, request);
    StopOrContinueGood(RemoveIssueReservation(request, s), {});
  }

  lemma RunningIsInv(s: Owner)
    requires Running(s)
    ensures Inv(s)
  {
  }

  lemma RetainDownShape(s: Owner, m: Ref, supply: Ref)
    requires Running(s) && m in s.monitors && s.monitors[m].ForRetain?
    ensures var t, child := s.monitors[m].token, s.monitors[m].child;
            && Runnable(s) && Held(s, t, child)
            && var (e, s1) := ClearPendingRetain(child, s.leases[t], s);
               JobsHaveEntries(s1) && MonitorDown(s, m, supply) == RemoveHolder(t, child, e, s1, supply)
  {
    InvIsRunnable(s);
    var t, child := s.monitors[m].token, s.monitors[m].child;
    assert Watches(s, m, s.monitors[m]) && PurposeBacked(s, m, s.monitors[m]);
    assert EntryShape(s.leases[t]);
    hide RemoveHolder, InvBut, EntriesInv, MonitorsInv, JobsInv;
  }

  lemma RetainDownGood(s: Owner, m: Ref, supply: Ref)
    requires Running(s) && m in s.monitors && s.monitors[m].ForRetain?
    ensures Runnable(s)
    ensures Good(MonitorDown(s, m, supply))
  {
    RetainDownShape(s, m, supply);
    var t, child := s.monitors[m].token, s.monitors[m].child;
    var (e, s1) := ClearPendingRetain(child, s.leases[t], s);
    assert s1.(counters := s.counters) == s1;
    hide *;
    assert Inv(s) by { RunningIsInv(s); }
    PendingLeaves(s, t, child, s.counters);
    RemoveHolderGood(t, child, e, s1, supply);
  }

  lemma IssueDownShape(s: Owner, m: Ref, supply: Ref)
    requires Runnable(s) && m in s.monitors && s.monitors[m].ForIssue? && PurposeBacked(s, m, s.monitors[m])
    ensures MonitorDown(s, m, supply) == CancelPendingIssue(s.monitors[m].token, s, supply) || IssueDownIdle(s, m, supply)
  {
    var t := s.monitors[m].token;
    var s1 := s.(monitors := s.monitors - {m});
    assert s1.monitors - {m} == s.monitors - {m};
    assert ClearPendingIssue(s.leases[t], s1) == ClearPendingIssue(s.leases[t], s);
    hide ReleaseEntry, StopOrContinue;
  }

  ghost predicate IssueDownIdle(s: Owner, m: Ref, supply: Ref)
    requires m in s.monitors && s.monitors[m].ForIssue?
  {
    s.monitors[m].token !in s.leases || !s.leases[s.monitors[m].token].status.Active?
  }

  lemma IssueDownGood(s: Owner, m: Ref, supply: Ref)
    requires Running(s) && m in s.monitors && s.monitors[m].ForIssue?
    ensures Runnable(s)
    ensures Good(MonitorDown(s, m, supply))
  {
    InvIsRunnable(s);
    assert Watches(s, m, s.monitors[m]) && PurposeBacked(s, m, s.monitors[m]);
    assert EntryShape(s.leases[s.monitors[m].token]);
    assert !IssueDownIdle(s, m, supply);
    IssueDownShape(s, m, supply);
    hide *;
    CancelPendingIssueGood(s, s.monitors[m].token, supply);
  }

  lemma MonitorDownGood(s: Owner, m: Ref, supply: Ref)
    requires Running(s)
    ensures Runnable(s)
    ensures Good(MonitorDown(s, m, supply))
  {
    InvIsRunnable(s);
    if m in s.monitors {
      match s.monitors[m]
      case ForReservation(_) => ReservationDownGood(s, m, supply);
      case ForIssuePending(_) => ReservationDownGood(s, m, supply);
      case ForRetain(_, _) => RetainDownGood(s, m, supply);
      case ForIssue(_, _) => IssueDownGood(s, m, supply);
    } else if m in s.drainMonitors {
      RemoveWaiterRunning(s, s.drainMonitors[m]);
    }
    hide InvBut, RemoveHolder, CancelPendingIssue, RemoveDrainWaiter, RemoveIssueReservation, StopOrContinue;
  }

  lemma RemoveWaiterRunning(s: Owner, request: Ref)
    requires Running(s)
    ensures Running(RemoveDrainWaiter(request, s))
  {
    RemoveWaiterKeeps(s, request);
    hide InvBut;
  }

  // ---- retries -----------------------------------------------------------------------------

  lemma ReleaseEntryLive(token: Ref, e: Entry, s: Owner, retry: bool, waiter: Waiter, generation: Ref)
    requires JobsHaveEntries(s)
    ensures token in ReleaseEntry(token, e, s, retry, waiter, generation).0.leases
  {
  }

  lemma FailedRetires(s: Owner, t: Ref)
    requires Inv(s) && t in s.leases && s.leases[t].status.ReleaseFailed?
    ensures InvBut(CancelRetryTimer(t, s), Some(t)) && Retiring(CancelRetryTimer(t, s), t)
  {
    var r := CancelRetryTimer(t, s);
    assert EntryShape(s.leases[t]);
    SameMonitors(s, r);
    SameJobs(s, r);
    FailedTimers(s, t);
    UntimedRest(s, r, t);
    hide *;
  }

  lemma UntimedRest(s: Owner, r: Owner, t: Ref)
    requires r == s.(timers := r.timers)
    requires EntriesInv(s, None) && Busy(s) && HoldersInv(s) && AgeInv(s) && WaitersInv(s) && TombstonesInv(s) && CapacityInv(s)
    ensures EntriesInv(r, Some(t)) && Busy(r) && HoldersInv(r) && AgeInv(r) && WaitersInv(r) && TombstonesInv(r) && CapacityInv(r)
  {
  }

  lemma FailedTimers(s: Owner, t: Ref)
    requires TimersInv(s, None)
    ensures TimersInv(CancelRetryTimer(t, s), Some(t))
    ensures !(t in s.leases && s.leases[t].status.ReleaseFailed?) ==> CancelRetryTimer(t, s) == s
  {
    if !(t in s.leases && s.leases[t].status.ReleaseFailed?) {
      assert t !in s.timers;
      assert s.timers - {t} == s.timers;
    }
  }

  lemma RetryReleaseGood(s: Owner, t: Ref, waiter: Waiter, supply: Ref)
    requires Running(s) && t in s.leases && s.leases[t].status.ReleaseFailed?
    ensures JobsHaveEntries(CancelRetryTimer(t, s))
    ensures var (r, sent) := ReleaseEntry(t, s.leases[t], CancelRetryTimer(t, s), true, waiter, supply);
            Good(Out(r, sent, Continue))
  {
    FailedRetires(s, t);
    var q := CancelRetryTimer(t, s);
    assert q.leases == s.leases;
    hide InvBut, ReleaseEntry, CancelRetryTimer, JobsHaveEntries;
    ReleaseEntryKeeps(t, q, true, waiter, supply);
    ReleaseEntryLive(t, q.leases[t], q, true, waiter, supply);
  }

  lemma RetryTimerGood(s: Owner, t: Ref, generation: Ref, supply: Ref)
    requires Running(s)
    ensures Runnable(s)
    ensures Good(RetryTimerFired(s, t, generation, supply))
  {
    InvIsRunnable(s);
    FailedTimers(s, t);
    hide *;
    RetryTimerShape(s, t, generation, supply);
    ContinuesGood(Out(s, {}, Continue));
    if t in s.leases && s.leases[t].status.ReleaseFailed? {
      RetryReleaseGood(s, t, NoWaiter, supply);
    }
  }

  lemma RetryTimerShape(s: Owner, t: Ref, generation: Ref, supply: Ref)
    requires Runnable(s)
    ensures var q := CancelRetryTimer(t, s);
            JobsHaveEntries(q) &&
            if t in s.timers && s.timers[t].generation == generation then
              if t in s.leases && s.leases[t].status.ReleaseFailed? then
                var (r, sent) := ReleaseEntry(t, s.leases[t], q, true, NoWaiter, supply);
                RetryTimerFired(s, t, generation, supply) == Out(r, sent, Continue)
              else RetryTimerFired(s, t, generation, supply) == Out(q, {}, Continue)
            else RetryTimerFired(s, t, generation, supply) == Out(s, {}, Continue)
  {
    hide ReleaseEntry, TombstonesListed;
  }

  lemma RetryCallGood(s: Owner, t: Ref, from: Ref, supply: Ref)
    requires Running(s)
    ensures Runnable(s)
    ensures Good(RetryCall(s, t, from, supply))
  {
    InvIsRunnable(s);
    FailedTimers(s, t);
    hide *;
    RetryCallShape(s, t, from, supply);
    if t in s.leases && s.leases[t].status.ReleaseFailed? {
      RetryReleaseGood(s, t, RetryWaiter(from), supply);
    } else {
      ContinuesGood(RetryCall(s, t, from, supply));
    }
  }

  lemma RetryCallShape(s: Owner, t: Ref, from: Ref, supply: Ref)
    requires Runnable(s)
    ensures var q := CancelRetryTimer(t, s);
            JobsHaveEntries(q) &&
            if t in s.leases && s.leases[t].status.ReleaseFailed? then
              var (r, sent) := ReleaseEntry(t, s.leases[t], q, true, RetryWaiter(from), supply);
              RetryCall(s, t, from, supply) == Out(r, sent, Continue)
            else RetryCall(s, t, from, supply).state == q && RetryCall(s, t, from, supply).fate.Continue?
  {
    hide ReleaseEntry, TombstonesListed;
  }

  // ---- drain requests ----------------------------------------------------------------------

  lemma AddWaiterWaiters(s: Owner, replyTo: Pid, request: Ref, supply: Ref)
    requires WaitersInv(s) && Unused(s, supply) && request !in s.drainWaiters && NoFailure(s)
    ensures WaitersInv(s.(mode := Draining, drainWaiters := s.drainWaiters[request := DrainWaiter(replyTo, supply)],
                          drainMonitors := s.drainMonitors[supply := request]))
  {
  }

  lemma DrainRefusedIsClose(s: Owner, replyTo: Pid, request: Ref, t: Ref, supply: Ref)
    requires request !in s.drainWaiters && supply !in s.drainMonitors && IsFirstFailure(s, Some(t))
    ensures Drain(s, replyTo, request, Some(t), supply).state == s.(mode := Draining)
  {
    assert s.drainWaiters[request := DrainWaiter(replyTo, supply)] - {request} == s.drainWaiters;
    assert s.drainMonitors[supply := request] - {supply} == s.drainMonitors;
  }

  lemma DrainRefusedGood(s: Owner, replyTo: Pid, request: Ref, t: Ref, supply: Ref)
    requires Running(s) && Unused(s, supply) && IsFirstFailure(s, Some(t)) && request !in s.drainWaiters
    ensures Good(Drain(s, replyTo, request, Some(t), supply))
  {
    DrainRefusedIsClose(s, replyTo, request, t, supply);
    DrainFate(s, replyTo, request, t, supply);
    ClosedKeeps(s, t);
    hide Running, Drain, Unused, InvBut, IsFirstFailure;
  }

  lemma ClosedKeeps(s: Owner, t: Ref)
    requires Running(s) && IsFirstFailure(s, Some(t))
    ensures Running(s.(mode := Draining)) && Inv(s.(mode := Draining))
  {
    var r := s.(mode := Draining);
    assert WaitersInv(r);
    assert t in s.leases && !IsDrained(r);
    hide InvBut, IsFirstFailure, IsDrained;
    WaitersOnlyKeeps(s, r);
  }

  lemma DrainFate(s: Owner, replyTo: Pid, request: Ref, t: Ref, supply: Ref)
    requires IsFirstFailure(s, Some(t))
    ensures Drain(s, replyTo, request, Some(t), supply).fate == Continue
  {
  }

  lemma NoPickNoFailure(s: Owner)
    requires EntriesInv(s, None) && IsFirstFailure(s, None)
    ensures NoFailure(s)
  {
    forall t | t in s.leases ensures !s.leases[t].status.ReleaseFailed? { assert EntryShape(s.leases[t]); }
  }

  lemma DrainAcceptedGood(s: Owner, replyTo: Pid, request: Ref, supply: Ref)
    requires Running(s) && Unused(s, supply) && IsFirstFailure(s, None) && request !in s.drainWaiters
    ensures Good(Drain(s, replyTo, request, None, supply))
  {
    var s1 := s.(mode := Draining, drainWaiters := s.drainWaiters[request := DrainWaiter(replyTo, supply)],
                 drainMonitors := s.drainMonitors[supply := request]);
    NoPickNoFailure(s);
    AddWaiterWaiters(s, replyTo, request, supply);
    WaitersOnlyKeeps(s, s1);
    assert JobsInv(s1);
    hide InvBut, WaitersInv, JobsInv, Unused, IsFirstFailure, NoFailure;
    DrainTestIsDrained(s1);
    if IsDrained(s1) { CompleteDrainGood(s1, {}); }
  }

  lemma DrainGood(s: Owner, replyTo: Pid, request: Ref, pick: Option<Ref>, supply: Ref)
    requires Running(s) && Unused(s, supply) && IsFirstFailure(s, pick) && request !in s.drainWaiters
    ensures Good(Drain(s, replyTo, request, pick, supply))
  {
    match pick
    case Some(t) => DrainRefusedGood(s, replyTo, request, t, supply); hide *;
    case None => DrainAcceptedGood(s, replyTo, request, supply); hide *;
  }

  /** The drain handler's shorter test agrees with `drained?` in every consistent state. */
  lemma DrainTestIsDrained(s: Owner)
    requires JobsInv(s)
    ensures s.leases == map[] && s.reservations == map[] <==> IsDrained(s)
  {
    assert s.queue != [] ==> s.queue[0].token in s.leases;
  }

  lemma CancelDrainGood(s: Owner, request: Ref)
    requires Running(s)
    ensures Good(CancelDrain(s, request))
  {
    RemoveWaiterRunning(s, request);
  }

  // ---- release results ---------------------------------------------------------------------

  /** `r` is `s` after the callback for `t` succeeded, before the next job is dispatched. */
  ghost predicate Retires(s: Owner, r: Owner, t: Ref, generation: Ref) {
    && AnswersJob(s, t, generation)
    && r == s.(job := None, counters := r.counters, leases := s.leases - {t},
               ageIndex := s.ageIndex - {(s.leases[t].issuedAt, t)})
  }

  lemma RetiresPipeline(s: Owner, r: Owner, t: Ref, generation: Ref)
    requires Retires(s, r, t, generation) && JobsInv(s) && TimersInv(s, None)
    ensures JobsInv(r) && TimersInv(r, None)
  {
  }

  lemma RetiresTables(s: Owner, r: Owner, t: Ref, generation: Ref)
    requires Retires(s, r, t, generation)
    requires EntriesInv(s, None) && AgeInv(s) && WaitersInv(s) && TombstonesInv(s) && CapacityInv(s) && HoldersInv(s)
    ensures EntriesInv(r, None) && AgeInv(r) && WaitersInv(r) && TombstonesInv(r) && CapacityInv(r) && HoldersInv(r)
  {
    RetiresCounts(s, r, t, generation);
    RetiresAges(s, r, t, generation);
    hide HoldersInv, CapacityInv, AgeInv, AnswersJob;
  }

  lemma RetiresCounts(s: Owner, r: Owner, t: Ref, generation: Ref)
    requires Retires(s, r, t, generation) && EntriesInv(s, None) && HoldersInv(s) && CapacityInv(s)
    ensures HoldersInv(r) && CapacityInv(r)
  {
    assert r.leases.Keys == s.leases.Keys - {t};
    assert EntryShape(s.leases[t]);
    HolderCountSplit(s.leases, t);
  }

  lemma RetiresAges(s: Owner, r: Owner, t: Ref, generation: Ref)
    requires Retires(s, r, t, generation) && AgeInv(s)
    ensures AgeInv(r)
  {
  }

  lemma RetiresMonitors(s: Owner, r: Owner, t: Ref, generation: Ref)
    requires Retires(s, r, t, generation) && EntriesInv(s, None) && MonitorsInv(s)
    ensures MonitorsInv(r)
  {
    assert EntryShape(s.leases[t]);
    forall m, p ensures PurposeBacked(r, m, p) <==> Watches(r, m, p) {
      assert PurposeBacked(s, m, p) <==> Watches(s, m, p);
    }
    forall q, u ensures AwaitsConfirm(r, q, u) <==> Indexed(r, q, u) {
      assert AwaitsConfirm(s, q, u) <==> Indexed(s, q, u);
    }
  }

  lemma RetiresKeeps(s: Owner, r: Owner, t: Ref, generation: Ref)
    requires Inv(s) && Retires(s, r, t, generation)
    ensures JobsHaveEntries(r)
    ensures Inv(Dispatch(r).0)
  {
    RetiresPipeline(s, r, t, generation);
    RetiresTables(s, r, t, generation);
    RetiresMonitors(s, r, t, generation);
    hide *;
    DispatchKeeps(r);
  }

  /** `r` is `s` after the callback for `t` failed, every drain waiter was told, and a retry was scheduled. */
  ghost predicate Fails(s: Owner, r: Owner, t: Ref, generation: Ref, reason: Reason, timer: Ref) {
    && AnswersJob(s, t, generation)
    && r == s.(job := None, counters := r.counters, executor := r.executor,
               leases := s.leases[t := s.leases[t].(status := ReleaseFailed(reason))],
               drainWaiters := map[], drainMonitors := map[],
               timers := if RetryAvailable(s.leases[t].attempts, s.policy)
                         then s.timers[t := Timer(timer, s.leases[t].attempts + 1, RetryDelay(s.leases[t].attempts, s.policy))]
                         else s.timers)
  }

  lemma FailsPipeline(s: Owner, r: Owner, t: Ref, generation: Ref, reason: Reason, timer: Ref)
    requires Fails(s, r, t, generation, reason, timer) && JobsInv(s)
    ensures JobsInv(r)
  {
  }

  lemma FailsTimers(s: Owner, r: Owner, t: Ref, generation: Ref, reason: Reason, timer: Ref)
    requires Fails(s, r, t, generation, reason, timer) && TimersInv(s, None)
    ensures TimersInv(r, None)
  {
  }

  lemma FailsTables(s: Owner, r: Owner, t: Ref, generation: Ref, reason: Reason, timer: Ref)
    requires Fails(s, r, t, generation, reason, timer)
    requires EntriesInv(s, None) && AgeInv(s) && TombstonesInv(s) && CapacityInv(s) && HoldersInv(s)
    ensures EntriesInv(r, None) && AgeInv(r) && WaitersInv(r) && TombstonesInv(r) && CapacityInv(r) && HoldersInv(r)
  {
    FailsCounts(s, r, t, generation, reason, timer);
    hide HoldersInv, CapacityInv, AnswersJob;
  }

  lemma FailsCounts(s: Owner, r: Owner, t: Ref, generation: Ref, reason: Reason, timer: Ref)
    requires Fails(s, r, t, generation, reason, timer) && EntriesInv(s, None) && CapacityInv(s) && HoldersInv(s)
    ensures EntriesInv(r, None) && CapacityInv(r) && HoldersInv(r)
  {
    assert r.leases.Keys == s.leases.Keys;
    assert EntryShape(s.leases[t]) && EntryShape(r.leases[t]);
    HolderCountPut(s.leases, t, r.leases[t]);
    assert HoldersInv(r);
    hide HoldersInv, HolderCount, AnswersJob;
  }

  lemma FailsMonitors(s: Owner, r: Owner, t: Ref, generation: Ref, reason: Reason, timer: Ref)
    requires Fails(s, r, t, generation, reason, timer) && MonitorsInv(s)
    ensures MonitorsInv(r)
  {
    SameMonitors(s, r);
  }

  lemma FailsKeeps(s: Owner, r: Owner, t: Ref, generation: Ref, reason: Reason, timer: Ref)
    requires Inv(s) && Fails(s, r, t, generation, reason, timer)
    ensures JobsHaveEntries(r)
    ensures Inv(Dispatch(r).0)
  {
    FailsPipeline(s, r, t, generation, reason, timer);
    FailsTimers(s, r, t, generation, reason, timer);
    FailsTables(s, r, t, generation, reason, timer);
    FailsMonitors(s, r, t, generation, reason, timer);
    hide *;
    DispatchKeeps(r);
  }

  /** The record after a success for `t`, before `dispatch_next_release`. */
  ghost function Succeeded(s: Owner, t: Ref): Owner
    requires s.job.Some? && t in s.leases
  {
    var c := s.counters;
    s.(job := None, leases := s.leases - {t}, ageIndex := s.ageIndex - {(s.leases[t].issuedAt, t)},
       counters := c.(callbacks := c.callbacks + 1, retries := c.retries + if s.job.value.retry then 1 else 0))
  }

  /** The record after a failure for `t`, before `dispatch_next_release`. */
  ghost function Failed(s: Owner, t: Ref, reason: Reason, timer: Ref): Owner
    requires s.job.Some? && t in s.leases
  {
    var c := s.counters;
    s.(job := None,
       counters := c.(callbacks := c.callbacks + 1, retries := c.retries + (if s.job.value.retry then 1 else 0),
                      failures := c.failures + 1),
       leases := s.leases[t := s.leases[t].(status := ReleaseFailed(reason))],
       drainWaiters := map[], drainMonitors := map[],
       timers := if RetryAvailable(s.leases[t].attempts, s.policy)
                 then s.timers[t := Timer(timer, s.leases[t].attempts + 1, RetryDelay(s.leases[t].attempts, s.policy))]
                 else s.timers)
  }

  lemma FinishOkShape(s: Owner, t: Ref, generation: Ref, supply: Ref)
    requires Runnable(s) && AnswersJob(s, t, generation)
    ensures var r := Succeeded(s, t);
            Retires(s, r, t, generation) && JobsHaveEntries(r)
            && FinishJob(s, t, generation, CallbackOk, supply)
               == StopOrContinue(Dispatch(r).0, {ReleasedNotice(t)} + JobReply(s.job.value.waiter, CallbackOk, t) + Dispatch(r).1)
  {
    hide StopOrContinue, JobReply;
  }

  lemma FailedFails(s: Owner, t: Ref, generation: Ref, reason: Reason, timer: Ref)
    requires Runnable(s) && AnswersJob(s, t, generation)
    ensures Fails(s, Failed(s, t, reason, timer), t, generation, reason, timer) && JobsHaveEntries(Failed(s, t, reason, timer))
  {
    hide RetryDelay, RetryAvailable;
  }

  /** The record `FinishJob` reaches on a failure, before it dispatches. */
  lemma FailedIs(s: Owner, t: Ref, reason: Reason, timer: Ref)
    requires s.job.Some? && t in s.leases && WaitersInv(s)
    ensures var c := s.counters;
            var s1 := s.(job := None,
                         counters := c.(callbacks := c.callbacks + 1, retries := c.retries + (if s.job.value.retry then 1 else 0)).(failures := c.failures + 1),
                         leases := s.leases[t := s.leases[t].(status := ReleaseFailed(reason))]);
            ScheduleRetry(t, s.leases[t].attempts, ReplyAllDrainWaiters(s1, Refused(reason)).0, timer) == Failed(s, t, reason, timer)
            && ReplyAllDrainWaiters(s1, Refused(reason)).1 == DrainReplies(s.drainWaiters.Keys, Refused(reason))
  {
    var s1 := s.(job := None, leases := s.leases[t := s.leases[t].(status := ReleaseFailed(reason))]);
    ReplyAllWaiters(s, Refused(reason));
    assert s.drainMonitors - WaiterMonitors(s) == map[] by {
      assert ReplyAllDrainWaiters(s, Refused(reason)).0.drainMonitors == map[];
    }
    assert WaiterMonitors(s1) == WaiterMonitors(s);
    hide WaitersInv, RetryDelay, RetryAvailable, WaiterMonitors, DrainReplies;
  }

  lemma FinishErrorShape(s: Owner, t: Ref, generation: Ref, reason: Reason, supply: Ref)
    requires Runnable(s) && AnswersJob(s, t, generation) && WaitersInv(s)
    ensures var r := Failed(s, t, reason, supply + 5);
            Fails(s, r, t, generation, reason, supply + 5) && JobsHaveEntries(r)
            && FinishJob(s, t, generation, CallbackError(reason), supply)
               == StopOrContinue(Dispatch(r).0, {FailedNotice(t, reason)} + JobReply(s.job.value.waiter, CallbackError(reason), t)
                                                + DrainReplies(s.drainWaiters.Keys, Refused(reason)) + Dispatch(r).1)
  {
    FailedFails(s, t, generation, reason, supply + 5);
    FailedIs(s, t, reason, supply + 5);
    hide Failed, Fails, StopOrContinue, JobReply, DrainReplies, Dispatch, WaitersInv, ScheduleRetry, ReplyAllDrainWaiters, WaiterMonitors;
  }

  lemma FinishJobGood(s: Owner, t: Ref, generation: Ref, result: CallbackResult, supply: Ref)
    requires Running(s)
    ensures Runnable(s)
    ensures Good(FinishJob(s, t, generation, result, supply))
  {
    InvIsRunnable(s);
    if AnswersJob(s, t, generation) {
      match result
      case CallbackOk => FinishOkGood(s, t, generation, supply);
      case CallbackError(reason) => FinishErrorGood(s, t, generation, reason, supply);
    } else {
      SameTablesRunning(s, FinishJob(s, t, generation, result, supply).state);
    }
    hide InvBut, StopOrContinue;
  }

  lemma FinishOkGood(s: Owner, t: Ref, generation: Ref, supply: Ref)
    requires Inv(s) && Runnable(s) && AnswersJob(s, t, generation)
    ensures Good(FinishJob(s, t, generation, CallbackOk, supply))
  {
    FinishOkShape(s, t, generation, supply);
    var r := Succeeded(s, t);
    hide *;
    RetiresKeeps(s, r, t, generation);
    StopOrContinueGood(Dispatch(r).0, {ReleasedNotice(t)} + JobReply(s.job.value.waiter, CallbackOk, t) + Dispatch(r).1);
  }

  lemma FinishErrorGood(s: Owner, t: Ref, generation: Ref, reason: Reason, supply: Ref)
    requires Inv(s) && Runnable(s) && AnswersJob(s, t, generation)
    ensures Good(FinishJob(s, t, generation, CallbackError(reason), supply))
  {
    FinishErrorShape(s, t, generation, reason, supply);
    var r := Failed(s, t, reason, supply + 5);
    hide *;
    FailsKeeps(s, r, t, generation, reason, supply + 5);
    StopOrContinueGood(Dispatch(r).0, {FailedNotice(t, reason)} + JobReply(s.job.value.waiter, CallbackError(reason), t)
                                      + DrainReplies(s.drainWaiters.Keys, Refused(reason)) + Dispatch(r).1);
  }

  lemma ReleaseResultGood(s: Owner, executor: Ref, t: Ref, generation: Ref, result: CallbackResult, supply: Ref)
    requires Running(s)
    ensures Runnable(s)
    ensures Good(ReleaseResult(s, executor, t, generation, result, supply))
  {
    InvIsRunnable(s);
    FinishJobGood(s, t, generation, result, supply);
    hide InvBut, FinishJob, Runnable;
  }

  ghost function Restarted(s: Owner, supply: Ref): Owner {
    s.(counters := s.counters.(executorRestarts := s.counters.executorRestarts + 1), executor := supply + 6)
  }

  lemma ExecutorDownShape(s: Owner, code: Term, supply: Ref)
    requires Runnable(s)
    ensures Runnable(Restarted(s, supply)) && SameTables(s, Restarted(s, supply))
    ensures s.job.None? && s.queue == [] ==> ExecutorDown(s, code, supply) == Out(Restarted(s, supply), {}, Continue)
    ensures s.job.Some? ==>
              ExecutorDown(s, code, supply)
              == FinishJob(Restarted(s, supply), s.job.value.token, s.job.value.generation, CallbackError(ExecutorDied(code)), supply)
  {
    hide FinishJob;
  }

  lemma ExecutorDownGood(s: Owner, code: Term, supply: Ref)
    requires Running(s)
    ensures Runnable(s)
    ensures Good(ExecutorDown(s, code, supply))
  {
    InvIsRunnable(s);
    ExecutorDownShape(s, code, supply);
    assert Busy(s);
    hide InvBut, FinishJob, ExecutorDown, Runnable;
    SameTablesRunning(s, Restarted(s, supply));
    if s.job.Some? {
      FinishJobGood(Restarted(s, supply), s.job.value.token, s.job.value.generation, CallbackError(ExecutorDied(code)), supply);
    }
  }

  // ---- every message -----------------------------------------------------------------------

  /** Everything that can reach the owner's mailbox. */
  datatype Message =
    | ReserveMsg(metadata: Term, replyTo: Pid, request: Ref)
    | CommitMsg(reservation: Ref, backend: Term, replyTo: Pid, request: Ref, guard: Guard, now: int)
    | CancelReservationMsg(request: Ref)
    | AbandonedMsg(token: Ref, holder: Ref)
    | ReleaseMsg(token: Ref, holder: Ref)
    | ConfirmIssueMsg(token: Ref, request: Ref)
    | CancelIssueMsg(request: Ref)
    | RetainMsg(token: Ref, parent: Ref, child: Ref, request: Ref, guard: Guard)
    | ConfirmRetainMsg(token: Ref, child: Ref, request: Ref)
    | CancelRetainMsg(token: Ref, child: Ref)
    | DrainMsg(replyTo: Pid, request: Ref, pick: Option<Ref>)
    | CancelDrainMsg(request: Ref)
    | ResultMsg(executor: Ref, token: Ref, generation: Ref, result: CallbackResult)
    | ExecutorDownMsg(code: Term)
    | RetryTimerMsg(token: Ref, generation: Ref)
    | RetryCallMsg(token: Ref, from: Ref)
    | BeginDrainMsg
    | MonitorDownMsg(monitor: Ref)
    | MalformedMsg

  function Handle(s: Owner, m: Message, supply: Ref): Out
    requires Runnable(s) && (m.DrainMsg? ==> IsFirstFailure(s, m.pick))
  {
    match m
    case ReserveMsg(metadata, replyTo, request) => ReserveIssue(s, metadata, replyTo, request, supply)
    case CommitMsg(reservation, backend, replyTo, request, guard, now) =>
      CommitIssue(s, reservation, backend, replyTo, request, guard, now, supply)
    case CancelReservationMsg(request) => CancelReservation(s, request)
    case AbandonedMsg(token, holder) => AbandonedMessage(s, token, holder, supply)
    case ReleaseMsg(token, holder) => ReleaseMessage(s, token, holder, supply)
    case ConfirmIssueMsg(token, request) => ConfirmIssue(s, token, request)
    case CancelIssueMsg(request) => CancelIssue(s, request, supply)
    case RetainMsg(token, parent, child, request, guard) => Retain(s, token, parent, child, request, guard, supply)
    case ConfirmRetainMsg(token, child, request) => ConfirmRetain(s, token, child, request)
    case CancelRetainMsg(token, child) => CancelRetain(s, token, child, supply)
    case DrainMsg(replyTo, request, pick) => Drain(s, replyTo, request, pick, supply)
    case CancelDrainMsg(request) => CancelDrain(s, request)
    case ResultMsg(executor, token, generation, result) => ReleaseResult(s, executor, token, generation, result, supply)
    case ExecutorDownMsg(code) => ExecutorDown(s, code, supply)
    case RetryTimerMsg(token, generation) => RetryTimerFired(s, token, generation, supply)
    case RetryCallMsg(token, from) => RetryCall(s, token, from, supply)
    case BeginDrainMsg => BeginDrain(s)
    case MonitorDownMsg(monitor) => MonitorDown(s, monitor, supply)
    case MalformedMsg => Out(s.(counters := s.counters.(malformed := s.counters.malformed + 1)), {}, Continue)
  }

  /** What freshness and the client protocol guarantee about a message. Everything else is arbitrary. */
  ghost predicate Admissible(s: Owner, m: Message, supply: Ref) {
    && Unused(s, supply)
    && match m
       case ReserveMsg(_, _, request) => request !in s.reservations && request !in s.pendingIssues
       case CommitMsg(reservation, _, replyTo, request, _, _) => CommitMatches(s, reservation, replyTo, request)
       case RetainMsg(token, _, child, _, _) => (token, child) !in s.tombstones.kinds
       case DrainMsg(_, request, pick) => request !in s.drainWaiters && IsFirstFailure(s, pick)
       case _ => true
  }

  /** Which handler each message goes to, and what is known of the message. */
  lemma Routed(s: Owner, m: Message, supply: Ref)
    requires Running(s) && Admissible(s, m, supply)
    ensures Runnable(s) && Unused(s, supply)
    ensures match m
            case ReserveMsg(_, _, request) => request !in s.reservations && request !in s.pendingIssues
            case CommitMsg(reservation, _, replyTo, request, _, _) => CommitMatches(s, reservation, replyTo, request)
            case RetainMsg(token, _, child, _, _) => (token, child) !in s.tombstones.kinds
            case DrainMsg(_, request, pick) => request !in s.drainWaiters && IsFirstFailure(s, pick)
            case _ => true
    ensures var r := Handle(s, m, supply);
            match m
            case ReserveMsg(metadata, replyTo, request) => r == ReserveIssue(s, metadata, replyTo, request, supply)
            case CommitMsg(reservation, backend, replyTo, request, guard, now) => r == CommitIssue(s, reservation, backend, replyTo, request, guard, now, supply)
            case CancelReservationMsg(request) => r == CancelReservation(s, request)
            case AbandonedMsg(token, holder) => r == AbandonedMessage(s, token, holder, supply)
            case ReleaseMsg(token, holder) => r == ReleaseMessage(s, token, holder, supply)
            case ConfirmIssueMsg(token, request) => r == ConfirmIssue(s, token, request)
            case CancelIssueMsg(request) => r == CancelIssue(s, request, supply)
            case RetainMsg(token, parent, child, request, guard) => r == Retain(s, token, parent, child, request, guard, supply)
            case ConfirmRetainMsg(token, child, request) => r == ConfirmRetain(s, token, child, request)
            case CancelRetainMsg(token, child) => r == CancelRetain(s, token, child, supply)
            case DrainMsg(replyTo, request, pick) => r == Drain(s, replyTo, request, pick, supply)
            case CancelDrainMsg(request) => r == CancelDrain(s, request)
            case ResultMsg(executor, token, generation, result) => r == ReleaseResult(s, executor, token, generation, result, supply)
            case ExecutorDownMsg(code) => r == ExecutorDown(s, code, supply)
            case RetryTimerMsg(token, generation) => r == RetryTimerFired(s, token, generation, supply)
            case RetryCallMsg(token, from) => r == RetryCall(s, token, from, supply)
            case BeginDrainMsg => r == BeginDrain(s)
            case MonitorDownMsg(monitor) => r == MonitorDown(s, monitor, supply)
            case MalformedMsg => r == Out(s.(counters := s.counters.(malformed := s.counters.malformed + 1)), {}, Continue)
  {
    hide Running, Runnable, Unused, CommitMatches, IsFirstFailure;
    hide ReserveIssue, CommitIssue, CancelReservation, AbandonedMessage, ReleaseMessage, ConfirmIssue, CancelIssue, Retain;
    hide ConfirmRetain, CancelRetain, Drain, CancelDrain, ReleaseResult, ExecutorDown, RetryTimerFired, RetryCall, BeginDrain, MonitorDown;
    RunningIsRunnable(s);
  }

  lemma RunningWaiters(s: Owner)
    requires Running(s)
    ensures WaitersInv(s) && |s.tombstones.kinds| <= RELEASE_TOMBSTONE_LIMIT
  {
  }

  /** A running owner that handles one more message either goes on in a consistent state with work
      left, or stops normally with every table empty. The protocol-corruption stop is never taken. */
  lemma HandleGood(s: Owner, m: Message, supply: Ref)
    requires Running(s) && Admissible(s, m, supply)
    ensures Runnable(s)
    ensures Good(Handle(s, m, supply))
  {
    hide *;
    Routed(s, m, supply);
    match m
    case ReserveMsg(metadata, replyTo, request) => ReserveIssueGood(s, metadata, replyTo, request, supply);
    case CommitMsg(reservation, backend, replyTo, request, guard, now) => CommitGood(s, reservation, backend, replyTo, request, guard, now, supply);
    case CancelReservationMsg(request) => CancelReservationGood(s, request);
    case AbandonedMsg(token, holder) => AbandonedGood(s, token, holder, supply);
    case ReleaseMsg(token, holder) => ReleaseGood(s, token, holder, supply);
    case ConfirmIssueMsg(token, request) => ConfirmIssueGood(s, token, request);
    case CancelIssueMsg(request) => CancelIssueGood(s, request, supply);
    case RetainMsg(token, parent, child, request, guard) => RetainGood(s, token, parent, child, request, guard, supply);
    case ConfirmRetainMsg(token, child, request) => ConfirmRetainGood(s, token, child, request);
    case CancelRetainMsg(token, child) => CancelRetainGood(s, token, child, supply);
    case DrainMsg(replyTo, request, pick) => DrainGood(s, replyTo, request, pick, supply);
    case CancelDrainMsg(request) => CancelDrainGood(s, request);
    case ResultMsg(executor, token, generation, result) => ReleaseResultGood(s, executor, token, generation, result, supply);
    case ExecutorDownMsg(code) => ExecutorDownGood(s, code, supply);
    case RetryTimerMsg(token, generation) => RetryTimerGood(s, token, generation, supply);
    case RetryCallMsg(token, from) => RetryCallGood(s, token, from, supply);
    case BeginDrainMsg => BeginDrainGood(s);
    case MonitorDownMsg(monitor) => MonitorDownGood(s, monitor, supply);
    case MalformedMsg => MalformedGood(s, supply);
  }

  lemma RunningIsRunnable(s: Owner)
    requires Running(s)
    ensures Runnable(s)
  {
    InvIsRunnable(s);
  }

  lemma CommitGood(s: Owner, reservation: Ref, backend: Term, replyTo: Pid, request: Ref, guard: Guard, now: int, supply: Ref)
    requires Running(s) && Unused(s, supply) && CommitMatches(s, reservation, replyTo, request)
    ensures Runnable(s)
    ensures Good(CommitIssue(s, reservation, backend, replyTo, request, guard, now, supply))
  {
    hide *;
    match guard
    case GuardBuilt => CommitBuiltGood(s, reservation, backend, replyTo, request, now, supply);
    case GuardFailed(code) => CommitRejectedGood(s, reservation, backend, replyTo, request, code, now, supply);
  }

  lemma MalformedGood(s: Owner, supply: Ref)
    requires Running(s) && Runnable(s)
    ensures Good(Handle(s, MalformedMsg, supply))
  {
    SameTablesRunning(s, Handle(s, MalformedMsg, supply).state);
  }
}
