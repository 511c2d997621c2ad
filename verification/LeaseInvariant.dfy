/**
 The inductive invariant of the lease owner and the proof that every handler keeps it.

 Handlers rewrite one entry and the tables that mirror it. The proofs put the rewritten entry
 back first (`Put`), so each piece of a handler is a step between consistent states.
 */
module LeaseInvariant {
  import opened Common
  import opened LeaseModel

  // ---- the invariant, one table at a time --------------------------------------------------

  ghost predicate EntryShape(e: Entry) {
    && e.pendingRetains.Keys <= e.holders
    && (e.status.Active? <==> e.holders != {})
    && (e.status.Active? <==> e.attempts == 0)
    && (!e.status.Active? ==> e.pendingIssue.None? && e.pendingRetains == map[])
  }

  /** Entry `t` is well shaped, unless it is the one being retired. */
  ghost predicate EntriesInv(s: Owner, retiring: Option<Ref>) {
    forall t :: t in s.leases && retiring != Some(t) ==> EntryShape(s.leases[t])
  }

  ghost predicate PurposeBacked(s: Owner, m: Ref, p: Purpose) {
    match p
    case ForReservation(r) => r in s.reservations && s.reservations[r].monitor == m
    case ForIssuePending(_) => false
    case ForIssue(t, r) => t in s.leases && s.leases[t].pendingIssue == Some(Pending(m, r))
    case ForRetain(t, c) => t in s.leases && c in s.leases[t].pendingRetains && s.leases[t].pendingRetains[c].monitor == m
  }

  ghost predicate Watches(s: Owner, m: Ref, p: Purpose) { m in s.monitors && s.monitors[m] == p }

  ghost predicate AwaitsConfirm(s: Owner, r: Ref, t: Ref) {
    t in s.leases && s.leases[t].pendingIssue.Some? && s.leases[t].pendingIssue.value.request == r
  }

  ghost predicate Indexed(s: Owner, r: Ref, t: Ref) { r in s.pendingIssues && s.pendingIssues[r] == t }

  /** `protocol_monitors` is in bijection with reservations, pending issues and pending retains,
      and `pending_issues` with the entries still awaiting confirmation. */
  ghost predicate MonitorsInv(s: Owner) {
    && (forall m, p :: PurposeBacked(s, m, p) <==> Watches(s, m, p))
    && (forall r, t :: AwaitsConfirm(s, r, t) <==> Indexed(s, r, t))
    && s.reservations.Keys !! s.pendingIssues.Keys
  }

  ghost predicate JobMatches(s: Owner, j: Job) {
    && j.token in s.leases
    && s.leases[j.token].backend == j.backend
    && s.leases[j.token].attempts == j.attempt
  }

  /** Entries in `:release_queued`/`:releasing` and jobs match one to one, by token and generation. */
  ghost predicate JobsInv(s: Owner) {
    && (forall i :: 0 <= i < |s.queue| ==>
          JobMatches(s, s.queue[i]) && s.leases[s.queue[i].token].status == ReleaseQueued(s.queue[i].generation))
    && (forall i, j :: 0 <= i < j < |s.queue| ==> s.queue[i].token != s.queue[j].token)
    && (s.job.Some? ==> JobMatches(s, s.job.value) && s.leases[s.job.value.token].status == Releasing(s.job.value.generation))
    && (forall t :: t in s.leases && s.leases[t].status.ReleaseQueued? ==>
          exists i :: 0 <= i < |s.queue| && s.queue[i].token == t)
    && (forall t :: t in s.leases && s.leases[t].status.Releasing? ==> s.job.Some? && s.job.value.token == t)
  }

  ghost predicate Busy(s: Owner) { s.job.None? ==> s.queue == [] }

  ghost function HolderCount(m: map<Ref, Entry>): nat {
    if m == map[] then 0 else var t :| t in m; |m[t].holders| + HolderCount(m - {t})
  }

  ghost predicate HoldersInv(s: Owner) { s.activeHolders == HolderCount(s.leases) }

  ghost predicate AgeInv(s: Owner) {
    forall a, t :: (a, t) in s.ageIndex <==> t in s.leases && s.leases[t].issuedAt == a
  }

  ghost predicate TimersInv(s: Owner, retiring: Option<Ref>) {
    forall t :: retiring != Some(t) ==>
      (t in s.timers <==> t in s.leases && s.leases[t].status.ReleaseFailed? && RetryAvailable(s.leases[t].attempts, s.policy))
      && (t in s.timers && t in s.leases ==>
          s.policy.Exponential? && s.timers[t].attempt == s.leases[t].attempts + 1
          && s.timers[t].delay == RetryDelay(s.leases[t].attempts, s.policy))
  }

  ghost predicate NoFailure(s: Owner) {
    forall t :: t in s.leases ==> !s.leases[t].status.ReleaseFailed?
  }

  ghost predicate WaitersInv(s: Owner) {
    && (forall r :: r in s.drainWaiters ==>
          s.drainWaiters[r].monitor in s.drainMonitors && s.drainMonitors[s.drainWaiters[r].monitor] == r)
    && (forall m :: m in s.drainMonitors ==>
          s.drainMonitors[m] in s.drainWaiters && s.drainWaiters[s.drainMonitors[m]].monitor == m)
    && (s.drainWaiters != map[] ==> s.mode.Draining? && NoFailure(s))
  }

  ghost predicate TombstonesInv(s: Owner) {
    && TombstonesListed(s.tombstones)
    && |s.tombstones.kinds| <= RELEASE_TOMBSTONE_LIMIT
    && (forall t, h :: t in s.leases && h in s.leases[t].holders ==> (t, h) !in s.tombstones.kinds)
  }

  ghost predicate CapacityInv(s: Owner) {
    s.maxActive.Some? ==> |s.leases| + |s.reservations| <= s.maxActive.value
  }

  ghost predicate InvBut(s: Owner, retiring: Option<Ref>) {
    && EntriesInv(s, retiring)
    && MonitorsInv(s)
    && JobsInv(s)
    && Busy(s)
    && HoldersInv(s)
    && AgeInv(s)
    && TimersInv(s, retiring)
    && WaitersInv(s)
    && TombstonesInv(s)
    && CapacityInv(s)
  }

  ghost predicate Inv(s: Owner) { InvBut(s, None) }

  /** What every message finds: consistent tables, and work left if admission is closed. */
  ghost predicate Running(s: Owner) { Inv(s) && (s.mode.Draining? ==> !IsDrained(s)) }

  /** `supply` and everything after it has never been handed out. */
  ghost predicate Unused(s: Owner, supply: Ref) {
    && (forall m :: m in s.monitors ==> m < supply)
    && (forall m :: m in s.drainMonitors ==> m < supply)
    && (forall t :: t in s.leases ==> t < supply)
    && (forall id :: id in s.tombstones.kinds ==> id.0 < supply)
  }

  ghost function Put(s: Owner, t: Ref, e: Entry): Owner { s.(leases := s.leases[t := e]) }

  // ---- counting holders --------------------------------------------------------------------

  lemma {:induction false} HolderCountSplit(m: map<Ref, Entry>, t: Ref)
    requires t in m
    ensures HolderCount(m) == HolderCount(m - {t}) + |m[t].holders|
    decreases |m|
  {
    var u :| u in m && HolderCount(m) == |m[u].holders| + HolderCount(m - {u});
    if u != t {
      HolderCountSplit(m - {u}, t);
      HolderCountSplit(m - {t}, u);
      assert (m - {u}) - {t} == (m - {t}) - {u};
    }
  }

  lemma HolderCountPut(m: map<Ref, Entry>, t: Ref, e: Entry)
    ensures HolderCount(m[t := e]) == HolderCount(m - {t}) + |e.holders|
    ensures t !in m ==> HolderCount(m[t := e]) == HolderCount(m) + |e.holders|
    ensures t in m ==> HolderCount(m[t := e]) == HolderCount(m) - |m[t].holders| + |e.holders|
  {
    HolderCountSplit(m[t := e], t);
    assert m[t := e] - {t} == m - {t};
    if t in m { HolderCountSplit(m, t); } else { assert m - {t} == m; }
  }

  lemma InvIsRunnable(s: Owner)
    requires Inv(s)
    ensures Runnable(s)
  {
  }

  // ---- entry rewrites ----------------------------------------------------------------------

  /** `b` is `a` with other holders or pending requests: same token, same place in the pipeline. */
  ghost predicate SameLifecycle(a: Entry, b: Entry) {
    a.backend == b.backend && a.issuedAt == b.issuedAt && a.attempts == b.attempts && a.status == b.status
  }

  /** `r` differs from `s` in one entry's holders and pending requests, and in the tables that mirror them. */
  ghost predicate Rewrites(s: Owner, r: Owner, t: Ref) {
    && t in s.leases && t in r.leases
    && r.leases == s.leases[t := r.leases[t]]
    && SameLifecycle(s.leases[t], r.leases[t])
    && r.leases[t].holders <= s.leases[t].holders
    && r == s.(leases := r.leases, monitors := r.monitors, pendingIssues := r.pendingIssues,
               activeHolders := r.activeHolders, counters := r.counters)
  }

  lemma RewriteJobs(s: Owner, r: Owner, t: Ref)
    requires Rewrites(s, r, t) && JobsInv(s) && Busy(s)
    ensures JobsInv(r) && Busy(r)
  {
  }

  lemma RewriteTables(s: Owner, r: Owner, t: Ref)
    requires Rewrites(s, r, t) && AgeInv(s) && WaitersInv(s) && CapacityInv(s)
    ensures AgeInv(r) && WaitersInv(r) && CapacityInv(r)
  {
    assert r.leases.Keys == s.leases.Keys;
  }

  lemma RewriteTimers(s: Owner, r: Owner, t: Ref)
    requires Rewrites(s, r, t) && TimersInv(s, None)
    ensures TimersInv(r, None)
  {
  }

  lemma RewriteTombstones(s: Owner, r: Owner, t: Ref)
    requires Rewrites(s, r, t) && TombstonesInv(s)
    ensures TombstonesInv(r)
  {
  }

  lemma RewriteKeeps(s: Owner, r: Owner, t: Ref)
    requires Inv(s) && Rewrites(s, r, t)
    ensures JobsInv(r) && Busy(r) && AgeInv(r) && WaitersInv(r) && CapacityInv(r) && TimersInv(r, None) && TombstonesInv(r)
  {
    RewriteJobs(s, r, t);
    RewriteTables(s, r, t);
    RewriteTimers(s, r, t);
    RewriteTombstones(s, r, t);
  }

  lemma ClearRetainMonitors(s: Owner, t: Ref, holder: Ref)
    requires MonitorsInv(s) && t in s.leases
    ensures var (e, s1) := ClearPendingRetain(holder, s.leases[t], s);
            MonitorsInv(Put(s1, t, e))
  {
    var (e, s1) := ClearPendingRetain(holder, s.leases[t], s);
    var q := Put(s1, t, e);
    if holder in s.leases[t].pendingRetains {
      var gone := s.leases[t].pendingRetains[holder].monitor;
      assert PurposeBacked(s, gone, ForRetain(t, holder));
      forall m, p ensures PurposeBacked(q, m, p) <==> Watches(q, m, p) {
        assert PurposeBacked(s, m, p) <==> Watches(s, m, p);
        assert PurposeBacked(q, m, p) <==> PurposeBacked(s, m, p) && p != ForRetain(t, holder);
      }
      forall r, u ensures AwaitsConfirm(q, r, u) <==> Indexed(q, r, u) {
        assert AwaitsConfirm(s, r, u) <==> Indexed(s, r, u);
      }
    } else {
      assert q == s;
    }
  }

  lemma ClearRetainRewrites(s: Owner, t: Ref, holder: Ref)
    requires EntriesInv(s, None) && HoldersInv(s) && t in s.leases
    ensures var (e, s1) := ClearPendingRetain(holder, s.leases[t], s);
            Rewrites(s, Put(s1, t, e), t) && EntriesInv(Put(s1, t, e), None) && HoldersInv(Put(s1, t, e))
  {
    var (e, s1) := ClearPendingRetain(holder, s.leases[t], s);
    HolderCountPut(s.leases, t, e);
    assert EntryShape(s.leases[t]) && EntryShape(e);
  }

  lemma ClearRetainKeeps(s: Owner, t: Ref, holder: Ref)
    requires Inv(s) && t in s.leases
    ensures var (e, s1) := ClearPendingRetain(holder, s.leases[t], s);
            Inv(Put(s1, t, e))
  {
    var (e, s1) := ClearPendingRetain(holder, s.leases[t], s);
    var r := Put(s1, t, e);
    ClearRetainRewrites(s, t, holder);
    ClearRetainMonitors(s, t, holder);
    hide *;
    RewriteKeeps(s, r, t);
  }

  lemma ClearIssueMonitors(s: Owner, t: Ref)
    requires MonitorsInv(s) && t in s.leases
    ensures var (e, s1) := ClearPendingIssue(s.leases[t], s);
            MonitorsInv(Put(s1, t, e))
  {
    var (e, s1) := ClearPendingIssue(s.leases[t], s);
    var q := Put(s1, t, e);
    if s.leases[t].pendingIssue.Some? {
      var Pending(gone, request) := s.leases[t].pendingIssue.value;
      assert PurposeBacked(s, gone, ForIssue(t, request));
      assert AwaitsConfirm(s, request, t);
      forall m, p ensures PurposeBacked(q, m, p) <==> Watches(q, m, p) {
        assert PurposeBacked(s, m, p) <==> Watches(s, m, p);
        assert PurposeBacked(q, m, p) <==> PurposeBacked(s, m, p) && p != ForIssue(t, request);
      }
      forall r, u ensures AwaitsConfirm(q, r, u) <==> Indexed(q, r, u) {
        assert AwaitsConfirm(s, r, u) <==> Indexed(s, r, u);
      }
    } else {
      assert q == s;
    }
  }

  lemma ClearIssueRewrites(s: Owner, t: Ref)
    requires EntriesInv(s, None) && HoldersInv(s) && t in s.leases
    ensures var (e, s1) := ClearPendingIssue(s.leases[t], s);
            Rewrites(s, Put(s1, t, e), t) && EntriesInv(Put(s1, t, e), None) && HoldersInv(Put(s1, t, e))
  {
    var (e, s1) := ClearPendingIssue(s.leases[t], s);
    HolderCountPut(s.leases, t, e);
    assert EntryShape(s.leases[t]) && EntryShape(e);
  }

  lemma ClearIssueKeeps(s: Owner, t: Ref)
    requires Inv(s) && t in s.leases
    ensures var (e, s1) := ClearPendingIssue(s.leases[t], s);
            Inv(Put(s1, t, e))
  {
    var (e, s1) := ClearPendingIssue(s.leases[t], s);
    var r := Put(s1, t, e);
    ClearIssueRewrites(s, t);
    ClearIssueMonitors(s, t);
    hide *;
    RewriteKeeps(s, r, t);
  }

  // ---- changes no table depends on ---------------------------------------------------------

  ghost predicate SameTables(s: Owner, r: Owner) {
    r == s.(counters := r.counters, executor := r.executor)
  }

  lemma SameTablesKeeps(s: Owner, r: Owner, x: Option<Ref>)
    requires InvBut(s, x) && SameTables(s, r)
    ensures InvBut(r, x)
  {
    assert MonitorsInv(r) by { SameMonitors(s, r); }
    assert JobsInv(r) by { SameJobs(s, r); }
  }

  lemma SameMonitors(s: Owner, r: Owner)
    requires MonitorsInv(s)
    requires r.reservations == s.reservations && r.pendingIssues == s.pendingIssues && r.monitors == s.monitors
    requires r.leases.Keys == s.leases.Keys
    requires forall t :: t in s.leases ==>
      r.leases[t].pendingIssue == s.leases[t].pendingIssue && r.leases[t].pendingRetains == s.leases[t].pendingRetains
    ensures MonitorsInv(r)
  {
    forall m, p ensures PurposeBacked(r, m, p) <==> Watches(r, m, p) {
      assert PurposeBacked(s, m, p) <==> Watches(s, m, p);
    }
    forall q, t ensures AwaitsConfirm(r, q, t) <==> Indexed(r, q, t) {
      assert AwaitsConfirm(s, q, t) <==> Indexed(s, q, t);
    }
  }

  lemma SameJobs(s: Owner, r: Owner)
    requires JobsInv(s) && r.queue == s.queue && r.job == s.job
    requires r.leases == s.leases
    ensures JobsInv(r)
  {
  }

  // ---- dropping holders --------------------------------------------------------------------

  ghost function DropHolders(s: Owner, t: Ref, gone: set<Ref>): Owner
    requires t in s.leases
  {
    Put(s.(activeHolders := Max(s.activeHolders - |gone|, 0)), t, s.leases[t].(holders := s.leases[t].holders - gone))
  }

  /** The clamp at zero never acts: the counter is the sum over all entries. */
  lemma DropHoldersExact(s: Owner, t: Ref, gone: set<Ref>)
    requires HoldersInv(s) && t in s.leases && gone <= s.leases[t].holders
    ensures s.activeHolders - |gone| >= 0
    ensures HoldersInv(DropHolders(s, t, gone))
  {
    HolderCountSplit(s.leases, t);
    HolderCountPut(s.leases, t, s.leases[t].(holders := s.leases[t].holders - gone));
    assert |s.leases[t].holders| == |gone| + |s.leases[t].holders - gone| by {
      assert s.leases[t].holders == gone + (s.leases[t].holders - gone);
    }
  }

  lemma DropHoldersRewrites(s: Owner, t: Ref, gone: set<Ref>)
    requires t in s.leases && gone <= s.leases[t].holders && HoldersInv(s) && EntriesInv(s, None)
    requires s.leases[t].status.Active?
    ensures Rewrites(s, DropHolders(s, t, gone), t)
    ensures EntriesInv(DropHolders(s, t, gone), Some(t)) && HoldersInv(DropHolders(s, t, gone))
    ensures gone != s.leases[t].holders && gone !! s.leases[t].pendingRetains.Keys ==> EntriesInv(DropHolders(s, t, gone), None)
  {
    DropHoldersExact(s, t, gone);
    assert EntryShape(s.leases[t]);
  }

  lemma DropHoldersMonitors(s: Owner, t: Ref, gone: set<Ref>)
    requires t in s.leases && MonitorsInv(s)
    ensures MonitorsInv(DropHolders(s, t, gone))
  {
    SameMonitors(s, DropHolders(s, t, gone));
  }

  lemma DropSomeKeeps(s: Owner, t: Ref, h: Ref)
    requires Inv(s) && t in s.leases && s.leases[t].status.Active?
    requires h in s.leases[t].holders && h !in s.leases[t].pendingRetains && s.leases[t].holders != {h}
    ensures Inv(DropHolders(s, t, {h}))
  {
    var r := DropHolders(s, t, {h});
    DropHoldersRewrites(s, t, {h});
    DropHoldersMonitors(s, t, {h});
    hide *;
    RewriteKeeps(s, r, t);
  }

  lemma DropAllKeeps(s: Owner, t: Ref)
    requires Inv(s) && t in s.leases && s.leases[t].status.Active?
    ensures InvBut(DropHolders(s, t, s.leases[t].holders), Some(t))
    ensures Retiring(DropHolders(s, t, s.leases[t].holders), t)
  {
    var gone := s.leases[t].holders;
    var r := DropHolders(s, t, gone);
    DropHoldersRewrites(s, t, gone);
    DropHoldersMonitors(s, t, gone);
    hide *;
    RewriteKeeps(s, r, t);
    WeakenTimers(r, t);
  }

  lemma WeakenTimers(s: Owner, t: Ref)
    requires TimersInv(s, None)
    ensures TimersInv(s, Some(t))
  {
  }

  // ---- entering the release pipeline -------------------------------------------------------

  lemma ClearAllRetains(s: Owner, t: Ref, r: Owner)
    requires MonitorsInv(s) && t in s.leases && t in r.leases
    requires r.leases == s.leases[t := r.leases[t]] && r.reservations == s.reservations && r.pendingIssues == s.pendingIssues
    requires r.leases[t].pendingIssue == s.leases[t].pendingIssue && r.leases[t].pendingRetains == map[]
    requires r.monitors == s.monitors - RetainMonitors(s.leases[t])
    ensures MonitorsInv(r)
  {
    var before := s.leases[t].pendingRetains;
    forall m, p ensures PurposeBacked(r, m, p) <==> Watches(r, m, p) {
      assert PurposeBacked(s, m, p) <==> Watches(s, m, p);
      if m in RetainMonitors(s.leases[t]) {
        var h :| h in before && before[h].monitor == m;
        assert PurposeBacked(s, m, ForRetain(t, h));
      }
    }
    forall q, u ensures AwaitsConfirm(r, q, u) <==> Indexed(r, q, u) {
      assert AwaitsConfirm(s, q, u) <==> Indexed(s, q, u);
    }
  }

  ghost predicate Retiring(s: Owner, t: Ref) {
    t in s.leases && s.leases[t].holders == {} && (s.leases[t].status.Active? || s.leases[t].status.ReleaseFailed?)
  }

  /** `r` is `s` with entry `token` moved to the end of the release queue. */
  ghost predicate Queues(s: Owner, r: Owner, token: Ref, job: Job) {
    && token in s.leases && token in r.leases && r.leases == s.leases[token := r.leases[token]]
    && r.leases[token] == s.leases[token].(pendingIssue := None, pendingRetains := map[],
                                           attempts := s.leases[token].attempts + 1, status := ReleaseQueued(job.generation))
    && r.queue == s.queue + [job]
    && job.token == token && job.backend == s.leases[token].backend && job.attempt == s.leases[token].attempts + 1
    && r.timers == s.timers - {token}
    && r == s.(leases := r.leases, queue := r.queue, timers := r.timers, monitors := r.monitors, pendingIssues := r.pendingIssues)
  }

  lemma EnqueueShape(token: Ref, s: Owner, retry: bool, waiter: Waiter, generation: Ref)
    requires token in s.leases
    ensures Queues(s, Enqueue(token, s.leases[token], s, retry, waiter, generation), token,
                   Job(token, generation, s.leases[token].backend, s.leases[token].attempts + 1, retry, waiter))
  {
  }

  lemma QueuesJobs(s: Owner, r: Owner, token: Ref, job: Job)
    requires Queues(s, r, token, job) && Retiring(s, token) && JobsInv(s)
    ensures JobsInv(r)
  {
    var n := |s.queue|;
    assert forall i :: 0 <= i < n ==> r.queue[i] == s.queue[i] && s.queue[i].token != token;
    forall t | t in r.leases && r.leases[t].status.ReleaseQueued?
      ensures exists i :: 0 <= i < |r.queue| && r.queue[i].token == t
    {
      if t == token { assert r.queue[n].token == t; }
      else {
        var i :| 0 <= i < |s.queue| && s.queue[i].token == t;
        assert r.queue[i].token == t;
      }
    }
  }

  lemma QueuesTables(s: Owner, r: Owner, token: Ref, job: Job)
    requires Queues(s, r, token, job) && Retiring(s, token)
    requires EntriesInv(s, Some(token)) && AgeInv(s) && WaitersInv(s) && CapacityInv(s)
    ensures EntriesInv(r, None) && AgeInv(r) && WaitersInv(r) && CapacityInv(r)
  {
    assert r.leases.Keys == s.leases.Keys;
    assert EntryShape(r.leases[token]);
  }

  lemma QueuesRest(s: Owner, r: Owner, token: Ref, job: Job)
    requires Queues(s, r, token, job) && Retiring(s, token)
    requires HoldersInv(s) && TimersInv(s, Some(token)) && TombstonesInv(s)
    ensures HoldersInv(r) && TimersInv(r, None) && TombstonesInv(r)
  {
    HolderCountPut(s.leases, token, r.leases[token]);
  }

  lemma EnqueueMonitors(token: Ref, s: Owner, retry: bool, waiter: Waiter, generation: Ref)
    requires Retiring(s, token) && MonitorsInv(s)
    ensures MonitorsInv(Enqueue(token, s.leases[token], s, retry, waiter, generation))
  {
    var (e1, s1) := ClearPendingIssue(s.leases[token], s);
    ClearIssueMonitors(s, token);
    ClearAllRetains(Put(s1, token, e1), token, Enqueue(token, s.leases[token], s, retry, waiter, generation));
  }

  // ---- dispatching -------------------------------------------------------------------------

  lemma DispatchJobs(s: Owner)
    requires JobsInv(s)
    ensures JobsHaveEntries(s)
    ensures JobsInv(Dispatch(s).0) && Busy(Dispatch(s).0)
  {
    var r := Dispatch(s).0;
    if s.job.None? && s.queue != [] {
      var first := s.queue[0];
      assert forall i :: 0 <= i < |r.queue| ==> r.queue[i] == s.queue[i + 1];
      forall t | t in r.leases && r.leases[t].status.ReleaseQueued?
        ensures exists i :: 0 <= i < |r.queue| && r.queue[i].token == t
      {
        var i :| 0 <= i < |s.queue| && s.queue[i].token == t;
        assert r.queue[i - 1].token == t;
      }
    }
  }

  lemma DispatchTables(s: Owner)
    requires JobsInv(s) && EntriesInv(s, None) && AgeInv(s) && WaitersInv(s) && CapacityInv(s)
    ensures JobsHaveEntries(s)
    ensures var r := Dispatch(s).0; EntriesInv(r, None) && AgeInv(r) && WaitersInv(r) && CapacityInv(r)
  {
    var r := Dispatch(s).0;
    if s.job.None? && s.queue != [] {
      assert r.leases.Keys == s.leases.Keys;
      assert EntryShape(s.leases[s.queue[0].token]);
      assert EntryShape(r.leases[s.queue[0].token]);
    }
  }

  lemma DispatchRest(s: Owner)
    requires JobsInv(s) && HoldersInv(s) && TimersInv(s, None) && TombstonesInv(s)
    ensures JobsHaveEntries(s)
    ensures var r := Dispatch(s).0; HoldersInv(r) && TimersInv(r, None) && TombstonesInv(r)
  {
    var r := Dispatch(s).0;
    DispatchHolders(s);
    hide HoldersInv;
  }

  lemma DispatchHolders(s: Owner)
    requires JobsHaveEntries(s) && HoldersInv(s)
    ensures HoldersInv(Dispatch(s).0)
  {
    if s.job.None? && s.queue != [] {
      var t := s.queue[0].token;
      HolderCountPut(s.leases, t, Dispatch(s).0.leases[t]);
    }
  }

  lemma DispatchMonitors(s: Owner)
    requires JobsInv(s) && MonitorsInv(s)
    ensures JobsHaveEntries(s)
    ensures MonitorsInv(Dispatch(s).0)
  {
    SameMonitors(s, Dispatch(s).0);
  }

  lemma DispatchKeeps(s: Owner)
    requires EntriesInv(s, None) && MonitorsInv(s) && JobsInv(s) && HoldersInv(s) && AgeInv(s)
    requires TimersInv(s, None) && WaitersInv(s) && TombstonesInv(s) && CapacityInv(s)
    ensures JobsHaveEntries(s)
    ensures Inv(Dispatch(s).0)
  {
    DispatchJobs(s);
    DispatchTables(s);
    DispatchRest(s);
    DispatchMonitors(s);
    hide *;
  }

  lemma ReleaseEntryKeeps(token: Ref, s: Owner, retry: bool, waiter: Waiter, generation: Ref)
    requires InvBut(s, Some(token)) && Retiring(s, token)
    ensures JobsHaveEntries(s)
    ensures Inv(ReleaseEntry(token, s.leases[token], s, retry, waiter, generation).0)
  {
    var r := Enqueue(token, s.leases[token], s, retry, waiter, generation);
    var job := Job(token, generation, s.leases[token].backend, s.leases[token].attempts + 1, retry, waiter);
    assert JobsHaveEntries(s);
    EnqueueMonitors(token, s, retry, waiter, generation);
    EnqueueShape(token, s, retry, waiter, generation);
    hide Enqueue, Dispatch;
    QueuesJobs(s, r, token, job);
    QueuesTables(s, r, token, job);
    QueuesRest(s, r, token, job);
    DispatchKeeps(r);
  }

  // ---- drain waiters and stopping ----------------------------------------------------------

  /** What a handler leaves behind. */
  ghost predicate Good(o: Out) {
    && Inv(o.state)
    && (o.fate.Continue? ==> Running(o.state))
    && (o.fate.StopNormal? ==> o.state.mode.Draining? && IsDrained(o.state) && o.state.drainWaiters == map[])
    && !o.fate.StopCorrupt?
  }

  /** `r` is `s` with other drain waiters, or with admission closed. */
  ghost predicate WaitersOnly(s: Owner, r: Owner) {
    r == s.(drainWaiters := r.drainWaiters, drainMonitors := r.drainMonitors, mode := r.mode)
  }

  lemma WaitersOnlyKeeps(s: Owner, r: Owner)
    requires Inv(s) && WaitersOnly(s, r) && WaitersInv(r)
    ensures Inv(r)
  {
    SameMonitors(s, r);
    SameJobs(s, r);
    WaitersOnlyRest(s, r);
    hide *;
  }

  lemma WaitersOnlyRest(s: Owner, r: Owner)
    requires EntriesInv(s, None) && Busy(s) && HoldersInv(s) && AgeInv(s) && TimersInv(s, None) && TombstonesInv(s) && CapacityInv(s)
    requires WaitersOnly(s, r)
    ensures EntriesInv(r, None) && Busy(r) && HoldersInv(r) && AgeInv(r) && TimersInv(r, None) && TombstonesInv(r) && CapacityInv(r)
  {
  }

  lemma ReplyAllWaiters(s: Owner, result: Reply<()>)
    requires WaitersInv(s)
    ensures WaitersInv(ReplyAllDrainWaiters(s, result).0)
    ensures ReplyAllDrainWaiters(s, result).0 == s.(drainWaiters := map[], drainMonitors := map[])
  {
    var r := ReplyAllDrainWaiters(s, result).0;
    forall m | m in s.drainMonitors ensures m in WaiterMonitors(s) {
      assert s.drainWaiters[s.drainMonitors[m]].monitor == m;
    }
    assert r.drainMonitors == map[];
  }

  lemma ReplyAllKeeps(s: Owner, result: Reply<()>)
    requires Inv(s)
    ensures Inv(ReplyAllDrainWaiters(s, result).0)
  {
    ReplyAllWaiters(s, result);
    WaitersOnlyKeeps(s, ReplyAllDrainWaiters(s, result).0);
  }

  lemma RemoveWaiterKeeps(s: Owner, request: Ref)
    requires Inv(s)
    ensures Inv(RemoveDrainWaiter(request, s))
  {
    var r := RemoveDrainWaiter(request, s);
    RemoveWaiterWaiters(s, request);
    WaitersOnlyKeeps(s, r);
  }

  lemma RemoveWaiterWaiters(s: Owner, request: Ref)
    requires WaitersInv(s)
    ensures WaitersInv(RemoveDrainWaiter(request, s))
  {
  }

  lemma CompleteDrainGood(s: Owner, sent: set<Sent>)
    requires Inv(s) && s.mode.Draining? && IsDrained(s)
    ensures Good(CompleteDrain(s, sent))
  {
    ReplyAllWaiters(s, Accepted(()));
    ReplyAllKeeps(s, Accepted(()));
  }

  lemma StopOrContinueGood(s: Owner, sent: set<Sent>)
    requires Inv(s)
    ensures Good(StopOrContinue(s, sent))
  {
    if s.mode.Draining? && IsDrained(s) { CompleteDrainGood(s, sent); }
    hide *;
  }

  lemma BeginDrainGood(s: Owner)
    requires Running(s)
    ensures Good(BeginDrain(s))
  {
    var s1 := s.(mode := Draining);
    assert WaitersInv(s1);
    WaitersOnlyKeeps(s, s1);
    if IsDrained(s1) { CompleteDrainGood(s1, {}); }
    hide *;
  }

  // ---- reservations ------------------------------------------------------------------------

  ghost predicate ReservationsOnly(s: Owner, r: Owner) {
    r == s.(reservations := r.reservations, monitors := r.monitors)
  }

  lemma ReservationsOnlyKeeps(s: Owner, r: Owner)
    requires Inv(s) && ReservationsOnly(s, r) && MonitorsInv(r) && CapacityInv(r)
    ensures Inv(r)
  {
    SameJobs(s, r);
    ReservationsOnlyRest(s, r);
    hide *;
  }

  lemma ReservationsOnlyRest(s: Owner, r: Owner)
    requires EntriesInv(s, None) && Busy(s) && HoldersInv(s) && AgeInv(s) && TimersInv(s, None) && WaitersInv(s) && TombstonesInv(s)
    requires ReservationsOnly(s, r)
    ensures EntriesInv(r, None) && Busy(r) && HoldersInv(r) && AgeInv(r) && TimersInv(r, None) && WaitersInv(r) && TombstonesInv(r)
  {
  }

  lemma ReserveMonitors(s: Owner, metadata: Term, replyTo: Pid, request: Ref, supply: Ref)
    requires MonitorsInv(s) && Unused(s, supply) && request !in s.reservations && request !in s.pendingIssues
    ensures MonitorsInv(ReserveIssue(s, metadata, replyTo, request, supply).state)
  {
    var r := ReserveIssue(s, metadata, replyTo, request, supply).state;
    if r != s {
      forall m, p ensures PurposeBacked(r, m, p) <==> Watches(r, m, p) {
        assert PurposeBacked(s, m, p) <==> Watches(s, m, p);
      }
      forall q, t ensures AwaitsConfirm(r, q, t) <==> Indexed(r, q, t) {
        assert AwaitsConfirm(s, q, t) <==> Indexed(s, q, t);
      }
    }
  }

  lemma ReserveIssueGood(s: Owner, metadata: Term, replyTo: Pid, request: Ref, supply: Ref)
    requires Running(s) && Unused(s, supply) && request !in s.reservations && request !in s.pendingIssues
    ensures Good(ReserveIssue(s, metadata, replyTo, request, supply))
  {
    var r := ReserveIssue(s, metadata, replyTo, request, supply).state;
    ReserveMonitors(s, metadata, replyTo, request, supply);
    ReservationsOnlyKeeps(s, r);
    hide Inv;
  }

  lemma DropReservationMonitors(s: Owner, request: Ref)
    requires MonitorsInv(s)
    ensures MonitorsInv(RemoveIssueReservation(request, s))
  {
    var r := RemoveIssueReservation(request, s);
    if request in s.reservations {
      assert PurposeBacked(s, s.reservations[request].monitor, ForReservation(request));
      forall m, p ensures PurposeBacked(r, m, p) <==> Watches(r, m, p) {
        assert PurposeBacked(s, m, p) <==> Watches(s, m, p);
        assert PurposeBacked(r, m, p) <==> PurposeBacked(s, m, p) && p != ForReservation(request);
      }
      forall q, t ensures AwaitsConfirm(r, q, t) <==> Indexed(r, q, t) {
        assert AwaitsConfirm(s, q, t) <==> Indexed(s, q, t);
      }
    }
  }

  lemma DropReservationKeeps(s: Owner, request: Ref)
    requires Inv(s)
    ensures Inv(RemoveIssueReservation(request, s))
    ensures request in s.reservations ==> |RemoveIssueReservation(request, s).reservations| == |s.reservations| - 1
  {
    var r := RemoveIssueReservation(request, s);
    if request in s.reservations {
      assert r.reservations.Keys == s.reservations.Keys - {request};
    }
    DropReservationMonitors(s, request);
    ReservationsOnlyKeeps(s, r);
  }

  lemma CancelReservationGood(s: Owner, request: Ref)
    requires Running(s)
    ensures Good(CancelReservation(s, request))
  {
    DropReservationKeeps(s, request);
    StopOrContinueGood(RemoveIssueReservation(request, s), {});
  }

  // ---- commits -----------------------------------------------------------------------------

  /** The record between the two halves of a commit: the reservation is spent, nothing holds the token yet. */
  lemma NewEntryTables(s: Owner, r: Owner, t: Ref)
    requires t !in s.leases && t in r.leases && r.leases == s.leases[t := r.leases[t]] && r.leases[t].status.Active?
    requires AgeInv(s) && r.ageIndex == s.ageIndex + {(r.leases[t].issuedAt, t)}
    requires WaitersInv(s) && r.drainWaiters == s.drainWaiters && r.drainMonitors == s.drainMonitors && r.mode == s.mode
    requires TombstonesInv(s) && r.tombstones == s.tombstones
    requires forall id :: id in s.tombstones.kinds ==> id.0 != t
    ensures AgeInv(r) && WaitersInv(r) && TombstonesInv(r)
  {
  }

  lemma NewEntryPipeline(s: Owner, r: Owner, t: Ref)
    requires t !in s.leases && t in r.leases && r.leases == s.leases[t := r.leases[t]] && r.leases[t].status.Active?
    requires JobsInv(s) && Busy(s) && r.queue == s.queue && r.job == s.job
    requires TimersInv(s, None) && r.timers == s.timers && r.policy == s.policy
    ensures JobsInv(r) && Busy(r) && TimersInv(r, None)
  {
    NewEntryTimers(s, r, t);
    hide TimersInv;
  }

  lemma NewEntryTimers(s: Owner, r: Owner, t: Ref)
    requires t !in s.leases && t in r.leases && r.leases == s.leases[t := r.leases[t]] && r.leases[t].status.Active?
    requires TimersInv(s, None) && r.timers == s.timers && r.policy == s.policy
    ensures TimersInv(r, None)
  {
  }

  /** `r` is `s` with one reservation turned into the new entry `t`. */
  ghost predicate Admits(s: Owner, r: Owner, request: Ref, t: Ref) {
    && request in s.reservations && t in r.leases
    && r.leases[t].status.Active? && r.leases[t].pendingRetains == map[] && r.leases[t].attempts == 0
    && r == s.(leases := s.leases[t := r.leases[t]], reservations := s.reservations - {request},
               monitors := r.monitors, pendingIssues := r.pendingIssues,
               activeHolders := s.activeHolders + |r.leases[t].holders|,
               ageIndex := s.ageIndex + {(r.leases[t].issuedAt, t)}, counters := r.counters)
    && var m := s.reservations[request].monitor;
       || (r.leases[t].pendingIssue == Some(Pending(m, request))
           && r.monitors == s.monitors[m := ForIssue(t, request)] && r.pendingIssues == s.pendingIssues[request := t])
       || (r.leases[t].pendingIssue.None? && r.monitors == s.monitors - {m} && r.pendingIssues == s.pendingIssues)
  }

  lemma AdmitsCapacity(s: Owner, r: Owner, request: Ref, t: Ref)
    requires Admits(s, r, request, t) && t !in s.leases && CapacityInv(s)
    ensures CapacityInv(r)
    ensures |r.leases| == |s.leases| + 1 && |r.reservations| == |s.reservations| - 1
  {
    assert r.leases.Keys == s.leases.Keys + {t};
    assert r.reservations.Keys == s.reservations.Keys - {request};
  }

  lemma AdmitsMonitors(s: Owner, r: Owner, request: Ref, t: Ref)
    requires Admits(s, r, request, t) && t !in s.leases && MonitorsInv(s)
    ensures MonitorsInv(r)
  {
    var watch := s.reservations[request].monitor;
    assert PurposeBacked(s, watch, ForReservation(request));
    forall m, p ensures PurposeBacked(r, m, p) <==> Watches(r, m, p) {
      assert PurposeBacked(s, m, p) <==> Watches(s, m, p);
    }
    forall q, u ensures AwaitsConfirm(r, q, u) <==> Indexed(r, q, u) {
      assert AwaitsConfirm(s, q, u) <==> Indexed(s, q, u);
    }
  }

  lemma AdmitsEntries(s: Owner, r: Owner, request: Ref, t: Ref)
    requires Admits(s, r, request, t) && t !in s.leases && EntriesInv(s, None) && HoldersInv(s)
    ensures EntriesInv(r, Some(t)) && HoldersInv(r)
    ensures r.leases[t].holders != {} ==> EntriesInv(r, None)
  {
    HolderCountPut(s.leases, t, r.leases[t]);
  }

  lemma AdmitsKeeps(s: Owner, r: Owner, request: Ref, t: Ref)
    requires Inv(s) && Admits(s, r, request, t) && t !in s.leases
    requires forall id :: id in s.tombstones.kinds ==> id.0 != t
    ensures InvBut(r, Some(t))
    ensures r.leases[t].holders != {} ==> Inv(r)
  {
    NewEntryTables(s, r, t);
    NewEntryPipeline(s, r, t);
    AdmitsCapacity(s, r, request, t);
    AdmitsMonitors(s, r, request, t);
    AdmitsEntries(s, r, request, t);
    WeakenTimers(r, t);
    hide *;
  }

  ghost predicate CommitMatches(s: Owner, reservation: Ref, replyTo: Pid, request: Ref) {
    request in s.reservations && s.reservations[request].reservation == reservation && s.reservations[request].replyTo == replyTo
  }

  lemma CommitBuiltShape(s: Owner, reservation: Ref, backend: Term, replyTo: Pid, request: Ref, now: int, supply: Ref)
    requires Runnable(s) && CommitMatches(s, reservation, replyTo, request)
    ensures var o := CommitIssue(s, reservation, backend, replyTo, request, GuardBuilt, now, supply);
            Admits(s, o.state, request, supply + 2) && o.state.leases[supply + 2].holders == {supply + 3} && o.fate == Continue
  {
    hide JobsHaveEntries, TombstonesListed;
  }

  lemma CommitBuiltGood(s: Owner, reservation: Ref, backend: Term, replyTo: Pid, request: Ref, now: int, supply: Ref)
    requires Running(s) && Unused(s, supply) && CommitMatches(s, reservation, replyTo, request)
    ensures Runnable(s)
    ensures Good(CommitIssue(s, reservation, backend, replyTo, request, GuardBuilt, now, supply))
  {
    InvIsRunnable(s);
    CommitBuiltShape(s, reservation, backend, replyTo, request, now, supply);
    var o := CommitIssue(s, reservation, backend, replyTo, request, GuardBuilt, now, supply);
    hide InvBut, CommitIssue;
    AdmitsKeeps(s, o.state, request, supply + 2);
  }

  ghost function Rejected(s: Owner, backend: Term, request: Ref, now: int, t: Ref): Owner
    requires request in s.reservations
  {
    s.(reservations := s.reservations - {request},
       monitors := s.monitors[s.reservations[request].monitor := ForIssuePending(request)] - {s.reservations[request].monitor},
       leases := s.leases[t := Entry(backend, {}, now, s.reservations[request].metadata, None, None, map[], 0, Active)],
       ageIndex := s.ageIndex + {(now, t)})
  }

  lemma RejectedIsRelease(s: Owner, reservation: Ref, backend: Term, replyTo: Pid, request: Ref, code: Term, now: int, supply: Ref)
    requires Runnable(s) && CommitMatches(s, reservation, replyTo, request)
    ensures var t := supply + 2;
            var q := Rejected(s, backend, request, now, t);
            JobsHaveEntries(q) && Admits(s, q, request, t) && Retiring(q, t)
            && var (r, sent) := ReleaseEntry(t, q.leases[t], q, false, IssueWaiter(request, code), supply + 4);
               CommitIssue(s, reservation, backend, replyTo, request, GuardFailed(code), now, supply) == Out(r, sent, Continue)
               && t in r.leases
  {
    var t := supply + 2;
    var q := Rejected(s, backend, request, now, t);
    var m := s.reservations[request].monitor;
    assert s.monitors[m := ForIssuePending(request)] - {m} == s.monitors - {m};
    EnqueueShape(t, q, false, IssueWaiter(request, code), supply + 4);
  }

  lemma CommitRejectedGood(s: Owner, reservation: Ref, backend: Term, replyTo: Pid, request: Ref, code: Term, now: int, supply: Ref)
    requires Running(s) && Unused(s, supply) && CommitMatches(s, reservation, replyTo, request)
    ensures Runnable(s)
    ensures Good(CommitIssue(s, reservation, backend, replyTo, request, GuardFailed(code), now, supply))
  {
    InvIsRunnable(s);
    RejectedIsRelease(s, reservation, backend, replyTo, request, code, now, supply);
    UnusedToken(s, supply);
    hide *;
    var q := Rejected(s, backend, request, now, supply + 2);
    AdmitsKeeps(s, q, request, supply + 2);
    ReleaseEntryKeeps(supply + 2, q, false, IssueWaiter(request, code), supply + 4);
    KeptGood(CommitIssue(s, reservation, backend, replyTo, request, GuardFailed(code), now, supply), supply + 2);
  }

  lemma UnusedToken(s: Owner, supply: Ref)
    requires Unused(s, supply)
    ensures supply + 2 !in s.leases && forall id :: id in s.tombstones.kinds ==> id.0 != supply + 2
  {
  }

  lemma KeptGood(o: Out, t: Ref)
    requires Inv(o.state) && o.fate.Continue? && t in o.state.leases
    ensures Good(o)
  {
    hide InvBut;
  }

  // ---- removing a holder -------------------------------------------------------------------

  lemma SameTablesRunning(s: Owner, r: Owner)
    requires Running(s) && SameTables(s, r)
    ensures Running(r)
  {
    SameTablesKeeps(s, r, None);
  }

  lemma EnqueuePut(token: Ref, e: Entry, s: Owner, retry: bool, waiter: Waiter, generation: Ref)
    ensures Enqueue(token, e, s, retry, waiter, generation) == Enqueue(token, e, Put(s, token, e), retry, waiter, generation)
  {
    hide RetainMonitors;
    PutTwice(s.leases, token, e, e.(pendingIssue := None, pendingRetains := map[], attempts := e.attempts + 1, status := ReleaseQueued(generation)));
  }

  lemma PutTwice(m: map<Ref, Entry>, token: Ref, e: Entry, f: Entry)
    ensures m[token := e][token := f] == m[token := f]
  {
  }

  /** The record after `holder` left entry `e` of `token`, before anything is queued. */
  ghost function WithoutHolder(token: Ref, holder: Ref, e: Entry, s: Owner): Owner {
    Put(s.(activeHolders := Max(s.activeHolders - 1, 0)), token, e.(holders := e.holders - {holder}))
  }

  lemma RemoveHolderShape(token: Ref, holder: Ref, e: Entry, s: Owner, supply: Ref)
    requires JobsHaveEntries(s) && holder in e.holders
    ensures var d := WithoutHolder(token, holder, e, s);
            JobsHaveEntries(d)
            && RemoveHolder(token, holder, e, s, supply) ==
               if e.holders == {holder}
               then var (r, sent) := ReleaseEntry(token, d.leases[token], d, false, NoWaiter, supply); StopOrContinue(r, sent)
               else Out(d, {}, Continue)
  {
    var e1 := e.(holders := e.holders - {holder});
    var s1 := s.(activeHolders := Max(s.activeHolders - 1, 0));
    assert e1.holders == {} <==> e.holders == {holder} by {
      if e1.holders == {} { assert forall x :: x in e.holders ==> x == holder || x in e1.holders; }
    }
    EnqueuePut(token, e1, s1, false, NoWaiter, supply);
  }

  /** The holder is gone from `d`; if it was the last one, `token` is ready to enter the pipeline. */
  ghost predicate HolderLeft(d: Owner, token: Ref) {
    && token in d.leases && d.leases[token].status.Active?
    && InvBut(d, if d.leases[token].holders == {} then Some(token) else None)
  }

  lemma RemoveHolderGood(token: Ref, holder: Ref, e: Entry, s: Owner, supply: Ref)
    requires JobsHaveEntries(s) && holder in e.holders
    requires HolderLeft(WithoutHolder(token, holder, e, s), token)
    ensures Good(RemoveHolder(token, holder, e, s, supply))
  {
    var d := WithoutHolder(token, holder, e, s);
    RemoveHolderShape(token, holder, e, s, supply);
    LastHolder(e, holder);
    hide InvBut, JobsHaveEntries, RemoveHolder, ReleaseEntry, StopOrContinue;
    if e.holders == {holder} {
      ReleaseEntryKeeps(token, d, false, NoWaiter, supply);
      var (r, sent) := ReleaseEntry(token, d.leases[token], d, false, NoWaiter, supply);
      StopOrContinueGood(r, sent);
    }
  }

  lemma LastHolder(e: Entry, holder: Ref)
    requires holder in e.holders
    ensures e.holders - {holder} == {} <==> e.holders == {holder}
  {
    if e.holders - {holder} == {} { assert forall x :: x in e.holders ==> x == holder || x in e.holders - {holder}; }
  }

  lemma DropIsWithout(s: Owner, t: Ref, h: Ref)
    requires t in s.leases
    ensures DropHolders(s, t, {h}) == WithoutHolder(t, h, s.leases[t], s)
    ensures t in DropHolders(s, t, {h}).leases
    ensures DropHolders(s, t, {h}).leases[t] == s.leases[t].(holders := s.leases[t].holders - {h})
  {
  }

  lemma HolderLeaves(s: Owner, t: Ref, h: Ref)
    requires Inv(s) && t in s.leases && s.leases[t].status.Active?
    requires h in s.leases[t].holders && h !in s.leases[t].pendingRetains
    ensures DropHolders(s, t, {h}) == WithoutHolder(t, h, s.leases[t], s)
    ensures HolderLeft(DropHolders(s, t, {h}), t)
  {
    hide InvBut, DropHolders, WithoutHolder;
    LastHolder(s.leases[t], h);
    DropIsWithout(s, t, h);
    if s.leases[t].holders == {h} { DropAllKeeps(s, t); } else { DropSomeKeeps(s, t, h); }
  }

  // ---- tombstones --------------------------------------------------------------------------

  /** What the order queue looks like between the append and the eviction. */
  ghost predicate Listed(kinds: map<(Ref, Ref), Tombstone>, order: seq<(Ref, Ref)>) {
    Distinct(order) && kinds.Keys == Elements(order)
  }

  lemma AppendListed(kinds: map<(Ref, Ref), Tombstone>, order: seq<(Ref, Ref)>, id: (Ref, Ref), kind: Tombstone)
    requires Listed(kinds, order) && id !in kinds
    ensures Listed(kinds[id := kind], order + [id])
  {
    assert id in order ==> id in Elements(order);
    assert Elements(order + [id]) == Elements(order) + {id};
    assert kinds[id := kind].Keys == kinds.Keys + {id};
  }

  lemma PopListed(kinds: map<(Ref, Ref), Tombstone>, order: seq<(Ref, Ref)>)
    requires Listed(kinds, order) && order != []
    ensures order[0] in kinds
    ensures Listed(kinds - {order[0]}, order[1..])
    ensures |kinds - {order[0]}| == |kinds| - 1
  {
    var oldest := order[0];
    var rest := order[1..];
    assert oldest in Elements(order);
    assert Elements(rest) == Elements(order) - {oldest} by {
      forall x ensures x in Elements(rest) <==> x in Elements(order) - {oldest} {
        if x in order && x != oldest { var k :| 0 <= k < |order| && order[k] == x; assert rest[k - 1] == x; }
      }
    }
    assert (kinds - {oldest}).Keys == kinds.Keys - {oldest};
  }

  /** The history never exceeds its limit and eviction always finds the entry it pops. */
  lemma PutTombstoneListed(t: Tombstones, id: (Ref, Ref), kind: Tombstone)
    requires TombstonesListed(t) && |t.kinds| <= RELEASE_TOMBSTONE_LIMIT
    ensures var r := PutTombstone(t, id, kind);
            TombstonesListed(r) && |r.kinds| <= RELEASE_TOMBSTONE_LIMIT
            && r.kinds.Keys <= t.kinds.Keys + {id} && id in r.kinds && r.kinds[id] == kind
  {
    var r := PutTombstone(t, id, kind);
    if id in t.kinds {
      assert r.kinds.Keys == t.kinds.Keys;
    } else {
      AppendListed(t.kinds, t.order, id, kind);
      assert t.kinds[id := kind].Keys == t.kinds.Keys + {id};
      if |t.kinds[id := kind]| > RELEASE_TOMBSTONE_LIMIT {
        PopListed(t.kinds[id := kind], t.order + [id]);
        DistinctCount(t.order);
        assert (t.order + [id])[0] == t.order[0] && t.order[0] in Elements(t.order);
      }
    }
  }

  lemma PutTombstoneKeeps(d: Owner, id: (Ref, Ref), kind: Tombstone, x: Option<Ref>, c: Counters)
    requires InvBut(d, x) && (id.0 in d.leases ==> id.1 !in d.leases[id.0].holders)
    ensures TombstonesListed(d.tombstones)
    ensures InvBut(d.(tombstones := PutTombstone(d.tombstones, id, kind), counters := c), x)
  {
    PutTombstoneListed(d.tombstones, id, kind);
    var r := d.(tombstones := PutTombstone(d.tombstones, id, kind), counters := c);
    assert TombstonesInv(r);
    hide PutTombstone;
    TombstonesOnlyKeeps(d, r, x);
  }

  lemma TombstonesOnlyKeeps(s: Owner, r: Owner, x: Option<Ref>)
    requires InvBut(s, x) && r == s.(tombstones := r.tombstones, counters := r.counters) && TombstonesInv(r)
    ensures InvBut(r, x)
  {
    hide EntriesInv, MonitorsInv, JobsInv, Busy, HoldersInv, AgeInv, TimersInv, WaitersInv, TombstonesInv, CapacityInv;
    SameMonitors(s, r);
    SameJobs(s, r);
    SameEntries(s, r, x);
    SameCounts(s, r);
  }

  lemma SameEntries(s: Owner, r: Owner, x: Option<Ref>)
    requires r == s.(tombstones := r.tombstones, counters := r.counters) && EntriesInv(s, x) && TimersInv(s, x) && WaitersInv(s)
    ensures EntriesInv(r, x) && TimersInv(r, x) && WaitersInv(r)
  {
    hide EntryShape, RetryAvailable, RetryDelay;
  }

  lemma SameCounts(s: Owner, r: Owner)
    requires r == s.(tombstones := r.tombstones, counters := r.counters) && Busy(s) && HoldersInv(s) && AgeInv(s) && CapacityInv(s)
    ensures Busy(r) && HoldersInv(r) && AgeInv(r) && CapacityInv(r)
  {
    hide HolderCount;
  }

  // ---- releases and abandonments -----------------------------------------------------------

  ghost predicate Held(s: Owner, t: Ref, h: Ref) {
    t in s.leases && s.leases[t].status.Active? && h in s.leases[t].holders
  }

  lemma NamedShape(s: Owner, t: Ref, h: Ref, tombs: Tombstones, c: Counters)
    requires t in s.leases
    ensures var (e, s1) := ClearPendingRetain(h, s.leases[t], s);
            var b := Put(s1, t, e);
            && t in b.leases && b.leases[t] == e && b.tombstones == s.tombstones
            && e.status == s.leases[t].status && e.holders == s.leases[t].holders && h !in e.pendingRetains
            && WithoutHolder(t, h, e, s1.(counters := c, tombstones := tombs))
               == WithoutHolder(t, h, e, b).(counters := c, tombstones := tombs)
            && t in WithoutHolder(t, h, e, b).leases
            && WithoutHolder(t, h, e, b).leases[t].holders == e.holders - {h}
            && WithoutHolder(t, h, e, b).leases[t].status == e.status
            && WithoutHolder(t, h, e, b).tombstones == s.tombstones
  {
    var (e, s1) := ClearPendingRetain(h, s.leases[t], s);
    assert s1.leases[t := e][t := e.(holders := e.holders - {h})] == s1.leases[t := e.(holders := e.holders - {h})];
  }

  /** The record a named release or abandonment hands to `remove_holder`. */
  ghost function Named(s: Owner, t: Ref, h: Ref, kind: Tombstone): Owner
    requires TombstonesListed(s.tombstones) && t in s.leases
  {
    var c := s.counters;
    ClearPendingRetain(h, s.leases[t], s).1.(
      counters := if kind.Abandoned? then c.(abandonments := c.abandonments + 1) else c.(explicitReleases := c.explicitReleases + 1),
      tombstones := PutTombstone(s.tombstones, (t, h), kind))
  }

  lemma NamedHolderLeaves(s: Owner, t: Ref, h: Ref, kind: Tombstone)
    requires Inv(s) && Held(s, t, h)
    ensures Runnable(s) && JobsHaveEntries(Named(s, t, h, kind))
    ensures h in ClearPendingRetain(h, s.leases[t], s).0.holders
    ensures HolderLeft(WithoutHolder(t, h, ClearPendingRetain(h, s.leases[t], s).0, Named(s, t, h, kind)), t)
  {
    InvIsRunnable(s);
    var (e, s1) := ClearPendingRetain(h, s.leases[t], s);
    var n := Named(s, t, h, kind);
    assert n == s1.(counters := n.counters, tombstones := PutTombstone(s.tombstones, (t, h), kind));
    NamedShape(s, t, h, PutTombstone(s.tombstones, (t, h), kind), n.counters);
    ClearRetainKeeps(s, t, h);
    assert JobsHaveEntries(n);
    hide InvBut, PutTombstone, JobsHaveEntries, WithoutHolder, Put, ClearPendingRetain, Runnable, Named;
    var b := Put(s1, t, e);
    HolderLeaves(b, t, h);
    var d := WithoutHolder(t, h, e, b);
    PutTombstoneKeeps(d, (t, h), kind, if d.leases[t].holders == {} then Some(t) else None, n.counters);
  }

  lemma NamedMessage(s: Owner, t: Ref, h: Ref, supply: Ref)
    requires Runnable(s) && Held(s, t, h)
    ensures JobsHaveEntries(Named(s, t, h, Abandoned)) && JobsHaveEntries(Named(s, t, h, Explicit))
    ensures AbandonedMessage(s, t, h, supply)
            == RemoveHolder(t, h, ClearPendingRetain(h, s.leases[t], s).0, Named(s, t, h, Abandoned), supply)
    ensures (t, h) !in s.tombstones.kinds ==>
            ReleaseMessage(s, t, h, supply)
            == RemoveHolder(t, h, ClearPendingRetain(h, s.leases[t], s).0, Named(s, t, h, Explicit), supply)
  {
    hide PutTombstone, RemoveHolder, TombstonesListed;
  }

  lemma NamedGood(s: Owner, t: Ref, h: Ref, kind: Tombstone, supply: Ref)
    requires Inv(s) && Held(s, t, h)
    ensures Runnable(s) && JobsHaveEntries(Named(s, t, h, kind))
    ensures Good(RemoveHolder(t, h, ClearPendingRetain(h, s.leases[t], s).0, Named(s, t, h, kind), supply))
  {
    NamedHolderLeaves(s, t, h, kind);
    hide *;
    RemoveHolderGood(t, h, ClearPendingRetain(h, s.leases[t], s).0, Named(s, t, h, kind), supply);
  }

  lemma AbandonedGood(s: Owner, t: Ref, h: Ref, supply: Ref)
    requires Running(s)
    ensures Runnable(s)
    ensures Good(AbandonedMessage(s, t, h, supply))
  {
    InvIsRunnable(s);
    if Held(s, t, h) {
      NamedMessage(s, t, h, supply);
      hide *;
      NamedGood(s, t, h, Abandoned, supply);
    }
  }

  lemma ReleaseGood(s: Owner, t: Ref, h: Ref, supply: Ref)
    requires Running(s)
    ensures Runnable(s)
    ensures Good(ReleaseMessage(s, t, h, supply))
  {
    hide *;
    RunningHasInv(s);
    InvIsRunnable(s);
    if (t, h) in s.tombstones.kinds {
      LateReleaseShape(s, t, h, supply);
      LateReleaseKeeps(s, t, h, ReleaseMessage(s, t, h, supply).state);
      ContinuesGood(ReleaseMessage(s, t, h, supply));
    } else if Held(s, t, h) {
      HeldLease(s, t, h);
      NamedMessage(s, t, h, supply);
      NamedGood(s, t, h, Explicit, supply);
    } else {
      UnknownReleaseShape(s, t, h, supply);
      SameTablesRunning(s, ReleaseMessage(s, t, h, supply).state);
      ContinuesGood(ReleaseMessage(s, t, h, supply));
    }
  }

  lemma RunningHasInv(s: Owner)
    requires Running(s)
    ensures Inv(s)
  {
  }

  lemma HeldLease(s: Owner, t: Ref, h: Ref)
    requires Held(s, t, h)
    ensures t in s.leases
  {
  }

  lemma ContinuesGood(o: Out)
    requires Running(o.state) && o.fate.Continue?
    ensures Good(o)
  {
  }

  lemma LateReleaseShape(s: Owner, t: Ref, h: Ref, supply: Ref)
    requires Runnable(s) && (t, h) in s.tombstones.kinds
    ensures var o := ReleaseMessage(s, t, h, supply);
            && o.fate.Continue? && o.state == s.(tombstones := o.state.tombstones, counters := o.state.counters)
            && (o.state.tombstones == s.tombstones || o.state.tombstones == s.tombstones.(kinds := s.tombstones.kinds[(t, h) := Explicit]))
  {
    hide Runnable;
  }

  lemma UnknownReleaseShape(s: Owner, t: Ref, h: Ref, supply: Ref)
    requires Runnable(s) && (t, h) !in s.tombstones.kinds && !Held(s, t, h)
    ensures var o := ReleaseMessage(s, t, h, supply); o.fate.Continue? && SameTables(s, o.state)
  {
    hide Runnable, RemoveHolder, PutTombstone;
  }

  lemma LateReleaseKeeps(s: Owner, t: Ref, h: Ref, r: Owner)
    requires Running(s) && (t, h) in s.tombstones.kinds
    requires r == s.(tombstones := r.tombstones, counters := r.counters)
    requires r.tombstones == s.tombstones || r.tombstones == s.tombstones.(kinds := s.tombstones.kinds[(t, h) := Explicit])
    ensures Running(r)
  {
    assert r.tombstones.kinds.Keys == s.tombstones.kinds.Keys;
    TombstonesOnlyKeeps(s, r, None);
  }
}
