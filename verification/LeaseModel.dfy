/**
 The state record of one lease owner and the transition of every message it handles.

 A handler is a function from the record before the message to an `Out`: the record after
 it, the messages it sent, and whether the process goes on. Everything the runtime decides
 is an argument: `supply` is a reference no earlier call returned (a handler takes at most
 `REFS_PER_STEP` references from there), `now` is the monotonic clock, and guard-factory and
 callback results are given.
 */
module LeaseModel {
  import opened Common

  type Ref = nat
  type Pid = nat
  type Term = nat

  const RELEASE_TOMBSTONE_LIMIT := 1024
  const REFS_PER_STEP := 8

  datatype Mode = Open | Draining

  datatype Reason =
    | IsDraining
    | Capacity
    | UnknownParentHolder
    | DuplicateHolder
    | LeaseNotActive
    | UnknownLease
    | NotReleaseFailed
    | ReleaseInProgress
    | GuardFactoryFailed(code: Term)
    | CallbackFailed(code: Term)
    | ExecutorDied(code: Term)
    | RejectedAndStuck(code: Term, token: Ref)

  datatype Status =
    | Active
    | ReleaseQueued(generation: Ref)
    | Releasing(generation: Ref)
    | ReleaseFailed(reason: Reason)

  datatype Pending = Pending(monitor: Ref, request: Ref)

  datatype Entry = Entry(
    backend: Term,
    holders: set<Ref>,
    issuedAt: int,
    metadata: Term,
    root: Option<Ref>,
    pendingIssue: Option<Pending>,
    pendingRetains: map<Ref, Pending>,
    attempts: nat,
    status: Status)

  datatype Reservation = Reservation(reservation: Ref, replyTo: Pid, monitor: Ref, metadata: Term)

  datatype Purpose =
    | ForReservation(request: Ref)
    | ForIssuePending(request: Ref)
    | ForIssue(token: Ref, request: Ref)
    | ForRetain(token: Ref, child: Ref)

  datatype Waiter =
    | NoWaiter
    | RetryWaiter(from: Ref)
    | IssueWaiter(request: Ref, rejection: Term)

  datatype Job = Job(token: Ref, generation: Ref, backend: Term, attempt: nat, retry: bool, waiter: Waiter)

  datatype DrainWaiter = DrainWaiter(replyTo: Pid, monitor: Ref)

  datatype Timer = Timer(generation: Ref, attempt: nat, delay: nat)

  datatype Tombstone = Abandoned | Explicit

  /** Release history: the classification of recent releases, oldest first in `order`. */
  datatype Tombstones = Tombstones(
    kinds: map<(Ref, Ref), Tombstone>,
    order: seq<(Ref, Ref)>,
    evictions: nat,
    abandonedEvictions: nat)

  const NO_TOMBSTONES := Tombstones(map[], [], 0, 0)

  datatype RetryPolicy =
    | Manual
    | Exponential(initialMs: nat, maxMs: nat, maxAttempts: Option<nat>)

  datatype Guard = GuardBuilt | GuardFailed(code: Term)

  datatype CallbackResult = CallbackOk | CallbackError(reason: Reason)

  datatype Counters = Counters(
    issuedLeases: nat,
    issuedHolders: nat,
    retainRequests: nat,
    retainCancellations: nat,
    explicitReleases: nat,
    abandonments: nat,
    lateReleases: nat,
    duplicateReleases: nat,
    unclassifiedReleases: nat,
    callbacks: nat,
    failures: nat,
    retries: nat,
    executorRestarts: nat,
    malformed: nat)

  datatype Owner = Owner(
    maxActive: Option<nat>,
    policy: RetryPolicy,
    mode: Mode,
    leases: map<Ref, Entry>,
    reservations: map<Ref, Reservation>,
    pendingIssues: map<Ref, Ref>,
    activeHolders: int,
    ageIndex: set<(int, Ref)>,
    executor: Ref,
    queue: seq<Job>,
    job: Option<Job>,
    monitors: map<Ref, Purpose>,
    drainWaiters: map<Ref, DrainWaiter>,
    drainMonitors: map<Ref, Ref>,
    timers: map<Ref, Timer>,
    tombstones: Tombstones,
    counters: Counters)

  datatype Reply<+T> = Accepted(value: T) | Refused(reason: Reason)

  /** A message the owner sends while it handles one message. */
  datatype Sent =
    | ReservedReply(request: Ref, reserved: Reply<Ref>)
    | IssuedReply(request: Ref, issued: Reply<(Ref, Ref)>)
    | RetainedReply(request: Ref, retained: Reply<Ref>)
    | DrainedReply(request: Ref, drained: Reply<()>)
    | RetryReply(from: Ref, retried: Reply<()>)
    | ExecuteRelease(executor: Ref, token: Ref, generation: Ref, backend: Term)
    | StopExecutor(executor: Ref)
    | ReleasedNotice(token: Ref)
    | FailedNotice(token: Ref, why: Reason)
    | DrainedNotice
    | CorruptionNotice(reservation: Ref)

  datatype Fate = Continue | StopNormal | StopCorrupt(reservation: Ref)

  datatype Out = Out(state: Owner, sent: set<Sent>, fate: Fate)

  const NO_COUNTS := Counters(0, 0, 0, 0, 0, 0, 0, 0, 0, 0, 0, 0, 0, 0)

  /** The record `init` builds, with `executor` the first release executor. */
  function InitialOwner(maxActive: Option<nat>, policy: RetryPolicy, executor: Ref): Owner {
    Owner(maxActive, policy, Open, map[], map[], map[], 0, {}, executor, [], None, map[], map[], map[],
          map[], NO_TOMBSTONES, NO_COUNTS)
  }

  function CapacityAvailable(s: Owner): bool {
    s.maxActive.None? || |s.leases| + |s.reservations| < s.maxActive.value
  }

  function IsDrained(s: Owner): bool {
    s.leases == map[] && s.reservations == map[] && s.job.None? && s.queue == []
  }

  function RetryAvailable(attempts: nat, policy: RetryPolicy): bool {
    policy.Exponential? && (policy.maxAttempts.None? || attempts < policy.maxAttempts.value)
  }

  function RetryDelay(attempts: nat, policy: RetryPolicy): nat
    requires policy.Exponential?
  {
    Min(policy.initialMs * Power2(Min(Max(attempts - 1, 0), 30)), policy.maxMs)
  }

  // ---- pieces the handlers are built from ------------------------------------------------

  function ClearPendingIssue(e: Entry, s: Owner): (Entry, Owner) {
    match e.pendingIssue
    case None => (e, s)
    case Some(p) =>
      (e.(pendingIssue := None),
       s.(pendingIssues := s.pendingIssues - {p.request}, monitors := s.monitors - {p.monitor}))
  }

  function ClearPendingRetain(holder: Ref, e: Entry, s: Owner): (Entry, Owner) {
    if holder in e.pendingRetains then
      (e.(pendingRetains := e.pendingRetains - {holder}),
       s.(monitors := s.monitors - {e.pendingRetains[holder].monitor}))
    else (e, s)
  }

  function RetainMonitors(e: Entry): set<Ref> {
    set h | h in e.pendingRetains :: e.pendingRetains[h].monitor
  }

  function CancelRetryTimer(token: Ref, s: Owner): Owner {
    s.(timers := s.timers - {token})
  }

  /** Every queued job names a live entry, so dispatching one never looks up a missing key. */
  ghost predicate JobsHaveEntries(s: Owner) {
    forall i :: 0 <= i < |s.queue| ==> s.queue[i].token in s.leases
  }

  /** The lookups that would raise in the running process all find what they look for. */
  ghost predicate Runnable(s: Owner) {
    && JobsHaveEntries(s)
    && (s.job.Some? ==> forall i :: 0 <= i < |s.queue| ==> s.queue[i].token != s.job.value.token)
    && TombstonesListed(s.tombstones)
  }

  function Dispatch(s: Owner): (r: (Owner, set<Sent>))
    requires JobsHaveEntries(s)
  {
    if s.job.None? && s.queue != [] then
      var job := s.queue[0];
      (s.(queue := s.queue[1..], job := Some(job),
          leases := s.leases[job.token := s.leases[job.token].(status := Releasing(job.generation))]),
       {ExecuteRelease(s.executor, job.token, job.generation, job.backend)})
    else (s, {})
  }

  /** `release_entry` up to its call of `dispatch_next_release`: the new job is last in the queue. */
  function Enqueue(token: Ref, e: Entry, s: Owner, retry: bool, waiter: Waiter, generation: Ref): Owner {
    var (e1, s1) := ClearPendingIssue(e, s);
    var e2 := e1.(pendingRetains := map[], attempts := e1.attempts + 1, status := ReleaseQueued(generation));
    var job := Job(token, generation, e.backend, e2.attempts, retry, waiter);
    s1.(monitors := s1.monitors - RetainMonitors(e1),
        timers := s1.timers - {token},
        leases := s1.leases[token := e2],
        queue := s1.queue + [job])
  }

  function ReleaseEntry(token: Ref, e: Entry, s: Owner, retry: bool, waiter: Waiter, generation: Ref): (Owner, set<Sent>)
    requires JobsHaveEntries(s)
  {
    Dispatch(Enqueue(token, e, s, retry, waiter, generation))
  }

  function DrainReplies(waiters: set<Ref>, result: Reply<()>): set<Sent> {
    set r | r in waiters :: DrainedReply(r, result)
  }

  function ReplyAllDrainWaiters(s: Owner, result: Reply<()>): (Owner, set<Sent>) {
    (s.(drainWaiters := map[],
        drainMonitors := s.drainMonitors - WaiterMonitors(s)),
     DrainReplies(s.drainWaiters.Keys, result))
  }

  function WaiterMonitors(s: Owner): set<Ref> {
    set r | r in s.drainWaiters :: s.drainWaiters[r].monitor
  }

  function RemoveDrainWaiter(request: Ref, s: Owner): Owner {
    if request in s.drainWaiters then
      s.(drainWaiters := s.drainWaiters - {request},
         drainMonitors := s.drainMonitors - {s.drainWaiters[request].monitor})
    else s
  }

  function CompleteDrain(s: Owner, sent: set<Sent>): Out {
    var (s1, replies) := ReplyAllDrainWaiters(s, Accepted(()));
    Out(s1, sent + {StopExecutor(s.executor), DrainedNotice} + replies, StopNormal)
  }

  function StopOrContinue(s: Owner, sent: set<Sent>): Out {
    if s.mode.Draining? && IsDrained(s) then CompleteDrain(s, sent) else Out(s, sent, Continue)
  }

  function RemoveIssueReservation(request: Ref, s: Owner): Owner {
    if request in s.reservations then
      s.(reservations := s.reservations - {request},
         monitors := s.monitors - {s.reservations[request].monitor})
    else s
  }

  function RemoveHolder(token: Ref, holder: Ref, e: Entry, s: Owner, supply: Ref): Out
    requires JobsHaveEntries(s)
  {
    if holder in e.holders then
      var e1 := e.(holders := e.holders - {holder});
      var s1 := s.(activeHolders := Max(s.activeHolders - 1, 0));
      if e1.holders == {} then
        var (s2, sent) := ReleaseEntry(token, e1, s1, false, NoWaiter, supply);
        StopOrContinue(s2, sent)
      else Out(s1.(leases := s1.leases[token := e1]), {}, Continue)
    else Out(s.(counters := s.counters.(duplicateReleases := s.counters.duplicateReleases + 1)), {}, Continue)
  }

  function CancelPendingIssue(token: Ref, s: Owner, supply: Ref): Out
    requires JobsHaveEntries(s)
  {
    if token in s.leases && s.leases[token].status.Active? && s.leases[token].pendingIssue.Some? then
      var (e1, s1) := ClearPendingIssue(s.leases[token], s);
      var s2 := s1.(activeHolders := Max(s1.activeHolders - |e1.holders|, 0));
      var (s3, sent) := ReleaseEntry(token, e1.(holders := {}), s2, false, NoWaiter, supply);
      StopOrContinue(s3, sent)
    else Out(s, {}, Continue)
  }

  /** The order queue lists every tombstone once, so the oldest can always be popped. */
  ghost predicate TombstonesListed(t: Tombstones) {
    Distinct(t.order) && t.kinds.Keys == Elements(t.order)
  }

  function PutTombstone(t: Tombstones, id: (Ref, Ref), kind: Tombstone): Tombstones
    requires TombstonesListed(t)
  {
    if id in t.kinds then t.(kinds := t.kinds[id := kind])
    else EvictTombstone(t.(kinds := t.kinds[id := kind], order := t.order + [id]))
  }

  function EvictTombstone(t: Tombstones): Tombstones
    requires t.order != [] && t.order[0] in t.kinds
  {
    if |t.kinds| <= RELEASE_TOMBSTONE_LIMIT then t
    else
      var id := t.order[0];
      Tombstones(t.kinds - {id}, t.order[1..], t.evictions + 1,
                 t.abandonedEvictions + if t.kinds[id].Abandoned? then 1 else 0)
  }

  function ScheduleRetry(token: Ref, attempts: nat, s: Owner, generation: Ref): Owner {
    if RetryAvailable(attempts, s.policy) then
      s.(timers := s.timers[token := Timer(generation, attempts + 1, RetryDelay(attempts, s.policy))])
    else s
  }

  // ---- handlers --------------------------------------------------------------------------

  /** `{:video_interop_reserve_issue, metadata, reply_to, request_ref}` */
  function ReserveIssue(s: Owner, metadata: Term, replyTo: Pid, request: Ref, supply: Ref): Out {
    if s.mode.Draining? then Out(s, {ReservedReply(request, Refused(IsDraining))}, Continue)
    else if !CapacityAvailable(s) then Out(s, {ReservedReply(request, Refused(Capacity))}, Continue)
    else
      Out(s.(reservations := s.reservations[request := Reservation(supply + 1, replyTo, supply, metadata)],
             monitors := s.monitors[supply := ForReservation(request)]),
          {ReservedReply(request, Accepted(supply + 1))}, Continue)
  }

  /** `{:video_interop_commit_issue, reservation, backend_token, reply_to, request_ref}` */
  function CommitIssue(s: Owner, reservation: Ref, backend: Term, replyTo: Pid, request: Ref,
                       guard: Guard, now: int, supply: Ref): Out
    requires Runnable(s)
  {
    if request in s.reservations
       && s.reservations[request].reservation == reservation
       && s.reservations[request].replyTo == replyTo
    then
      var r := s.reservations[request];
      var s1 := s.(reservations := s.reservations - {request},
                   monitors := s.monitors[r.monitor := ForIssuePending(request)]);
      AcceptCommit(backend, r.metadata, request, r.monitor, s1, guard, now, supply)
    else
      Out(s, {CorruptionNotice(reservation)}, StopCorrupt(reservation))
  }

  /** `commit_issue` and `reject_issue`: the token becomes an entry, whatever the guard factory says. */
  function AcceptCommit(backend: Term, metadata: Term, request: Ref, monitor: Ref, s: Owner,
                        guard: Guard, now: int, supply: Ref): Out
    requires Runnable(s)
  {
    var token := supply + 2;
    var holder := supply + 3;
    var c := s.counters;
    match guard
    case GuardBuilt =>
      var e := Entry(backend, {holder}, now, metadata, Some(holder), Some(Pending(monitor, request)), map[], 0, Active);
      Out(s.(leases := s.leases[token := e],
             pendingIssues := s.pendingIssues[request := token],
             monitors := s.monitors[monitor := ForIssue(token, request)],
             activeHolders := s.activeHolders + 1,
             ageIndex := s.ageIndex + {(now, token)},
             counters := c.(issuedLeases := c.issuedLeases + 1, issuedHolders := c.issuedHolders + 1)),
          {IssuedReply(request, Accepted((token, holder)))}, Continue)
    case GuardFailed(code) =>
      var e := Entry(backend, {}, now, metadata, None, None, map[], 0, Active);
      var s1 := s.(monitors := s.monitors - {monitor},
                   leases := s.leases[token := e],
                   ageIndex := s.ageIndex + {(now, token)});
      var (s2, sent) := ReleaseEntry(token, e, s1, false, IssueWaiter(request, code), supply + 4);
      Out(s2, sent, Continue)
  }

  /** `{:video_interop_cancel_issue_reservation, request_ref}` */
  function CancelReservation(s: Owner, request: Ref): Out {
    StopOrContinue(RemoveIssueReservation(request, s), {})
  }

  /** `{:video_interop_abandoned, token, holder}` */
  function AbandonedMessage(s: Owner, token: Ref, holder: Ref, supply: Ref): Out
    requires Runnable(s)
  {
    if token in s.leases && s.leases[token].status.Active? && holder in s.leases[token].holders then
      var (e, s1) := ClearPendingRetain(holder, s.leases[token], s);
      var s2 := s1.(counters := s1.counters.(abandonments := s1.counters.abandonments + 1),
                    tombstones := PutTombstone(s.tombstones, (token, holder), Abandoned));
      RemoveHolder(token, holder, e, s2, supply)
    else Out(s, {}, Continue)
  }

  /** `{:video_interop_release, token, holder}` */
  function ReleaseMessage(s: Owner, token: Ref, holder: Ref, supply: Ref): Out
    requires Runnable(s)
  {
    var id := (token, holder);
    var c := s.counters;
    if id in s.tombstones.kinds then
      match s.tombstones.kinds[id]
      case Abandoned =>
        Out(s.(tombstones := s.tombstones.(kinds := s.tombstones.kinds[id := Explicit]),
               counters := c.(lateReleases := c.lateReleases + 1)), {}, Continue)
      case Explicit =>
        Out(s.(counters := c.(duplicateReleases := c.duplicateReleases + 1)), {}, Continue)
    else if token in s.leases && s.leases[token].status.Active? && holder in s.leases[token].holders then
      var (e, s1) := ClearPendingRetain(holder, s.leases[token], s);
      var s2 := s1.(counters := c.(explicitReleases := c.explicitReleases + 1),
                    tombstones := PutTombstone(s.tombstones, id, Explicit));
      RemoveHolder(token, holder, e, s2, supply)
    else
      Out(s.(counters := c.(unclassifiedReleases := c.unclassifiedReleases + 1)), {}, Continue)
  }

  /** `{:video_interop_confirm_issue, token, request_ref}` */
  function ConfirmIssue(s: Owner, token: Ref, request: Ref): Out {
    if token in s.leases && s.leases[token].status.Active?
       && s.leases[token].pendingIssue.Some? && s.leases[token].pendingIssue.value.request == request
    then
      var (e, s1) := ClearPendingIssue(s.leases[token], s);
      Out(s1.(leases := s1.leases[token := e]), {}, Continue)
    else Out(s, {}, Continue)
  }

  /** `{:video_interop_cancel_issue, request_ref}` */
  function CancelIssue(s: Owner, request: Ref, supply: Ref): Out
    requires Runnable(s)
  {
    if request in s.pendingIssues then CancelPendingIssue(s.pendingIssues[request], s, supply)
    else Out(s, {}, Continue)
  }

  /** `{:video_interop_retain, token, parent_holder, child_holder, reply_to, request_ref}` */
  function Retain(s: Owner, token: Ref, parent: Ref, child: Ref, request: Ref, guard: Guard, supply: Ref): Out {
    var s0 := s.(counters := s.counters.(retainRequests := s.counters.retainRequests + 1));
    if s.mode.Draining? then Out(s0, {RetainedReply(request, Refused(IsDraining))}, Continue)
    else if token !in s.leases then Out(s0, {RetainedReply(request, Refused(UnknownLease))}, Continue)
    else if !s.leases[token].status.Active? then Out(s0, {RetainedReply(request, Refused(LeaseNotActive))}, Continue)
    else
      var e := s.leases[token];
      if parent !in e.holders then Out(s0, {RetainedReply(request, Refused(UnknownParentHolder))}, Continue)
      else if child in e.holders then Out(s0, {RetainedReply(request, Refused(DuplicateHolder))}, Continue)
      else
        match guard
        case GuardBuilt =>
          var e1 := e.(holders := e.holders + {child},
                       pendingRetains := e.pendingRetains[child := Pending(supply, request)]);
          Out(s0.(leases := s.leases[token := e1],
                  monitors := s.monitors[supply := ForRetain(token, child)],
                  activeHolders := s.activeHolders + 1,
                  counters := s0.counters.(issuedHolders := s0.counters.issuedHolders + 1)),
              {RetainedReply(request, Accepted(child))}, Continue)
        case GuardFailed(code) =>
          Out(s0, {RetainedReply(request, Refused(GuardFactoryFailed(code)))}, Continue)
  }

  /** `{:video_interop_confirm_retain, token, child_holder, request_ref}` */
  function ConfirmRetain(s: Owner, token: Ref, child: Ref, request: Ref): Out {
    if token in s.leases && s.leases[token].status.Active?
       && child in s.leases[token].pendingRetains && s.leases[token].pendingRetains[child].request == request
    then
      var (e, s1) := ClearPendingRetain(child, s.leases[token], s);
      Out(s1.(leases := s1.leases[token := e]), {}, Continue)
    else Out(s, {}, Continue)
  }

  /** `{:video_interop_cancel_retain, token, child_holder}` */
  function CancelRetain(s: Owner, token: Ref, child: Ref, supply: Ref): Out
    requires Runnable(s)
  {
    var s0 := s.(counters := s.counters.(retainCancellations := s.counters.retainCancellations + 1));
    if token in s.leases && s.leases[token].status.Active? && s.leases[token].root != Some(child) then
      var (e, s1) := ClearPendingRetain(child, s.leases[token], s0);
      RemoveHolder(token, child, e, s1, supply)
    else Out(s0, {}, Continue)
  }

  /** What `first_release_failure` may return: any failed entry, or nothing when there is none. */
  ghost predicate IsFirstFailure(s: Owner, pick: Option<Ref>) {
    match pick
    case None => forall t :: t in s.leases ==> !(s.leases[t].status.ReleaseFailed? && s.leases[t].holders == {})
    case Some(t) => t in s.leases && s.leases[t].status.ReleaseFailed? && s.leases[t].holders == {}
  }

  /** `{:video_interop_drain, reply_to, request_ref}` */
  function Drain(s: Owner, replyTo: Pid, request: Ref, pick: Option<Ref>, supply: Ref): Out
    requires IsFirstFailure(s, pick)
  {
    var s1 := s.(mode := Draining,
                 drainWaiters := s.drainWaiters[request := DrainWaiter(replyTo, supply)],
                 drainMonitors := s.drainMonitors[supply := request]);
    match pick
    case Some(t) =>
      Out(RemoveDrainWaiter(request, s1), {DrainedReply(request, Refused(s.leases[t].status.reason))}, Continue)
    case None =>
      if s.leases == map[] && s.reservations == map[] then CompleteDrain(s1, {})
      else Out(s1, {}, Continue)
  }

  /** `{:video_interop_cancel_drain, request_ref}` */
  function CancelDrain(s: Owner, request: Ref): Out {
    Out(RemoveDrainWaiter(request, s), {}, Continue)
  }

  function JobReply(waiter: Waiter, result: CallbackResult, token: Ref): set<Sent> {
    match waiter
    case NoWaiter => {}
    case RetryWaiter(from) =>
      {RetryReply(from, if result.CallbackOk? then Accepted(()) else Refused(result.reason))}
    case IssueWaiter(request, code) =>
      {IssuedReply(request, Refused(if result.CallbackOk? then GuardFactoryFailed(code) else RejectedAndStuck(code, token)))}
  }

  /** Whether `result_of(token, generation)` is the answer the owner is waiting for. */
  ghost predicate AnswersJob(s: Owner, token: Ref, generation: Ref) {
    s.job.Some? && s.job.value.token == token && s.job.value.generation == generation
    && token in s.leases && s.leases[token].status == Releasing(generation)
  }

  /** `finish_release_job` */
  function FinishJob(s: Owner, token: Ref, generation: Ref, result: CallbackResult, supply: Ref): Out
    requires Runnable(s)
  {
    var c := s.counters;
    if s.job.Some? && s.job.value.token == token && s.job.value.generation == generation
       && token in s.leases && s.leases[token].status == Releasing(generation)
    then
      var job := s.job.value;
      var e := s.leases[token];
      var c1 := c.(callbacks := c.callbacks + 1, retries := c.retries + if job.retry then 1 else 0);
      match result
      case CallbackOk =>
        var s1 := s.(job := None, counters := c1,
                     leases := s.leases - {token},
                     ageIndex := s.ageIndex - {(e.issuedAt, token)});
        var (s2, sent) := Dispatch(s1);
        StopOrContinue(s2, {ReleasedNotice(token)} + JobReply(job.waiter, result, token) + sent)
      case CallbackError(reason) =>
        var s1 := s.(job := None, counters := c1.(failures := c.failures + 1),
                     leases := s.leases[token := e.(status := ReleaseFailed(reason))]);
        var (s2, replies) := ReplyAllDrainWaiters(s1, Refused(reason));
        var s3 := ScheduleRetry(token, e.attempts, s2, supply + 5);
        var (s4, sent) := Dispatch(s3);
        StopOrContinue(s4, {FailedNotice(token, reason)} + JobReply(job.waiter, result, token) + replies + sent)
    else Out(s.(counters := c.(malformed := c.malformed + 1)), {}, Continue)
  }

  /** `{:video_interop_release_result, executor, token, generation, result, duration}` */
  function ReleaseResult(s: Owner, executor: Ref, token: Ref, generation: Ref, result: CallbackResult, supply: Ref): Out
    requires Runnable(s)
  {
    if executor == s.executor then FinishJob(s, token, generation, result, supply) else Out(s, {}, Continue)
  }

  /** `handle_release_executor_down` */
  function ExecutorDown(s: Owner, code: Term, supply: Ref): Out
    requires Runnable(s)
  {
    var s1 := s.(counters := s.counters.(executorRestarts := s.counters.executorRestarts + 1), executor := supply + 6);
    match s.job
    case None => var (s2, sent) := Dispatch(s1); Out(s2, sent, Continue)
    case Some(job) => FinishJob(s1, job.token, job.generation, CallbackError(ExecutorDied(code)), supply)
  }

  /** `{:video_interop_retry_release, token, generation}` */
  function RetryTimerFired(s: Owner, token: Ref, generation: Ref, supply: Ref): Out
    requires Runnable(s)
  {
    if token in s.timers && s.timers[token].generation == generation then
      var s1 := CancelRetryTimer(token, s);
      if token in s.leases && s.leases[token].status.ReleaseFailed? then
        var (s2, sent) := ReleaseEntry(token, s.leases[token], s1, true, NoWaiter, supply);
        Out(s2, sent, Continue)
      else Out(s1, {}, Continue)
    else Out(s, {}, Continue)
  }

  /** `handle_call({:retry, token})` */
  function RetryCall(s: Owner, token: Ref, from: Ref, supply: Ref): Out
    requires Runnable(s)
  {
    var s1 := CancelRetryTimer(token, s);
    if token !in s.leases then Out(s1, {RetryReply(from, Refused(UnknownLease))}, Continue)
    else
      match s.leases[token].status
      case ReleaseFailed(_) =>
        var (s2, sent) := ReleaseEntry(token, s.leases[token], s1, true, RetryWaiter(from), supply);
        Out(s2, sent, Continue)
      case ReleaseQueued(_) => Out(s1, {RetryReply(from, Refused(ReleaseInProgress))}, Continue)
      case Releasing(_) => Out(s1, {RetryReply(from, Refused(ReleaseInProgress))}, Continue)
      case Active => Out(s1, {RetryReply(from, Refused(NotReleaseFailed))}, Continue)
  }

  /** `handle_call(:close)` and `begin_producer_drain` */
  function BeginDrain(s: Owner): Out {
    var s1 := s.(mode := Draining);
    if IsDrained(s1) then CompleteDrain(s1, {}) else Out(s1, {}, Continue)
  }

  /** `handle_protocol_down`, and the drain branch of the same clause. */
  function MonitorDown(s: Owner, monitor: Ref, supply: Ref): Out
    requires Runnable(s)
  {
    if monitor in s.monitors then
      var s1 := s.(monitors := s.monitors - {monitor});
      match s.monitors[monitor]
      case ForReservation(request) => StopOrContinue(RemoveIssueReservation(request, s1), {})
      case ForIssuePending(request) => StopOrContinue(RemoveIssueReservation(request, s1), {})
      case ForRetain(token, child) =>
        if token in s.leases && s.leases[token].status.Active? then
          var e := s.leases[token];
          RemoveHolder(token, child, e.(pendingRetains := e.pendingRetains - {child}), s1, supply)
        else Out(s1, {}, Continue)
      case ForIssue(token, _) => CancelPendingIssue(token, s1, supply)
    else if monitor in s.drainMonitors then
      Out(RemoveDrainWaiter(s.drainMonitors[monitor], s), {}, Continue)
    else Out(s, {}, Continue)
  }
}
