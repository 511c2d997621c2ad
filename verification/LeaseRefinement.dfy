/**
 The owner refines a protocol that knows only reservations and who holds what.

 `View` forgets queues, generations, monitors, timers, tombstones and counters. `Expected` is
 the protocol a reader would write on that view: a release removes its holder, the last holder
 clears the claim, a success removes it. `HandleRefines` shows the ten coupled tables never
 make the owner do anything else.
 */
module LeaseRefinement {
  import opened Common
  import opened LeaseModel
  import opened LeaseInvariant
  import opened LeaseHandlers

  datatype Claim = Claim(holders: set<Ref>, root: Option<Ref>, pendingIssue: Option<Pending>, pendingRetains: map<Ref, Pending>)

  datatype View = View(claims: map<Ref, Claim>, reservations: map<Ref, Reservation>, closed: bool, successes: int)

  function ClaimOf(e: Entry): Claim { Claim(e.holders, e.root, e.pendingIssue, e.pendingRetains) }

  function Claims(leases: map<Ref, Entry>): map<Ref, Claim> { map t | t in leases :: ClaimOf(leases[t]) }

  function ViewOf(s: Owner): View {
    View(Claims(s.leases), s.reservations, s.mode.Draining?, s.counters.callbacks - s.counters.failures)
  }

  // ---- the protocol ------------------------------------------------------------------------

  function Cleared(c: Claim): Claim { Claim({}, c.root, None, map[]) }

  /** `holder` leaves the claim on `token`; nothing stays pending once nobody holds it. */
  function Leave(v: View, token: Ref, holder: Ref): View {
    if token in v.claims && holder in v.claims[token].holders then
      var c := v.claims[token];
      if c.holders == {holder} then v.(claims := v.claims[token := Cleared(c)])
      else v.(claims := v.claims[token := c.(holders := c.holders - {holder}, pendingRetains := c.pendingRetains - {holder})])
    else v
  }

  function LeaveAll(v: View, token: Ref): View {
    if token in v.claims && v.claims[token].pendingIssue.Some? then v.(claims := v.claims[token := Cleared(v.claims[token])])
    else v
  }

  function ExpectedReserve(s: Owner, metadata: Term, replyTo: Pid, request: Ref, supply: Ref): View {
    var v := ViewOf(s);
    if v.closed || !CapacityAvailable(s) then v
    else v.(reservations := v.reservations[request := Reservation(supply + 1, replyTo, supply, metadata)])
  }

  function ExpectedCommit(v: View, request: Ref, guard: Guard, supply: Ref): View {
    if request in v.reservations then
      var c := if guard.GuardBuilt? then Claim({supply + 3}, Some(supply + 3), Some(Pending(v.reservations[request].monitor, request)), map[])
               else Claim({}, None, None, map[]);
      v.(reservations := v.reservations - {request}, claims := v.claims[supply + 2 := c])
    else v
  }

  function ExpectedRetain(v: View, token: Ref, parent: Ref, child: Ref, request: Ref, guard: Guard, supply: Ref): View {
    if !v.closed && token in v.claims && parent in v.claims[token].holders && child !in v.claims[token].holders && guard.GuardBuilt? then
      var c := v.claims[token];
      v.(claims := v.claims[token := c.(holders := c.holders + {child}, pendingRetains := c.pendingRetains[child := Pending(supply, request)])])
    else v
  }

  function ExpectedConfirmIssue(v: View, token: Ref, request: Ref): View {
    if token in v.claims && v.claims[token].pendingIssue.Some? && v.claims[token].pendingIssue.value.request == request
    then v.(claims := v.claims[token := v.claims[token].(pendingIssue := None)])
    else v
  }

  function ExpectedConfirmRetain(v: View, token: Ref, child: Ref, request: Ref): View {
    if token in v.claims && child in v.claims[token].pendingRetains && v.claims[token].pendingRetains[child].request == request
    then v.(claims := v.claims[token := v.claims[token].(pendingRetains := v.claims[token].pendingRetains - {child})])
    else v
  }

  ghost function ExpectedDown(s: Owner, m: Ref): View {
    var v := ViewOf(s);
    if m !in s.monitors then v
    else
      match s.monitors[m]
      case ForReservation(request) => v.(reservations := v.reservations - {request})
      case ForIssuePending(_) => v
      case ForRetain(token, child) => Leave(v, token, child)
      case ForIssue(token, _) => LeaveAll(v, token)
  }

  ghost function Expected(s: Owner, m: Message, supply: Ref): View {
    var v := ViewOf(s);
    match m
    case ReserveMsg(metadata, replyTo, request) => ExpectedReserve(s, metadata, replyTo, request, supply)
    case CommitMsg(_, _, _, request, guard, _) => ExpectedCommit(v, request, guard, supply)
    case CancelReservationMsg(request) => v.(reservations := v.reservations - {request})
    case AbandonedMsg(token, holder) => Leave(v, token, holder)
    case ReleaseMsg(token, holder) => Leave(v, token, holder)
    case ConfirmIssueMsg(token, request) => ExpectedConfirmIssue(v, token, request)
    case CancelIssueMsg(request) => if request in s.pendingIssues then LeaveAll(v, s.pendingIssues[request]) else v
    case RetainMsg(token, parent, child, request, guard) => ExpectedRetain(v, token, parent, child, request, guard, supply)
    case ConfirmRetainMsg(token, child, request) => ExpectedConfirmRetain(v, token, child, request)
    case CancelRetainMsg(token, child) =>
      if token in v.claims && v.claims[token].root != Some(child) then Leave(v, token, child) else v
    case DrainMsg(_, _, _) => v.(closed := true)
    case CancelDrainMsg(_) => v
    case ResultMsg(executor, token, generation, result) =>
      if executor == s.executor && AnswersJob(s, token, generation) && result.CallbackOk?
      then v.(claims := v.claims - {token}, successes := v.successes + 1) else v
    case ExecutorDownMsg(_) => v
    case RetryTimerMsg(_, _) => v
    case RetryCallMsg(_, _) => v
    case BeginDrainMsg => v.(closed := true)
    case MonitorDownMsg(monitor) => ExpectedDown(s, monitor)
    case MalformedMsg => v
  }

  // ---- the pieces refine it ----------------------------------------------------------------

  lemma DispatchView(s: Owner)
    requires JobsHaveEntries(s)
    ensures ViewOf(Dispatch(s).0) == ViewOf(s)
  {
    assert Claims(Dispatch(s).0.leases) == Claims(s.leases);
  }

  lemma StopView(s: Owner, sent: set<Sent>)
    ensures ViewOf(StopOrContinue(s, sent).state) == ViewOf(s)
  {
  }

  lemma ClaimsPut(leases: map<Ref, Entry>, t: Ref, e: Entry)
    ensures Claims(leases[t := e]) == Claims(leases)[t := ClaimOf(e)]
  {
  }

  lemma EnqueueLeases(token: Ref, e: Entry, s: Owner, retry: bool, waiter: Waiter, generation: Ref)
    ensures var q := Enqueue(token, e, s, retry, waiter, generation);
            && q.leases == s.leases[token := e.(pendingIssue := None, pendingRetains := map[],
                                                attempts := e.attempts + 1, status := ReleaseQueued(generation))]
            && q.reservations == s.reservations && q.mode == s.mode && q.counters == s.counters
  {
  }

  lemma ReleaseEntryView(token: Ref, e: Entry, s: Owner, retry: bool, waiter: Waiter, generation: Ref)
    requires JobsHaveEntries(s)
    ensures var r := ReleaseEntry(token, e, s, retry, waiter, generation).0;
            ViewOf(r) == ViewOf(s).(claims := ViewOf(s).claims[token := Claim(e.holders, e.root, None, map[])])
  {
    var q := Enqueue(token, e, s, retry, waiter, generation);
    EnqueueLeases(token, e, s, retry, waiter, generation);
    ClaimsPut(s.leases, token, q.leases[token]);
    DispatchView(q);
    hide Enqueue, Dispatch, Claims;
  }

  lemma WithoutHolderView(token: Ref, holder: Ref, e: Entry, s: Owner)
    ensures var d := WithoutHolder(token, holder, e, s);
            && token in d.leases && d.leases[token] == e.(holders := e.holders - {holder})
            && ViewOf(d) == ViewOf(s).(claims := ViewOf(s).claims[token := ClaimOf(e).(holders := e.holders - {holder})])
  {
    ClaimsPut(s.leases, token, e.(holders := e.holders - {holder}));
  }

  lemma RemoveHolderView(token: Ref, holder: Ref, e: Entry, s: Owner, supply: Ref)
    requires JobsHaveEntries(s) && holder in e.holders
    ensures var v := ViewOf(s);
            var c := if e.holders == {holder} then Claim({}, e.root, None, map[]) else ClaimOf(e).(holders := e.holders - {holder});
            ViewOf(RemoveHolder(token, holder, e, s, supply).state) == v.(claims := v.claims[token := c])
  {
    LastHolder(e, holder);
    RemoveHolderShape(token, holder, e, s, supply);
    WithoutHolderView(token, holder, e, s);
    var d := WithoutHolder(token, holder, e, s);
    hide RemoveHolder, WithoutHolder, ReleaseEntry, StopOrContinue, Claims, JobsHaveEntries;
    if e.holders == {holder} {
      ReleaseEntryView(token, d.leases[token], d, false, NoWaiter, supply);
      var (r, sent) := ReleaseEntry(token, d.leases[token], d, false, NoWaiter, supply);
      StopView(r, sent);
      PutTwice(ViewOf(s).claims, token, ClaimOf(e).(holders := e.holders - {holder}), Claim({}, e.root, None, map[]));
    }
  }

  lemma PutTwice(m: map<Ref, Claim>, t: Ref, a: Claim, b: Claim)
    ensures m[t := a][t := b] == m[t := b]
  {
  }

  // ---- every handler refines it ------------------------------------------------------------

  lemma ClearRetainView(holder: Ref, e: Entry, s: Owner)
    ensures var (e1, s1) := ClearPendingRetain(holder, e, s);
            && s1 == s.(monitors := s1.monitors)
            && e1 == e.(pendingRetains := e.pendingRetains - {holder})
  {
  }

  lemma LeaveShape(s: Owner, token: Ref, holder: Ref)
    requires Held(s, token, holder)
    ensures var e := s.leases[token].(pendingRetains := s.leases[token].pendingRetains - {holder});
            var v := ViewOf(s);
            var c := if e.holders == {holder} then Claim({}, e.root, None, map[]) else ClaimOf(e).(holders := e.holders - {holder});
            Leave(v, token, holder) == v.(claims := v.claims[token := c])
  {
  }

  lemma NamedFacts(s: Owner, t: Ref, h: Ref, kind: Tombstone)
    requires Inv(s) && Held(s, t, h)
    ensures Runnable(s) && TombstonesListed(s.tombstones) && ViewOf(Named(s, t, h, kind)) == ViewOf(s)
  {
    InvIsRunnable(s);
    ClearRetainView(h, s.leases[t], s);
    hide InvBut, PutTombstone, JobsHaveEntries, TombstonesListed;
  }

  lemma NamedView(s: Owner, t: Ref, h: Ref, kind: Tombstone, supply: Ref)
    requires Inv(s) && Held(s, t, h)
    ensures Runnable(s) && JobsHaveEntries(Named(s, t, h, kind))
    ensures ViewOf(RemoveHolder(t, h, ClearPendingRetain(h, s.leases[t], s).0, Named(s, t, h, kind), supply).state)
            == Leave(ViewOf(s), t, h)
  {
    hide InvBut, Runnable, PutTombstone, RemoveHolder, Leave, Claims, ClearPendingRetain, TombstonesListed, JobsHaveEntries, Named, ViewOf;
    NamedFacts(s, t, h, kind);
    var n := Named(s, t, h, kind);
    ClearRetainView(h, s.leases[t], s);
    LeaveShape(s, t, h);
    NamedHolderLeaves(s, t, h, kind);
    RemoveHolderView(t, h, s.leases[t].(pendingRetains := s.leases[t].pendingRetains - {h}), n, supply);
  }

  lemma NamedRefines(s: Owner, t: Ref, h: Ref, supply: Ref)
    requires Running(s) && Held(s, t, h)
    ensures Runnable(s)
    ensures ViewOf(AbandonedMessage(s, t, h, supply).state) == Leave(ViewOf(s), t, h)
    ensures (t, h) !in s.tombstones.kinds
    ensures ViewOf(ReleaseMessage(s, t, h, supply).state) == Leave(ViewOf(s), t, h)
  {
    InvIsRunnable(s);
    assert (t, h) !in s.tombstones.kinds;
    NamedMessage(s, t, h, supply);
    hide *;
    RunningIsInv(s);
    NamedView(s, t, h, Abandoned, supply);
    NamedView(s, t, h, Explicit, supply);
  }

  lemma NotHeldView(s: Owner, t: Ref, h: Ref)
    requires Inv(s) && !Held(s, t, h)
    ensures Leave(ViewOf(s), t, h) == ViewOf(s)
  {
    if t in s.leases { assert EntryShape(s.leases[t]); }
  }

  lemma NotHeldAbandoned(s: Owner, t: Ref, h: Ref, supply: Ref)
    requires Runnable(s) && !Held(s, t, h)
    ensures AbandonedMessage(s, t, h, supply).state == s
  {
    hide Runnable;
  }

  lemma NotHeldReleased(s: Owner, t: Ref, h: Ref, supply: Ref)
    requires Runnable(s) && ((t, h) in s.tombstones.kinds || !Held(s, t, h))
    ensures var r := ReleaseMessage(s, t, h, supply).state;
            r == s.(tombstones := r.tombstones, counters := r.counters)
            && r.counters.callbacks == s.counters.callbacks && r.counters.failures == s.counters.failures
  {
    hide Runnable, RemoveHolder, PutTombstone, ClearPendingRetain;
    if (t, h) !in s.tombstones.kinds { assert !(t in s.leases && s.leases[t].status.Active? && h in s.leases[t].holders); }
  }

  /** A live release is never swallowed: a held holder has no tombstone, so naming it always removes it. */
  lemma NamedMessagesRefine(s: Owner, t: Ref, h: Ref, supply: Ref)
    requires Running(s)
    ensures Runnable(s)
    ensures ViewOf(AbandonedMessage(s, t, h, supply).state) == Leave(ViewOf(s), t, h)
    ensures ViewOf(ReleaseMessage(s, t, h, supply).state) == Leave(ViewOf(s), t, h)
  {
    hide *;
    RunningIsInv(s);
    RunningIsRunnable(s);
    if Held(s, t, h) {
      NamedRefines(s, t, h, supply);
    } else {
      NotHeldView(s, t, h);
      NotHeldAbandoned(s, t, h, supply);
      NotHeldReleased(s, t, h, supply);
      SameLeasesView(s, ReleaseMessage(s, t, h, supply).state);
    }
  }

  lemma SameLeasesView(s: Owner, r: Owner)
    requires r == s.(tombstones := r.tombstones, counters := r.counters)
    requires r.counters.callbacks == s.counters.callbacks && r.counters.failures == s.counters.failures
    ensures ViewOf(r) == ViewOf(s)
  {
  }

  lemma HeldCancelRefines(s: Owner, t: Ref, child: Ref, supply: Ref)
    requires Runnable(s) && Held(s, t, child) && s.leases[t].root != Some(child)
    ensures ViewOf(CancelRetain(s, t, child, supply).state) == Expected(s, CancelRetainMsg(t, child), supply)
  {
    CancelRetainShape(s, t, child, supply);
    ClearRetainView(child, s.leases[t], s);
    LeaveShape(s, t, child);
    var (e, s1) := ClearPendingRetain(child, s.leases[t], s);
    var s2 := s1.(counters := s.counters.(retainCancellations := s.counters.retainCancellations + 1));
    assert ViewOf(s2) == ViewOf(s) && t in ViewOf(s).claims && ViewOf(s).claims[t].root == s.leases[t].root;
    hide RemoveHolder, CancelRetain, Leave, ClearPendingRetain, Claims, Runnable;
    RemoveHolderView(t, child, e, s2, supply);
  }

  lemma NotHeldCancelShape(s: Owner, t: Ref, child: Ref, supply: Ref)
    requires Runnable(s)
    requires t in s.leases && s.leases[t].status.Active? && s.leases[t].root != Some(child) ==>
               child !in s.leases[t].holders && child !in s.leases[t].pendingRetains
    ensures var r := CancelRetain(s, t, child, supply).state;
            r == s.(tombstones := r.tombstones, counters := r.counters)
            && r.counters.callbacks == s.counters.callbacks && r.counters.failures == s.counters.failures
  {
    hide Runnable, ReleaseEntry, StopOrContinue;
  }

  lemma NotHeldCancelRefines(s: Owner, t: Ref, child: Ref, supply: Ref)
    requires EntriesInv(s, None) && Runnable(s) && !(Held(s, t, child) && s.leases[t].root != Some(child))
    ensures ViewOf(CancelRetain(s, t, child, supply).state) == Expected(s, CancelRetainMsg(t, child), supply)
  {
    if t in s.leases { assert EntryShape(s.leases[t]); }
    NotHeldCancelShape(s, t, child, supply);
    hide EntriesInv, Runnable, CancelRetain;
    SameLeasesView(s, CancelRetain(s, t, child, supply).state);
  }

  lemma CancelRetainRefines(s: Owner, t: Ref, child: Ref, supply: Ref)
    requires Running(s)
    ensures Runnable(s)
    ensures ViewOf(CancelRetain(s, t, child, supply).state) == Expected(s, CancelRetainMsg(t, child), supply)
  {
    InvIsRunnable(s);
    assert EntriesInv(s, None);
    hide *;
    if Held(s, t, child) && s.leases[t].root != Some(child) {
      HeldIsLease(s, t, child);
      HeldCancelRefines(s, t, child, supply);
    } else {
      NotHeldCancelRefines(s, t, child, supply);
    }
  }

  lemma CancelPendingView(s: Owner, t: Ref, supply: Ref)
    requires Inv(s)
    ensures Runnable(s)
    ensures ViewOf(CancelPendingIssue(t, s, supply).state) == LeaveAll(ViewOf(s), t)
  {
    InvIsRunnable(s);
    if t in s.leases && s.leases[t].status.Active? && s.leases[t].pendingIssue.Some? {
      CancelledShape(s, t, supply);
      CancelledView(s, t);
      var d := Cancelled(s, t);
      hide InvBut, ReleaseEntry, Cancelled, CancelPendingIssue, StopOrContinue;
      ReleaseEntryView(t, d.leases[t], d, false, NoWaiter, supply);
      var (r, sent) := ReleaseEntry(t, d.leases[t], d, false, NoWaiter, supply);
      StopView(r, sent);
    } else {
      if t in s.leases { assert EntryShape(s.leases[t]); }
    }
  }

  lemma CancelledView(s: Owner, t: Ref)
    requires t in s.leases && s.leases[t].pendingIssue.Some?
    ensures var d := Cancelled(s, t);
            && t in d.leases && d.leases[t].holders == {} && d.leases[t].root == s.leases[t].root
            && ViewOf(d).(claims := ViewOf(d).claims[t := Claim({}, d.leases[t].root, None, map[])]) == LeaveAll(ViewOf(s), t)
  {
    var d := Cancelled(s, t);
    assert d.leases == s.leases[t := d.leases[t]];
    ClaimsPut(s.leases, t, d.leases[t]);
  }

  lemma CancelIssueRefines(s: Owner, request: Ref, supply: Ref)
    requires Running(s)
    ensures Runnable(s)
    ensures ViewOf(CancelIssue(s, request, supply).state) == Expected(s, CancelIssueMsg(request), supply)
  {
    InvIsRunnable(s);
    if request in s.pendingIssues { CancelPendingView(s, s.pendingIssues[request], supply); }
    hide InvBut, CancelPendingIssue, LeaveAll;
  }

  lemma ReserveRefines(s: Owner, metadata: Term, replyTo: Pid, request: Ref, supply: Ref)
    ensures ViewOf(ReserveIssue(s, metadata, replyTo, request, supply).state) == ExpectedReserve(s, metadata, replyTo, request, supply)
  {
  }

  lemma CommitRefines(s: Owner, reservation: Ref, backend: Term, replyTo: Pid, request: Ref, guard: Guard, now: int, supply: Ref)
    requires Runnable(s) && CommitMatches(s, reservation, replyTo, request)
    ensures ViewOf(CommitIssue(s, reservation, backend, replyTo, request, guard, now, supply).state)
            == ExpectedCommit(ViewOf(s), request, guard, supply)
  {
    var t := supply + 2;
    match guard {
      case GuardBuilt =>
        CommitBuiltShape(s, reservation, backend, replyTo, request, now, supply);
        var r := CommitIssue(s, reservation, backend, replyTo, request, GuardBuilt, now, supply).state;
        ClaimsPut(s.leases, t, r.leases[t]);
        CommitBuiltEntry(s, reservation, backend, replyTo, request, now, supply);
      case GuardFailed(code) =>
        RejectedIsRelease(s, reservation, backend, replyTo, request, code, now, supply);
        var q := Rejected(s, backend, request, now, t);
        ClaimsPut(s.leases, t, q.leases[t]);
        ReleaseEntryView(t, q.leases[t], q, false, IssueWaiter(request, code), supply + 4);
        assert q.leases[t].root == None && q.leases[t].holders == {};
        assert ViewOf(q).(claims := ViewOf(q).claims[t := Claim({}, None, None, map[])]) == ExpectedCommit(ViewOf(s), request, guard, supply);
    }
    hide CommitIssue, Admits, Claims, ReleaseEntry;
  }

  lemma CommitBuiltEntry(s: Owner, reservation: Ref, backend: Term, replyTo: Pid, request: Ref, now: int, supply: Ref)
    requires Runnable(s) && CommitMatches(s, reservation, replyTo, request)
    ensures var r := CommitIssue(s, reservation, backend, replyTo, request, GuardBuilt, now, supply).state;
            && supply + 2 in r.leases && r.leases == s.leases[supply + 2 := r.leases[supply + 2]]
            && ClaimOf(r.leases[supply + 2])
               == Claim({supply + 3}, Some(supply + 3), Some(Pending(s.reservations[request].monitor, request)), map[])
            && r.reservations == s.reservations - {request} && r.mode == s.mode
            && r.counters.callbacks == s.counters.callbacks && r.counters.failures == s.counters.failures
  {
    hide JobsHaveEntries, TombstonesListed;
  }

  /** The entry a granted retain leaves. */
  function Retained(e: Entry, child: Ref, p: Pending): Entry {
    e.(holders := e.holders + {child}, pendingRetains := e.pendingRetains[child := p])
  }

  predicate RetainGranted(s: Owner, t: Ref, parent: Ref, child: Ref, guard: Guard) {
    && !s.mode.Draining? && t in s.leases && s.leases[t].status.Active?
    && parent in s.leases[t].holders && child !in s.leases[t].holders && guard.GuardBuilt?
  }

  lemma RetainShape(s: Owner, t: Ref, parent: Ref, child: Ref, request: Ref, guard: Guard, supply: Ref)
    ensures var r := Retain(s, t, parent, child, request, guard, supply).state;
            && r.reservations == s.reservations && r.mode == s.mode
            && r.counters.callbacks == s.counters.callbacks && r.counters.failures == s.counters.failures
            && r.leases == if RetainGranted(s, t, parent, child, guard)
                           then s.leases[t := Retained(s.leases[t], child, Pending(supply, request))] else s.leases
  {
  }

  lemma GrantedInView(s: Owner, t: Ref, parent: Ref, child: Ref, guard: Guard)
    requires EntriesInv(s, None)
    ensures var v := ViewOf(s);
            RetainGranted(s, t, parent, child, guard)
            <==> (!v.closed && t in v.claims && parent in v.claims[t].holders && child !in v.claims[t].holders && guard.GuardBuilt?)
    ensures t in s.leases ==> t in ViewOf(s).claims && ViewOf(s).claims[t] == ClaimOf(s.leases[t])
  {
    if t in s.leases { assert EntryShape(s.leases[t]); }
    hide EntriesInv;
  }

  lemma RetainRefines(s: Owner, t: Ref, parent: Ref, child: Ref, request: Ref, guard: Guard, supply: Ref)
    requires EntriesInv(s, None)
    ensures ViewOf(Retain(s, t, parent, child, request, guard, supply).state)
            == ExpectedRetain(ViewOf(s), t, parent, child, request, guard, supply)
  {
    RetainShape(s, t, parent, child, request, guard, supply);
    GrantedInView(s, t, parent, child, guard);
    if RetainGranted(s, t, parent, child, guard) {
      ClaimsPut(s.leases, t, Retained(s.leases[t], child, Pending(supply, request)));
    }
    hide EntriesInv, Retain, Claims, RetainGranted;
  }

  lemma ConfirmIssueRefines(s: Owner, t: Ref, request: Ref)
    requires EntriesInv(s, None)
    ensures ViewOf(ConfirmIssue(s, t, request).state) == ExpectedConfirmIssue(ViewOf(s), t, request)
  {
    if t in s.leases {
      assert EntryShape(s.leases[t]);
      ClaimsPut(s.leases, t, s.leases[t].(pendingIssue := None));
    }
    hide EntriesInv;
  }

  lemma ConfirmRetainRefines(s: Owner, t: Ref, child: Ref, request: Ref)
    requires EntriesInv(s, None)
    ensures ViewOf(ConfirmRetain(s, t, child, request).state) == ExpectedConfirmRetain(ViewOf(s), t, child, request)
  {
    if t in s.leases {
      assert EntryShape(s.leases[t]);
      ClaimsPut(s.leases, t, s.leases[t].(pendingRetains := s.leases[t].pendingRetains - {child}));
    }
    hide EntriesInv;
  }

  lemma RunningEntries(s: Owner)
    requires Running(s)
    ensures EntriesInv(s, None)
  {
  }

  // ---- results, retries, drains, monitors --------------------------------------------------

  lemma FinishRefines(s: Owner, t: Ref, generation: Ref, result: CallbackResult, supply: Ref)
    requires Running(s)
    ensures Runnable(s)
    ensures ViewOf(FinishJob(s, t, generation, result, supply).state)
            == if AnswersJob(s, t, generation) && result.CallbackOk?
               then ViewOf(s).(claims := ViewOf(s).claims - {t}, successes := ViewOf(s).successes + 1) else ViewOf(s)
  {
    InvIsRunnable(s);
    if AnswersJob(s, t, generation) {
      assert WaitersInv(s);
      hide InvBut;
      match result
      case CallbackOk => FinishOkView(s, t, generation, supply);
      case CallbackError(reason) => FinishErrorView(s, t, generation, reason, supply);
    }
  }

  lemma RetiresView(s: Owner, r: Owner, t: Ref, generation: Ref)
    requires Retires(s, r, t, generation) && JobsHaveEntries(r)
    requires r.counters.callbacks == s.counters.callbacks + 1 && r.counters.failures == s.counters.failures
    ensures ViewOf(Dispatch(r).0) == ViewOf(s).(claims := ViewOf(s).claims - {t}, successes := ViewOf(s).successes + 1)
  {
    assert Claims(r.leases) == Claims(s.leases) - {t};
    hide Dispatch;
    DispatchView(r);
  }

  lemma FinishOkView(s: Owner, t: Ref, generation: Ref, supply: Ref)
    requires Runnable(s) && AnswersJob(s, t, generation)
    ensures ViewOf(FinishJob(s, t, generation, CallbackOk, supply).state)
            == ViewOf(s).(claims := ViewOf(s).claims - {t}, successes := ViewOf(s).successes + 1)
  {
    FinishOkShape(s, t, generation, supply);
    var r := Succeeded(s, t);
    assert r.counters.callbacks == s.counters.callbacks + 1 && r.counters.failures == s.counters.failures;
    hide *;
    RetiresView(s, r, t, generation);
    StopView(Dispatch(r).0, {ReleasedNotice(t)} + JobReply(s.job.value.waiter, CallbackOk, t) + Dispatch(r).1);
  }

  lemma FailsView(s: Owner, r: Owner, t: Ref, generation: Ref, reason: Reason, timer: Ref)
    requires Fails(s, r, t, generation, reason, timer) && JobsHaveEntries(r)
    requires r.counters.callbacks == s.counters.callbacks + 1 && r.counters.failures == s.counters.failures + 1
    ensures ViewOf(Dispatch(r).0) == ViewOf(s)
  {
    assert Claims(r.leases) == Claims(s.leases);
    hide Dispatch;
    DispatchView(r);
  }

  lemma FinishErrorView(s: Owner, t: Ref, generation: Ref, reason: Reason, supply: Ref)
    requires Runnable(s) && AnswersJob(s, t, generation) && WaitersInv(s)
    ensures ViewOf(FinishJob(s, t, generation, CallbackError(reason), supply).state) == ViewOf(s)
  {
    FinishErrorShape(s, t, generation, reason, supply);
    var r := Failed(s, t, reason, supply + 5);
    assert r.counters.callbacks == s.counters.callbacks + 1 && r.counters.failures == s.counters.failures + 1;
    hide *;
    FailsView(s, r, t, generation, reason, supply + 5);
    StopView(Dispatch(r).0, {FailedNotice(t, reason)} + JobReply(s.job.value.waiter, CallbackError(reason), t)
                            + DrainReplies(s.drainWaiters.Keys, Refused(reason)) + Dispatch(r).1);
  }

  lemma ResultRefines(s: Owner, executor: Ref, t: Ref, generation: Ref, result: CallbackResult, supply: Ref)
    requires Running(s)
    ensures Runnable(s)
    ensures ViewOf(ReleaseResult(s, executor, t, generation, result, supply).state)
            == Expected(s, ResultMsg(executor, t, generation, result), supply)
  {
    hide Running, FinishJob, Runnable, ViewOf, AnswersJob;
    FinishRefines(s, t, generation, result, supply);
  }

  lemma ExecutorDownRefines(s: Owner, code: Term, supply: Ref)
    requires Running(s)
    ensures Runnable(s)
    ensures ViewOf(ExecutorDown(s, code, supply).state) == ViewOf(s)
  {
    InvIsRunnable(s);
    ExecutorDownShape(s, code, supply);
    assert Busy(s);
    assert ViewOf(Restarted(s, supply)) == ViewOf(s);
    hide InvBut, FinishJob, ExecutorDown, Runnable;
    SameTablesRunning(s, Restarted(s, supply));
    if s.job.Some? {
      FinishRefines(Restarted(s, supply), s.job.value.token, s.job.value.generation, CallbackError(ExecutorDied(code)), supply);
    }
  }

  lemma RetryReleaseView(s: Owner, t: Ref, waiter: Waiter, supply: Ref)
    requires JobsHaveEntries(s) && t in s.leases && EntryShape(s.leases[t]) && s.leases[t].status.ReleaseFailed?
    ensures JobsHaveEntries(CancelRetryTimer(t, s))
    ensures ViewOf(ReleaseEntry(t, s.leases[t], CancelRetryTimer(t, s), true, waiter, supply).0) == ViewOf(s)
  {
    var q := CancelRetryTimer(t, s);
    assert t in ViewOf(s).claims && ViewOf(s).claims[t] == Claim({}, s.leases[t].root, None, map[]);
    assert ViewOf(q) == ViewOf(s) && JobsHaveEntries(q);
    assert ViewOf(s).claims[t := ViewOf(s).claims[t]] == ViewOf(s).claims;
    hide *;
    ReleaseEntryView(t, s.leases[t], q, true, waiter, supply);
  }

  lemma RetryTimerRefines(s: Owner, t: Ref, generation: Ref, supply: Ref)
    requires Runnable(s) && EntriesInv(s, None)
    ensures ViewOf(RetryTimerFired(s, t, generation, supply).state) == ViewOf(s)
  {
    if t in s.leases && s.leases[t].status.ReleaseFailed? {
      assert EntryShape(s.leases[t]);
      assert JobsHaveEntries(s);
      hide EntriesInv, Runnable, ReleaseEntry, Claims;
      RetryReleaseView(s, t, NoWaiter, supply);
    } else {
      hide EntriesInv, Runnable, ReleaseEntry;
    }
  }

  lemma RetryCallRefines(s: Owner, t: Ref, from: Ref, supply: Ref)
    requires Runnable(s) && EntriesInv(s, None)
    ensures ViewOf(RetryCall(s, t, from, supply).state) == ViewOf(s)
  {
    RetryCallShape(s, t, from, supply);
    RunnableParts(s);
    if t in s.leases && s.leases[t].status.ReleaseFailed? {
      assert EntryShape(s.leases[t]);
      hide *;
      RetryReleaseView(s, t, RetryWaiter(from), supply);
    } else {
      assert ViewOf(CancelRetryTimer(t, s)) == ViewOf(s);
      hide *;
    }
  }

  lemma DrainRefines(s: Owner, replyTo: Pid, request: Ref, pick: Option<Ref>, supply: Ref)
    requires IsFirstFailure(s, pick)
    ensures ViewOf(Drain(s, replyTo, request, pick, supply).state) == ViewOf(s).(closed := true)
  {
    hide Claims, IsFirstFailure, WaiterMonitors, DrainReplies;
  }

  lemma DownRefines(s: Owner, m: Ref, supply: Ref)
    requires Running(s)
    ensures Runnable(s)
    ensures ViewOf(MonitorDown(s, m, supply).state) == ExpectedDown(s, m)
  {
    InvIsRunnable(s);
    if m in s.monitors {
      match s.monitors[m]
      case ForReservation(request) => ReservationDownView(s, m, supply);
      case ForIssuePending(_) => NoIssuePending(s, m); assert false;
      case ForRetain(_, _) => RetainDownView(s, m, supply);
      case ForIssue(_, _) => IssueDownView(s, m, supply);
    } else {
      IdleDownView(s, m, supply);
    }
  }

  /** The `:issue_pending` purpose exists only inside the commit handler. */
  lemma NoIssuePending(s: Owner, m: Ref)
    requires MonitorsInv(s) && m in s.monitors
    ensures !s.monitors[m].ForIssuePending?
  {
    assert Watches(s, m, s.monitors[m]);
  }

  lemma HeldIsLease(s: Owner, t: Ref, h: Ref)
    requires Held(s, t, h)
    ensures t in s.leases && h in s.leases[t].holders
  {
  }

  lemma IdleDownView(s: Owner, m: Ref, supply: Ref)
    requires Runnable(s) && m !in s.monitors
    ensures ViewOf(MonitorDown(s, m, supply).state) == ViewOf(s)
  {
    hide Claims, JobsHaveEntries, TombstonesListed;
  }

  lemma ReservationDownView(s: Owner, m: Ref, supply: Ref)
    requires Running(s) && m in s.monitors && s.monitors[m].ForReservation?
    ensures Runnable(s)
    ensures ViewOf(MonitorDown(s, m, supply).state) == ExpectedDown(s, m)
  {
    InvIsRunnable(s);
    assert Watches(s, m, s.monitors[m]) && PurposeBacked(s, m, s.monitors[m]);
    var request := s.monitors[m].request;
    hide InvBut, StopOrContinue, Claims, Runnable;
    StopView(RemoveIssueReservation(request, s.(monitors := s.monitors - {m})), {});
  }

  lemma RetainDownView(s: Owner, m: Ref, supply: Ref)
    requires Running(s) && m in s.monitors && s.monitors[m].ForRetain?
    ensures Runnable(s)
    ensures ViewOf(MonitorDown(s, m, supply).state) == ExpectedDown(s, m)
  {
    RetainDownShape(s, m, supply);
    var t, child := s.monitors[m].token, s.monitors[m].child;
    var (e, s1) := ClearPendingRetain(child, s.leases[t], s);
    ClearRetainView(child, s.leases[t], s);
    LeaveShape(s, t, child);
    assert ViewOf(s1) == ViewOf(s);
    hide InvBut, Runnable, RemoveHolder, MonitorDown, Leave, ClearPendingRetain, Claims;
    RemoveHolderView(t, child, e, s1, supply);
  }

  lemma IssueDownView(s: Owner, m: Ref, supply: Ref)
    requires Running(s) && m in s.monitors && s.monitors[m].ForIssue?
    ensures Runnable(s)
    ensures ViewOf(MonitorDown(s, m, supply).state) == ExpectedDown(s, m)
  {
    InvIsRunnable(s);
    assert Watches(s, m, s.monitors[m]) && PurposeBacked(s, m, s.monitors[m]);
    assert EntryShape(s.leases[s.monitors[m].token]);
    assert !IssueDownIdle(s, m, supply);
    IssueDownShape(s, m, supply);
    hide InvBut, Runnable, MonitorDown, CancelPendingIssue, LeaveAll;
    CancelPendingView(s, s.monitors[m].token, supply);
  }

  /** The owner makes exactly the protocol's step, whatever the message. */
  lemma HandleRefines(s: Owner, m: Message, supply: Ref)
    requires Running(s) && Admissible(s, m, supply)
    ensures Runnable(s)
    ensures ViewOf(Handle(s, m, supply).state) == Expected(s, m, supply)
  {
    if m.AbandonedMsg? || m.ReleaseMsg? || m.RetainMsg? || m.ConfirmRetainMsg? || m.CancelRetainMsg? || m.MonitorDownMsg? || m.MalformedMsg? {
      HolderMessagesRefine(s, m, supply);
    } else {
      OtherMessagesRefine(s, m, supply);
    }
    hide Running, Handle, Expected, Admissible, ViewOf, Runnable;
  }

  lemma HolderMessagesRefine(s: Owner, m: Message, supply: Ref)
    requires Running(s) && Admissible(s, m, supply)
    requires m.AbandonedMsg? || m.ReleaseMsg? || m.RetainMsg? || m.ConfirmRetainMsg? || m.CancelRetainMsg? || m.MonitorDownMsg? || m.MalformedMsg?
    ensures Runnable(s)
    ensures ViewOf(Handle(s, m, supply).state) == Expected(s, m, supply)
  {
    hide Running, Runnable, Unused, Claims, ClaimOf, Leave, LeaveAll;
    hide AbandonedMessage, ReleaseMessage, Retain, ConfirmRetain, CancelRetain, MonitorDown, ExpectedRetain, ExpectedConfirmRetain, ExpectedDown;
    RunningIsRunnable(s);
    match m
    case AbandonedMsg(token, holder) => NamedMessagesRefine(s, token, holder, supply);
    case ReleaseMsg(token, holder) => NamedMessagesRefine(s, token, holder, supply);
    case RetainMsg(token, parent, child, request, guard) => RunningEntries(s); RetainRefines(s, token, parent, child, request, guard, supply);
    case ConfirmRetainMsg(token, child, request) => RunningEntries(s); ConfirmRetainRefines(s, token, child, request);
    case CancelRetainMsg(token, child) => CancelRetainRefines(s, token, child, supply);
    case MonitorDownMsg(monitor) => DownRefines(s, monitor, supply);
    case MalformedMsg =>
  }

  lemma OtherMessagesRefine(s: Owner, m: Message, supply: Ref)
    requires Running(s) && Admissible(s, m, supply)
    requires !(m.AbandonedMsg? || m.ReleaseMsg? || m.RetainMsg? || m.ConfirmRetainMsg? || m.CancelRetainMsg? || m.MonitorDownMsg? || m.MalformedMsg?)
    ensures Runnable(s)
    ensures ViewOf(Handle(s, m, supply).state) == Expected(s, m, supply)
  {
    hide Running, Runnable, Unused, CommitMatches, IsFirstFailure, Claims, ClaimOf, Leave, LeaveAll;
    hide ReserveIssue, CommitIssue, ConfirmIssue, CancelIssue, Drain, CancelDrain, ReleaseResult, ExecutorDown, RetryTimerFired, RetryCall, BeginDrain;
    hide ExpectedReserve, ExpectedCommit, ExpectedConfirmIssue, StopOrContinue;
    RunningIsRunnable(s);
    match m
    case ReserveMsg(metadata, replyTo, request) => ReserveRefines(s, metadata, replyTo, request, supply);
    case CommitMsg(reservation, backend, replyTo, request, guard, now) =>
      CommitRefines(s, reservation, backend, replyTo, request, guard, now, supply);
    case CancelReservationMsg(request) => CancelReservationRefines(s, request);
    case ConfirmIssueMsg(token, request) => RunningEntries(s); ConfirmIssueRefines(s, token, request);
    case CancelIssueMsg(request) => CancelIssueRefines(s, request, supply);
    case DrainMsg(replyTo, request, pick) => DrainRefines(s, replyTo, request, pick, supply);
    case CancelDrainMsg(request) => CancelDrainRefines(s, request);
    case ResultMsg(executor, token, generation, result) => ResultRefines(s, executor, token, generation, result, supply);
    case ExecutorDownMsg(code) => ExecutorDownRefines(s, code, supply);
    case RetryTimerMsg(token, generation) => RunningEntries(s); RetryTimerRefines(s, token, generation, supply);
    case RetryCallMsg(token, from) => RunningEntries(s); RetryCallRefines(s, token, from, supply);
    case BeginDrainMsg => BeginDrainRefines(s);
  }

  lemma CancelReservationRefines(s: Owner, request: Ref)
    ensures ViewOf(CancelReservation(s, request).state) == ViewOf(s).(reservations := s.reservations - {request})
  {
    hide Claims, StopOrContinue;
    StopView(RemoveIssueReservation(request, s), {});
    assert request !in s.reservations ==> s.reservations - {request} == s.reservations;
  }

  lemma CancelDrainRefines(s: Owner, request: Ref)
    ensures ViewOf(CancelDrain(s, request).state) == ViewOf(s)
  {
  }

  lemma BeginDrainRefines(s: Owner)
    ensures ViewOf(BeginDrain(s).state) == ViewOf(s).(closed := true)
  {
    hide Claims, WaiterMonitors, DrainReplies;
  }
}
