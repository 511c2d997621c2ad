/** What the invariant and the refinement give a caller of the owner, message by message. */
module LeaseResults {
  import opened Common
  import opened LeaseModel
  import opened LeaseInvariant
  import opened LeaseHandlers
  import opened LeaseRefinement

  // ---- draining makes progress -------------------------------------------------------------

  function HoldersOf(v: View): map<Ref, set<Ref>> { map t | t in v.claims :: v.claims[t].holders }

  ghost function HolderSum(m: map<Ref, set<Ref>>): nat {
    if m == map[] then 0 else var t :| t in m; |m[t]| + HolderSum(m - {t})
  }

  /** Three for a reservation, one for a lease, one for a holder. */
  ghost function Weight(v: View): nat {
    3 * |v.reservations| + |HoldersOf(v)| + HolderSum(HoldersOf(v))
  }

  lemma {:induction false} HolderSumSplit(m: map<Ref, set<Ref>>, t: Ref)
    requires t in m
    ensures HolderSum(m) == HolderSum(m - {t}) + |m[t]|
    decreases |m|
  {
    var u :| u in m && HolderSum(m) == |m[u]| + HolderSum(m - {u});
    if u != t {
      HolderSumSplit(m - {u}, t);
      HolderSumSplit(m - {t}, u);
      assert (m - {u}) - {t} == (m - {t}) - {u};
    }
  }

  lemma PutSize(m: map<Ref, set<Ref>>, t: Ref, h: set<Ref>)
    ensures t in m ==> |m[t := h]| == |m|
    ensures t !in m ==> |m[t := h]| == |m| + 1
  {
    if t in m { assert m[t := h].Keys == m.Keys; } else { assert m[t := h].Keys == m.Keys + {t}; }
  }

  lemma HolderSumPut(m: map<Ref, set<Ref>>, t: Ref, h: set<Ref>)
    ensures t in m ==> HolderSum(m[t := h]) == HolderSum(m) - |m[t]| + |h|
    ensures t !in m ==> HolderSum(m[t := h]) == HolderSum(m) + |h|
  {
    HolderSumSplit(m[t := h], t);
    assert m[t := h] - {t} == m - {t};
    if t in m { HolderSumSplit(m, t); } else { assert m - {t} == m; }
    hide HolderSum;
  }

  /** What changing one claim's holders does to the weight. */
  lemma WeightPut(v: View, w: View, t: Ref, h: set<Ref>)
    requires HoldersOf(w) == HoldersOf(v)[t := h]
    ensures t in HoldersOf(v) ==> Weight(w) == Weight(v) - 3 * |v.reservations| + 3 * |w.reservations| - |HoldersOf(v)[t]| + |h|
    ensures t !in HoldersOf(v) ==> Weight(w) == Weight(v) - 3 * |v.reservations| + 3 * |w.reservations| + 1 + |h|
  {
    hide HolderSum, HoldersOf;
    HolderSumPut(HoldersOf(v), t, h);
    PutSize(HoldersOf(v), t, h);
  }

  function HolderSets(leases: map<Ref, Entry>): map<Ref, set<Ref>> { map t | t in leases :: leases[t].holders }

  lemma {:induction false} HolderSumIsCount(leases: map<Ref, Entry>)
    ensures HolderSum(HolderSets(leases)) == HolderCount(leases)
    decreases |leases|
  {
    if leases != map[] {
      var t :| t in leases && HolderCount(leases) == |leases[t].holders| + HolderCount(leases - {t});
      HolderSumIsCount(leases - {t});
      assert HolderSets(leases - {t}) == HolderSets(leases) - {t};
      HolderSumSplit(HolderSets(leases), t);
    } else {
      assert HolderSets(leases) == map[];
    }
  }

  lemma ViewHolders(s: Owner)
    ensures HoldersOf(ViewOf(s)) == HolderSets(s.leases) && |HolderSets(s.leases)| == |s.leases|
  {
    assert HolderSets(s.leases).Keys == s.leases.Keys;
  }

  /** The weight is what `stats` reports: three times the reservations, plus leases, plus active holders. */
  lemma WeightOfOwner(s: Owner)
    requires HoldersInv(s)
    ensures Weight(ViewOf(s)) == 3 * |s.reservations| + |s.leases| + s.activeHolders
  {
    HolderSumIsCount(s.leases);
    ViewHolders(s);
    hide HolderSum, HolderCount, HoldersOf, HolderSets;
  }

  /** The weight is zero exactly when the owner is drained. */
  lemma WeightZeroIsDrained(s: Owner)
    requires Inv(s)
    ensures Weight(ViewOf(s)) == 0 <==> IsDrained(s)
  {
    WeightOfOwner(s);
    assert JobsInv(s);
    DrainTestIsDrained(s);
    hide InvBut, IsDrained, ViewOf, Weight;
    WeightEmpty(s);
  }

  lemma WeightEmpty(s: Owner)
    requires Inv(s)
    ensures 3 * |s.reservations| + |s.leases| + s.activeHolders == 0 <==> s.leases == map[] && s.reservations == map[]
  {
    assert s.activeHolders == HolderCount(s.leases);
    assert |s.leases| == 0 <==> s.leases == map[];
    assert |s.reservations| == 0 <==> s.reservations == map[];
    hide InvBut;
  }

  /** Either nobody gained or lost anything, or the weight fell. */
  ghost predicate Progress(v: View, w: View) {
    (HoldersOf(w) == HoldersOf(v) && w.reservations == v.reservations) || Weight(w) < Weight(v)
  }

  lemma LeaveHolders(v: View, token: Ref, holder: Ref)
    requires token in v.claims && holder in v.claims[token].holders
    ensures HoldersOf(Leave(v, token, holder)) == HoldersOf(v)[token := v.claims[token].holders - {holder}]
    ensures Leave(v, token, holder).reservations == v.reservations
  {
    var h := v.claims[token].holders;
    assert h == {holder} ==> h - {holder} == {};
  }

  lemma LeaveProgress(v: View, token: Ref, holder: Ref)
    ensures Progress(v, Leave(v, token, holder))
    ensures token in v.claims && holder in v.claims[token].holders ==> Weight(Leave(v, token, holder)) < Weight(v)
  {
    if token in v.claims && holder in v.claims[token].holders {
      var h := v.claims[token].holders;
      LeaveHolders(v, token, holder);
      assert token in HoldersOf(v) && HoldersOf(v)[token] == h && |h - {holder}| == |h| - 1;
      hide Leave, Weight, HoldersOf;
      WeightPut(v, Leave(v, token, holder), token, h - {holder});
    }
  }

  lemma LeaveAllHolders(v: View, token: Ref)
    requires token in v.claims && v.claims[token].pendingIssue.Some?
    ensures HoldersOf(LeaveAll(v, token)) == HoldersOf(v)[token := {}]
    ensures LeaveAll(v, token).reservations == v.reservations
  {
  }

  lemma LeaveAllProgress(v: View, token: Ref)
    ensures Progress(v, LeaveAll(v, token))
  {
    if token in v.claims && v.claims[token].pendingIssue.Some? {
      LeaveAllHolders(v, token);
      assert token in HoldersOf(v) && HoldersOf(v)[token] == v.claims[token].holders;
      hide LeaveAll, Weight, HoldersOf;
      WeightPut(v, LeaveAll(v, token), token, {});
      if v.claims[token].holders == {} {
        assert HoldersOf(v)[token := {}] == HoldersOf(v);
      } else {
        assert |v.claims[token].holders| > 0;
      }
    }
  }

  lemma DropReservationProgress(v: View, request: Ref)
    ensures Progress(v, v.(reservations := v.reservations - {request}))
    ensures request in v.reservations ==> Weight(v.(reservations := v.reservations - {request})) == Weight(v) - 3
  {
    var w := v.(reservations := v.reservations - {request});
    assert HoldersOf(w) == HoldersOf(v);
    if request in v.reservations {
      assert w.reservations.Keys == v.reservations.Keys - {request};
    } else {
      assert w.reservations == v.reservations;
    }
  }

  lemma CommitHolders(v: View, request: Ref, guard: Guard, supply: Ref)
    requires supply + 2 !in v.claims && request in v.reservations
    ensures var w := ExpectedCommit(v, request, guard, supply);
            && HoldersOf(w) == HoldersOf(v)[supply + 2 := if guard.GuardBuilt? then {supply + 3} else {}]
            && |w.reservations| == |v.reservations| - 1
            && supply + 2 !in HoldersOf(v)
  {
    assert ExpectedCommit(v, request, guard, supply).reservations.Keys == v.reservations.Keys - {request};
  }

  lemma CommitProgress(v: View, request: Ref, guard: Guard, supply: Ref)
    requires supply + 2 !in v.claims && request in v.reservations
    ensures Weight(ExpectedCommit(v, request, guard, supply)) < Weight(v)
  {
    CommitHolders(v, request, guard, supply);
    hide ExpectedCommit, Weight, HoldersOf;
    WeightPut(v, ExpectedCommit(v, request, guard, supply), supply + 2, if guard.GuardBuilt? then {supply + 3} else {});
  }

  lemma SuccessProgress(v: View, token: Ref)
    requires token in v.claims
    ensures Weight(v.(claims := v.claims - {token}, successes := v.successes + 1)) < Weight(v)
  {
    var w := v.(claims := v.claims - {token}, successes := v.successes + 1);
    HolderSumSplit(HoldersOf(v), token);
    assert HoldersOf(w) == HoldersOf(v) - {token};
    assert HoldersOf(w).Keys == HoldersOf(v).Keys - {token};
  }

  lemma SameHoldersProgress(v: View, w: View)
    requires w.reservations == v.reservations && w.claims.Keys == v.claims.Keys
    requires forall t :: t in v.claims ==> w.claims[t].holders == v.claims[t].holders
    ensures Progress(v, w)
  {
    assert HoldersOf(w) == HoldersOf(v);
  }

  /** While draining, every message that changes who holds what, or which reservations exist, lowers
      the weight. It never rises, so draining cannot reopen or grow. */
  lemma DrainProgress(s: Owner, m: Message, supply: Ref)
    requires Running(s) && Admissible(s, m, supply) && s.mode.Draining?
    ensures Runnable(s)
    ensures var r := Handle(s, m, supply).state;
            Progress(ViewOf(s), ViewOf(r)) && r.mode.Draining?
  {
    hide *;
    Routed(s, m, supply);
    HandleRefines(s, m, supply);
    AdmissibleTokens(s, m, supply);
    DrainingExpected(s, m, supply);
    ClosedIsDraining(s);
    ClosedIsDraining(Handle(s, m, supply).state);
  }

  lemma ProgressFalls(v: View, w: View)
    requires Progress(v, w) && (HoldersOf(w) != HoldersOf(v) || w.reservations != v.reservations)
    ensures Weight(w) < Weight(v)
  {
  }

  lemma ViewTables(s: Owner, t: Ref)
    ensures ViewOf(s).reservations == s.reservations
    ensures t in HoldersOf(ViewOf(s)) <==> t in s.leases
    ensures t in s.leases ==> HoldersOf(ViewOf(s))[t] == s.leases[t].holders
  {
  }

  /** While draining, an accepted commit strictly lowers the weight: a reservation becomes a lease with at most one holder. */
  lemma CommitFalls(s: Owner, m: Message, supply: Ref)
    requires Running(s) && Admissible(s, m, supply) && s.mode.Draining? && m.CommitMsg?
    ensures Runnable(s) && Weight(ViewOf(Handle(s, m, supply).state)) < Weight(ViewOf(s))
  {
    assert m.request in s.reservations;
    CommitTakesReservation(s, m, supply);
    hide *;
    DrainProgress(s, m, supply);
    ViewTables(s, 0);
    ViewTables(Handle(s, m, supply).state, 0);
    ProgressFalls(ViewOf(s), ViewOf(Handle(s, m, supply).state));
  }

  lemma CommitTakesReservation(s: Owner, m: Message, supply: Ref)
    requires Running(s) && Admissible(s, m, supply) && m.CommitMsg?
    ensures Runnable(s) && m.request !in Handle(s, m, supply).state.reservations
  {
    HandleRefines(s, m, supply);
    hide Running, Unused, Runnable, Handle;
    ViewTables(Handle(s, m, supply).state, 0);
  }

  /** So does cancelling a reservation that exists. */
  lemma CancellationFalls(s: Owner, request: Ref, supply: Ref)
    requires Running(s) && Unused(s, supply) && s.mode.Draining? && request in s.reservations
    ensures Weight(ViewOf(CancelReservation(s, request).state)) < Weight(ViewOf(s))
  {
    var m := CancelReservationMsg(request);
    assert Admissible(s, m, supply);
    RunningIsRunnable(s);
    assert Handle(s, m, supply) == CancelReservation(s, request);
    CancelReservationRefines(s, request);
    hide *;
    DrainProgress(s, m, supply);
    ViewTables(s, 0);
    ViewTables(CancelReservation(s, request).state, 0);
    ProgressFalls(ViewOf(s), ViewOf(CancelReservation(s, request).state));
  }

  /** So does whatever takes a holder away, be it a release, an abandonment, a cancellation or a death. */
  lemma HolderRemovalFalls(s: Owner, m: Message, supply: Ref, t: Ref, h: Ref)
    requires Running(s) && Admissible(s, m, supply) && s.mode.Draining? && t in s.leases && h in s.leases[t].holders
    requires Runnable(s) && !(t in Handle(s, m, supply).state.leases && h in Handle(s, m, supply).state.leases[t].holders)
    ensures Weight(ViewOf(Handle(s, m, supply).state)) < Weight(ViewOf(s))
  {
    hide *;
    Routed(s, m, supply);
    DrainProgress(s, m, supply);
    ViewTables(s, t);
    ViewTables(Handle(s, m, supply).state, t);
    ProgressFalls(ViewOf(s), ViewOf(Handle(s, m, supply).state));
  }

  /** And so does whatever removes an entry, which only an acknowledged success does. */
  lemma SuccessFalls(s: Owner, m: Message, supply: Ref, t: Ref)
    requires Running(s) && Admissible(s, m, supply) && s.mode.Draining? && t in s.leases
    requires Runnable(s) && t !in Handle(s, m, supply).state.leases
    ensures Weight(ViewOf(Handle(s, m, supply).state)) < Weight(ViewOf(s))
    ensures Successes(Handle(s, m, supply).state) > Successes(s)
  {
    hide *;
    Routed(s, m, supply);
    DrainProgress(s, m, supply);
    ViewTables(s, t);
    ViewTables(Handle(s, m, supply).state, t);
    ProgressFalls(ViewOf(s), ViewOf(Handle(s, m, supply).state));
    EntryGoes(s, m, supply, t);
  }

  lemma EntryGoes(s: Owner, m: Message, supply: Ref, t: Ref)
    requires Running(s) && Admissible(s, m, supply) && t in s.leases
    requires Runnable(s) && t !in Handle(s, m, supply).state.leases
    ensures Successes(Handle(s, m, supply).state) > Successes(s)
  {
    hide *;
    Routed(s, m, supply);
    AdmissibleTokens(s, m, supply);
    StepConserves(s, m, supply);
    FewerEntries(s, Handle(s, m, supply).state, m, supply, t);
  }

  lemma FewerEntries(s: Owner, r: Owner, m: Message, supply: Ref, t: Ref)
    requires t in s.leases && t !in r.leases && r.leases.Keys <= s.leases.Keys + NewTokens(m, supply)
    requires forall t :: t in s.leases ==> t < supply
    requires |r.leases| + Successes(r) == |s.leases| + Successes(s) + (if m.CommitMsg? then 1 else 0)
    ensures Successes(r) > Successes(s)
  {
    hide Successes;
    Fewer(s.leases.Keys, r.leases.Keys, NewTokens(m, supply), t);
    assert |s.leases.Keys| == |s.leases| && |r.leases.Keys| == |r.leases|;
  }

  lemma Fewer(before: set<Ref>, after: set<Ref>, added: set<Ref>, t: Ref)
    requires after <= before + added && t in before && t !in after && before !! added
    ensures |after| < |before| + |added|
  {
    assert |before + added| == |before| + |added|;
    assert after <= before + added - {t};
    SubsetSize(after, before + added - {t});
  }

  lemma {:induction false} SubsetSize(a: set<Ref>, b: set<Ref>)
    requires a <= b
    ensures |a| <= |b|
  {
    if a != {} {
      var x :| x in a;
      SubsetSize(a - {x}, b - {x});
    }
  }

  lemma AdmissibleTokens(s: Owner, m: Message, supply: Ref)
    requires Admissible(s, m, supply)
    ensures forall t :: t in s.leases ==> t < supply
  {
  }

  lemma ClosedIsDraining(s: Owner)
    ensures ViewOf(s).closed <==> s.mode.Draining?
  {
  }

  lemma DrainingExpected(s: Owner, m: Message, supply: Ref)
    requires (forall t :: t in s.leases ==> t < supply) && s.mode.Draining?
    ensures Progress(ViewOf(s), Expected(s, m, supply))
    ensures Expected(s, m, supply).closed
  {
    if m.ReserveMsg? || m.CommitMsg? || m.CancelReservationMsg? || m.ConfirmIssueMsg? || m.CancelIssueMsg? || m.RetainMsg? {
      DrainingIssues(s, m, supply);
    } else {
      DrainingReleases(s, m, supply);
    }
  }

  lemma DrainingIssues(s: Owner, m: Message, supply: Ref)
    requires (forall t :: t in s.leases ==> t < supply) && s.mode.Draining?
    requires m.ReserveMsg? || m.CommitMsg? || m.CancelReservationMsg? || m.ConfirmIssueMsg? || m.CancelIssueMsg? || m.RetainMsg?
    ensures Progress(ViewOf(s), Expected(s, m, supply))
    ensures Expected(s, m, supply).closed
  {
    hide Weight, Progress, ViewOf, Leave, LeaveAll, AnswersJob;
    hide ExpectedReserve, ExpectedCommit, ExpectedRetain, ExpectedConfirmIssue, ExpectedConfirmRetain, ExpectedDown;
    var v := ViewOf(s);
    ViewCounts(s);
    ViewReservations(s);
    ClosedIsDraining(s);
    ClosedAdmits(s, m, supply);
    SameHoldersProgress(v, v);
    match m
    case ReserveMsg(_, _, _) =>
    case CommitMsg(_, _, _, request, guard, _) => CommittedProgress(v, request, guard, supply);
    case CancelReservationMsg(request) => DropReservationProgress(v, request);
    case ConfirmIssueMsg(token, request) => ConfirmedProgress(v, token, 0, request);
    case CancelIssueMsg(request) =>
      if request in s.pendingIssues { LeaveAllProgress(v, s.pendingIssues[request]); LeaveClosed(v, s.pendingIssues[request], 0); }
    case RetainMsg(_, _, _, _, _) =>
  }

  lemma JobHasEntry(s: Owner, t: Ref, generation: Ref)
    requires AnswersJob(s, t, generation)
    ensures t in s.leases
  {
  }

  lemma DrainingReleases(s: Owner, m: Message, supply: Ref)
    requires s.mode.Draining?
    requires !(m.ReserveMsg? || m.CommitMsg? || m.CancelReservationMsg? || m.ConfirmIssueMsg? || m.CancelIssueMsg? || m.RetainMsg?)
    ensures Progress(ViewOf(s), Expected(s, m, supply))
    ensures Expected(s, m, supply).closed
  {
    hide Weight, Progress, ViewOf, Leave, LeaveAll, AnswersJob;
    hide ExpectedReserve, ExpectedCommit, ExpectedRetain, ExpectedConfirmIssue, ExpectedConfirmRetain, ExpectedDown;
    var v := ViewOf(s);
    ViewCounts(s);
    ClosedIsDraining(s);
    SameHoldersProgress(v, v);
    match m
    case AbandonedMsg(token, holder) => LeaveProgress(v, token, holder); LeaveClosed(v, token, holder);
    case ReleaseMsg(token, holder) => LeaveProgress(v, token, holder); LeaveClosed(v, token, holder);
    case ConfirmRetainMsg(token, child, request) => ConfirmedProgress(v, token, child, request);
    case CancelRetainMsg(token, child) => LeaveProgress(v, token, child); LeaveClosed(v, token, child);
    case DrainMsg(_, _, _) => SameHoldersProgress(v, v.(closed := true));
    case ResultMsg(executor, token, generation, result) =>
      if executor == s.executor && AnswersJob(s, token, generation) && result.CallbackOk? {
        JobHasEntry(s, token, generation);
        SuccessProgress(v, token);
        StrictProgress(v, v.(claims := v.claims - {token}, successes := v.successes + 1));
      }
    case BeginDrainMsg => SameHoldersProgress(v, v.(closed := true));
    case MonitorDownMsg(monitor) => DownProgress(s, monitor);
    case _ =>
  }

  lemma ClosedAdmits(s: Owner, m: Message, supply: Ref)
    requires s.mode.Draining?
    ensures m.ReserveMsg? ==> Expected(s, m, supply) == ViewOf(s)
    ensures m.RetainMsg? ==> Expected(s, m, supply) == ViewOf(s)
  {
    hide Claims;
  }

  lemma CommittedProgress(v: View, request: Ref, guard: Guard, supply: Ref)
    requires forall t :: t in v.claims ==> t < supply
    ensures Progress(v, ExpectedCommit(v, request, guard, supply)) && ExpectedCommit(v, request, guard, supply).closed == v.closed
  {
    hide Weight, Progress;
    SameHoldersProgress(v, v);
    if request in v.reservations {
      CommitProgress(v, request, guard, supply);
      StrictProgress(v, ExpectedCommit(v, request, guard, supply));
    }
  }

  lemma ConfirmedProgress(v: View, token: Ref, child: Ref, request: Ref)
    ensures Progress(v, ExpectedConfirmIssue(v, token, request)) && ExpectedConfirmIssue(v, token, request).closed == v.closed
    ensures Progress(v, ExpectedConfirmRetain(v, token, child, request)) && ExpectedConfirmRetain(v, token, child, request).closed == v.closed
  {
    hide Weight, Progress;
    SameHoldersProgress(v, ExpectedConfirmIssue(v, token, request));
    SameHoldersProgress(v, ExpectedConfirmRetain(v, token, child, request));
  }

  lemma StrictProgress(v: View, w: View)
    requires Weight(w) < Weight(v)
    ensures Progress(v, w)
  {
  }

  lemma LeaveClosed(v: View, token: Ref, holder: Ref)
    ensures Leave(v, token, holder).closed == v.closed && LeaveAll(v, token).closed == v.closed
  {
  }

  lemma DownProgress(s: Owner, m: Ref)
    ensures Progress(ViewOf(s), ExpectedDown(s, m))
    ensures ExpectedDown(s, m).closed == ViewOf(s).closed
  {
    var v := ViewOf(s);
    hide Weight, Progress, ViewOf, Leave, LeaveAll;
    SameHoldersProgress(v, v);
    if m in s.monitors {
      match s.monitors[m]
      case ForReservation(request) => DropReservationProgress(v, request);
      case ForIssuePending(_) =>
      case ForRetain(token, child) => LeaveProgress(v, token, child); LeaveClosed(v, token, child);
      case ForIssue(token, _) => LeaveAllProgress(v, token); LeaveClosed(v, token, 0);
    }
  }

  // ---- conservation ------------------------------------------------------------------------

  function Successes(s: Owner): int { s.counters.callbacks - s.counters.failures }

  /** Every accepted commit, guard-rejected ones included, is a live entry or one acknowledged success;
      and a token that is gone never comes back. */
  lemma StepConserves(s: Owner, m: Message, supply: Ref)
    requires Running(s) && Admissible(s, m, supply)
    ensures Runnable(s)
    ensures var r := Handle(s, m, supply).state;
            && |r.leases| + Successes(r) == |s.leases| + Successes(s) + (if m.CommitMsg? then 1 else 0)
            && r.leases.Keys <= s.leases.Keys + NewTokens(m, supply)
  {
    hide *;
    Routed(s, m, supply);
    HandleRefines(s, m, supply);
    AdmissibleTokens(s, m, supply);
    if m.CommitMsg? { MatchesReservation(s, m.reservation, m.replyTo, m.request); }
    ExpectedConserves(s, m, supply);
    CountsConserved(s, Handle(s, m, supply).state, m, supply);
  }

  lemma MatchesReservation(s: Owner, reservation: Ref, replyTo: Pid, request: Ref)
    requires CommitMatches(s, reservation, replyTo, request)
    ensures request in s.reservations
  {
  }

  lemma CountsConserved(s: Owner, r: Owner, m: Message, supply: Ref)
    requires Conserved(ViewOf(s), ViewOf(r), NewTokens(m, supply))
    ensures |r.leases| + Successes(r) == |s.leases| + Successes(s) + (if m.CommitMsg? then 1 else 0)
    ensures r.leases.Keys <= s.leases.Keys + NewTokens(m, supply)
  {
    ViewCounts(s);
    ViewCounts(r);
    hide ViewOf, Successes;
  }

  lemma ViewCounts(s: Owner)
    ensures |ViewOf(s).claims| == |s.leases| && ViewOf(s).claims.Keys == s.leases.Keys && ViewOf(s).successes == Successes(s)
  {
    assert ViewOf(s).claims.Keys == s.leases.Keys;
  }

  ghost predicate Conserved(v: View, w: View, accepted: set<Ref>) {
    |w.claims| + w.successes == |v.claims| + v.successes + |accepted| && w.claims.Keys <= v.claims.Keys + accepted
  }

  lemma KeysConserved(v: View, w: View)
    requires w.claims.Keys == v.claims.Keys && w.successes == v.successes
    ensures Conserved(v, w, {})
  {
    assert |w.claims.Keys| == |v.claims.Keys|;
  }

  lemma CommitConserved(v: View, request: Ref, guard: Guard, supply: Ref)
    requires supply + 2 !in v.claims && request in v.reservations
    ensures Conserved(v, ExpectedCommit(v, request, guard, supply), {supply + 2})
  {
    assert ExpectedCommit(v, request, guard, supply).claims.Keys == v.claims.Keys + {supply + 2};
  }

  lemma SuccessConserved(v: View, token: Ref)
    requires token in v.claims
    ensures Conserved(v, v.(claims := v.claims - {token}, successes := v.successes + 1), {})
  {
    assert (v.claims - {token}).Keys == v.claims.Keys - {token};
  }

  lemma LeaveConserved(v: View, token: Ref, holder: Ref)
    ensures Conserved(v, Leave(v, token, holder), {}) && Conserved(v, LeaveAll(v, token), {})
  {
    KeysConserved(v, Leave(v, token, holder));
    KeysConserved(v, LeaveAll(v, token));
  }

  function NewTokens(m: Message, supply: Ref): set<Ref> { if m.CommitMsg? then {supply + 2} else {} }

  lemma AdmissionConserved(s: Owner, metadata: Term, replyTo: Pid, parent: Ref, child: Ref, token: Ref, request: Ref, guard: Guard, supply: Ref)
    ensures Conserved(ViewOf(s), ExpectedReserve(s, metadata, replyTo, request, supply), {})
    ensures Conserved(ViewOf(s), ExpectedRetain(ViewOf(s), token, parent, child, request, guard, supply), {})
  {
    hide ViewOf, Conserved;
    KeysConserved(ViewOf(s), ExpectedReserve(s, metadata, replyTo, request, supply));
    KeysConserved(ViewOf(s), ExpectedRetain(ViewOf(s), token, parent, child, request, guard, supply));
  }

  lemma ConfirmConserved(v: View, token: Ref, child: Ref, request: Ref)
    ensures Conserved(v, ExpectedConfirmIssue(v, token, request), {})
    ensures Conserved(v, ExpectedConfirmRetain(v, token, child, request), {})
  {
    hide Conserved;
    KeysConserved(v, ExpectedConfirmIssue(v, token, request));
    KeysConserved(v, ExpectedConfirmRetain(v, token, child, request));
  }

  lemma ExpectedConserves(s: Owner, m: Message, supply: Ref)
    requires forall t :: t in s.leases ==> t < supply
    requires m.CommitMsg? ==> m.request in s.reservations
    ensures Conserved(ViewOf(s), Expected(s, m, supply), NewTokens(m, supply))
  {
    hide ViewOf, Leave, LeaveAll, Conserved, AnswersJob;
    hide ExpectedReserve, ExpectedCommit, ExpectedRetain, ExpectedConfirmIssue, ExpectedConfirmRetain, ExpectedDown;
    var v := ViewOf(s);
    ViewCounts(s);
    ViewReservations(s);
    KeysConserved(v, v);
    KeysConserved(v, v.(closed := true));
    match m
    case ReserveMsg(metadata, replyTo, request) => AdmissionConserved(s, metadata, replyTo, 0, 0, 0, request, GuardBuilt, supply);
    case CommitMsg(_, _, _, request, guard, _) => CommitConserved(v, request, guard, supply);
    case CancelReservationMsg(request) => KeysConserved(v, v.(reservations := v.reservations - {request}));
    case AbandonedMsg(token, holder) => LeaveConserved(v, token, holder);
    case ReleaseMsg(token, holder) => LeaveConserved(v, token, holder);
    case ConfirmIssueMsg(token, request) => ConfirmConserved(v, token, 0, request);
    case CancelIssueMsg(request) => if request in s.pendingIssues { LeaveConserved(v, s.pendingIssues[request], 0); }
    case RetainMsg(token, parent, child, request, guard) => AdmissionConserved(s, 0, 0, parent, child, token, request, guard, supply);
    case ConfirmRetainMsg(token, child, request) => ConfirmConserved(v, token, child, request);
    case CancelRetainMsg(token, child) => LeaveConserved(v, token, child);
    case DrainMsg(_, _, _) =>
    case CancelDrainMsg(_) =>
    case ResultMsg(executor, token, generation, result) => ResultConserved(s, executor, token, generation, result);
    case ExecutorDownMsg(_) =>
    case RetryTimerMsg(_, _) =>
    case RetryCallMsg(_, _) =>
    case BeginDrainMsg =>
    case MonitorDownMsg(monitor) => DownConserved(s, monitor);
    case MalformedMsg =>
  }

  lemma ResultConserved(s: Owner, executor: Ref, token: Ref, generation: Ref, result: CallbackResult)
    ensures Conserved(ViewOf(s), Expected(s, ResultMsg(executor, token, generation, result), 0), {})
  {
    hide ViewOf, Conserved, AnswersJob, Leave, LeaveAll;
    hide ExpectedReserve, ExpectedCommit, ExpectedRetain, ExpectedConfirmIssue, ExpectedConfirmRetain, ExpectedDown;
    var v := ViewOf(s);
    ViewCounts(s);
    KeysConserved(v, v);
    if executor == s.executor && AnswersJob(s, token, generation) && result.CallbackOk? {
      JobHasEntry(s, token, generation);
      SuccessConserved(v, token);
    }
  }

  lemma DownConserved(s: Owner, m: Ref)
    ensures Conserved(ViewOf(s), ExpectedDown(s, m), {})
  {
    var v := ViewOf(s);
    hide ViewOf, Leave, LeaveAll, Conserved;
    KeysConserved(v, v);
    if m in s.monitors {
      match s.monitors[m]
      case ForReservation(request) => KeysConserved(v, v.(reservations := v.reservations - {request}));
      case ForIssuePending(_) =>
      case ForRetain(token, child) => LeaveConserved(v, token, child);
      case ForIssue(token, _) => LeaveConserved(v, token, 0);
    }
  }

  lemma ViewReservations(s: Owner)
    ensures ViewOf(s).reservations == s.reservations
  {
  }
}
