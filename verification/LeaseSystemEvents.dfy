/** Monitors, releases, everything else, and the invariant over whole runs. */
module LeaseSystemEvents {
  import opened Common
  import opened LeaseModel
  import opened LeaseInvariant
  import opened LeaseHandlers
  import opened LeaseRefinement
  import opened LeaseResults
  import opened LeaseReplies
  import opened LeaseRejections
  import opened LeaseSystem
  import opened LeaseSystemInvariant
  import opened LeaseSystemOwner
  import opened LeaseSystemSteps
  import opened LeaseSystemClients
  import opened LeaseSystemCalls
  import opened LeaseSystemMessages
  import opened LeaseSystemActions
  import opened LeaseSystemRequests

  /** `z` is `y`, or `y` with more holders named. */
  ghost predicate Names(y: Sys, z: Sys) { z == y.(named := z.named) && y.named <= z.named }

  lemma NamesTakes(y: Sys, z: Sys, r: Ref)
    requires Names(y, z) && WiresOwned(y)
    ensures Takes(y, z, r) && z.named >= y.named
  {
    SameOut(y, z);
  }

  lemma UpFacts(y: Sys)
    requires Consistent(y) && y.life.Up?
    ensures Running(y.owner) && Unused(y.owner, y.next) && ViewFresh(ViewOf(y.owner), y.next) && On(y)
    ensures Backed(ViewOf(y.owner), y.calls, y.watched, y.roots) && PendingHeld(ViewOf(y.owner))
    ensures CallsOk(y) && HistoryOk(y) && WiresOwned(y) && OwnerOk(y)
    ensures CtxOf(y).up && CtxOf(y).on && CtxOf(y).v == ViewOf(y.owner) && CtxOf(y).roots == y.roots && CtxOf(y).named == y.named
    ensures CtxOf(y).accepted == y.accepted && CtxOf(y).next == y.next
  {
    PendingsHeld(y);
  }

  lemma EventReady(y: Sys, z: Sys, m: Message, pid: Pid, r: Ref)
    requires Consistent(y) && y.life.Up? && Names(y, z) && !Deciding(m) && Admissible(y.owner, m, y.next)
    ensures var w := Handled(z, m, pid);
            && Handling(z, m, pid, w) && OwnerOk(w)
            && Grows(CtxOf(y), CtxOf(w)) && NoAnswer(CtxOf(y), CtxOf(w), r)
            && CtxOf(w).v == Expected(y.owner, m, y.next) && CtxOf(w).accepted == CtxOf(y).accepted && CtxOf(w).roots == CtxOf(y).roots
            && Backed(ViewOf(w.owner), w.calls, w.watched, w.roots)
            && CtxOf(w).buried <= CtxOf(y).buried + Buries(y.owner, m)
  {
    assert !m.CommitMsg?;
    NamesCtx(y, z);
    hide *;
    var w := Handled(z, m, pid);
    UpFacts(y);
    NamesTakes(y, z, r);
    TakesKeeps(y, z, r);
    HistoryAwaits(z);
    HandlesMessage(z, m, pid);
    GrowsBy(CtxOf(y), z, m, pid, w);
    NoAnswerBy(CtxOf(y), z, m, pid, w, r);
    HandledBacked(z, m, pid, w);
    HandledBuries(z, m, pid, w);
    BuriedOf(w);
    BuriedOf(y);
  }

  lemma NamesCtx(y: Sys, z: Sys)
    requires Names(y, z)
    ensures CtxOf(y) == CtxOf(z).(named := CtxOf(y).named) && CtxOf(y).named <= z.named
  {
  }

  lemma HandledBuries(z: Sys, m: Message, pid: Pid, w: Sys)
    requires Handling(z, m, pid, w)
    ensures w.owner.tombstones.kinds.Keys <= z.owner.tombstones.kinds.Keys + Buries(z.owner, m)
  {
    hide Buries, Expected, ViewOf, Awaits;
  }

  lemma EventDone(y: Sys, z: Sys, m: Message, pid: Pid, r: Ref, mine: set<Ref>)
    requires Consistent(y) && y.life.Up? && Names(y, z) && !Deciding(m) && Admissible(y.owner, m, y.next)
    requires ViewStep(ViewOf(y.owner), Expected(y.owner, m, y.next), z.named, y.known.Keys, y.next, r, mine)
    requires mine !! y.roots && forall o :: o in y.calls && o != r && y.calls[o].kind.Retaining? ==> y.calls[o].kind.child !in mine
    requires r in y.calls ==> CallInv(CtxOf(Handled(z, m, pid)), r, y.calls[r], WiresOf(y, r), y.calls[r].pid in y.dead)
    ensures Consistent(Handled(z, m, pid))
  {
    assert !m.CommitMsg? && z.dead == y.dead && z.calls == y.calls && z.owner == y.owner;
    NamesWires(y, z);
    hide *;
    var w := Handled(z, m, pid);
    UpFacts(y);
    NamesTakes(y, z, r);
    TakesOwned(y, z, r);
    EventReady(y, z, m, pid, r);
    HandlingSame(z, m, pid, w);
    if r in y.calls { FinishCall(y, z, w, m, pid, r); }
    Concludes(y, z, m, pid, w, r, mine);
  }

  lemma NamesWires(y: Sys, z: Sys)
    requires Names(y, z)
    ensures forall o :: o in y.calls ==> WiresOf(z, o) == WiresOf(y, o)
  {
    SameOut(y, z);
    forall o | o in y.calls ensures WiresOf(z, o) == WiresOf(y, o) {
      assert Unread(z, y.calls[o].pid) == Unread(y, y.calls[o].pid);
    }
  }

  // ---- a monitor fires ---------------------------------------------------------------------

  /** The process the owner watched is dead, and everything it sent has been read. */
  ghost predicate Fires(y: Sys, m: Ref) { m in y.watched && y.watched[m] in y.dead && Unread(y, y.watched[m]) == [] }

  lemma NothingLeft(y: Sys, m: Ref, r: Ref)
    requires Fires(y, m) && r in y.calls && y.calls[r].pid == y.watched[m]
    ensures WiresOf(y, r) == [] && y.calls[r].pid in y.dead
  {
  }

  lemma MonitorPurpose(s: Owner, m: Ref)
    requires Running(s) && m in s.monitors
    ensures PurposeBacked(s, m, s.monitors[m])
  {
    RunningMonitors(s);
    hide Running;
    assert Watches(s, m, s.monitors[m]);
  }

  lemma DownOf(s: Owner, m: Ref, supply: Ref)
    ensures !Deciding(MonitorDownMsg(m)) && Expected(s, MonitorDownMsg(m), supply) == ExpectedDown(s, m) && Buries(s, MonitorDownMsg(m)) == {}
  {
    hide ExpectedDown;
  }

  lemma IdleDown(y: Sys, m: Ref)
    requires Consistent(y) && y.life.Up? && m in y.watched && m !in y.owner.monitors
    ensures Consistent(Handled(y, MonitorDownMsg(m), y.watched[m]))
  {
    assert ExpectedDown(y.owner, m) == ViewOf(y.owner);
    assert Names(y, y);
    hide *;
    UpFacts(y);
    DownOf(y.owner, m, y.next);
    PlainAdmissible(y.owner, MonitorDownMsg(m), y.next);
    SameViewStep(ViewOf(y.owner), ViewOf(y.owner), y.named, y.known.Keys, y.next, y.next, {});
    NoMine(y);
    NextUncalled(y);
    EventDone(y, y, MonitorDownMsg(m), y.watched[m], y.next, {});
  }

  lemma ReservationWaits(x: Ctx, r: Ref, q: Call, gone: bool)
    requires CallInv(x, r, q, [], gone) && x.on && r in x.v.reservations && q.kind.Issuing?
    ensures q.phase.AwaitReservation?
  {
  }

  lemma ReservationBacked(y: Sys, r: Ref, m: Ref)
    requires Backed(ViewOf(y.owner), y.calls, y.watched, y.roots) && r in y.owner.reservations && y.owner.reservations[r].monitor == m
    ensures r in y.calls && y.calls[r].kind.Issuing? && m in y.watched && y.calls[r].pid == y.watched[m]
    ensures r in ViewOf(y.owner).reservations
  {
    ViewReservations(y.owner);
    hide ViewOf;
    assert IssuesFor(y.calls, r, ViewOf(y.owner).reservations[r].replyTo);
  }

  lemma ReservationPurpose(y: Sys, m: Ref, r: Ref)
    requires Running(y.owner) && Fires(y, m) && m in y.owner.monitors && y.owner.monitors[m] == ForReservation(r)
    ensures r in y.owner.reservations && y.owner.reservations[r].monitor == m && m in y.watched && Names(y, y)
    ensures var v := ViewOf(y.owner); ExpectedDown(y.owner, m) == v.(reservations := v.reservations - {r})
  {
    MonitorPurpose(y.owner, m);
    hide Running, ViewOf;
  }

  lemma IssuePurpose(y: Sys, m: Ref, t: Ref, r: Ref)
    requires Running(y.owner) && Fires(y, m) && m in y.owner.monitors && y.owner.monitors[m] == ForIssue(t, r)
    ensures t in y.owner.leases && y.owner.leases[t].pendingIssue == Some(Pending(m, r)) && m in y.watched && Names(y, y)
    ensures ExpectedDown(y.owner, m) == LeaveAll(ViewOf(y.owner), t)
  {
    MonitorPurpose(y.owner, m);
    hide Running, ViewOf, LeaveAll;
  }

  lemma ReservationDown(y: Sys, m: Ref, r: Ref)
    requires Consistent(y) && y.life.Up? && Fires(y, m) && m in y.owner.monitors && y.owner.monitors[m] == ForReservation(r)
    ensures Consistent(Handled(y, MonitorDownMsg(m), y.watched[m]))
  {
    hide *;
    var s := y.owner;
    var v := ViewOf(s);
    UpFacts(y);
    ReservationPurpose(y, m, r);
    var w := Handled(y, MonitorDownMsg(m), y.watched[m]);
    ReservationBacked(y, r, m);
    NothingLeft(y, m, r);
    CallOf(y, r);
    ReservationWaits(CtxOf(y), r, y.calls[r], true);
    DownOf(s, m, y.next);
    PlainAdmissible(s, MonitorDownMsg(m), y.next);
    EventReady(y, y, MonitorDownMsg(m), y.watched[m], r);
    SamePends(v, CtxOf(w).v, r);
    OwnDown(CtxOf(y), CtxOf(w), r, y.calls[r]);
    SameViewStep(v, CtxOf(w).v, y.named, y.known.Keys, y.next, r, {});
    NoMine(y);
    EventDone(y, y, MonitorDownMsg(m), y.watched[m], r, {});
  }

  lemma SamePends(v: View, w: View, r: Ref)
    requires w.claims == v.claims
    ensures forall t :: Pends(w, t, r) ==> Pends(v, t, r)
  {
  }

  lemma IssueWaits(x: Ctx, r: Ref, q: Call, gone: bool, t: Ref)
    requires CallInv(x, r, q, [], gone) && x.on && Pends(x.v, t, r) && q.kind.Issuing?
    ensures q.phase.AwaitIssue?
  {
  }

  lemma IssueBacked(y: Sys, t: Ref, r: Ref, m: Ref)
    requires Backed(ViewOf(y.owner), y.calls, y.watched, y.roots) && t in y.owner.leases && y.owner.leases[t].pendingIssue == Some(Pending(m, r))
    ensures Pends(ViewOf(y.owner), t, r) && r in y.calls && y.calls[r].kind.Issuing? && m in y.watched && y.calls[r].pid == y.watched[m]
  {
    assert Pends(ViewOf(y.owner), t, r) && ViewOf(y.owner).claims[t].pendingIssue.value.monitor == m;
  }

  lemma LeaveAllPends(v: View, t: Ref, r: Ref)
    ensures forall u :: Pends(LeaveAll(v, t), u, r) ==> Pends(v, u, r)
    ensures LeaveAll(v, t).reservations == v.reservations
  {
  }

  lemma IssueDown(y: Sys, m: Ref, t: Ref, r: Ref)
    requires Consistent(y) && y.life.Up? && Fires(y, m) && m in y.owner.monitors && y.owner.monitors[m] == ForIssue(t, r)
    ensures Consistent(Handled(y, MonitorDownMsg(m), y.watched[m]))
  {
    hide *;
    var s := y.owner;
    var v := ViewOf(s);
    UpFacts(y);
    IssuePurpose(y, m, t, r);
    var w := Handled(y, MonitorDownMsg(m), y.watched[m]);
    IssueBacked(y, t, r, m);
    NothingLeft(y, m, r);
    CallOf(y, r);
    IssueWaits(CtxOf(y), r, y.calls[r], true, t);
    if t in y.known { KnownPending(y, t, r); }
    DownOf(s, m, y.next);
    PlainAdmissible(s, MonitorDownMsg(m), y.next);
    EventReady(y, y, MonitorDownMsg(m), y.watched[m], r);
    LeaveAllPends(v, t, r);
    OwnDown(CtxOf(y), CtxOf(w), r, y.calls[r]);
    LeaveAllStep(v, t, y.named, y.known.Keys, y.next, r);
    NoMine(y);
    EventDone(y, y, MonitorDownMsg(m), y.watched[m], r, {});
  }

  lemma RetainWaits(x: Ctx, r: Ref, q: Call, gone: bool, p: Pending)
    requires CallInv(x, r, q, [], gone) && x.on && q.kind.Retaining? && Unconfirmed(x.v, q.kind.token, q.kind.child, p)
    ensures q.phase.AwaitRetain? && q.kind.child == r + 1 && q.kind.child !in x.roots
  {
  }

  lemma ChildBacked(y: Sys, t: Ref, c: Ref, m: Ref) returns (p: Pending)
    requires Backed(ViewOf(y.owner), y.calls, y.watched, y.roots) && t in y.owner.leases && c in y.owner.leases[t].pendingRetains
    requires y.owner.leases[t].pendingRetains[c].monitor == m
    ensures Unconfirmed(ViewOf(y.owner), t, c, p) && p.request in y.calls && y.calls[p.request].kind.Retaining?
    ensures y.calls[p.request].kind.token == t && y.calls[p.request].kind.child == c
    ensures m in y.watched && y.calls[p.request].pid == y.watched[m]
  {
    p := y.owner.leases[t].pendingRetains[c];
    assert Unconfirmed(ViewOf(y.owner), t, c, p);
  }

  lemma ChildDownShape(s: Owner, m: Ref, t: Ref, c: Ref)
    requires m in s.monitors && s.monitors[m] == ForRetain(t, c)
    ensures ExpectedDown(s, m) == Leave(ViewOf(s), t, c)
    ensures PurposeBacked(s, m, s.monitors[m]) ==> t in s.leases && c in s.leases[t].pendingRetains && s.leases[t].pendingRetains[c].monitor == m
  {
    hide ViewOf, Leave;
  }

  lemma NamesSelf(y: Sys)
    ensures Names(y, y)
  {
  }

  lemma ChildDown(y: Sys, m: Ref, t: Ref, c: Ref)
    requires Consistent(y) && y.life.Up? && Fires(y, m) && m in y.owner.monitors && y.owner.monitors[m] == ForRetain(t, c)
    ensures Consistent(Handled(y, MonitorDownMsg(m), y.watched[m]))
  {
    hide *;
    ChildDownShape(y.owner, m, t, c);
    UpFacts(y);
    MonitorPurpose(y.owner, m);
    var p := ChildBacked(y, t, c, m);
    var r := p.request;
    NothingLeft(y, m, r);
    CallOf(y, r);
    RetainWaits(CtxOf(y), r, y.calls[r], true, p);
    DownOf(y.owner, m, y.next);
    ChildDone(y, m, r);
  }

  lemma ChildDone(y: Sys, m: Ref, r: Ref)
    requires Consistent(y) && y.life.Up? && m in y.watched && r in y.calls && y.calls[r].kind.Retaining? && y.calls[r].phase.AwaitRetain?
    requires y.calls[r].pid in y.dead && WiresOf(y, r) == [] && CallInv(CtxOf(y), r, y.calls[r], [], true)
    requires y.calls[r].kind.child == r + 1 && y.calls[r].kind.child !in y.roots
    requires Expected(y.owner, MonitorDownMsg(m), y.next) == Leave(ViewOf(y.owner), y.calls[r].kind.token, y.calls[r].kind.child)
    requires !Deciding(MonitorDownMsg(m)) && Buries(y.owner, MonitorDownMsg(m)) == {}
    ensures Consistent(Handled(y, MonitorDownMsg(m), y.watched[m]))
  {
    hide *;
    var t, c := y.calls[r].kind.token, y.calls[r].kind.child;
    var w := Handled(y, MonitorDownMsg(m), y.watched[m]);
    NamesSelf(y);
    UpFacts(y);
    PlainAdmissible(y.owner, MonitorDownMsg(m), y.next);
    EventReady(y, y, MonitorDownMsg(m), y.watched[m], r);
    OwnChildDown(CtxOf(y), CtxOf(w), r, y.calls[r]);
    LeaveStep(ViewOf(y.owner), t, c, y.named, y.known.Keys, y.next, r, {c});
    MineApart(y, r, c);
    EventDone(y, y, MonitorDownMsg(m), y.watched[m], r, {c});
  }

  lemma NoIssueOnlyMonitor(s: Owner, m: Ref)
    requires Running(s) && m in s.monitors
    ensures !s.monitors[m].ForIssuePending?
  {
    MonitorPurpose(s, m);
    hide Running;
  }

  lemma WatchShape(y: Sys, m: Ref)
    requires Enabled(y, WatchFires(m))
    ensures Fires(y, m) && y.life.Up?
    ensures Next(y, WatchFires(m)) == Handled(y, MonitorDownMsg(m), y.watched[m])
  {
    hide Handled;
  }

  lemma FiresWatched(y: Sys, m: Ref)
    requires Fires(y, m)
    ensures m in y.watched
  {
  }

  /** A `DOWN` for a dead client undoes what it left unconfirmed and nothing else. */
  lemma WatchKeeps(y: Sys, m: Ref)
    requires Consistent(y) && Enabled(y, WatchFires(m))
    ensures Consistent(Next(y, WatchFires(m)))
  {
    hide *;
    WatchShape(y, m);
    FiresWatched(y, m);
    UpFacts(y);
    if m !in y.owner.monitors {
      IdleDown(y, m);
    } else {
      NoIssueOnlyMonitor(y.owner, m);
      match y.owner.monitors[m]
      case ForReservation(r) => ReservationDown(y, m, r);
      case ForIssue(t, r) => IssueDown(y, m, t, r);
      case ForRetain(t, c) => ChildDown(y, m, t, c);
    }
  }

  // ---- releases, abandonments, and the rest ------------------------------------------------

  function Naming(t: Ref, h: Ref, kind: Tombstone): Message { if kind.Abandoned? then AbandonedMsg(t, h) else ReleaseMsg(t, h) }

  ghost function Recorded(y: Sys, t: Ref, h: Ref): Sys { y.(named := y.named + {(t, h)}) }

  lemma NameShape(y: Sys, t: Ref, h: Ref, kind: Tombstone)
    requires Enabled(y, NameHolder(t, h, kind))
    ensures y.life.Up? && Names(y, Recorded(y, t, h)) && (t, h) in Recorded(y, t, h).named
    ensures Next(y, NameHolder(t, h, kind)) == Handled(Recorded(y, t, h), Naming(t, h, kind), 0)
  {
    hide Handled;
  }

  lemma NamingExpected(s: Owner, t: Ref, h: Ref, kind: Tombstone, supply: Ref)
    ensures !Deciding(Naming(t, h, kind)) && !Naming(t, h, kind).DrainMsg?
    ensures Expected(s, Naming(t, h, kind), supply) == Leave(ViewOf(s), t, h)
  {
    hide Leave, ViewOf;
  }

  lemma NameDone(y: Sys, z: Sys, m: Message, t: Ref, h: Ref)
    requires Consistent(y) && y.life.Up? && Names(y, z) && (t, h) in z.named && !Deciding(m) && !m.DrainMsg?
    requires Expected(y.owner, m, y.next) == Leave(ViewOf(y.owner), t, h)
    ensures Consistent(Handled(z, m, 0))
  {
    hide *;
    UpFacts(y);
    PlainAdmissible(y.owner, m, y.next);
    LeaveStep(ViewOf(y.owner), t, h, z.named, y.known.Keys, y.next, y.next, {});
    NoMine(y);
    NextUncalled(y);
    EventDone(y, z, m, 0, y.next, {});
  }

  lemma NameKeeps(y: Sys, t: Ref, h: Ref, kind: Tombstone)
    requires Consistent(y) && Enabled(y, NameHolder(t, h, kind))
    ensures Consistent(Next(y, NameHolder(t, h, kind)))
  {
    hide *;
    NameShape(y, t, h, kind);
    NamingExpected(y.owner, t, h, kind, y.next);
    NameDone(y, Recorded(y, t, h), Naming(t, h, kind), t, h);
  }

  lemma ElsewhereExpected(s: Owner, m: Message, supply: Ref)
    requires IsElsewhere(s, m)
    ensures !Deciding(m)
    ensures var v, w := ViewOf(s), Expected(s, m, supply);
            || (w.claims == v.claims && w.reservations == v.reservations)
            || (m.ResultMsg? && AnswersJob(s, m.token, m.generation) && w == v.(claims := v.claims - {m.token}, successes := v.successes + 1))
  {
    hide ViewOf, AnswersJob;
  }

  lemma AnsweredUnheld(s: Owner, t: Ref, generation: Ref)
    requires Running(s) && AnswersJob(s, t, generation)
    ensures t in ViewOf(s).claims ==> ViewOf(s).claims[t].holders == {}
  {
    RunningEntries(s);
    assert EntryShape(s.leases[t]);
  }

  lemma ElsewhereStep(y: Sys, m: Message)
    requires Running(y.owner) && IsElsewhere(y.owner, m)
    ensures ViewStep(ViewOf(y.owner), Expected(y.owner, m, y.next), y.named, y.known.Keys, y.next, y.next, {})
  {
    hide *;
    var s, v, w := y.owner, ViewOf(y.owner), Expected(y.owner, m, y.next);
    ElsewhereExpected(s, m, y.next);
    if w.claims == v.claims && w.reservations == v.reservations {
      SameViewStep(v, w, y.named, y.known.Keys, y.next, y.next, {});
    } else {
      AnsweredUnheld(s, m.token, m.generation);
      SuccessStep(v, m.token, y.named, y.known.Keys, y.next, y.next);
    }
  }

  lemma ElsewhereAdmissible(s: Owner, m: Message, supply: Ref)
    requires Unused(s, supply) && IsElsewhere(s, m) && (m.DrainMsg? ==> IsFirstFailure(s, m.pick))
    ensures Admissible(s, m, supply) && !Deciding(m)
  {
    hide Unused, IsFirstFailure;
  }

  lemma ElsewhereShape(y: Sys, m: Message)
    requires Enabled(y, Elsewhere(m))
    ensures y.life.Up? && IsElsewhere(y.owner, m) && (m.DrainMsg? ==> IsFirstFailure(y.owner, m.pick))
    ensures Next(y, Elsewhere(m)) == Handled(y, m, 0)
  {
    hide Handled, IsFirstFailure;
  }

  lemma ElsewhereKeeps(y: Sys, m: Message)
    requires Consistent(y) && Enabled(y, Elsewhere(m))
    ensures Consistent(Next(y, Elsewhere(m)))
  {
    hide *;
    ElsewhereShape(y, m);
    NamesSelf(y);
    UpFacts(y);
    ElsewhereAdmissible(y.owner, m, y.next);
    ElsewhereStep(y, m);
    NoMine(y);
    NextUncalled(y);
    EventDone(y, y, m, 0, y.next, {});
  }

  // ---- every action, every run -------------------------------------------------------------

  lemma ConsumeShape(y: Sys, pid: Pid, guard: Guard, now: int)
    requires Enabled(y, Consume(pid, guard, now))
    ensures y.life.Up? && Unread(y, pid) != []
    ensures var wire := Unread(y, pid)[0];
            var z := y.(out := y.out[pid := Unread(y, pid)[1..]]);
            Takes1(y, z, pid, wire) && Next(y, Consume(pid, guard, now)) == Handled(z, Delivered(wire, pid, guard, now), pid)
  {
    hide Handled, Delivered;
  }

  lemma ConsumeKeeps(y: Sys, pid: Pid, guard: Guard, now: int)
    requires Consistent(y) && Enabled(y, Consume(pid, guard, now))
    ensures Consistent(Next(y, Consume(pid, guard, now)))
  {
    ConsumeShape(y, pid, guard, now);
    var wire := Unread(y, pid)[0];
    var z := y.(out := y.out[pid := Unread(y, pid)[1..]]);
    hide Consistent, Enabled, Next, Handled, Takes1, Unread;
    match wire
    case AskReserve(_, _) => ConsumeReserve(y, z, pid, wire);
    case SendCommit(_, _, _) => ConsumeCommit(y, z, pid, wire, guard, now);
    case DropReservation(_) => ConsumeDropReservation(y, z, pid, wire);
    case ConfirmToken(_, _) => ConsumeConfirmToken(y, z, pid, wire);
    case DropIssue(_) => ConsumeDropIssue(y, z, pid, wire);
    case AskRetain(_, _, _, _) => ConsumeRetain(y, z, pid, wire, guard);
    case ConfirmChild(_, _, _) => ConsumeConfirmChild(y, z, pid, wire);
    case DropChild(_, _, _) => ConsumeDropChild(y, z, pid, wire);
  }

  lemma EnabledFacts(y: Sys, a: Action)
    requires Enabled(y, a)
    ensures a.StartIssue? ==> a.pid !in y.dead
    ensures a.StartRetain? ==> a.pid !in y.dead && a.token in y.known
    ensures a.NameHolder? || a.Kill? ==> y.life.Up?
    ensures a.Die? ==> Next(y, a) == y.(dead := y.dead + {a.pid})
    ensures a.Kill? ==> Next(y, a) == y.(life := Killed)
  {
  }

  /** Every action keeps the invariant. */
  lemma StepKeeps(y: Sys, a: Action)
    requires Consistent(y) && Enabled(y, a)
    ensures Consistent(Next(y, a))
  {
    EnabledFacts(y, a);
    hide *;
    match a
    case StartIssue(pid, metadata, backend) => StartIssueKeeps(y, pid, metadata, backend);
    case GetReserved(r, reserved) => ReservedKeeps(y, r, reserved);
    case GiveUpReservation(r) => GiveUpReservationKeeps(y, r);
    case GetIssued(r, issued) =>
      if issued.Accepted? { LeasedKeeps(y, r, issued.value.0, issued.value.1); } else { IssueRefusedKeeps(y, r, issued.reason); }
    case GiveUpIssue(r) => GiveUpIssueKeeps(y, r);
    case StartRetain(pid, token, parent) => StartRetainKeeps(y, pid, token, parent);
    case GetRetained(r, retained, validGuard) => RetainedKeeps(y, r, retained, validGuard);
    case GiveUpRetain(r) => GiveUpRetainKeeps(y, r);
    case OwnerGone(r) => OwnerGoneKeeps(y, r);
    case Die(pid) => DieKeeps(y, pid);
    case Consume(pid, guard, now) => ConsumeKeeps(y, pid, guard, now);
    case WatchFires(m) => WatchKeeps(y, m);
    case NameHolder(t, h, kind) => NameKeeps(y, t, h, kind);
    case Elsewhere(m) => ElsewhereKeeps(y, m);
    case Kill => KillKeeps(y);
  }
}
