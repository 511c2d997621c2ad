/** Consuming a reserve, a commit or a retain: the messages that grant something. */
module LeaseSystemRequests {
  import opened Common
  import opened LeaseModel
  import opened LeaseInvariant
  import opened LeaseHandlers
  import opened LeaseRefinement
  import opened LeaseResults
  import opened LeaseReplies
  import opened LeaseRejections
  import opened LeaseSystem
  import opened LeaseSystemInvariant
  import opened LeaseSystemOwner
  import opened LeaseSystemSteps
  import opened LeaseSystemClients
  import opened LeaseSystemCalls
  import opened LeaseSystemMessages
  import opened LeaseSystemActions

  // ---- reserve -----------------------------------------------------------------------------

  lemma AskingIsNew(x: Ctx, r: Ref, q: Call, ws: seq<Wire>, gone: bool)
    requires CallInv(x, r, q, ws, gone) && x.on && ws != [] && ws[0].AskReserve?
    ensures r !in x.v.reservations && forall t :: !Pends(x.v, t, r)
  {
  }

  lemma ReserveAdmissible(s: Owner, r: Ref, metadata: Term, pid: Pid, supply: Ref)
    requires Running(s) && Unused(s, supply) && r !in ViewOf(s).reservations && forall t :: !Pends(ViewOf(s), t, r)
    ensures Admissible(s, ReserveMsg(metadata, pid, r), supply)
  {
    ViewReservations(s);
    hide Unused;
    if r in s.pendingIssues { IndexedPends(s, r); }
    hide Running, ViewOf, Pends;
  }

  lemma {:induction false} ReserveBacked(v: View, w: View, calls: map<Ref, Call>, watched: map<Ref, Pid>, roots: set<Ref>, r: Ref, e: Reservation)
    requires Backed(v, calls, watched, roots) && w == v.(reservations := v.reservations[r := e])
    requires IssuesFor(calls, r, e.replyTo) && Watched(watched, e.monitor, e.replyTo)
    ensures Backed(w, calls, watched, roots)
  {
    assert forall t, o :: Pends(w, t, o) <==> Pends(v, t, o);
    assert forall t, c, p :: Unconfirmed(w, t, c, p) <==> Unconfirmed(v, t, c, p);
    assert forall t, h :: HeldBy(w, t, h) <==> HeldBy(v, t, h);
  }

  /** Reading a reserve either books a reservation for this call or refuses it, and answers once. */
  lemma ConsumeReserve(y: Sys, z: Sys, pid: Pid, wire: Wire)
    requires Consistent(y) && y.life.Up? && Takes1(y, z, pid, wire) && wire.AskReserve?
    ensures Consistent(Handled(z, ReserveMsg(wire.metadata, pid, wire.request), pid))
  {
    hide *;
    var r, m := wire.request, ReserveMsg(wire.metadata, pid, wire.request);
    var s := y.owner;
    var w := Handled(z, m, pid);
    Reads(y, z, pid, wire);
    WireKind(CtxOf(y), r, y.calls[r], WiresOf(y, r), pid in y.dead);
    AskingIsNew(CtxOf(y), r, y.calls[r], WiresOf(y, r), pid in y.dead);
    ReserveAdmissible(s, r, wire.metadata, pid, y.next);
    HandlesMessage(z, m, pid);
    ReserveHandled(s, wire.metadata, pid, r, y.next);
    var a := ReservedAnswer(s, y.next);
    NamedSame(CtxOf(y), z);
    MessageKinds(m);
    GrowsBy(CtxOf(y), z, m, pid, w);
    RejectedSubset(y);
    OwnReserve(CtxOf(y), CtxOf(w), r, y.calls[r], WiresOf(y, r), pid in y.dead, a, y.next, wire.metadata);
    TakesOwned(y, z, r);
    TakesDead(y, z, pid, wire);
    FinishCall(y, z, w, m, pid, r);
    HandlingSame(z, m, pid, w);
    ReservedBacked(y, w, r, pid, a, wire.metadata);
    ReserveStep(ViewOf(s), CtxOf(w).v, y.named, y.known.Keys, y.next, r, Reservation(if a.Accepted? then a.value else 0, pid, y.next, wire.metadata));
    NoMine(y);
    Concludes(y, z, m, pid, w, r, {});
  }

  lemma TakesDead(y: Sys, z: Sys, pid: Pid, m: Wire)
    requires Takes1(y, z, pid, m)
    ensures z.dead == y.dead
  {
  }

  lemma MessageKinds(m: Message)
    ensures m.ReserveMsg? || m.RetainMsg? || m.CommitMsg? ==> Deciding(m) && Asker(m) == m.request
    ensures m.ReserveMsg? || m.RetainMsg? ==> !m.CommitMsg?
  {
  }

  lemma RejectedSubset(y: Sys)
    ensures CtxOf(y).rejecting <= CtxOf(y).accepted
  {
  }

  lemma HandlingSame(z: Sys, m: Message, pid: Pid, w: Sys)
    requires Handling(z, m, pid, w)
    ensures w.calls == z.calls && w.watched == z.watched[z.next := pid] && CtxOf(w).v == ViewOf(w.owner)
    ensures ViewOf(w.owner) == Expected(z.owner, m, z.next)
    ensures !m.CommitMsg? ==> w.roots == z.roots && w.accepted == z.accepted
    ensures m.CommitMsg? ==> w.roots == z.roots + {z.next + 3} && w.accepted == z.accepted + {m.request}
  {
    hide Expected, ViewOf;
  }

  function ReservedAnswer(s: Owner, supply: Ref): Reply<Ref> {
    if s.mode.Draining? then Refused(IsDraining) else if !CapacityAvailable(s) then Refused(Capacity) else Accepted(supply + 1)
  }

  lemma ReserveHandled(s: Owner, metadata: Term, pid: Pid, r: Ref, supply: Ref)
    requires Runnable(s)
    ensures Handle(s, ReserveMsg(metadata, pid, r), supply).sent == {ReservedReply(r, ReservedAnswer(s, supply))}
    ensures ReservedAnswer(s, supply).Accepted? ==>
              Expected(s, ReserveMsg(metadata, pid, r), supply)
              == ViewOf(s).(reservations := ViewOf(s).reservations[r := Reservation(ReservedAnswer(s, supply).value, pid, supply, metadata)])
    ensures ReservedAnswer(s, supply).Refused? ==> Expected(s, ReserveMsg(metadata, pid, r), supply) == ViewOf(s)
  {
    hide Runnable, CapacityAvailable, Claims;
  }

  lemma ReserveStep(v: View, w: View, named: set<(Ref, Ref)>, known: set<Ref>, next: Ref, r: Ref, e: Reservation)
    requires w == v || w == v.(reservations := v.reservations[r := e])
    ensures ViewStep(v, w, named, known, next, r, {})
  {
    hide ViewStep;
    SameViewStep(v, w, named, known, next, r, {});
  }

  lemma ReservedBacked(y: Sys, w: Sys, r: Ref, pid: Pid, a: Reply<Ref>, metadata: Term)
    requires Backed(ViewOf(y.owner), y.calls, y.watched, y.roots) && ViewFresh(ViewOf(y.owner), y.next)
    requires w.calls == y.calls && w.roots == y.roots && w.watched == y.watched[y.next := pid]
    requires r in y.calls && y.calls[r].pid == pid && y.calls[r].kind.Issuing?
    requires a.Refused? ==> ViewOf(w.owner) == ViewOf(y.owner)
    requires a.Accepted? ==> ViewOf(w.owner) == ViewOf(y.owner).(reservations := ViewOf(y.owner).reservations[r := Reservation(a.value, pid, y.next, metadata)])
    ensures Backed(ViewOf(w.owner), w.calls, w.watched, w.roots)
  {
    hide Backed, ViewOf, ViewFresh;
    FreshMonitors(ViewOf(y.owner), y.next);
    BackedWatched(ViewOf(y.owner), y.calls, y.watched, y.roots, y.next, pid);
    if a.Accepted? {
      ReserveBacked(ViewOf(y.owner), ViewOf(w.owner), y.calls, w.watched, y.roots, r, Reservation(a.value, pid, y.next, metadata));
    }
  }

  // ---- commit ------------------------------------------------------------------------------

  lemma CommittingIsReserved(x: Ctx, r: Ref, q: Call, ws: seq<Wire>, gone: bool)
    requires CallInv(x, r, q, ws, gone) && x.on && ws != [] && ws[0].SendCommit?
    ensures Reserved(x.v, r, ws[0].reservation, q.pid) && r !in x.accepted
  {
  }

  /** A commit in flight finds its reservation: the protocol-corruption stop is not taken. */
  lemma CommitAdmissible(s: Owner, wire: Wire, pid: Pid, guard: Guard, now: int, supply: Ref)
    requires Unused(s, supply) && wire.SendCommit? && Reserved(ViewOf(s), wire.request, wire.reservation, pid)
    ensures Admissible(s, CommitMsg(wire.reservation, wire.backend, pid, wire.request, guard, now), supply)
  {
    ViewReservations(s);
    hide Unused, ViewOf;
  }

  lemma CommitHandled(s: Owner, wire: Wire, pid: Pid, guard: Guard, now: int, supply: Ref)
    requires Runnable(s) && wire.SendCommit? && Reserved(ViewOf(s), wire.request, wire.reservation, pid)
    ensures var m := CommitMsg(wire.reservation, wire.backend, pid, wire.request, guard, now);
            && (guard.GuardBuilt? ==> Handle(s, m, supply).sent == {IssuedReply(wire.request, Accepted((supply + 2, supply + 3)))})
            && (guard.GuardFailed? ==> Silent(Handle(s, m, supply).sent))
            && Expected(s, m, supply) == ExpectedCommit(ViewOf(s), wire.request, guard, supply)
  {
    ViewReservations(s);
    assert CommitMatches(s, wire.reservation, pid, wire.request);
    CommitReplies(s, wire.reservation, wire.backend, pid, wire.request, guard, now, supply);
    hide CommitIssue, Runnable, ViewOf, CommitMatches, ExpectedCommit;
  }

  lemma CommitContext(y: Sys, z: Sys, m: Message, pid: Pid, w: Sys)
    requires CtxOf(z) == CtxOf(y) && z.next == y.next && z.roots == y.roots && z.accepted == y.accepted && z.named == y.named && z.known == y.known
    requires y.life.Up? && Handling(z, m, pid, w) && m.CommitMsg? && OwnerOk(y)
    requires forall o :: Awaits(z.owner, o) ==> o in z.accepted
    ensures var x, u := CtxOf(y), CtxOf(w);
            && x.up && x.on && u.on && x.named <= u.named && x.known == u.known && x.next + 8 <= u.next
            && u.roots == x.roots + {x.next + 3} && u.accepted == x.accepted + {m.request}
            && (m.guard.GuardBuilt? ==> u.rejecting <= x.rejecting)
            && x.rejecting <= x.accepted
            && u.mail == w.mail && x.next == y.next
  {
    hide Expected, ViewOf, Successes, Awaits, Buries, OwnerOk;
    assert CtxOf(y).rejecting == RejectedBy(z.owner, z.accepted);
    if m.guard.GuardBuilt? {
      forall o | o in RejectedBy(w.owner, w.accepted) ensures o in RejectedBy(z.owner, z.accepted) {
        assert Awaits(z.owner, o) || StartsRejection(m, o);
      }
    }
  }

  lemma SilentMail(z: Sys, w: Sys, r: Ref, sent: set<Sent>)
    requires w.mail == z.mail + sent && Silent(sent)
    ensures Silently(z, w, r)
  {
  }

  lemma CommitBacked(v: View, calls: map<Ref, Call>, watched: map<Ref, Pid>, roots: set<Ref>, r: Ref, guard: Guard, supply: Ref)
    requires Backed(v, calls, watched, roots) && r in v.reservations && supply + 2 !in v.claims
    ensures Backed(ExpectedCommit(v, r, guard, supply), calls, watched, roots + {supply + 3})
  {
    var w := ExpectedCommit(v, r, guard, supply);
    assert forall t, o :: Pends(w, t, o) ==> Pends(v, t, o) || (t == supply + 2 && o == r);
    assert forall t, c, p :: Unconfirmed(w, t, c, p) ==> Unconfirmed(v, t, c, p);
    assert forall t, h :: HeldBy(w, t, h) ==> HeldBy(v, t, h) || h == supply + 3;
  }

  lemma CommittedBacked(y: Sys, w: Sys, r: Ref, pid: Pid, guard: Guard)
    requires Backed(ViewOf(y.owner), y.calls, y.watched, y.roots) && ViewFresh(ViewOf(y.owner), y.next)
    requires w.calls == y.calls && w.roots == y.roots + {y.next + 3} && w.watched == y.watched[y.next := pid]
    requires r in ViewOf(y.owner).reservations
    requires ViewOf(w.owner) == ExpectedCommit(ViewOf(y.owner), r, guard, y.next)
    ensures Backed(ViewOf(w.owner), w.calls, w.watched, w.roots)
  {
    var v := ViewOf(y.owner);
    assert forall t :: t in v.claims ==> t < y.next;
    hide Backed, ViewOf, ExpectedCommit, ViewFresh;
    FreshMonitors(v, y.next);
    BackedWatched(v, y.calls, y.watched, y.roots, y.next, pid);
    CommitBacked(v, y.calls, w.watched, y.roots, r, guard, y.next);
  }

  lemma FreshClaims(v: View, supply: Ref)
    requires ViewFresh(v, supply)
    ensures (forall t :: t in v.claims ==> t < supply) && supply + 2 !in v.claims
  {
  }

  lemma RootsBelow(y: Sys)
    requires Consistent(y)
    ensures {y.next + 3} !! y.roots
    ensures forall o :: o in y.calls && y.calls[o].kind.Retaining? ==> y.calls[o].kind.child !in {y.next + 3}
  {
    Unpack(y);
    hide Consistent;
    NextUncalled(y);
    hide CallsOk, OwnerOk, Balanced, WiresOwned;
  }

  lemma ReservedIs(v: View, r: Ref, n: Ref, pid: Pid)
    requires Reserved(v, r, n, pid)
    ensures r in v.reservations
  {
  }

  /** The message of a commit at the head of a channel. */
  function CommitOf(wire: Wire, pid: Pid, guard: Guard, now: int): Message
    requires wire.SendCommit?
  {
    CommitMsg(wire.reservation, wire.backend, pid, wire.request, guard, now)
  }

  lemma CommitReady(y: Sys, z: Sys, pid: Pid, wire: Wire, guard: Guard, now: int)
    requires Consistent(y) && y.life.Up? && Takes1(y, z, pid, wire) && wire.SendCommit?
    ensures var m, w := CommitOf(wire, pid, guard, now), Handled(z, CommitOf(wire, pid, guard, now), pid);
            && wire.request in y.calls && y.calls[wire.request].kind.Issuing?
            && wire.request in ViewOf(y.owner).reservations && wire.request !in y.accepted
            && Handling(z, m, pid, w) && OwnerOk(w)
            && Expected(y.owner, m, y.next) == ExpectedCommit(ViewOf(y.owner), wire.request, guard, y.next)
            && (guard.GuardBuilt? ==> w.mail == y.mail + {IssuedReply(wire.request, Accepted((y.next + 2, y.next + 3)))})
            && (guard.GuardFailed? ==> Silently(z, w, wire.request))
  {
    hide *;
    var r, m := wire.request, CommitMsg(wire.reservation, wire.backend, pid, wire.request, guard, now);
    CommitOfShape(wire, pid, guard, now);
    var w := Handled(z, m, pid);
    Reads(y, z, pid, wire);
    WireKind(CtxOf(y), r, y.calls[r], WiresOf(y, r), pid in y.dead);
    CommittingIsReserved(CtxOf(y), r, y.calls[r], WiresOf(y, r), pid in y.dead);
    ReservedIs(ViewOf(y.owner), r, wire.reservation, pid);
    CommitAdmissible(y.owner, wire, pid, guard, now, y.next);
    HandlesMessage(z, m, pid);
    CommitHandled(y.owner, wire, pid, guard, now, y.next);
    if guard.GuardFailed? { SilentMail(z, w, r, Handle(y.owner, m, y.next).sent); }
  }

  lemma CommitOfShape(wire: Wire, pid: Pid, guard: Guard, now: int)
    requires wire.SendCommit?
    ensures CommitOf(wire, pid, guard, now) == CommitMsg(wire.reservation, wire.backend, pid, wire.request, guard, now)
  {
  }

  lemma CommitOwn(y: Sys, z: Sys, pid: Pid, wire: Wire, m: Message, w: Sys)
    requires Consistent(y) && y.life.Up? && Takes1(y, z, pid, wire) && wire.SendCommit? && m.CommitMsg? && m.request == wire.request
    requires Handling(z, m, pid, w) && wire.request in y.calls && y.calls[wire.request].kind.Issuing? && wire.request !in y.accepted
    requires Expected(y.owner, m, y.next) == ExpectedCommit(ViewOf(y.owner), wire.request, m.guard, y.next)
    requires m.guard.GuardBuilt? ==> w.mail == y.mail + {IssuedReply(wire.request, Accepted((y.next + 2, y.next + 3)))}
    requires m.guard.GuardFailed? ==> Silently(z, w, wire.request)
    ensures CallInv(CtxOf(w), wire.request, y.calls[wire.request], WiresOf(y, wire.request)[1..], pid in y.dead)
  {
    hide *;
    var r := wire.request;
    Reads(y, z, pid, wire);
    NamedSame(CtxOf(y), z);
    HandlingSame(z, m, pid, w);
    Unpack(y);
    CommitContext(y, z, m, pid, w);
    NotRejecting(y, w, r);
    if m.guard.GuardFailed? { NoAnswerBy(CtxOf(y), z, m, pid, w, r); }
    FreshClaims(ViewOf(y.owner), y.next);
    ClaimsBelow(y);
    OwnCommit(CtxOf(y), CtxOf(w), r, y.calls[r], WiresOf(y, r), pid in y.dead, m.guard);
  }

  lemma ClaimsBelow(y: Sys)
    requires forall t :: t in ViewOf(y.owner).claims ==> t < y.next
    ensures forall t :: t in CtxOf(y).v.claims ==> t < CtxOf(y).next
  {
  }

  /** Reading a commit moves its reservation to an entry, whatever the guard factory says. */
  lemma ConsumeCommit(y: Sys, z: Sys, pid: Pid, wire: Wire, guard: Guard, now: int)
    requires Consistent(y) && y.life.Up? && Takes1(y, z, pid, wire) && wire.SendCommit?
    ensures Consistent(Handled(z, CommitMsg(wire.reservation, wire.backend, pid, wire.request, guard, now), pid))
  {
    hide *;
    CommitOfShape(wire, pid, guard, now);
    var m := CommitOf(wire, pid, guard, now);
    var w := Handled(z, m, pid);
    CommitReady(y, z, pid, wire, guard, now);
    CommitOwn(y, z, pid, wire, m, w);
    CommitDone(y, z, pid, wire, m, w);
  }

  lemma NotRejecting(y: Sys, w: Sys, r: Ref)
    requires r !in y.accepted
    ensures r !in CtxOf(y).rejecting
  {
  }

  lemma CommitDone(y: Sys, z: Sys, pid: Pid, wire: Wire, m: Message, w: Sys)
    requires Consistent(y) && y.life.Up? && Takes1(y, z, pid, wire) && m.CommitMsg? && m.request == wire.request
    requires Handling(z, m, pid, w) && OwnerOk(w)
    requires wire.request in y.calls && wire.request in ViewOf(y.owner).reservations && wire.request !in y.accepted
    requires Expected(y.owner, m, y.next) == ExpectedCommit(ViewOf(y.owner), wire.request, m.guard, y.next)
    requires CallInv(CtxOf(w), wire.request, y.calls[wire.request], WiresOf(y, wire.request)[1..], pid in y.dead)
    ensures Consistent(w)
  {
    hide *;
    var r := wire.request;
    Reads(y, z, pid, wire);
    MessageKinds(m);
    HandlingSame(z, m, pid, w);
    TakesOwned(y, z, r);
    TakesDead(y, z, pid, wire);
    FinishCall(y, z, w, m, pid, r);
    CommittedBacked(y, w, r, pid, m.guard);
    FreshClaims(ViewOf(y.owner), y.next);
    CommitStep(ViewOf(y.owner), r, m.guard, y.named, y.known.Keys, y.next);
    RootsBelow(y);
    Concludes(y, z, m, pid, w, r, {y.next + 3});
  }

  // ---- retain ------------------------------------------------------------------------------

  lemma AskingNotBuried(x: Ctx, r: Ref, q: Call, ws: seq<Wire>, gone: bool)
    requires CallInv(x, r, q, ws, gone) && x.on && ws != [] && ws[0].AskRetain?
    ensures q.kind.Retaining? && (q.kind.token, q.kind.child) !in x.buried
  {
  }

  lemma BuriedOf(y: Sys)
    ensures CtxOf(y).buried == y.owner.tombstones.kinds.Keys
  {
  }

  lemma RetainAdmissible(s: Owner, wire: Wire, guard: Guard, supply: Ref)
    requires Unused(s, supply) && wire.AskRetain? && (wire.token, wire.child) !in s.tombstones.kinds.Keys
    ensures Admissible(s, RetainMsg(wire.token, wire.parent, wire.child, wire.request, guard), supply)
  {
    hide Unused;
  }

  /** Whether a retain is granted. */
  ghost predicate Grants(s: Owner, t: Ref, parent: Ref, child: Ref, guard: Guard) {
    !s.mode.Draining? && t in s.leases && s.leases[t].status.Active? && parent in s.leases[t].holders && child !in s.leases[t].holders && guard.GuardBuilt?
  }

  lemma RetainHandled(s: Owner, wire: Wire, guard: Guard, supply: Ref)
    requires Runnable(s) && EntriesInv(s, None) && wire.AskRetain?
    ensures var m := RetainMsg(wire.token, wire.parent, wire.child, wire.request, guard);
            && Expected(s, m, supply) == ExpectedRetain(ViewOf(s), wire.token, wire.parent, wire.child, wire.request, guard, supply)
            && (Grants(s, wire.token, wire.parent, wire.child, guard) ==>
                  Handle(s, m, supply).sent == {RetainedReply(wire.request, Accepted(wire.child))}
                  && HeldBy(Expected(s, m, supply), wire.token, wire.child))
            && (!Grants(s, wire.token, wire.parent, wire.child, guard) ==>
                  Handle(s, m, supply).sent == {RetainedReply(wire.request, Refused(RetainRefusal(s, wire, guard)))}
                  && Expected(s, m, supply) == ViewOf(s))
  {
    if wire.token in s.leases { assert EntryShape(s.leases[wire.token]); }
    hide EntriesInv, Runnable;
  }

  function RetainRefusal(s: Owner, wire: Wire, guard: Guard): Reason
    requires wire.AskRetain?
  {
    if s.mode.Draining? then IsDraining
    else if wire.token !in s.leases then UnknownLease
    else if !s.leases[wire.token].status.Active? then LeaseNotActive
    else if wire.parent !in s.leases[wire.token].holders then UnknownParentHolder
    else if wire.child in s.leases[wire.token].holders then DuplicateHolder
    else if guard.GuardFailed? then GuardFactoryFailed(guard.code)
    else IsDraining
  }

  ghost function RetainAnswer(s: Owner, wire: Wire, guard: Guard): Reply<Ref>
    requires wire.AskRetain?
  {
    if Grants(s, wire.token, wire.parent, wire.child, guard) then Accepted(wire.child) else Refused(RetainRefusal(s, wire, guard))
  }

  lemma RetainBacked(v: View, calls: map<Ref, Call>, watched: map<Ref, Pid>, roots: set<Ref>,
                     t: Ref, parent: Ref, c: Ref, r: Ref, guard: Guard, supply: Ref)
    requires Backed(v, calls, watched, roots) && RetainsFor(calls, r, t, c) && c == r + 1 && Watched(watched, supply, calls[r].pid)
    ensures Backed(ExpectedRetain(v, t, parent, c, r, guard, supply), calls, watched, roots)
  {
    var w := ExpectedRetain(v, t, parent, c, r, guard, supply);
    assert IsChild(calls, t, c);
    assert forall u, o :: Pends(w, u, o) ==> Pends(v, u, o) && w.claims[u].pendingIssue == v.claims[u].pendingIssue;
    assert forall u, d, p :: Unconfirmed(w, u, d, p) ==> Unconfirmed(v, u, d, p) || (u == t && d == c && p == Pending(supply, r));
    assert forall u, h :: HeldBy(w, u, h) ==> HeldBy(v, u, h) || (u == t && h == c);
  }

  lemma RetainedBacked(y: Sys, w: Sys, wire: Wire, pid: Pid, guard: Guard)
    requires Backed(ViewOf(y.owner), y.calls, y.watched, y.roots) && ViewFresh(ViewOf(y.owner), y.next) && wire.AskRetain?
    requires w.calls == y.calls && w.roots == y.roots && w.watched == y.watched[y.next := pid]
    requires RetainsFor(y.calls, wire.request, wire.token, wire.child) && wire.child == wire.request + 1 && y.calls[wire.request].pid == pid
    requires ViewOf(w.owner) == ExpectedRetain(ViewOf(y.owner), wire.token, wire.parent, wire.child, wire.request, guard, y.next)
    ensures Backed(ViewOf(w.owner), w.calls, w.watched, w.roots)
  {
    var v := ViewOf(y.owner);
    hide Backed, ViewOf, ExpectedRetain, ViewFresh;
    FreshMonitors(v, y.next);
    BackedWatched(v, y.calls, y.watched, y.roots, y.next, pid);
    RetainBacked(v, y.calls, w.watched, y.roots, wire.token, wire.parent, wire.child, wire.request, guard, y.next);
  }

  lemma RetainsOwn(calls: map<Ref, Call>, r: Ref)
    requires r in calls && calls[r].kind.Retaining?
    ensures RetainsFor(calls, r, calls[r].kind.token, calls[r].kind.child)
  {
  }

  /** Reading a retain registers the child or refuses it, and answers once. */
  lemma ConsumeRetain(y: Sys, z: Sys, pid: Pid, wire: Wire, guard: Guard)
    requires Consistent(y) && y.life.Up? && Takes1(y, z, pid, wire) && wire.AskRetain?
    ensures Consistent(Handled(z, RetainMsg(wire.token, wire.parent, wire.child, wire.request, guard), pid))
  {
    hide *;
    var r, m := wire.request, RetainMsg(wire.token, wire.parent, wire.child, wire.request, guard);
    var s := y.owner;
    var w := Handled(z, m, pid);
    Reads(y, z, pid, wire);
    WireKind(CtxOf(y), r, y.calls[r], WiresOf(y, r), pid in y.dead);
    ChildIsNew(CtxOf(y), r, y.calls[r], WiresOf(y, r), pid in y.dead);
    RetainsOwn(y.calls, r);
    AskingNotBuried(CtxOf(y), r, y.calls[r], WiresOf(y, r), pid in y.dead);
    BuriedOf(y);
    RetainAdmissible(s, wire, guard, y.next);
    HandlesMessage(z, m, pid);
    RunningEntries(s);
    RetainHandled(s, wire, guard, y.next);
    RetainAnswers(s, wire, guard);
    NamedSame(CtxOf(y), z);
    MessageKinds(m);
    GrowsBy(CtxOf(y), z, m, pid, w);
    HandlingSame(z, m, pid, w);
    OwnRetain(CtxOf(y), CtxOf(w), r, y.calls[r], WiresOf(y, r), pid in y.dead, guard, RetainAnswer(s, wire, guard));
    RetainDone(y, z, pid, wire, m, w);
  }

  lemma RetainAnswers(s: Owner, wire: Wire, guard: Guard)
    requires wire.AskRetain?
    ensures Grants(s, wire.token, wire.parent, wire.child, guard) ==> RetainAnswer(s, wire, guard) == Accepted(wire.child)
    ensures !Grants(s, wire.token, wire.parent, wire.child, guard) ==> RetainAnswer(s, wire, guard) == Refused(RetainRefusal(s, wire, guard))
  {
    hide Grants, RetainRefusal;
  }

  lemma RetainDone(y: Sys, z: Sys, pid: Pid, wire: Wire, m: Message, w: Sys)
    requires Consistent(y) && y.life.Up? && Takes1(y, z, pid, wire) && wire.AskRetain?
    requires m.RetainMsg? && m.request == wire.request && m.token == wire.token && m.parent == wire.parent && m.child == wire.child
    requires Handling(z, m, pid, w) && OwnerOk(w)
    requires wire.request in y.calls && RetainsFor(y.calls, wire.request, wire.token, wire.child) && wire.child == wire.request + 1 && wire.child !in y.roots
    requires Expected(y.owner, m, y.next) == ExpectedRetain(ViewOf(y.owner), wire.token, wire.parent, wire.child, wire.request, m.guard, y.next)
    requires CallInv(CtxOf(w), wire.request, y.calls[wire.request], WiresOf(y, wire.request)[1..], pid in y.dead)
    ensures Consistent(w)
  {
    hide *;
    var r := wire.request;
    Reads(y, z, pid, wire);
    MessageKinds(m);
    HandlingSame(z, m, pid, w);
    TakesOwned(y, z, r);
    TakesDead(y, z, pid, wire);
    FinishCall(y, z, w, m, pid, r);
    RetainedBacked(y, w, wire, pid, m.guard);
    RetainStep(ViewOf(y.owner), wire.token, wire.parent, wire.child, r, m.guard, y.named, y.known.Keys, y.next);
    MineApart(y, r, wire.child);
    Concludes(y, z, m, pid, w, r, {wire.child});
  }
}
