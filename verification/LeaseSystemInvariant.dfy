/**
 What holds in every state of owner plus clients, one call at a time, and why a step taken for
 one call leaves the others alone.

 `Ctx` is what a call can depend on outside its own record and messages: the owner seen through
 `View`, the replies sent, and the history sets.
 */
module LeaseSystemInvariant {
  import opened Common
  import opened LeaseModel
  import opened LeaseInvariant
  import opened LeaseHandlers
  import opened LeaseRefinement
  import opened LeaseReplies
  import opened LeaseRejections
  import opened LeaseSystem

  /** `on` while the owner's tables still mean something: it runs, or stopped normally. */
  datatype Ctx = Ctx(
    up: bool,
    on: bool,
    v: View,
    mail: set<Sent>,
    named: set<(Ref, Ref)>,
    known: set<Ref>,
    roots: set<Ref>,
    accepted: set<Ref>,
    rejecting: set<Ref>,
    buried: set<(Ref, Ref)>,
    next: Ref)

  /** The calls a release job will answer with an error. */
  ghost function RejectedBy(s: Owner, calls: set<Ref>): set<Ref> { set r | r in calls && Awaits(s, r) }

  ghost function CtxOf(y: Sys): Ctx {
    Ctx(y.life.Up?, y.life.Up? || y.life.Stopped?, ViewOf(y.owner), y.mail, y.named, y.known.Keys, y.roots, y.accepted,
        RejectedBy(y.owner, y.accepted), y.owner.tombstones.kinds.Keys, y.next)
  }

  /** The messages of call `r`, in order. */
  function Of(wires: seq<Wire>, r: Ref): seq<Wire> {
    if wires == [] then []
    else if wires[0].request == r then [wires[0]] + Of(wires[1..], r)
    else Of(wires[1..], r)
  }

  // ---- views -------------------------------------------------------------------------------

  ghost predicate Reserved(v: View, r: Ref, reservation: Ref, pid: Pid) {
    r in v.reservations && v.reservations[r].reservation == reservation && v.reservations[r].replyTo == pid
  }

  ghost predicate Pends(v: View, t: Ref, r: Ref) {
    t in v.claims && v.claims[t].pendingIssue.Some? && v.claims[t].pendingIssue.value.request == r
  }

  ghost predicate HeldBy(v: View, t: Ref, h: Ref) { t in v.claims && h in v.claims[t].holders }

  ghost predicate Unconfirmed(v: View, t: Ref, c: Ref, p: Pending) {
    t in v.claims && c in v.claims[t].pendingRetains && v.claims[t].pendingRetains[c] == p
  }

  /** Only holders can be unconfirmed. */
  ghost predicate PendingHeld(v: View) { forall t, c, p :: Unconfirmed(v, t, c, p) ==> HeldBy(v, t, c) }

  // ---- one call ----------------------------------------------------------------------------

  /** What an issuing call has sent and not seen consumed, at each phase. */
  ghost predicate IssueWires(up: bool, r: Ref, q: Call, ws: seq<Wire>)
    requires q.kind.Issuing?
  {
    match q.phase
    case AwaitReservation => ws == [] || ws == [AskReserve(r, q.kind.metadata)]
    case AwaitIssue(n) => ws == [] || ws == [SendCommit(r, n, q.kind.backend)]
    case CallerOwned =>
      || ws == [] || ws == [DropReservation(r)] || ws == [AskReserve(r, q.kind.metadata), DropReservation(r)]
      || (!up && ws == [AskReserve(r, q.kind.metadata)])
    case Transferred(n) =>
      || ws == [] || ws == [DropIssue(r)] || ws == [SendCommit(r, n, q.kind.backend), DropIssue(r)]
      || (!up && ws == [SendCommit(r, n, q.kind.backend)])
    case Rejected => ws == []
    case Leased(t, _) => ws == [] || ws == [ConfirmToken(r, t)]
    case _ => false
  }

  predicate Asking(ws: seq<Wire>) { ws != [] && (ws[0].AskReserve? || ws[0].AskRetain?) }

  predicate Committing(ws: seq<Wire>) { ws != [] && ws[0].SendCommit? }

  /** Where a call can be while the owner still waits for its confirmation. */
  predicate IssueOpen(r: Ref, q: Call, ws: seq<Wire>) {
    || (q.phase.AwaitIssue? && ws == [])
    || ws == [DropIssue(r)]
    || (q.phase.Leased? && ws == [ConfirmToken(r, q.phase.token)])
  }

  predicate ReservationOpen(r: Ref, q: Call, ws: seq<Wire>) {
    (q.phase.AwaitReservation? && ws == []) || ws == [DropReservation(r)] || Committing(ws)
  }

  /** Holder `h` of token `t`, granted to call `r`, is registered until a release or abandonment names it. */
  ghost predicate Granted(x: Ctx, r: Ref, t: Ref, h: Ref) {
    && t < x.next && h in x.roots
    && ((t, h) in x.named || HeldBy(x.v, t, h))
    && (forall o :: Pends(x.v, t, o) ==> o == r)
    && (forall u :: Pends(x.v, u, r) ==> u == t)
  }

  ghost predicate IssueHistory(x: Ctx, r: Ref, q: Call, ws: seq<Wire>) {
    && r < x.next
    && (Asking(ws) ==> forall a :: ReservedReply(r, a) !in x.mail)
    && (forall g :: IssuedReply(r, Accepted(g)) in x.mail ==> r in x.accepted)
    && (forall m :: m in x.mail && RejectsIssue(m) && m.request == r ==> r in x.accepted)
    && (r in x.accepted ==>
          !Asking(ws) && !Committing(ws) && (q.phase.AwaitIssue? || q.phase.Transferred? || q.phase.Rejected? || q.phase.Leased?))
    && (forall a, b :: ReservedReply(r, a) in x.mail && ReservedReply(r, b) in x.mail ==> a == b)
  }

  /** The reservation side: a commit in flight has its reservation, and no call leaves one behind. */
  ghost predicate ReservationFacts(x: Ctx, r: Ref, q: Call, ws: seq<Wire>, gone: bool) {
    && (Asking(ws) ==> r !in x.v.reservations)
    && (Committing(ws) ==> Reserved(x.v, r, ws[0].reservation, q.pid))
    && (q.phase.AwaitReservation? && ws == [] && !gone ==>
          forall n :: ReservedReply(r, Accepted(n)) in x.mail ==> Reserved(x.v, r, n, q.pid))
    && (r in x.v.reservations ==> ReservationOpen(r, q, ws))
    && (forall reason :: ReservedReply(r, Refused(reason)) in x.mail ==> r !in x.v.reservations)
  }

  /** The grant side: a granted holder stays, and no entry stays unconfirmed. */
  ghost predicate GrantFacts(x: Ctx, r: Ref, q: Call, ws: seq<Wire>, gone: bool) {
    && (forall t :: Pends(x.v, t, r) ==> IssueOpen(r, q, ws) && r !in x.rejecting)
    && (forall m, t :: m in x.mail && RejectsIssue(m) && m.request == r ==> !Pends(x.v, t, r))
    && (q.phase.Rejected? ==> forall t :: !Pends(x.v, t, r))
    && (q.phase.AwaitIssue? && !gone ==>
          forall t, h :: IssuedReply(r, Accepted((t, h))) in x.mail ==> Granted(x, r, t, h))
    && (q.phase.Leased? ==> Granted(x, r, q.phase.token, q.phase.holder))
  }

  ghost predicate IssueInv(x: Ctx, r: Ref, q: Call, ws: seq<Wire>, gone: bool)
    requires q.kind.Issuing?
  {
    && IssueWires(x.up, r, q, ws)
    && IssueHistory(x, r, q, ws)
    && (x.on ==> ReservationFacts(x, r, q, ws, gone) && GrantFacts(x, r, q, ws, gone))
  }

  ghost predicate RetainWires(up: bool, r: Ref, q: Call, ws: seq<Wire>)
    requires q.kind.Retaining?
  {
    var ask := AskRetain(r, q.kind.token, q.kind.parent, q.kind.child);
    var confirm := ConfirmChild(r, q.kind.token, q.kind.child);
    var drop := DropChild(r, q.kind.token, q.kind.child);
    match q.phase
    case AwaitRetain => ws == [] || ws == [ask]
    case Kept => ws == [] || ws == [confirm]
    case Lost => ws == [] || ws == [drop] || ws == [ask, drop] || (!up && ws == [ask])
    case _ => false
  }

  ghost predicate RetainHistory(x: Ctx, r: Ref, q: Call, ws: seq<Wire>)
    requires q.kind.Retaining?
  {
    && q.kind.child == r + 1 && r + 1 < x.next && q.kind.token in x.known && q.kind.child !in x.roots && r !in x.accepted
    && (Asking(ws) ==> forall a :: RetainedReply(r, a) !in x.mail)
    && (forall n :: RetainedReply(r, Accepted(n)) in x.mail ==> n == q.kind.child)
    && (forall a, b :: RetainedReply(r, a) in x.mail && RetainedReply(r, b) in x.mail ==> a == b)
  }

  /** Where a call can be while its child holder is registered. */
  predicate ChildOpen(r: Ref, q: Call, ws: seq<Wire>)
    requires q.kind.Retaining?
  {
    (q.phase.AwaitRetain? && ws == []) || q.phase.Kept? || ws == [DropChild(r, q.kind.token, q.kind.child)]
  }

  predicate ChildUnconfirmed(r: Ref, q: Call, ws: seq<Wire>)
    requires q.kind.Retaining?
  {
    || (q.phase.AwaitRetain? && ws == [])
    || ws == [ConfirmChild(r, q.kind.token, q.kind.child)]
    || ws == [DropChild(r, q.kind.token, q.kind.child)]
  }

  ghost predicate ChildFacts(x: Ctx, r: Ref, q: Call, ws: seq<Wire>, gone: bool)
    requires q.kind.Retaining?
  {
    var t, c := q.kind.token, q.kind.child;
    && (Asking(ws) ==> (t, c) !in x.buried)
    && (HeldBy(x.v, t, c) ==> ChildOpen(r, q, ws))
    && (forall p :: Unconfirmed(x.v, t, c, p) ==> p.request == r && ChildUnconfirmed(r, q, ws))
    && (forall reason :: RetainedReply(r, Refused(reason)) in x.mail ==> !HeldBy(x.v, t, c))
    && ((q.phase.Kept? || (q.phase.AwaitRetain? && !gone && RetainedReply(r, Accepted(c)) in x.mail)) ==>
          (t, c) in x.named || HeldBy(x.v, t, c))
  }

  ghost predicate RetainInv(x: Ctx, r: Ref, q: Call, ws: seq<Wire>, gone: bool)
    requires q.kind.Retaining?
  {
    RetainWires(x.up, r, q, ws) && RetainHistory(x, r, q, ws) && (x.on ==> ChildFacts(x, r, q, ws, gone))
  }

  ghost predicate CallInv(x: Ctx, r: Ref, q: Call, ws: seq<Wire>, gone: bool) {
    match q.kind
    case Issuing(_, _) => IssueInv(x, r, q, ws, gone)
    case Retaining(_, _, _) => RetainInv(x, r, q, ws, gone)
  }

  // ---- a step taken for one call -----------------------------------------------------------

  /** From `x` to `w` only call `r` and the holders in `mine` were touched; other holders left only if named,
      or with a token no `issue` ever returned. */
  ghost predicate Affects(x: Ctx, w: Ctx, r: Ref, mine: set<Ref>) {
    && (w.up ==> x.up) && (w.on ==> x.on)
    && x.named <= w.named && x.known <= w.known && x.next <= w.next
    && x.roots <= w.roots <= x.roots + mine
    && x.accepted <= w.accepted <= x.accepted + {r}
    && x.mail <= w.mail
    && (forall m :: m in w.mail && m !in x.mail && Decides(m) ==> m.request == r)
    && w.rejecting <= x.rejecting + {r}
    && (forall m :: m in w.mail && m !in x.mail && RejectsIssue(m) ==> m.request in x.rejecting + {r})
    && x.rejecting <= x.accepted
    && (w.on ==> ViewAffects(x, w, r, mine))
  }

  ghost predicate ViewAffects(x: Ctx, w: Ctx, r: Ref, mine: set<Ref>) {
    && ViewStep(x.v, w.v, w.named, x.known, x.next, r, mine)
    && (forall id :: id in w.buried && id !in x.buried ==> HeldBy(x.v, id.0, id.1))
  }

  ghost predicate ViewStep(v: View, w: View, named: set<(Ref, Ref)>, known: set<Ref>, next: Ref, r: Ref, mine: set<Ref>) {
    && (forall o :: o != r ==> (o in v.reservations <==> o in w.reservations))
    && (forall o :: o != r && o in v.reservations && o in w.reservations ==> v.reservations[o] == w.reservations[o])
    && (forall t, o :: Pends(w, t, o) && o != r ==> Pends(v, t, o))
    && (forall t :: Pends(w, t, r) && !Pends(v, t, r) ==> next <= t)
    && (forall t, h :: HeldBy(w, t, h) && h !in mine ==> HeldBy(v, t, h))
    && (forall t, h :: HeldBy(v, t, h) && !HeldBy(w, t, h) ==>
          (t, h) in named || h in mine || (Pends(v, t, r) && t !in known))
    && (forall t, c, p :: Unconfirmed(w, t, c, p) && c !in mine ==> Unconfirmed(v, t, c, p))
  }

  lemma GrantedStays(x: Ctx, w: Ctx, o: Ref, mine: set<Ref>, r: Ref, t: Ref, h: Ref)
    requires Affects(x, w, o, mine) && w.on && r != o && mine !! x.roots && Granted(x, r, t, h)
    ensures Granted(w, r, t, h)
  {
  }

  lemma IssueStays(x: Ctx, w: Ctx, o: Ref, mine: set<Ref>, r: Ref, q: Call, ws: seq<Wire>, gone: bool)
    requires Affects(x, w, o, mine) && r != o && mine !! x.roots
    requires q.kind.Issuing? && IssueInv(x, r, q, ws, gone)
    ensures IssueInv(w, r, q, ws, gone)
  {
    assert IssueHistory(w, r, q, ws);
    if w.on {
      assert ReservationFacts(w, r, q, ws, gone);
      forall t, h | q.phase.AwaitIssue? && !gone && IssuedReply(r, Accepted((t, h))) in w.mail ensures Granted(w, r, t, h) {
        assert IssuedReply(r, Accepted((t, h))) in x.mail;
        GrantedStays(x, w, o, mine, r, t, h);
      }
      if q.phase.Leased? { GrantedStays(x, w, o, mine, r, q.phase.token, q.phase.holder); }
      hide Granted;
      assert GrantFacts(w, r, q, ws, gone);
    }
  }

  lemma RetainStays(x: Ctx, w: Ctx, o: Ref, mine: set<Ref>, r: Ref, q: Call, ws: seq<Wire>, gone: bool)
    requires Affects(x, w, o, mine) && r != o
    requires q.kind.Retaining? && q.kind.child !in mine && RetainInv(x, r, q, ws, gone)
    ensures RetainInv(w, r, q, ws, gone)
  {
  }

  /** A step taken for one call keeps every other call's invariant. */
  lemma OthersStay(x: Ctx, w: Ctx, o: Ref, mine: set<Ref>, r: Ref, q: Call, ws: seq<Wire>, gone: bool)
    requires Affects(x, w, o, mine) && r != o && mine !! x.roots && CallInv(x, r, q, ws, gone)
    requires q.kind.Retaining? ==> q.kind.child !in mine
    ensures CallInv(w, r, q, ws, gone)
  {
    hide Affects, IssueInv, RetainInv;
    match q.kind
    case Issuing(_, _) => IssueStays(x, w, o, mine, r, q, ws, gone);
    case Retaining(_, _, _) => RetainStays(x, w, o, mine, r, q, ws, gone);
  }

  // ---- which part of the view each protocol step touches -----------------------------------

  lemma SameViewStep(v: View, w: View, named: set<(Ref, Ref)>, known: set<Ref>, next: Ref, r: Ref, mine: set<Ref>)
    requires w.claims == v.claims
    requires forall o :: o != r ==> (o in v.reservations <==> o in w.reservations)
    requires forall o :: o != r && o in v.reservations && o in w.reservations ==> v.reservations[o] == w.reservations[o]
    ensures ViewStep(v, w, named, known, next, r, mine)
  {
  }

  lemma CommitStep(v: View, r: Ref, guard: Guard, named: set<(Ref, Ref)>, known: set<Ref>, next: Ref)
    requires next + 2 !in v.claims
    ensures ViewStep(v, ExpectedCommit(v, r, guard, next), named, known, next, r, {next + 3})
  {
  }

  lemma ConfirmSteps(v: View, t: Ref, c: Ref, named: set<(Ref, Ref)>, known: set<Ref>, next: Ref, r: Ref, mine: set<Ref>)
    ensures ViewStep(v, ExpectedConfirmIssue(v, t, r), named, known, next, r, mine)
    ensures ViewStep(v, ExpectedConfirmRetain(v, t, c, r), named, known, next, r, mine)
  {
  }

  lemma LeaveAllStep(v: View, t: Ref, named: set<(Ref, Ref)>, known: set<Ref>, next: Ref, r: Ref)
    requires t in v.claims && v.claims[t].pendingIssue.Some? ==> Pends(v, t, r) && t !in known
    ensures ViewStep(v, LeaveAll(v, t), named, known, next, r, {})
  {
  }

  lemma LeaveStep(v: View, t: Ref, h: Ref, named: set<(Ref, Ref)>, known: set<Ref>, next: Ref, r: Ref, mine: set<Ref>)
    requires (t, h) in named || h in mine
    ensures ViewStep(v, Leave(v, t, h), named, known, next, r, mine)
  {
    var w := Leave(v, t, h);
    assert forall u, g :: HeldBy(v, u, g) && !HeldBy(w, u, g) ==> u == t && g == h;
  }

  lemma RetainStep(v: View, t: Ref, parent: Ref, c: Ref, r: Ref, guard: Guard, named: set<(Ref, Ref)>, known: set<Ref>, next: Ref)
    ensures ViewStep(v, ExpectedRetain(v, t, parent, c, r, guard, next), named, known, next, r, {c})
  {
  }

  lemma SuccessStep(v: View, t: Ref, named: set<(Ref, Ref)>, known: set<Ref>, next: Ref, r: Ref)
    requires t in v.claims ==> v.claims[t].holders == {}
    ensures ViewStep(v, v.(claims := v.claims - {t}, successes := v.successes + 1), named, known, next, r, {})
  {
  }
}
