/** What consuming a call's own message does to that call. */
module LeaseSystemCalls {
  import opened Common
  import opened LeaseModel
  import opened LeaseInvariant
  import opened LeaseHandlers
  import opened LeaseRefinement
  import opened LeaseReplies
  import opened LeaseRejections
  import opened LeaseSystem
  import opened LeaseSystemInvariant

  /** Histories only grow; nothing new is promised to be rejected. */
  ghost predicate Grows(x: Ctx, w: Ctx) {
    && x.up && x.on && w.on
    && x.named <= w.named && x.known == w.known && x.roots <= w.roots && x.next <= w.next
    && w.rejecting <= x.rejecting
  }

  /** No answer for `r` is new in `w`, except that a job may answer a call already being rejected. */
  ghost predicate NoAnswer(x: Ctx, w: Ctx, r: Ref) {
    && x.mail <= w.mail
    && (forall m :: m in w.mail && m !in x.mail && Decides(m) ==> m.request != r)
    && (forall m :: m in w.mail && m !in x.mail && RejectsIssue(m) && m.request == r ==> r in x.rejecting)
    && x.rejecting <= x.accepted
  }

  lemma OwnReserve(x: Ctx, w: Ctx, r: Ref, q: Call, ws: seq<Wire>, gone: bool, a: Reply<Ref>, monitor: Ref, metadata: Term)
    requires CallInv(x, r, q, ws, gone) && Grows(x, w) && ws != [] && ws[0].AskReserve?
    requires w.mail == x.mail + {ReservedReply(r, a)} && w.accepted == x.accepted && x.rejecting <= x.accepted
    requires a.Accepted? ==> w.v == x.v.(reservations := x.v.reservations[r := Reservation(a.value, q.pid, monitor, metadata)])
    requires a.Refused? ==> w.v == x.v
    ensures q.kind.Issuing? ==> CallInv(w, r, q, ws[1..], gone)
  {
    if q.kind.Issuing? {
      assert forall t, o :: Pends(w.v, t, o) <==> Pends(x.v, t, o);
      OwnReserveHistory(x, w, r, q, ws, a);
      OwnReserveFacts(x, w, r, q, ws, gone, a);
      hide IssueHistory, ReservationFacts, GrantFacts, Grows;
    }
  }

  lemma OwnReserveHistory(x: Ctx, w: Ctx, r: Ref, q: Call, ws: seq<Wire>, a: Reply<Ref>)
    requires q.kind.Issuing? && IssueHistory(x, r, q, ws) && IssueWires(x.up, r, q, ws) && Grows(x, w) && ws != [] && ws[0].AskReserve?
    requires w.mail == x.mail + {ReservedReply(r, a)} && w.accepted == x.accepted
    ensures IssueHistory(w, r, q, ws[1..]) && IssueWires(w.up, r, q, ws[1..])
  {
  }

  lemma OwnReserveFacts(x: Ctx, w: Ctx, r: Ref, q: Call, ws: seq<Wire>, gone: bool, a: Reply<Ref>)
    requires q.kind.Issuing? && IssueHistory(x, r, q, ws) && IssueWires(x.up, r, q, ws) && Grows(x, w) && ws != [] && ws[0].AskReserve?
    requires ReservationFacts(x, r, q, ws, gone) && GrantFacts(x, r, q, ws, gone)
    requires w.mail == x.mail + {ReservedReply(r, a)}
    requires forall t, o :: Pends(w.v, t, o) <==> Pends(x.v, t, o)
    requires a.Accepted? ==> Reserved(w.v, r, a.value, q.pid)
    requires a.Refused? ==> r !in w.v.reservations
    ensures ReservationFacts(w, r, q, ws[1..], gone) && GrantFacts(w, r, q, ws[1..], gone)
  {
    assert ws[1..] == [] || ws[1..] == [DropReservation(r)];
  }

  lemma OwnCommit(x: Ctx, w: Ctx, r: Ref, q: Call, ws: seq<Wire>, gone: bool, guard: Guard)
    requires CallInv(x, r, q, ws, gone) && q.kind.Issuing? && ws != [] && ws[0].SendCommit?
    requires x.up && x.on && w.on && x.named <= w.named && x.known == w.known && x.next + 8 <= w.next
    requires w.roots == x.roots + {x.next + 3} && w.accepted == x.accepted + {r}
    requires w.v == ExpectedCommit(x.v, r, guard, x.next)
    requires guard.GuardBuilt? ==> w.mail == x.mail + {IssuedReply(r, Accepted((x.next + 2, x.next + 3)))} && r !in w.rejecting
    requires guard.GuardFailed? ==> NoAnswer(x, w, r)
    requires forall t :: t in x.v.claims ==> t < x.next
    ensures CallInv(w, r, q, ws[1..], gone)
  {
    OwnCommitHistory(x, w, r, q, ws, guard);
    OwnCommitReservation(x, w, r, q, ws, gone, guard);
    OwnCommitGrant(x, w, r, q, ws, gone, guard);
    hide IssueHistory, ReservationFacts, GrantFacts, ExpectedCommit, NoAnswer;
  }

  lemma OwnCommitHistory(x: Ctx, w: Ctx, r: Ref, q: Call, ws: seq<Wire>, guard: Guard)
    requires q.kind.Issuing? && IssueHistory(x, r, q, ws) && IssueWires(x.up, r, q, ws) && ws != [] && ws[0].SendCommit?
    requires x.next <= w.next && (w.up ==> x.up) && w.accepted == x.accepted + {r}
    requires guard.GuardBuilt? ==> w.mail == x.mail + {IssuedReply(r, Accepted((x.next + 2, x.next + 3)))}
    requires guard.GuardFailed? ==> NoAnswer(x, w, r)
    ensures IssueHistory(w, r, q, ws[1..]) && IssueWires(w.up, r, q, ws[1..])
  {
  }

  lemma OwnCommitReservation(x: Ctx, w: Ctx, r: Ref, q: Call, ws: seq<Wire>, gone: bool, guard: Guard)
    requires q.kind.Issuing? && IssueWires(x.up, r, q, ws) && ws != [] && ws[0].SendCommit?
    requires ReservationFacts(x, r, q, ws, gone) && x.up
    requires w.v == ExpectedCommit(x.v, r, guard, x.next)
    ensures ReservationFacts(w, r, q, ws[1..], gone)
  {
  }

  lemma OwnCommitGrant(x: Ctx, w: Ctx, r: Ref, q: Call, ws: seq<Wire>, gone: bool, guard: Guard)
    requires q.kind.Issuing? && IssueHistory(x, r, q, ws) && IssueWires(x.up, r, q, ws) && ws != [] && ws[0].SendCommit?
    requires ReservationFacts(x, r, q, ws, gone) && GrantFacts(x, r, q, ws, gone) && x.next + 8 <= w.next && x.up
    requires w.roots == x.roots + {x.next + 3}
    requires w.v == ExpectedCommit(x.v, r, guard, x.next)
    requires guard.GuardBuilt? ==> w.mail == x.mail + {IssuedReply(r, Accepted((x.next + 2, x.next + 3)))} && r !in w.rejecting
    requires guard.GuardFailed? ==> NoAnswer(x, w, r)
    requires forall t :: t in x.v.claims ==> t < x.next
    ensures GrantFacts(w, r, q, ws[1..], gone)
  {
    assert ws[1..] == [] || ws[1..] == [DropIssue(r)];
    assert forall t :: !Pends(x.v, t, r);
    assert r in x.v.reservations && w.v.claims == x.v.claims[x.next + 2 := w.v.claims[x.next + 2]];
    if guard.GuardBuilt? {
      forall t | Pends(w.v, t, r) ensures t == x.next + 2 { assert !Pends(x.v, t, r); }
      assert Granted(w, r, x.next + 2, x.next + 3);
      assert forall m :: m in w.mail && RejectsIssue(m) ==> m in x.mail;
    } else {
      forall t ensures !Pends(w.v, t, r) { assert !Pends(x.v, t, r); }
    }
  }

  lemma OwnDropReservation(x: Ctx, w: Ctx, r: Ref, q: Call, ws: seq<Wire>, gone: bool)
    requires CallInv(x, r, q, ws, gone) && Grows(x, w) && NoAnswer(x, w, r) && ws != [] && ws[0].DropReservation?
    requires w.v == x.v.(reservations := x.v.reservations - {r}) && w.accepted == x.accepted && q.kind.Issuing?
    ensures CallInv(w, r, q, ws[1..], gone)
  {
    assert forall t, o :: Pends(w.v, t, o) <==> Pends(x.v, t, o);
  }

  lemma OwnConfirmToken(x: Ctx, w: Ctx, r: Ref, q: Call, ws: seq<Wire>, gone: bool, t: Ref)
    requires CallInv(x, r, q, ws, gone) && Grows(x, w) && NoAnswer(x, w, r) && q.kind.Issuing? && ws != [] && ws[0] == ConfirmToken(r, t)
    requires w.v == ExpectedConfirmIssue(x.v, t, r) && w.accepted == x.accepted
    ensures CallInv(w, r, q, ws[1..], gone)
  {
    ConfirmTokenView(x, w, r, q, ws, gone, t);
    hide ExpectedConfirmIssue;
  }

  lemma ConfirmTokenView(x: Ctx, w: Ctx, r: Ref, q: Call, ws: seq<Wire>, gone: bool, t: Ref)
    requires CallInv(x, r, q, ws, gone) && x.on && q.kind.Issuing? && ws != [] && ws[0] == ConfirmToken(r, t)
    requires w.v == ExpectedConfirmIssue(x.v, t, r)
    ensures forall u, o :: Pends(w.v, u, o) ==> Pends(x.v, u, o) && o != r
    ensures forall u, h :: HeldBy(w.v, u, h) <==> HeldBy(x.v, u, h)
    ensures w.v.reservations == x.v.reservations
  {
    assert Granted(x, r, q.phase.token, q.phase.holder) && q.phase.token == t;
    forall u, o | Pends(w.v, u, o) ensures Pends(x.v, u, o) && o != r {
      assert Pends(x.v, u, o);
    }
  }

  lemma OwnDropIssue(x: Ctx, w: Ctx, r: Ref, q: Call, ws: seq<Wire>, gone: bool)
    requires CallInv(x, r, q, ws, gone) && Grows(x, w) && NoAnswer(x, w, r) && q.kind.Issuing? && ws != [] && ws[0].DropIssue?
    requires w.v.reservations == x.v.reservations && w.accepted == x.accepted
    requires forall t :: !Pends(w.v, t, r)
    ensures CallInv(w, r, q, ws[1..], gone)
  {
  }

  // ---- retain calls ------------------------------------------------------------------------

  lemma OwnRetain(x: Ctx, w: Ctx, r: Ref, q: Call, ws: seq<Wire>, gone: bool, guard: Guard, a: Reply<Ref>)
    requires CallInv(x, r, q, ws, gone) && Grows(x, w) && q.kind.Retaining? && ws != [] && ws[0].AskRetain?
    requires w.mail == x.mail + {RetainedReply(r, a)} && w.accepted == x.accepted && w.roots == x.roots
    requires w.v == ExpectedRetain(x.v, q.kind.token, q.kind.parent, q.kind.child, r, guard, x.next)
    requires a.Accepted? ==> a.value == q.kind.child && HeldBy(w.v, q.kind.token, q.kind.child)
    requires a.Refused? ==> w.v == x.v
    requires PendingHeld(x.v)
    ensures CallInv(w, r, q, ws[1..], gone)
  {
    OwnRetainHistory(x, w, r, q, ws, a);
    OwnRetainFacts(x, w, r, q, ws, gone, guard, a);
    hide RetainHistory, ChildFacts, ExpectedRetain;
  }

  lemma OwnRetainHistory(x: Ctx, w: Ctx, r: Ref, q: Call, ws: seq<Wire>, a: Reply<Ref>)
    requires q.kind.Retaining? && RetainHistory(x, r, q, ws) && RetainWires(x.up, r, q, ws) && Grows(x, w) && ws != [] && ws[0].AskRetain?
    requires w.mail == x.mail + {RetainedReply(r, a)} && w.accepted == x.accepted && w.roots == x.roots
    requires a.Accepted? ==> a.value == q.kind.child
    ensures RetainHistory(w, r, q, ws[1..]) && RetainWires(w.up, r, q, ws[1..])
  {
  }

  lemma OwnRetainFacts(x: Ctx, w: Ctx, r: Ref, q: Call, ws: seq<Wire>, gone: bool, guard: Guard, a: Reply<Ref>)
    requires q.kind.Retaining? && RetainHistory(x, r, q, ws) && RetainWires(x.up, r, q, ws) && Grows(x, w) && ws != [] && ws[0].AskRetain?
    requires ChildFacts(x, r, q, ws, gone)
    requires w.mail == x.mail + {RetainedReply(r, a)}
    requires w.v == ExpectedRetain(x.v, q.kind.token, q.kind.parent, q.kind.child, r, guard, x.next)
    requires a.Accepted? ==> a.value == q.kind.child && HeldBy(w.v, q.kind.token, q.kind.child)
    requires a.Refused? ==> w.v == x.v
    requires PendingHeld(x.v)
    ensures ChildFacts(w, r, q, ws[1..], gone)
  {
    var t, c := q.kind.token, q.kind.child;
    assert ws[1..] == [] || ws[1..] == [DropChild(r, t, c)];
    assert !HeldBy(x.v, t, c);
    assert forall p :: Unconfirmed(w.v, t, c, p) ==> p.request == r && a.Accepted?;
  }

  lemma OwnConfirmChild(x: Ctx, w: Ctx, r: Ref, q: Call, ws: seq<Wire>, gone: bool)
    requires CallInv(x, r, q, ws, gone) && Grows(x, w) && NoAnswer(x, w, r) && q.kind.Retaining? && ws != [] && ws[0].ConfirmChild?
    requires w.v == ExpectedConfirmRetain(x.v, q.kind.token, q.kind.child, r) && w.accepted == x.accepted && w.roots == x.roots
    ensures CallInv(w, r, q, ws[1..], gone)
  {
    var t, c := q.kind.token, q.kind.child;
    assert HeldBy(w.v, t, c) <==> HeldBy(x.v, t, c);
    assert forall p :: !Unconfirmed(w.v, t, c, p);
  }

  /** After the cancellation the child is not registered, whether the owner had registered it or not. */
  lemma OwnDropChild(x: Ctx, w: Ctx, r: Ref, q: Call, ws: seq<Wire>, gone: bool)
    requires CallInv(x, r, q, ws, gone) && Grows(x, w) && NoAnswer(x, w, r) && q.kind.Retaining? && ws != [] && ws[0].DropChild?
    requires w.v == Leave(x.v, q.kind.token, q.kind.child) && w.accepted == x.accepted && w.roots == x.roots
    requires PendingHeld(x.v)
    ensures CallInv(w, r, q, ws[1..], gone)
  {
    var t, c := q.kind.token, q.kind.child;
    assert !HeldBy(w.v, t, c);
    assert forall p :: !Unconfirmed(w.v, t, c, p);
  }

  // ---- a monitor fires for a dead process with nothing left to read ------------------------

  lemma OwnDown(x: Ctx, w: Ctx, r: Ref, q: Call)
    requires CallInv(x, r, q, [], true) && Grows(x, w) && NoAnswer(x, w, r) && q.kind.Issuing? && w.accepted == x.accepted
    requires w.v.reservations == x.v.reservations || w.v.reservations == x.v.reservations - {r}
    requires forall t :: Pends(w.v, t, r) ==> Pends(x.v, t, r)
    requires q.phase.Leased? ==> Granted(w, r, q.phase.token, q.phase.holder)
    ensures CallInv(w, r, q, [], true)
  {
  }

  lemma OwnChildDown(x: Ctx, w: Ctx, r: Ref, q: Call)
    requires CallInv(x, r, q, [], true) && Grows(x, w) && NoAnswer(x, w, r) && q.kind.Retaining? && w.accepted == x.accepted
    requires w.v == Leave(x.v, q.kind.token, q.kind.child) && w.roots == x.roots && w.buried <= x.buried
    requires q.phase.AwaitRetain? && PendingHeld(x.v)
    ensures CallInv(w, r, q, [], true)
  {
    var t, c := q.kind.token, q.kind.child;
    assert !HeldBy(w.v, t, c);
    assert forall p :: !Unconfirmed(w.v, t, c, p);
  }
}
