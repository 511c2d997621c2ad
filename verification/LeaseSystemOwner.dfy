/** One message handled by a running owner, as the clients can observe it. */
module LeaseSystemOwner {
  import opened Common
  import opened LeaseModel
  import opened LeaseInvariant
  import opened LeaseHandlers
  import opened LeaseRefinement
  import opened LeaseResults
  import opened LeaseReplies
  import opened LeaseSystem

  function Asker(m: Message): Ref
    requires Deciding(m)
  {
    m.request
  }

  /** What a step can add to the reply traffic and to the tables the view does not show. */
  ghost predicate Quietly(s: Owner, m: Message, supply: Ref, o: Out) {
    && (forall x :: x in o.sent && Decides(x) ==> Deciding(m) && x.request == Asker(m))
    && o.state.drainMonitors.Keys <= s.drainMonitors.Keys + {supply}
    && o.state.tombstones.kinds.Keys <= s.tombstones.kinds.Keys + Buries(s, m)
  }

  lemma ReserveQuietly(s: Owner, metadata: Term, replyTo: Pid, request: Ref, supply: Ref)
    ensures Quietly(s, ReserveMsg(metadata, replyTo, request), supply, ReserveIssue(s, metadata, replyTo, request, supply))
  {
    ReserveReplies(s, metadata, replyTo, request, supply);
    hide ReserveIssue, ViewOf, ExpectedReserve;
  }

  lemma CommitQuietly(s: Owner, reservation: Ref, backend: Term, replyTo: Pid, request: Ref, guard: Guard, now: int, supply: Ref)
    requires Runnable(s) && CommitMatches(s, reservation, replyTo, request)
    ensures Quietly(s, CommitMsg(reservation, backend, replyTo, request, guard, now), supply,
                    CommitIssue(s, reservation, backend, replyTo, request, guard, now, supply))
  {
    CommitReplies(s, reservation, backend, replyTo, request, guard, now, supply);
    hide CommitIssue, CommitMatches, Runnable;
  }

  lemma RetainQuietly(s: Owner, t: Ref, parent: Ref, child: Ref, request: Ref, guard: Guard, supply: Ref)
    requires EntriesInv(s, None)
    ensures Quietly(s, RetainMsg(t, parent, child, request, guard), supply, Retain(s, t, parent, child, request, guard, supply))
  {
    RetainReplies(s, t, parent, child, request, guard, supply);
    hide Retain, ViewOf, ExpectedRetain, EntriesInv;
  }

  lemma DrainQuietly(s: Owner, replyTo: Pid, request: Ref, pick: Option<Ref>, supply: Ref)
    requires IsFirstFailure(s, pick)
    ensures Quietly(s, DrainMsg(replyTo, request, pick), supply, Drain(s, replyTo, request, pick, supply))
  {
    DrainTables(s, replyTo, request, pick, supply);
    hide Drain, IsFirstFailure;
  }

  lemma BlandQuietly(s: Owner, m: Message, supply: Ref, o: Out)
    requires Bland(s, o, Buries(s, m))
    ensures Quietly(s, m, supply, o)
  {
  }

  lemma HandleQuietly(s: Owner, m: Message, supply: Ref)
    requires Running(s) && Admissible(s, m, supply)
    ensures Runnable(s)
    ensures Quietly(s, m, supply, Handle(s, m, supply))
  {
    hide *;
    Routed(s, m, supply);
    RunningEntries(s);
    DecidingKinds(m);
    if !Deciding(m) && !m.DrainMsg? {
      HandleBland(s, m, supply);
      BlandQuietly(s, m, supply, Handle(s, m, supply));
    } else {
      match m
      case ReserveMsg(metadata, replyTo, request) => ReserveQuietly(s, metadata, replyTo, request, supply);
      case CommitMsg(reservation, backend, replyTo, request, guard, now) =>
        CommitQuietly(s, reservation, backend, replyTo, request, guard, now, supply);
      case RetainMsg(token, parent, child, request, guard) => RetainQuietly(s, token, parent, child, request, guard, supply);
      case DrainMsg(replyTo, request, pick) => DrainQuietly(s, replyTo, request, pick, supply);
    }
  }

  /** What the owner's own invariant gives the rest of the system. */
  ghost predicate OwnerOk(y: Sys) {
    && y.life != Broken
    && (y.life.Up? ==> Running(y.owner) && Unused(y.owner, y.next) && ViewFresh(ViewOf(y.owner), y.next))
    && (y.life.Stopped? ==> y.owner.leases == map[] && y.owner.reservations == map[])
  }

  lemma StaysUnused(s: Owner, m: Message, supply: Ref, o: Out)
    requires Unused(s, supply) && Quietly(s, m, supply, o)
    requires MonitorsInv(o.state) && ViewFresh(ViewOf(o.state), supply + REFS_PER_STEP)
    ensures Unused(o.state, supply + REFS_PER_STEP)
  {
    ViewFreshMonitors(o.state, supply + REFS_PER_STEP);
    hide MonitorsInv, ViewFresh, ViewOf;
    forall id | id in o.state.tombstones.kinds ensures id.0 < supply + REFS_PER_STEP {
      assert id in s.tombstones.kinds.Keys + Buries(s, m);
    }
    forall d | d in o.state.drainMonitors ensures d < supply + REFS_PER_STEP {
      assert d in s.drainMonitors.Keys + {supply};
    }
  }

  lemma RunningMonitors(s: Owner)
    requires Running(s)
    ensures MonitorsInv(s)
  {
  }

  lemma GoodLife(o: Out)
    requires Good(o)
    ensures LifeAfter(o.fate) == Up || LifeAfter(o.fate) == Stopped
    ensures LifeAfter(o.fate) == Up ==> Running(o.state)
    ensures LifeAfter(o.fate) == Stopped ==> o.state.leases == map[] && o.state.reservations == map[]
  {
  }

  /** `Handled` when the owner neither raises nor stops for corruption. */
  ghost function After(y: Sys, m: Message, pid: Pid): Sys
    requires Runnable(y.owner) && (m.DrainMsg? ==> IsFirstFailure(y.owner, m.pick))
  {
    var o := Handle(y.owner, m, y.next);
    y.(owner := o.state, life := LifeAfter(o.fate), next := y.next + REFS_PER_STEP, watched := y.watched[y.next := pid],
       mail := y.mail + o.sent,
       roots := if m.CommitMsg? then y.roots + {y.next + 3} else y.roots,
       accepted := if m.CommitMsg? then y.accepted + {m.request} else y.accepted)
  }

  lemma HandledIsAfter(y: Sys, m: Message, pid: Pid)
    requires Running(y.owner) && Admissible(y.owner, m, y.next)
    ensures Runnable(y.owner) && (m.DrainMsg? ==> IsFirstFailure(y.owner, m.pick))
    ensures Handled(y, m, pid) == After(y, m, pid)
    ensures After(y, m, pid).life.Up? || After(y, m, pid).life.Stopped?
  {
    hide *;
    Routed(y.owner, m, y.next);
    HandleGood(y.owner, m, y.next);
    GoodLife(Handle(y.owner, m, y.next));
    UpOrStopped(y, m, pid);
  }

  lemma UpOrStopped(y: Sys, m: Message, pid: Pid)
    requires Runnable(y.owner) && (m.DrainMsg? ==> IsFirstFailure(y.owner, m.pick))
    requires LifeAfter(Handle(y.owner, m, y.next).fate) == Up || LifeAfter(Handle(y.owner, m, y.next).fate) == Stopped
    ensures Handled(y, m, pid) == After(y, m, pid)
    ensures After(y, m, pid).life.Up? || After(y, m, pid).life.Stopped?
  {
    hide Handle, Runnable, IsFirstFailure;
  }

  lemma AfterOk(y: Sys, m: Message, pid: Pid)
    requires Running(y.owner) && Unused(y.owner, y.next) && ViewFresh(ViewOf(y.owner), y.next) && Admissible(y.owner, m, y.next)
    requires Runnable(y.owner) && (m.DrainMsg? ==> IsFirstFailure(y.owner, m.pick))
    ensures OwnerOk(After(y, m, pid))
    ensures ViewOf(After(y, m, pid).owner) == Expected(y.owner, m, y.next)
    ensures Quietly(y.owner, m, y.next, Handle(y.owner, m, y.next))
  {
    var s := y.owner;
    hide *;
    HandleGood(s, m, y.next);
    HandleRefines(s, m, y.next);
    HandleQuietly(s, m, y.next);
    ExpectedFresh(s, m, y.next);
    var o := Handle(s, m, y.next);
    GoodLife(o);
    AfterOwner(y, m, pid);
    if LifeAfter(o.fate) == Up {
      RunningMonitors(o.state);
      StaysUnused(s, m, y.next, o);
    }
    OkBy(After(y, m, pid));
  }

  lemma AfterOwner(y: Sys, m: Message, pid: Pid)
    requires Runnable(y.owner) && (m.DrainMsg? ==> IsFirstFailure(y.owner, m.pick))
    ensures After(y, m, pid).owner == Handle(y.owner, m, y.next).state
    ensures After(y, m, pid).life == LifeAfter(Handle(y.owner, m, y.next).fate)
    ensures After(y, m, pid).next == y.next + REFS_PER_STEP
    ensures After(y, m, pid).mail == y.mail + Handle(y.owner, m, y.next).sent
  {
    hide Runnable, Handle, IsFirstFailure;
  }

  lemma OkBy(y: Sys)
    requires y.life == Up || y.life == Stopped
    requires y.life == Up ==> Running(y.owner) && Unused(y.owner, y.next) && ViewFresh(ViewOf(y.owner), y.next)
    requires y.life == Stopped ==> y.owner.leases == map[] && y.owner.reservations == map[]
    ensures OwnerOk(y)
  {
  }

  lemma AfterShape(y: Sys, m: Message, pid: Pid)
    requires Runnable(y.owner) && (m.DrainMsg? ==> IsFirstFailure(y.owner, m.pick))
    ensures var w := After(y, m, pid);
            w == y.(owner := w.owner, life := w.life, next := y.next + REFS_PER_STEP, watched := y.watched[y.next := pid],
                       mail := w.mail, roots := if m.CommitMsg? then y.roots + {y.next + 3} else y.roots,
                       accepted := if m.CommitMsg? then y.accepted + {m.request} else y.accepted)
  {
    hide Runnable, Handle, IsFirstFailure;
  }

  lemma AfterConserves(y: Sys, m: Message, pid: Pid)
    requires Running(y.owner) && Admissible(y.owner, m, y.next)
    requires Runnable(y.owner) && (m.DrainMsg? ==> IsFirstFailure(y.owner, m.pick))
    ensures var w := After(y, m, pid);
            |w.owner.leases| + Successes(w.owner) == |y.owner.leases| + Successes(y.owner) + (if m.CommitMsg? then 1 else 0)
  {
    hide *;
    StepConserves(y.owner, m, y.next);
    AfterOwner(y, m, pid);
  }
}
