/**
 One lease owner and any number of client processes, as a step relation.

 A client process runs `issue` and `retain` calls one wire message at a time; `out` holds what
 each process has sent and the owner has not consumed, in sending order. Timeouts, deaths,
 guard results, callback results, releases and drains may happen at any step. A `DOWN` for a
 dead process reaches the owner only after everything that process sent.
 */
module LeaseSystem {
  import opened Common
  import opened LeaseModel
  import opened LeaseHandlers

  /** What a client sends the owner. `request` says which call sent it; the owner reads it only where
      `Delivered` passes it on. */
  datatype Wire =
    | AskReserve(request: Ref, metadata: Term)
    | SendCommit(request: Ref, reservation: Ref, backend: Term)
    | DropReservation(request: Ref)
    | ConfirmToken(request: Ref, token: Ref)
    | DropIssue(request: Ref)
    | AskRetain(request: Ref, token: Ref, parent: Ref, child: Ref)
    | ConfirmChild(request: Ref, token: Ref, child: Ref)
    | DropChild(request: Ref, token: Ref, child: Ref)

  function Delivered(w: Wire, pid: Pid, guard: Guard, now: int): Message {
    match w
    case AskReserve(r, metadata) => ReserveMsg(metadata, pid, r)
    case SendCommit(r, reservation, backend) => CommitMsg(reservation, backend, pid, r, guard, now)
    case DropReservation(r) => CancelReservationMsg(r)
    case ConfirmToken(r, token) => ConfirmIssueMsg(token, r)
    case DropIssue(r) => CancelIssueMsg(r)
    case AskRetain(r, token, parent, child) => RetainMsg(token, parent, child, r, guard)
    case ConfirmChild(r, token, child) => ConfirmRetainMsg(token, child, r)
    case DropChild(_, token, child) => CancelRetainMsg(token, child)
  }

  /** How far one call has got, or what it returned:
      `{:error, {:caller_owned, _}}` is `CallerOwned`; `{:error, {:transferred, _}}` is `Transferred` when the
      client gave up and `Rejected` when the owner said so; `{:ok, lease}` is `Leased` or `Kept`;
      any error of `retain` is `Lost`. */
  datatype Phase =
    | AwaitReservation
    | AwaitIssue(reservation: Ref)
    | CallerOwned
    | Transferred(reservation: Ref)
    | Rejected
    | Leased(token: Ref, holder: Ref)
    | AwaitRetain
    | Kept
    | Lost

  datatype Kind = Issuing(metadata: Term, backend: Term) | Retaining(token: Ref, parent: Ref, child: Ref)

  datatype Call = Call(pid: Pid, kind: Kind, phase: Phase)

  /** `Broken` is an owner that raised, or stopped for protocol corruption. */
  datatype Life = Up | Stopped | Killed | Broken

  /** `mail` is every reply ever sent to a client; `named` every (token, holder) the owner saw released or
      abandoned; `known` the tokens an `issue` returned, with that call; `roots` and `accepted` the first
      holders granted and the calls whose commit the owner accepted. */
  datatype Sys = Sys(
    owner: Owner,
    life: Life,
    next: Ref,
    dead: set<Pid>,
    out: map<Pid, seq<Wire>>,
    watched: map<Ref, Pid>,
    calls: map<Ref, Call>,
    mail: set<Sent>,
    named: set<(Ref, Ref)>,
    known: map<Ref, Ref>,
    roots: set<Ref>,
    accepted: set<Ref>)

  datatype Action =
    | StartIssue(pid: Pid, metadata: Term, backend: Term)
    | GetReserved(call: Ref, reserved: Reply<Ref>)
    | GiveUpReservation(call: Ref)
    | GetIssued(call: Ref, issued: Reply<(Ref, Ref)>)
    | GiveUpIssue(call: Ref)
    | StartRetain(pid: Pid, token: Ref, parent: Ref)
    | GetRetained(call: Ref, retained: Reply<Ref>, validGuard: bool)
    | GiveUpRetain(call: Ref)
    | OwnerGone(call: Ref)
    | Die(pid: Pid)
    | Consume(pid: Pid, guard: Guard, now: int)
    | WatchFires(monitor: Ref)
    | NameHolder(token: Ref, holder: Ref, kind: Tombstone)
    | Elsewhere(message: Message)
    | Kill

  function Unread(y: Sys, pid: Pid): seq<Wire> { if pid in y.out then y.out[pid] else [] }

  function Send(y: Sys, pid: Pid, w: Wire): Sys { y.(out := y.out[pid := Unread(y, pid) + [w]]) }

  function Move(y: Sys, r: Ref, phase: Phase): Sys
    requires r in y.calls
  {
    y.(calls := y.calls[r := y.calls[r].(phase := phase)])
  }

  predicate Alive(y: Sys, r: Ref) { r in y.calls && y.calls[r].pid !in y.dead }

  /** Messages that are neither part of a client call nor a release: they may arrive at any time. */
  predicate IsElsewhere(s: Owner, m: Message) {
    match m
    case DrainMsg(_, request, _) => request !in s.drainWaiters
    case CancelDrainMsg(_) => true
    case ResultMsg(_, _, _, _) => true
    case ExecutorDownMsg(_) => true
    case RetryTimerMsg(_, _) => true
    case RetryCallMsg(_, _) => true
    case BeginDrainMsg => true
    case MalformedMsg => true
    case MonitorDownMsg(monitor) => monitor !in s.monitors
    case _ => false
  }

  ghost predicate Enabled(y: Sys, a: Action) {
    match a
    case StartIssue(pid, _, _) => pid !in y.dead
    case GetReserved(r, reserved) => Alive(y, r) && y.calls[r].phase.AwaitReservation? && ReservedReply(r, reserved) in y.mail
    case GiveUpReservation(r) => Alive(y, r) && y.calls[r].phase.AwaitReservation?
    case GetIssued(r, issued) => Alive(y, r) && y.calls[r].phase.AwaitIssue? && IssuedReply(r, issued) in y.mail
    case GiveUpIssue(r) => Alive(y, r) && y.calls[r].phase.AwaitIssue?
    case StartRetain(pid, token, _) => pid !in y.dead && token in y.known
    case GetRetained(r, retained, _) => Alive(y, r) && y.calls[r].phase.AwaitRetain? && RetainedReply(r, retained) in y.mail
    case GiveUpRetain(r) => Alive(y, r) && y.calls[r].phase.AwaitRetain?
    case OwnerGone(r) => Alive(y, r) && !y.life.Up? && (y.calls[r].phase.AwaitReservation? || y.calls[r].phase.AwaitIssue? || y.calls[r].phase.AwaitRetain?)
    case Die(_) => true
    case Consume(pid, _, _) => y.life.Up? && Unread(y, pid) != []
    case WatchFires(m) => y.life.Up? && m in y.watched && y.watched[m] in y.dead && Unread(y, y.watched[m]) == []
    case NameHolder(_, _, _) => y.life.Up?
    case Elsewhere(m) => y.life.Up? && IsElsewhere(y.owner, m) && (m.DrainMsg? ==> IsFirstFailure(y.owner, m.pick))
    case Kill => y.life.Up?
  }

  function LifeAfter(fate: Fate): Life {
    match fate
    case Continue => Up
    case StopNormal => Stopped
    case StopCorrupt(_) => Broken
  }

  /** The owner handles `m`; `pid` is whom it monitors if it takes out a monitor. */
  ghost function Handled(y: Sys, m: Message, pid: Pid): Sys {
    if Runnable(y.owner) && (m.DrainMsg? ==> IsFirstFailure(y.owner, m.pick)) then
      var o := Handle(y.owner, m, y.next);
      y.(owner := o.state,
         life := LifeAfter(o.fate),
         next := y.next + REFS_PER_STEP,
         watched := y.watched[y.next := pid],
         mail := y.mail + o.sent,
         roots := if m.CommitMsg? then y.roots + {y.next + 3} else y.roots,
         accepted := if m.CommitMsg? && !o.fate.StopCorrupt? then y.accepted + {m.request} else y.accepted)
    else y.(life := Broken)
  }

  ghost function Consumed(y: Sys, pid: Pid, guard: Guard, now: int): Sys
    requires Unread(y, pid) != []
  {
    var wires := Unread(y, pid);
    Handled(y.(out := y.out[pid := wires[1..]]), Delivered(wires[0], pid, guard, now), pid)
  }

  ghost function Next(y: Sys, a: Action): Sys
    requires Enabled(y, a)
  {
    match a
    case StartIssue(pid, metadata, backend) =>
      Send(y.(next := y.next + 1, calls := y.calls[y.next := Call(pid, Issuing(metadata, backend), AwaitReservation)]),
           pid, AskReserve(y.next, metadata))
    case GetReserved(r, reserved) =>
      var q := y.calls[r];
      if reserved.Accepted? && q.kind.Issuing? then
        Send(Move(y, r, AwaitIssue(reserved.value)), q.pid, SendCommit(r, reserved.value, q.kind.backend))
      else Move(y, r, CallerOwned)
    case GiveUpReservation(r) => Send(Move(y, r, CallerOwned), y.calls[r].pid, DropReservation(r))
    case GetIssued(r, issued) =>
      if issued.Accepted? then
        Send(Move(y, r, Leased(issued.value.0, issued.value.1)).(known := y.known[issued.value.0 := r]),
             y.calls[r].pid, ConfirmToken(r, issued.value.0))
      else Move(y, r, Rejected)
    case GiveUpIssue(r) => Send(Move(y, r, Transferred(y.calls[r].phase.reservation)), y.calls[r].pid, DropIssue(r))
    case StartRetain(pid, token, parent) =>
      Send(y.(next := y.next + 2, calls := y.calls[y.next := Call(pid, Retaining(token, parent, y.next + 1), AwaitRetain)]),
           pid, AskRetain(y.next, token, parent, y.next + 1))
    case GetRetained(r, retained, validGuard) =>
      var q := y.calls[r];
      if retained.Refused? || !q.kind.Retaining? then Move(y, r, Lost)
      else if validGuard then Send(Move(y, r, Kept), q.pid, ConfirmChild(r, q.kind.token, q.kind.child))
      else Send(Move(y, r, Lost), q.pid, DropChild(r, q.kind.token, q.kind.child))
    case GiveUpRetain(r) =>
      var q := y.calls[r];
      if q.kind.Retaining? then Send(Move(y, r, Lost), q.pid, DropChild(r, q.kind.token, q.kind.child)) else Move(y, r, Lost)
    case OwnerGone(r) =>
      (match y.calls[r].phase
       case AwaitReservation => Move(y, r, CallerOwned)
       case AwaitIssue(reservation) => Move(y, r, Transferred(reservation))
       case _ => Move(y, r, Lost))
    case Die(pid) => y.(dead := y.dead + {pid})
    case Consume(pid, guard, now) => Consumed(y, pid, guard, now)
    case WatchFires(m) => Handled(y, MonitorDownMsg(m), y.watched[m])
    case NameHolder(token, holder, kind) =>
      Handled(y.(named := y.named + {(token, holder)}),
              if kind.Abandoned? then AbandonedMsg(token, holder) else ReleaseMsg(token, holder), 0)
    case Elsewhere(m) => Handled(y, m, 0)
    case Kill => y.(life := Killed)
  }

  ghost predicate Initial(y: Sys) {
    && (exists maxActive, policy :: y.owner == InitialOwner(maxActive, policy, 0))
    && y == Sys(y.owner, Up, 1, {}, map[], map[], map[], {}, {}, map[], {}, {})
  }

  /** A run: every state follows from the one before by the action taken there. */
  ghost predicate IsRun(states: seq<Sys>, actions: seq<Action>) {
    && |states| == |actions| + 1
    && Initial(states[0])
    && forall i :: 0 <= i < |actions| ==> Enabled(states[i], actions[i]) && states[i + 1] == Next(states[i], actions[i])
  }
}
