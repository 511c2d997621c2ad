/**
 The release dispatcher's admission and shutdown protocol, one atomic operation at a time.

 Any number of agents acquire a client (load health, count, load health again), use it and drop
 it; any number of closers swap the health to `Stopping`, wait for zero clients, send one `Stop`
 under the lock and join the worker. Every load, add, swap, lock attempt, send and store is one
 step, in any order. `crashed` records that a branch calling `fatal_dispatcher_corruption`, or
 returning "worker is unavailable", was taken.
 */
module Dispatcher {
  import opened Common

  type Id = nat

  datatype Health = Healthy | Stopping | Stopped

  datatype Command = Dispatch(agent: Id) | Stop

  /** Why a client is wanted: to create a guard, to hold a frame's lease, to dispatch a dropped guard's message. */
  datatype Use = ForGuard | ForLease | ForAbandonment

  datatype AgentAt =
    | Arriving
    | Adding
    | Rechecking
    | BackingOut
    | Refused
    | Holding
    | DroppingSent
    | DroppingUnsent
    | Gone

  datatype Agent = Agent(use: Use, at: AgentAt)

  datatype CloserAt =
    | Loading
    | Swapping
    | Waiting
    | WantsStop
    | StopLocked
    | StopDeciding
    | Polling
    | PollingAgain
    | WantsJoin
    | JoinLocked
    | Joining
    | Publishing
    | Sleeping
    | Returned(ok: bool)

  datatype Worker = Receiving | Exited | Joined

  datatype System = System(
    health: Health,
    active: int,
    channel: seq<Command>,
    worker: Worker,
    workerKept: bool,
    stopEnqueued: bool,
    joining: bool,
    lock: Option<Id>,
    undelivered: nat,
    agents: map<Id, Agent>,
    closers: map<Id, CloserAt>,
    quiet: bool,
    sent: seq<Id>,
    handled: seq<(Id, bool)>,
    stops: nat,
    joins: nat,
    crashed: bool)



  const STARTED := System(Healthy, 0, [], Receiving, true, false, false, None, 0, map[], map[], false, [], [], 0, 0, false)

  datatype Action =
    | Arrive(id: Id, use: Use)
    | LoadFirst(id: Id)
    | CountUp(id: Id)
    | LoadAgain(id: Id)
    | BackOut(id: Id)
    | InspectRefusal(id: Id)
    | SendCommand(id: Id)
    | Forgo(id: Id)
    | DropClient(id: Id)
    | Close(id: Id)
    | LoadForClose(id: Id)
    | Swap(id: Id)
    | LoadClients(id: Id)
    | LockForStop(id: Id)
    | StopCheck(id: Id)
    | StopDecide(id: Id)
    | Poll(id: Id)
    | PollAgain(id: Id)
    | LockForJoin(id: Id)
    | JoinDecide(id: Id)
    | Collect(id: Id)
    | Publish(id: Id)
    | Wake(id: Id)
    | TimeOut(id: Id)
    | Receive(delivered: bool)

  predicate AgentIs(d: System, a: Id, at: AgentAt) { a in d.agents && d.agents[a].at == at }

  predicate CloserIs(d: System, c: Id, at: CloserAt) { c in d.closers && d.closers[c] == at }

  function Go(d: System, a: Id, at: AgentAt): System
    requires a in d.agents
  {
    d.(agents := d.agents[a := d.agents[a].(at := at)])
  }

  function Step(d: System, c: Id, at: CloserAt): System { d.(closers := d.closers[c := at]) }

  predicate Enabled(d: System, x: Action) {
    match x
    case Arrive(a, _) => a !in d.agents
    case LoadFirst(a) => AgentIs(d, a, Arriving)
    case CountUp(a) => AgentIs(d, a, Adding)
    case LoadAgain(a) => AgentIs(d, a, Rechecking)
    case BackOut(a) => AgentIs(d, a, BackingOut)
    case InspectRefusal(a) => AgentIs(d, a, Refused) && d.agents[a].use.ForAbandonment?
    case SendCommand(a) => AgentIs(d, a, Holding) && !d.agents[a].use.ForGuard?
    case Forgo(a) => AgentIs(d, a, Holding) && !d.agents[a].use.ForAbandonment?
    case DropClient(a) => AgentIs(d, a, DroppingSent) || AgentIs(d, a, DroppingUnsent)
    case Close(c) => c !in d.closers || d.closers[c].Returned?
    case LoadForClose(c) => CloserIs(d, c, Loading)
    case Swap(c) => CloserIs(d, c, Swapping)
    case LoadClients(c) => CloserIs(d, c, Waiting)
    case LockForStop(c) => CloserIs(d, c, WantsStop) && d.lock.None?
    case StopCheck(c) => CloserIs(d, c, StopLocked)
    case StopDecide(c) => CloserIs(d, c, StopDeciding)
    case Poll(c) => CloserIs(d, c, Polling)
    case PollAgain(c) => CloserIs(d, c, PollingAgain)
    case LockForJoin(c) => CloserIs(d, c, WantsJoin) && d.lock.None?
    case JoinDecide(c) => CloserIs(d, c, JoinLocked)
    case Collect(c) => CloserIs(d, c, Joining)
    case Publish(c) => CloserIs(d, c, Publishing)
    case Wake(c) => CloserIs(d, c, Sleeping)
    case TimeOut(c) => CloserIs(d, c, Waiting) || CloserIs(d, c, WantsStop) || CloserIs(d, c, WantsJoin) || CloserIs(d, c, Sleeping)
    case Receive(_) => d.worker.Receiving? && d.channel != []
  }

  /** `sender.send`: fails, fatally, when the receiving worker is gone. */
  function Enqueue(d: System, m: Command): System {
    if d.worker.Receiving? then d.(channel := d.channel + [m]) else d.(crashed := true)
  }

  /** `release_client`: fatal when the count was already zero. */
  function CountDown(d: System): System {
    d.(active := d.active - 1, crashed := d.crashed || d.active == 0)
  }

  function Next(d: System, x: Action): System
    requires Enabled(d, x)
  {
    match x
    case Arrive(a, use) => d.(agents := d.agents[a := Agent(use, Arriving)])
    case LoadFirst(a) => Go(d, a, if d.health.Healthy? then Adding else Refused)
    case CountUp(a) => Go(d, a, Rechecking).(active := d.active + 1)
    case LoadAgain(a) => Go(d, a, if d.health.Healthy? then Holding else BackingOut)
    case BackOut(a) => CountDown(Go(d, a, Refused))
    case InspectRefusal(a) => Go(d, a, Gone).(crashed := d.crashed || d.health.Healthy?)
    case SendCommand(a) => Enqueue(Go(d, a, DroppingSent), Dispatch(a)).(sent := d.sent + [a])
    case Forgo(a) => Go(d, a, DroppingUnsent)
    case DropClient(a) => CountDown(Go(d, a, Gone))
    case Close(c) => Step(d, c, Loading)
    case LoadForClose(c) => Step(d, c, if d.health.Healthy? then Swapping else Waiting)
    case Swap(c) => if d.health.Healthy? then Step(d, c, Waiting).(health := Stopping) else Step(d, c, Loading)
    case LoadClients(c) => if d.active == 0 then Step(d, c, WantsStop).(quiet := true) else d
    case LockForStop(c) => Step(d, c, StopLocked).(lock := Some(c))
    case StopCheck(c) => if d.health.Stopped? then Step(d, c, Polling).(lock := None) else Step(d, c, StopDeciding)
    case StopDecide(c) =>
      if d.stopEnqueued then Step(d, c, Polling).(lock := None)
      else if !d.workerKept then Step(d, c, Returned(false)).(lock := None, crashed := true)
      else Enqueue(Step(d, c, Polling), Stop).(lock := None, stopEnqueued := true, stops := d.stops + 1)
    case Poll(c) => Step(d, c, if d.health.Stopped? then Returned(true) else PollingAgain)
    case PollAgain(c) => Step(d, c, WantsJoin)
    case LockForJoin(c) => Step(d, c, JoinLocked).(lock := Some(c))
    case JoinDecide(c) =>
      if d.workerKept && !d.joining && !d.worker.Receiving? then
        Step(d, c, Joining).(lock := None, joining := true, workerKept := false, joins := d.joins + 1)
      else if d.joining || d.workerKept then Step(d, c, Sleeping).(lock := None)
      else Step(d, c, Returned(false)).(lock := None, crashed := true)
    case Collect(c) => Step(d, c, Publishing).(worker := Joined)
    case Publish(c) => Step(d, c, Returned(true)).(health := Stopped)
    case Wake(c) => Step(d, c, Polling)
    case TimeOut(c) => Step(d, c, Returned(false))
    case Receive(delivered) =>
      match d.channel[0]
      case Dispatch(a) =>
        d.(channel := d.channel[1..], handled := d.handled + [(a, delivered)],
           undelivered := d.undelivered + if delivered then 0 else 1)
      case Stop => d.(channel := d.channel[1..], worker := Exited)
  }

  // ---- the invariant -----------------------------------------------------------------------

  /** The agents that have counted themselves and not yet uncounted. */
  predicate Counts(at: AgentAt) {
    at.Rechecking? || at.BackingOut? || at.Holding? || at.DroppingSent? || at.DroppingUnsent?
  }

  /** The agents that were granted a client and may still use it. */
  predicate Granted(at: AgentAt) { at.Holding? || at.DroppingSent? || at.DroppingUnsent? }

  function Counted(d: System): set<Id> { set a | a in d.agents && Counts(d.agents[a].at) }

  ghost predicate ClientsInv(d: System) {
    && d.active == |Counted(d)|
    && (forall a :: a in d.agents && (d.agents[a].at.BackingOut? || d.agents[a].at.Refused?) ==> !d.health.Healthy?)
    && (d.quiet ==> !d.health.Healthy? && forall a :: a in d.agents ==> !Granted(d.agents[a].at))
  }

  predicate PastClients(at: CloserAt) {
    at.WantsStop? || at.StopLocked? || at.StopDeciding? || at.Polling? || at.PollingAgain? || at.WantsJoin? || at.JoinLocked?
    || at.Joining? || at.Publishing? || at.Sleeping?
  }

  predicate PastStop(at: CloserAt) {
    at.Polling? || at.PollingAgain? || at.WantsJoin? || at.JoinLocked? || at.Joining? || at.Publishing? || at.Sleeping?
  }

  predicate Locking(at: CloserAt) { at.StopLocked? || at.StopDeciding? || at.JoinLocked? }

  predicate Finishing(at: CloserAt) { at.Joining? || at.Publishing? }

  ghost predicate CloserOk(d: System, c: Id, at: CloserAt) {
    && (at.Waiting? || PastClients(at) ==> !d.health.Healthy?)
    && (PastClients(at) ==> d.quiet)
    && (PastStop(at) ==> d.stopEnqueued)
    && (Locking(at) ==> d.lock == Some(c))
    && (at.Joining? ==> d.joining && d.worker.Exited? && !d.health.Stopped?)
    && (at.Publishing? ==> d.joining && d.worker.Joined? && !d.health.Stopped?)
    && (at == Returned(true) ==> d.health.Stopped?)
  }

  ghost predicate OneFinisher(d: System) {
    forall c, e :: c in d.closers && e in d.closers && Finishing(d.closers[c]) && Finishing(d.closers[e]) ==> c == e
  }

  ghost predicate ClosersInv(d: System) {
    (forall c :: c in d.closers ==> CloserOk(d, c, d.closers[c])) && OneFinisher(d)
  }

  function Agents(channel: seq<Command>): seq<Id> {
    if channel == [] then [] else (if channel[0].Dispatch? then [channel[0].agent] else []) + Agents(channel[1..])
  }

  function Handled(h: seq<(Id, bool)>): seq<Id> {
    if h == [] then [] else Handled(h[..|h| - 1]) + [h[|h| - 1].0]
  }

  function Lost(h: seq<(Id, bool)>): nat {
    if h == [] then 0 else Lost(h[..|h| - 1]) + if h[|h| - 1].1 then 0 else 1
  }

  /** `Stop` is sent at most once, after the last client is gone, and is the last thing in the channel. */
  ghost predicate ChannelInv(d: System) {
    && (d.stopEnqueued ==> d.quiet)
    && d.stops == (if d.stopEnqueued then 1 else 0)
    && (forall i :: 0 <= i < |d.channel| && d.channel[i].Stop? ==> i == |d.channel| - 1)
    && (d.worker.Receiving? ==> (d.stopEnqueued <==> d.channel != [] && d.channel[|d.channel| - 1].Stop?))
    && (!d.worker.Receiving? ==> d.stopEnqueued && d.channel == [])
    && d.sent == Handled(d.handled) + Agents(d.channel)
    && d.undelivered == Lost(d.handled)
  }

  ghost predicate JoinInv(d: System) {
    && (d.workerKept <==> !d.joining)
    && d.joins == (if d.joining then 1 else 0)
    && (d.joining ==> !d.worker.Receiving?)
    && (d.worker.Joined? ==> d.joining)
    && (d.health.Stopped? ==> d.worker.Joined? && d.quiet)
  }

  ghost predicate Inv(d: System) {
    && !d.crashed && ClientsInv(d) && ClosersInv(d) && ChannelInv(d) && JoinInv(d)
  }

  // ---- every step keeps it -----------------------------------------------------------------

  lemma CountedGo(d: System, a: Id, at: AgentAt)
    requires a in d.agents
    ensures Counted(Go(d, a, at)) == if Counts(at) then Counted(d) + {a} else Counted(d) - {a}
  {
  }

  /** What the other closers rely on: nothing they have seen is taken back. */
  ghost predicate Onward(d: System, e: System, c: Id) {
    && (!d.health.Healthy? ==> !e.health.Healthy?) && (d.health.Stopped? ==> e.health.Stopped?)
    && (d.quiet ==> e.quiet) && (d.stopEnqueued ==> e.stopEnqueued) && (d.joining ==> e.joining)
    && (forall o :: o != c && d.lock == Some(o) ==> e.lock == Some(o))
    && (forall o :: o != c && o in e.closers ==> o in d.closers && e.closers[o] == d.closers[o])
    && (forall o :: o != c && o in d.closers && Finishing(d.closers[o]) ==> e.worker == d.worker && e.health == d.health)
  }

  lemma OthersOk(d: System, e: System, c: Id)
    requires ClosersInv(d) && Onward(d, e, c)
    requires c in e.closers ==> CloserOk(e, c, e.closers[c])
    requires c in e.closers && Finishing(e.closers[c]) ==> forall o :: o != c && o in d.closers ==> !Finishing(d.closers[o])
    ensures ClosersInv(e)
  {
    forall o | o in e.closers ensures CloserOk(e, o, e.closers[o]) {
      if o != c { assert CloserOk(d, o, d.closers[o]); }
    }
    assert OneFinisher(e) by {
      hide CloserOk;
    }
  }

  /** Only the agent's own place and the count change: the closers, the channel and the join do not notice. */
  ghost predicate AgentOnly(d: System, e: System) {
    e == d.(agents := e.agents, active := e.active)
  }

  lemma AgentOnlyKeeps(d: System, e: System)
    requires AgentOnly(d, e) && ClosersInv(d) && ChannelInv(d) && JoinInv(d)
    ensures ClosersInv(e) && ChannelInv(e) && JoinInv(e)
  {
    forall c | c in e.closers ensures CloserOk(e, c, e.closers[c]) { assert CloserOk(d, c, d.closers[c]); }
  }

  predicate ClientStep(x: Action) {
    x.LoadFirst? || x.CountUp? || x.LoadAgain? || x.BackOut? || x.InspectRefusal? || x.Forgo? || x.DropClient?
  }

  function One(counts: bool): int { if counts then 1 else 0 }

  /** The agent moves, the count follows it by what its places are worth, and nothing else changes. */
  lemma ClientMove(d: System, x: Action)
    requires ClientsInv(d) && Enabled(d, x) && ClientStep(x) && !d.crashed
    ensures x.id in d.agents && x.id in Next(d, x).agents
    ensures Next(d, x) == Go(d, x.id, Next(d, x).agents[x.id].at).(active := Next(d, x).active)
    ensures Next(d, x).active == d.active + One(Counts(Next(d, x).agents[x.id].at)) - One(Counts(d.agents[x.id].at))
  {
    hide Counted;
    assert x.BackOut? || x.DropClient? ==> d.active > 0 by { CountedIsActive(d, x.id); }
  }

  lemma CountedIsActive(d: System, a: Id)
    requires ClientsInv(d) && a in d.agents
    ensures Counts(d.agents[a].at) ==> d.active > 0
  {
    if Counts(d.agents[a].at) { assert a in Counted(d); }
  }

  lemma CountFollows(d: System, e: System, a: Id, at: AgentAt)
    requires ClientsInv(d) && a in d.agents && e.agents == Go(d, a, at).agents
    requires e.active == d.active + One(Counts(at)) - One(Counts(d.agents[a].at))
    ensures e.active == |Counted(e)|
  {
    CountedGo(d, a, at);
    assert Counted(e) == Counted(Go(d, a, at));
    assert a in Counted(d) <==> Counts(d.agents[a].at);
  }

  lemma ClientCount(d: System, x: Action)
    requires ClientsInv(d) && Enabled(d, x) && ClientStep(x) && !d.crashed
    ensures AgentOnly(d, Next(d, x)) && ClientsInv(Next(d, x))
  {
    var e := Next(d, x);
    ClientMove(d, x);
    CountFollows(d, e, x.id, e.agents[x.id].at);
    hide Counted;
  }

  /** Acquiring, refusing and dropping keep the count exact, and never grant a client once `quiet`. */
  lemma ClientStepKeeps(d: System, x: Action)
    requires Inv(d) && Enabled(d, x) && ClientStep(x)
    ensures Inv(Next(d, x))
  {
    ClientCount(d, x);
    hide ClosersInv, ChannelInv, JoinInv, ClientsInv, Next;
    AgentOnlyKeeps(d, Next(d, x));
  }

  lemma ArriveKeeps(d: System, a: Id, use: Use)
    requires Inv(d) && Enabled(d, Arrive(a, use))
    ensures Inv(Next(d, Arrive(a, use)))
  {
    var e := Next(d, Arrive(a, use));
    assert Counted(e) == Counted(d);
    assert ClientsInv(e);
    hide ClosersInv, ChannelInv, JoinInv, ClientsInv, Counted;
    AgentOnlyKeeps(d, e);
  }

  lemma {:induction false} AgentsFront(channel: seq<Command>)
    requires channel != []
    ensures Agents(channel) == (if channel[0].Dispatch? then [channel[0].agent] else []) + Agents(channel[1..])
  {
  }

  lemma {:induction false} AgentsAppend(channel: seq<Command>, m: Command)
    ensures Agents(channel + [m]) == Agents(channel) + (if m.Dispatch? then [m.agent] else [])
  {
    if channel == [] {
      AgentsFront([m]);
      assert [] + [m] == [m] && [m][1..] == [];
    } else {
      AgentsAppend(channel[1..], m);
      AgentsFront(channel);
      AgentsFront(channel + [m]);
      assert (channel + [m])[1..] == channel[1..] + [m];
      hide Agents;
    }
  }

  /** Nothing about clients changes. */
  lemma SameClients(d: System, e: System)
    requires ClientsInv(d) && e.agents == d.agents && e.active == d.active && e.quiet == d.quiet && (!d.health.Healthy? ==> !e.health.Healthy?)
    ensures ClientsInv(e)
  {
    assert Counted(e) == Counted(d);
    hide Counted;
  }

  /** A granted client means no closer has yet read zero, so the worker is there to take its command. */
  lemma SendKeeps(d: System, a: Id)
    requires Inv(d) && Enabled(d, SendCommand(a))
    ensures Inv(Next(d, SendCommand(a)))
  {
    var e := Next(d, SendCommand(a));
    SendClients(d, a);
    AgentsAppend(d.channel, Dispatch(a));
    assert !d.quiet && d.worker.Receiving?;
    assert ChannelInv(e) && JoinInv(e) && !e.crashed;
    hide ChannelInv, JoinInv, ClientsInv, CloserOk;
    AnyOther(d, e);
  }

  lemma SendClients(d: System, a: Id)
    requires ClientsInv(d) && Enabled(d, SendCommand(a))
    ensures ClientsInv(Next(d, SendCommand(a)))
  {
    CountedGo(d, a, DroppingSent);
    assert Counted(Next(d, SendCommand(a))) == Counted(d);
  }

  /** The closers depend on none of the agents, the channel and the histories. */
  lemma AnyOther(d: System, e: System)
    requires ClosersInv(d) && e.closers == d.closers && e.health == d.health && e.quiet == d.quiet && e.lock == d.lock
    requires e.stopEnqueued == d.stopEnqueued && e.joining == d.joining
    requires e.worker == d.worker || forall c :: c in d.closers ==> !Finishing(d.closers[c])
    ensures ClosersInv(e)
  {
    forall c | c in e.closers ensures CloserOk(e, c, e.closers[c]) { assert CloserOk(d, c, d.closers[c]); }
  }

  predicate CloserStep(x: Action) {
    x.Close? || x.LoadForClose? || x.Swap? || x.LockForStop? || x.StopCheck? || x.Poll? || x.PollAgain? || x.LockForJoin? || x.Wake? || x.TimeOut?
  }

  /** The step of closer `c` touched its own place, and perhaps the lock or the health. */
  ghost predicate Moves(d: System, e: System, c: Id) {
    && Onward(d, e, c) && c in e.closers && CloserOk(e, c, e.closers[c]) && !Finishing(e.closers[c])
    && e == d.(closers := e.closers, lock := e.lock, health := e.health)
    && (e.health == d.health || (d.health.Healthy? && e.health.Stopping?))
  }

  lemma PlainMoves(d: System, x: Action)
    requires Enabled(d, x) && (x.LoadForClose? || x.Poll? || x.PollAgain? || x.Wake? || x.TimeOut?)
    requires CloserOk(d, x.id, d.closers[x.id])
    ensures Moves(d, Next(d, x), x.id)
  {
    MovedOnward(d, x.id, Next(d, x).closers[x.id], d.health);
    hide Onward;
  }

  lemma CloseMoves(d: System, c: Id)
    requires Enabled(d, Close(c))
    ensures Moves(d, Next(d, Close(c)), c)
  {
  }

  lemma LockMoves(d: System, x: Action)
    requires Enabled(d, x) && (x.LockForStop? || x.LockForJoin? || x.StopCheck?) && CloserOk(d, x.id, d.closers[x.id]) && JoinInv(d) && ChannelInv(d)
    ensures Moves(d, Next(d, x), x.id)
  {
    hide Agents, Handled, Lost;
  }

  lemma FinishersHaveStopped(d: System)
    requires ClosersInv(d)
    ensures forall o :: o in d.closers && Finishing(d.closers[o]) ==> !d.health.Healthy?
  {
    forall o | o in d.closers && Finishing(d.closers[o]) ensures !d.health.Healthy? { assert CloserOk(d, o, d.closers[o]); }
  }

  lemma SwapMoves(d: System, c: Id)
    requires Enabled(d, Swap(c)) && ClosersInv(d)
    ensures Moves(d, Next(d, Swap(c)), c)
  {
    FinishersHaveStopped(d);
    assert CloserOk(d, c, d.closers[c]);
    hide ClosersInv, Enabled, Moves;
    if d.health.Healthy? { SwapWins(d, c); } else { SwapLoses(d, c); }
  }

  lemma SwapWins(d: System, c: Id)
    requires c in d.closers && d.closers[c].Swapping? && CloserOk(d, c, d.closers[c]) && d.health.Healthy?
    requires forall o :: o in d.closers && Finishing(d.closers[o]) ==> !d.health.Healthy?
    ensures Moves(d, Step(d, c, Waiting).(health := Stopping), c)
  {
    MovedOnward(d, c, Waiting, Stopping);
    hide Onward;
  }

  lemma SwapLoses(d: System, c: Id)
    requires c in d.closers && d.closers[c].Swapping? && CloserOk(d, c, d.closers[c]) && !d.health.Healthy?
    ensures Moves(d, Step(d, c, Loading), c)
  {
    MovedOnward(d, c, Loading, d.health);
    hide Onward;
  }

  lemma MovedOnward(d: System, c: Id, at: CloserAt, health: Health)
    requires health == d.health || (d.health.Healthy? && health.Stopping?)
    requires d.health != health ==> forall o :: o in d.closers && Finishing(d.closers[o]) ==> !d.health.Healthy?
    ensures Onward(d, Step(d, c, at).(health := health), c)
  {
  }

  lemma CloserMoves(d: System, x: Action)
    requires Inv(d) && Enabled(d, x) && CloserStep(x)
    ensures Moves(d, Next(d, x), x.id)
  {
    assert x.id in d.closers ==> CloserOk(d, x.id, d.closers[x.id]);
    hide Moves, CloserOk, ClientsInv, ChannelInv, JoinInv, OneFinisher, Next;
    if x.Swap? {
      SwapMoves(d, x.id);
    } else if x.LockForStop? || x.LockForJoin? || x.StopCheck? {
      LockMoves(d, x);
    } else if x.Close? {
      CloseMoves(d, x.id);
    } else {
      PlainMoves(d, x);
    }
  }

  lemma CloserStepKeeps(d: System, x: Action)
    requires Inv(d) && Enabled(d, x) && CloserStep(x)
    ensures Inv(Next(d, x))
  {
    var e := Next(d, x);
    CloserMoves(d, x);
    assert ChannelInv(e) && JoinInv(e);
    hide Next, Enabled, ChannelInv, JoinInv, ClientsInv, ClosersInv, Onward, CloserOk;
    SameClients(d, e);
    OthersOk(d, e, x.id);
  }

  /** Reading zero after `Stopping` is the moment no client can ever be granted again. */
  lemma ZeroReadKeeps(d: System, c: Id)
    requires Inv(d) && Enabled(d, LoadClients(c))
    ensures Inv(Next(d, LoadClients(c)))
  {
    if d.active == 0 {
      var e := Next(d, LoadClients(c));
      assert CloserOk(d, c, d.closers[c]);
      ZeroClients(d, e);
      assert ChannelInv(e) && JoinInv(e);
      hide ChannelInv, JoinInv, ClientsInv, ClosersInv;
      assert Onward(d, e, c) && CloserOk(e, c, e.closers[c]);
      OthersOk(d, e, c);
    }
  }

  lemma ZeroClients(d: System, e: System)
    requires ClientsInv(d) && d.active == 0 && !d.health.Healthy? && e == d.(closers := e.closers, quiet := true)
    ensures ClientsInv(e)
  {
    assert Counted(d) == {} && Counted(e) == Counted(d);
    assert forall a :: a in d.agents && Granted(d.agents[a].at) ==> a in Counted(d);
  }

  lemma StopDecided(d: System, c: Id)
    requires ChannelInv(d) && JoinInv(d) && !d.crashed && Enabled(d, StopDecide(c)) && CloserOk(d, c, d.closers[c])
    ensures ChannelInv(Next(d, StopDecide(c))) && JoinInv(Next(d, StopDecide(c))) && !Next(d, StopDecide(c)).crashed
  {
    AgentsAppend(d.channel, Stop);
    hide Agents, Handled, Lost;
    assert !d.stopEnqueued ==> d.worker.Receiving? && d.workerKept;
  }

  /** The first closer to hold the lock sends `Stop`; a later one finds it sent. */
  lemma StopDecideKeeps(d: System, c: Id)
    requires Inv(d) && Enabled(d, StopDecide(c))
    ensures Inv(Next(d, StopDecide(c)))
  {
    var e := Next(d, StopDecide(c));
    assert CloserOk(d, c, d.closers[c]);
    StopDecided(d, c);
    assert forall o :: o in d.closers && Finishing(d.closers[o]) ==> CloserOk(d, o, d.closers[o]);
    hide ChannelInv, JoinInv, ClosersInv, ClientsInv;
    SameClients(d, e);
    assert Onward(d, e, c) && CloserOk(e, c, e.closers[c]);
    OthersOk(d, e, c);
  }

  lemma JoinDecided(d: System, c: Id)
    requires ChannelInv(d) && JoinInv(d) && !d.crashed && Enabled(d, JoinDecide(c)) && CloserOk(d, c, d.closers[c])
    ensures ChannelInv(Next(d, JoinDecide(c))) && JoinInv(Next(d, JoinDecide(c))) && !Next(d, JoinDecide(c)).crashed
    ensures Finishing(Next(d, JoinDecide(c)).closers[c]) ==> d.worker.Exited? && !d.health.Stopped?
  {
    hide Agents, Handled, Lost;
  }

  /** The worker's handle is taken once: every later closer finds `joining` set. */
  lemma JoinDecideKeeps(d: System, c: Id)
    requires Inv(d) && Enabled(d, JoinDecide(c))
    ensures Inv(Next(d, JoinDecide(c)))
  {
    var e := Next(d, JoinDecide(c));
    assert CloserOk(d, c, d.closers[c]);
    forall o | o in d.closers && Finishing(d.closers[o]) ensures d.joining { assert CloserOk(d, o, d.closers[o]); }
    JoinDecided(d, c);
    hide ChannelInv, JoinInv, ClosersInv, ClientsInv;
    SameClients(d, e);
    assert Onward(d, e, c) && CloserOk(e, c, e.closers[c]);
    OthersOk(d, e, c);
  }

  lemma FinishKeeps(d: System, x: Action)
    requires Inv(d) && Enabled(d, x) && (x.Collect? || x.Publish?)
    ensures Inv(Next(d, x))
  {
    var e := Next(d, x);
    assert CloserOk(d, x.id, d.closers[x.id]);
    assert forall o :: o != x.id && o in d.closers ==> !Finishing(d.closers[o]);
    assert ChannelInv(e) && JoinInv(e);
    hide ChannelInv, JoinInv, ClosersInv, ClientsInv;
    SameClients(d, e);
    assert Onward(d, e, x.id) && CloserOk(e, x.id, e.closers[x.id]);
    OthersOk(d, e, x.id);
  }

  lemma HandledAppend(h: seq<(Id, bool)>, a: Id, delivered: bool)
    ensures Handled(h + [(a, delivered)]) == Handled(h) + [a]
    ensures Lost(h + [(a, delivered)]) == Lost(h) + if delivered then 0 else 1
  {
    assert (h + [(a, delivered)])[..|h|] == h;
  }

  lemma ReceiveCommand(d: System, delivered: bool)
    requires ChannelInv(d) && Enabled(d, Receive(delivered)) && d.channel[0].Dispatch?
    ensures ChannelInv(Next(d, Receive(delivered)))
  {
    HandledAppend(d.handled, d.channel[0].agent, delivered);
    hide Handled, Lost;
    assert Handled(d.handled) + ([d.channel[0].agent] + Agents(d.channel[1..])) == (Handled(d.handled) + [d.channel[0].agent]) + Agents(d.channel[1..]);
  }

  lemma ReceiveStop(d: System, delivered: bool)
    requires ChannelInv(d) && Enabled(d, Receive(delivered)) && d.channel[0].Stop?
    ensures ChannelInv(Next(d, Receive(delivered)))
  {
    assert d.channel == [Stop] && d.channel[1..] == [];
    hide Handled, Lost;
  }

  lemma ReceiveKeeps(d: System, delivered: bool)
    requires Inv(d) && Enabled(d, Receive(delivered))
    ensures Inv(Next(d, Receive(delivered)))
  {
    var e := Next(d, Receive(delivered));
    if d.channel[0].Dispatch? { ReceiveCommand(d, delivered); } else { ReceiveStop(d, delivered); }
    assert JoinInv(e) && !e.crashed;
    forall o | o in d.closers ensures !Finishing(d.closers[o]) { assert CloserOk(d, o, d.closers[o]); }
    hide ChannelInv, JoinInv, ClientsInv, ClosersInv;
    SameClients(d, e);
    AnyOther(d, e);
  }

  lemma StepKeeps(d: System, x: Action)
    requires Inv(d) && Enabled(d, x)
    ensures Inv(Next(d, x))
  {
    hide Inv, Next;
    match x
    case Arrive(a, use) => ArriveKeeps(d, a, use);
    case LoadFirst(_) => ClientStepKeeps(d, x);
    case CountUp(_) => ClientStepKeeps(d, x);
    case LoadAgain(_) => ClientStepKeeps(d, x);
    case BackOut(_) => ClientStepKeeps(d, x);
    case InspectRefusal(_) => ClientStepKeeps(d, x);
    case SendCommand(a) => SendKeeps(d, a);
    case Forgo(_) => ClientStepKeeps(d, x);
    case DropClient(_) => ClientStepKeeps(d, x);
    case LoadClients(c) => ZeroReadKeeps(d, c);
    case StopDecide(c) => StopDecideKeeps(d, c);
    case JoinDecide(c) => JoinDecideKeeps(d, c);
    case Collect(_) => FinishKeeps(d, x);
    case Publish(_) => FinishKeeps(d, x);
    case Receive(delivered) => ReceiveKeeps(d, delivered);
    case _ => CloserStepKeeps(d, x);
  }

  ghost predicate IsRun(states: seq<System>, actions: seq<Action>) {
    && |states| == |actions| + 1 && states[0] == STARTED
    && forall i :: 0 <= i < |actions| ==> Enabled(states[i], actions[i]) && states[i + 1] == Next(states[i], actions[i])
  }

  lemma StartedInv()
    ensures Inv(STARTED)
  {
    assert Counted(STARTED) == {};
  }

  lemma RunStep(states: seq<System>, actions: seq<Action>, i: nat)
    requires IsRun(states, actions) && i < |actions|
    ensures |states| == |actions| + 1 && Enabled(states[i], actions[i]) && states[i + 1] == Next(states[i], actions[i])
  {
    hide Enabled, Next;
  }

  /** No run reaches a fatal branch: not a count underflow, not a failed send, not "worker is unavailable",
      not an abandonment guard refused by a healthy dispatcher. */
  lemma {:induction false} RunInv(states: seq<System>, actions: seq<Action>, i: nat)
    requires IsRun(states, actions) && i < |states|
    ensures Inv(states[i])
  {
    if i == 0 {
      StartedInv();
    } else {
      RunInv(states, actions, i - 1);
      RunStep(states, actions, i - 1);
      hide IsRun, Inv, Enabled, Next;
      StepKeeps(states[i - 1], actions[i - 1]);
    }
  }

  // ---- what it means -----------------------------------------------------------------------

  /** What never goes back. */
  ghost predicate Later(d: System, e: System) {
    && (d.quiet ==> e.quiet && e.sent == d.sent)
    && d.sent <= e.sent && d.handled <= e.handled && d.stops <= e.stops && d.joins <= e.joins
    && (!d.health.Healthy? ==> !e.health.Healthy?) && (d.health.Stopped? ==> e.health.Stopped?)
  }

  lemma AgentStepLater(d: System, x: Action)
    requires ClientsInv(d) && Enabled(d, x) && (x.Arrive? || x.SendCommand? || ClientStep(x))
    ensures Later(d, Next(d, x))
  {
    hide Counted;
    if x.SendCommand? { assert Granted(d.agents[x.id].at); }
  }

  /** The histories stay, and the flags only rise. */
  ghost predicate Steady(d: System, e: System) {
    && e.sent == d.sent && e.handled == d.handled && d.stops <= e.stops && d.joins <= e.joins && (d.quiet ==> e.quiet)
    && (!d.health.Healthy? ==> !e.health.Healthy?) && (d.health.Stopped? ==> e.health.Stopped?)
  }

  lemma WaitingIsSteady(d: System, x: Action)
    requires Enabled(d, x) && CloserStep(x)
    ensures Steady(d, Next(d, x))
  {
    match x
    case LoadForClose(c) =>
    case Swap(c) =>
    case StopCheck(c) =>
    case Poll(c) =>
    case _ =>
  }

  lemma DecidingIsSteady(d: System, x: Action)
    requires Enabled(d, x) && (x.StopDecide? || x.JoinDecide?)
    ensures Steady(d, Next(d, x))
  {
    match x
    case StopDecide(c) =>
    case JoinDecide(c) =>
  }

  lemma FinishingIsSteady(d: System, x: Action)
    requires Enabled(d, x) && (x.LoadClients? || x.Collect? || x.Publish?)
    ensures Steady(d, Next(d, x))
  {
    match x
    case LoadClients(c) =>
    case _ =>
  }

  lemma ReceiveIs(d: System, delivered: bool)
    requires Enabled(d, Receive(delivered))
    ensures d.worker.Receiving? && d.channel != []
    ensures Next(d, Receive(delivered)) ==
            if d.channel[0].Stop? then d.(channel := d.channel[1..], worker := Exited)
            else d.(channel := d.channel[1..], handled := d.handled + [(d.channel[0].agent, delivered)],
                    undelivered := d.undelivered + if delivered then 0 else 1)
  {
  }

  lemma ReceiveLater(d: System, x: Action)
    requires Enabled(d, x) && x.Receive?
    ensures Later(d, Next(d, x))
  {
    hide Next, Enabled;
    ReceiveIs(d, x.delivered);
  }

  lemma CloserStepLater(d: System, x: Action)
    requires Enabled(d, x) && !(x.Arrive? || x.SendCommand? || ClientStep(x))
    ensures Later(d, Next(d, x))
  {
    hide Next, Enabled;
    if CloserStep(x) {
      WaitingIsSteady(d, x);
    } else if x.StopDecide? || x.JoinDecide? {
      DecidingIsSteady(d, x);
    } else if x.Receive? {
      ReceiveLater(d, x);
    } else {
      FinishingIsSteady(d, x);
    }
  }

  lemma StepLater(d: System, x: Action)
    requires Inv(d) && Enabled(d, x)
    ensures Later(d, Next(d, x))
  {
    hide ClientsInv, ClosersInv, ChannelInv, JoinInv, Later, Next, Enabled;
    if x.Arrive? || x.SendCommand? || ClientStep(x) {
      AgentStepLater(d, x);
    } else {
      CloserStepLater(d, x);
    }
  }

  lemma LaterAgain(c: System, d: System, e: System)
    requires Later(c, d) && Later(d, e)
    ensures Later(c, e)
  {
  }

  lemma LaterSelf(d: System)
    ensures Later(d, d)
  {
  }

  lemma RunStepLater(states: seq<System>, actions: seq<Action>, i: nat)
    requires IsRun(states, actions) && i + 1 < |states|
    ensures Later(states[i], states[i + 1])
  {
    RunInv(states, actions, i);
    RunStep(states, actions, i);
    hide *;
    StepLater(states[i], actions[i]);
  }

  lemma {:induction false} RunLater(states: seq<System>, actions: seq<Action>, i: nat, j: nat)
    requires IsRun(states, actions) && i <= j < |states|
    ensures Later(states[i], states[j])
    decreases j
  {
    hide *;
    if i == j {
      LaterSelf(states[i]);
    } else {
      RunLater(states, actions, i, j - 1);
      RunStepLater(states, actions, j - 1);
      LaterAgain(states[i], states[j - 1], states[j]);
    }
  }

  /** Once a closer has read zero clients after `Stopping`, no agent ever holds a client again and no
      command is ever sent again, in any continuation of the run. */
  lemma QuietForever(states: seq<System>, actions: seq<Action>, i: nat, j: nat, a: Id)
    requires IsRun(states, actions) && i <= j < |states| && states[i].quiet
    ensures a in states[j].agents ==> !Granted(states[j].agents[a].at)
    ensures states[j].sent == states[i].sent
  {
    RunLater(states, actions, i, j);
    RunInv(states, actions, j);
    hide IsRun, ClosersInv, ChannelInv, JoinInv, Counted;
  }

  /** Reading zero is that moment. */
  lemma ZeroReadIsQuiet(states: seq<System>, actions: seq<Action>, i: nat, c: Id)
    requires IsRun(states, actions) && i < |actions| && actions[i] == LoadClients(c) && states[i].active == 0
    ensures states[i + 1].quiet && !states[i + 1].health.Healthy?
  {
    RunStep(states, actions, i);
    RunInv(states, actions, i + 1);
    hide IsRun, ClosersInv, ChannelInv, JoinInv, Counted;
  }

  lemma {:induction false} HandledSize(h: seq<(Id, bool)>)
    ensures |Handled(h)| == |h|
  {
    if h != [] { HandledSize(h[..|h| - 1]); }
  }

  /** The lifecycle, in every state: at most one `Stop` and one joiner; `Stopped` only after the join; nothing
      behind `Stop` in the channel; and at `Stopped` every dispatched command was taken by the worker
      exactly once, in the order sent, either delivered or counted as undelivered. */
  lemma Lifecycle(states: seq<System>, actions: seq<Action>, i: nat)
    requires IsRun(states, actions) && i < |states|
    ensures var d := states[i];
            && !d.crashed && d.stops <= 1 && d.joins <= 1
            && (forall k :: 0 <= k < |d.channel| && d.channel[k].Stop? ==> k == |d.channel| - 1)
            && (d.health.Stopped? ==> d.worker.Joined? && d.joins == 1 && d.stops == 1 && d.channel == []
                                      && Handled(d.handled) == d.sent && |d.handled| == |d.sent| && d.undelivered == Lost(d.handled))
            && (forall c, e :: c in d.closers && e in d.closers && Finishing(d.closers[c]) && Finishing(d.closers[e]) ==> c == e)
            && (forall c :: c in d.closers && d.closers[c] == Returned(true) ==> d.health.Stopped?)
  {
    RunInv(states, actions, i);
    var d := states[i];
    HandledSize(d.handled);
    hide IsRun, Counted;
    if d.health.Stopped? {
      assert d.channel == [] && Agents(d.channel) == [];
      assert d.sent == Handled(d.handled);
    }
  }

  /** The count is never negative and is exactly the agents between their add and their subtract. */
  lemma CountIsExact(states: seq<System>, actions: seq<Action>, i: nat)
    requires IsRun(states, actions) && i < |states|
    ensures states[i].active == |Counted(states[i])|
  {
    RunInv(states, actions, i);
    hide IsRun, ClosersInv, ChannelInv, JoinInv;
  }
}
