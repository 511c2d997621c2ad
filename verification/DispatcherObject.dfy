/**
 The dispatcher and a claimed lease as the objects the program keeps, each atomic operation a
 method proved to be the protocol's step; and the worker's receive loop.
 */
module DispatcherObject {
  import opened Common
  import opened Dispatcher

  /** A closer about to send `Stop` finds the worker alive and its handle in place, unless `Stop` was sent. */
  lemma CloserHere(d: System, c: Id)
    requires Inv(d) && Enabled(d, StopDecide(c))
    ensures !d.crashed && (d.stopEnqueued || (d.workerKept && d.worker.Receiving?))
    ensures Next(d, StopDecide(c)) ==
            if d.stopEnqueued then d.(closers := d.closers[c := Polling], lock := None)
            else d.(closers := d.closers[c := Polling], channel := d.channel + [Stop], lock := None, stopEnqueued := true, stops := d.stops + 1)
  {
    assert CloserOk(d, c, d.closers[c]);
    hide Counted, Agents, Handled;
  }

  /** A closer about to take the handle finds it in place, or taken by another. */
  lemma TakerHere(d: System, c: Id)
    requires Inv(d) && Enabled(d, JoinDecide(c))
    ensures !d.crashed && (d.joining || d.workerKept)
    ensures d.workerKept && !d.worker.Receiving? ==> d.worker.Exited? && !d.joining
    ensures Next(d, JoinDecide(c)) ==
            if d.workerKept && !d.worker.Receiving? then d.(closers := d.closers[c := Joining], lock := None, joining := true, workerKept := false, joins := d.joins + 1)
            else d.(closers := d.closers[c := Sleeping], lock := None)
  {
    assert CloserOk(d, c, d.closers[c]);
    hide Counted, Agents, Handled;
  }

  ghost function AfterJoin(d: System, c: Id): System {
    d.(closers := d.closers[c := Publishing][c := Returned(true)], worker := Joined, health := Stopped)
  }

  /** Collecting and publishing, one after the other. */
  lemma JoinIs(d: System, c: Id)
    requires Inv(d) && Enabled(d, Collect(c))
    ensures Enabled(Next(d, Collect(c)), Publish(c)) && Next(Next(d, Collect(c)), Publish(c)) == AfterJoin(d, c)
    ensures Inv(AfterJoin(d, c))
  {
    StepKeeps(d, Collect(c));
    hide Inv;
    StepKeeps(Next(d, Collect(c)), Publish(c));
  }

  lemma SendIs(d: System, a: Id)
    requires Inv(d) && Enabled(d, SendCommand(a))
    ensures a in d.agents && d.worker.Receiving? && !d.crashed
    ensures var e := Next(d, SendCommand(a));
            && e == d.(channel := d.channel + [Dispatch(a)], sent := d.sent + [a], agents := d.agents[a := d.agents[a].(at := DroppingSent)])
            && Enabled(e, DropClient(a))
  {
    StepKeeps(d, SendCommand(a));
    hide Counted, Agents, Handled, Lost, CloserOk;
  }

  lemma MayReceive(d: System, delivered: bool)
    requires d.worker.Receiving? && d.channel != []
    ensures Enabled(d, Receive(delivered))
  {
  }

  /** Everything sent is taken or in the channel; an exited worker left the channel empty. */
  lemma DrainedChannel(d: System)
    requires Inv(d)
    ensures d.sent == Handled(d.handled) + Agents(d.channel) && d.undelivered == Lost(d.handled)
    ensures !d.worker.Receiving? ==> d.stopEnqueued && d.channel == []
    ensures d.worker.Receiving? && d.channel == [] ==> !d.stopEnqueued
    ensures Agents([]) == []
  {
    hide Handled, Lost, Counted, CloserOk;
  }

  class ReleaseDispatcher {
    var health: Health
    var activeClients: int
    var channel: seq<Command>
    var worker: Worker
    var workerKept: bool
    var stopEnqueued: bool
    var joining: bool
    var lock: Option<Id>
    var undelivered: nat
    var crashed: bool
    ghost var agents: map<Id, Agent>
    ghost var closers: map<Id, CloserAt>
    ghost var quiet: bool
    ghost var sent: seq<Id>
    ghost var handled: seq<(Id, bool)>
    ghost var stops: nat
    ghost var joins: nat

    ghost function State(): System reads this {
      System(health, activeClients, channel, worker, workerKept, stopEnqueued, joining, lock, undelivered, agents, closers,
             quiet, sent, handled, stops, joins, crashed)
    }

    ghost predicate Valid() reads this { Inv(State()) }

    constructor ()
      ensures State() == STARTED && Valid()
    {
      health, activeClients, channel, worker, workerKept := Healthy, 0, [], Receiving, true;
      stopEnqueued, joining, lock, undelivered, crashed := false, false, None, 0, false;
      agents, closers, quiet, sent, handled, stops, joins := map[], map[], false, [], [], 0, 0;
      new;
      StartedInv();
    }

    ghost method AgentGoes(a: Id, at: AgentAt)
      requires a in agents
      modifies this`agents
      ensures agents == old(agents)[a := old(agents)[a].(at := at)]
    {
      agents := agents[a := agents[a].(at := at)];
    }

    /** The first load of `acquire_client`. */
    method LoadForAdmission(a: Id) returns (admitted: bool)
      requires Valid() && Enabled(State(), LoadFirst(a))
      modifies this
      ensures Valid() && State() == Next(old(State()), LoadFirst(a)) && admitted == old(health.Healthy?)
    {
      StepKeeps(State(), LoadFirst(a));
      admitted := health.Healthy?;
      AgentGoes(a, if admitted then Adding else Refused);
    }

    method FetchAdd(a: Id)
      requires Valid() && Enabled(State(), CountUp(a))
      modifies this
      ensures Valid() && State() == Next(old(State()), CountUp(a))
    {
      StepKeeps(State(), CountUp(a));
      activeClients := activeClients + 1;
      AgentGoes(a, Rechecking);
    }

    /** The second load: the client is granted only if closing has not begun since. */
    method Recheck(a: Id) returns (granted: bool)
      requires Valid() && Enabled(State(), LoadAgain(a))
      modifies this
      ensures Valid() && State() == Next(old(State()), LoadAgain(a)) && granted == old(health.Healthy?)
      ensures granted ==> !quiet
    {
      StepKeeps(State(), LoadAgain(a));
      granted := health.Healthy?;
      AgentGoes(a, if granted then Holding else BackingOut);
    }

    /** `release_client`: the underflow branch is dead. */
    method ReleaseClient(a: Id)
      requires Valid() && (Enabled(State(), DropClient(a)) || Enabled(State(), BackOut(a)))
      modifies this
      ensures Valid() && !crashed && activeClients == old(activeClients) - 1 && 0 <= activeClients
      ensures State() == Next(old(State()), if old(agents[a].at.BackingOut?) then BackOut(a) else DropClient(a))
      ensures channel == old(channel)
    {
      ghost var step := if agents[a].at.BackingOut? then BackOut(a) else DropClient(a);
      StepKeeps(State(), step);
      var previous := activeClients;
      activeClients := activeClients - 1;
      if previous == 0 {
        assert false;
      }
      AgentGoes(a, if step.BackOut? then Refused else Gone);
      assert State() == Next(old(State()), step);
    }

    /** `DispatcherClient::dispatch` up to the drop of the client: the send cannot fail. */
    method Send(a: Id)
      requires Valid() && Enabled(State(), SendCommand(a))
      modifies this
      ensures Valid() && !crashed && State() == Next(old(State()), SendCommand(a))
      ensures channel == old(channel) + [Dispatch(a)] && activeClients == old(activeClients) && Enabled(State(), DropClient(a))
    {
      hide Inv, Next, Enabled;
      StepKeeps(State(), SendCommand(a));
      SendIs(State(), a);
      if worker.Receiving? {
        channel := channel + [Dispatch(a)];
      } else {
        assert false;
      }
      sent := sent + [a];
      AgentGoes(a, DroppingSent);
    }

    method CompareExchange(c: Id) returns (swapped: bool)
      requires Valid() && Enabled(State(), Swap(c))
      modifies this
      ensures Valid() && State() == Next(old(State()), Swap(c)) && swapped == old(health.Healthy?) && !health.Healthy?
    {
      StepKeeps(State(), Swap(c));
      swapped := health.Healthy?;
      if swapped {
        health := Stopping;
        closers := closers[c := Waiting];
      } else {
        closers := closers[c := Loading];
      }
      assert CloserOk(State(), c, closers[c]);
    }

    /** One load of `wait_for_clients`. */
    method LoadActive(c: Id) returns (drained: bool)
      requires Valid() && Enabled(State(), LoadClients(c))
      modifies this
      ensures Valid() && State() == Next(old(State()), LoadClients(c)) && drained == old(activeClients == 0)
      ensures drained ==> quiet
    {
      StepKeeps(State(), LoadClients(c));
      drained := activeClients == 0;
      if drained {
        quiet := true;
        closers := closers[c := WantsStop];
      }
    }

    /** The body of `enqueue_stop_once` once the lock is held and the health was not `Stopped`. */
    method EnqueueStopOnce(c: Id)
      requires Valid() && Enabled(State(), StopDecide(c))
      modifies this
      ensures Valid() && State() == Next(old(State()), StopDecide(c)) && stopEnqueued && !crashed
      ensures channel == if old(stopEnqueued) then old(channel) else old(channel) + [Stop]
    {
      hide Inv, Next, Enabled;
      ghost var before := State();
      StepKeeps(before, StopDecide(c));
      CloserHere(before, c);
      if stopEnqueued {
        closers := closers[c := Polling];
      } else if !workerKept {
        assert false;
      } else {
        if worker.Receiving? {
          channel := channel + [Stop];
        } else {
          assert false;
        }
        stopEnqueued := true;
        stops := stops + 1;
        closers := closers[c := Polling];
      }
      lock := None;
    }

    /** Taking the worker's handle under the lock: one closer gets it, exactly when the worker has exited. */
    method TakeWorker(c: Id) returns (took: bool)
      requires Valid() && Enabled(State(), JoinDecide(c))
      modifies this
      ensures Valid() && State() == Next(old(State()), JoinDecide(c)) && !crashed
      ensures took <==> old(workerKept && worker.Exited?)
      ensures took ==> !workerKept && joining
    {
      hide Inv, Next, Enabled;
      StepKeeps(State(), JoinDecide(c));
      TakerHere(State(), c);
      took := false;
      if workerKept && !joining && !worker.Receiving? {
        took, joining, workerKept := true, true, false;
        joins := joins + 1;
        closers := closers[c := Joining];
      } else if joining || workerKept {
        closers := closers[c := Sleeping];
      } else {
        assert false;
      }
      lock := None;
      assert State() == Next(old(State()), JoinDecide(c));
    }

    method JoinAndPublish(c: Id)
      requires Valid() && Enabled(State(), Collect(c))
      modifies this
      ensures Valid() && health.Stopped? && worker.Joined? && channel == []
      ensures State() == Next(Next(old(State()), Collect(c)), Publish(c))
      ensures undelivered == Lost(handled) && Handled(handled) == sent
    {
      JoinIs(State(), c);
      hide Inv, Next, Enabled;
      worker := Joined;
      closers := closers[c := Publishing];
      health := Stopped;
      closers := closers[c := Returned(true)];
      assert State() == AfterJoin(old(State()), c);
      DrainedChannel(State());
    }

    // ---- the worker's loop ---------------------------------------------------------------

    /** One `recv` of the worker: the head of the channel is sent, or counted, or ends the loop. */
    method ReceiveOne(delivered: bool) returns (goOn: bool)
      requires Valid() && Enabled(State(), Receive(delivered))
      modifies this
      ensures Valid() && State() == Next(old(State()), Receive(delivered))
      ensures goOn <==> old(channel)[0].Dispatch?
      ensures channel == old(channel)[1..] && worker == (if goOn then Receiving else Exited)
      ensures State() == old(State()).(channel := channel, worker := worker, handled := handled, undelivered := undelivered)
      ensures handled == if goOn then old(handled) + [(old(channel)[0].agent, delivered)] else old(handled)
    {
      StepKeeps(State(), Receive(delivered));
      ReceiveIs(State(), delivered);
      hide Inv, Next, Enabled;
      var command := channel[0];
      channel := channel[1..];
      match command
      case Dispatch(a) =>
        handled := handled + [(a, delivered)];
        if !delivered {
          undelivered := undelivered + 1;
        }
        goOn := true;
      case Stop =>
        worker := Exited;
        goOn := false;
    }

    /**
     `dispatch_worker` until `Stop` or an empty channel; `outcomes[k]` is whether the owner of the k-th command
     still lived. Every command is taken once and in the order sent, each failed send is counted, and after `Stop`
     nothing is left to take.
     */
    method DispatchWorker(outcomes: seq<bool>)
      requires Valid() && worker.Receiving? && |outcomes| >= |channel|
      modifies this
      ensures Valid() && channel == [] && sent == old(sent)
      ensures Handled(handled) == sent && undelivered == Lost(handled)
      ensures old(handled) <= handled && |handled| == |old(handled)| + |Agents(old(channel))| <= |old(handled)| + |outcomes|
      ensures forall k :: |old(handled)| <= k < |handled| ==> handled[k].1 == outcomes[k - |old(handled)|]
      ensures worker.Exited? <==> stopEnqueued
      ensures State() == old(State()).(channel := [], worker := worker, handled := handled, undelivered := undelivered)
    {
      hide Inv, Next, Enabled;
      var taken := 0;
      var goOn := true;
      while goOn && channel != []
        invariant Valid() && sent == old(sent) && taken + |channel| <= |old(channel)|
        invariant worker.Receiving? <==> goOn
        invariant worker.Receiving? || worker.Exited?
        invariant old(handled) <= handled && |handled| == |old(handled)| + taken
        invariant taken + |Agents(channel)| == |Agents(old(channel))|
        invariant forall k :: |old(handled)| <= k < |handled| ==> handled[k].1 == outcomes[k - |old(handled)|]
        invariant State() == old(State()).(channel := channel, worker := worker, handled := handled, undelivered := undelivered)
        decreases |channel|, goOn
      {
        AgentsFront(channel);
        MayReceive(State(), outcomes[taken]);
        goOn := ReceiveOne(outcomes[taken]);
        if goOn {
          taken := taken + 1;
        }
      }
      DrainedChannel(State());
    }
  }

  // ---- a claimed lease ---------------------------------------------------------------------

  /** A native lease: its release command, the guard that keeps the holder alive, and its counted client. */
  class ClaimedLease {
    var command: Option<Id>
    var guardKept: bool
    var clientKept: bool
    ghost var releases: seq<Id>

    ghost predicate Valid() reads this {
      && (command.Some? <==> clientKept) && (command.Some? ==> guardKept) && |releases| <= 1
      && (command.Some? ==> releases == [])
    }

    constructor (agent: Id)
      ensures Valid() && command == Some(agent) && releases == []
    {
      command, guardKept, clientKept, releases := Some(agent), true, true, [];
    }

    /** `dispatch_release`, called by `retire` and again by `drop`: the first call sends the command with the
        client still held, and only then lets the guard go; every later call does nothing. */
    method DispatchRelease(dispatcher: ReleaseDispatcher)
      requires Valid() && dispatcher.Valid()
      requires command.Some? ==> Enabled(dispatcher.State(), SendCommand(command.value))
      modifies this, dispatcher
      ensures Valid() && dispatcher.Valid() && command.None? && !clientKept
      ensures old(command).Some? ==> !guardKept && releases == [old(command).value]
                                     && dispatcher.channel == old(dispatcher.channel) + [Dispatch(old(command).value)]
                                     && dispatcher.activeClients == old(dispatcher.activeClients) - 1
      ensures old(command).None? ==> releases == old(releases) && guardKept == old(guardKept)
                                     && dispatcher.State() == old(dispatcher.State())
    {
      hide Inv, Next, Enabled;
      if command.Some? {
        var a := command.value;
        command := None;
        clientKept := false;
        dispatcher.Send(a);
        dispatcher.ReleaseClient(a);
        releases := releases + [a];
        guardKept := false;
      }
    }
  }
}
