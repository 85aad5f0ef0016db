/** The writer's interpreter with its tables updated in place: it owns a machine,
    runs the outputs of each step and hands completions back. */
module Interpreters {
  import opened Common
  import opened Forests
  import opened WriterSpec
  import opened WriterInvariant
  import opened Nodes
  import opened NodeTheorems
  import opened WriterMachines

  class Writer {
    const machine: WriterMachine
    var effects: map<EffectKey, WriterEffect>
    var aborted: Option<CheckpointTicket>
    var flushTimer: Option<nat>
    var view: Forest
    var received: seq<Envelope>
    var answered: seq<Completion>

    function Contents(): Tables
      reads this
    {
      Tables(effects, aborted, flushTimer, view, received, answered)
    }

    function Abstract(): Node
      reads this, machine
    {
      Node(machine.State(), Contents())
    }

    constructor (recovery: WriterRecovery, interval: nat, buffer: nat)
      requires RecoveryOk(recovery) && BufferOk(buffer)
      ensures Abstract() == Spawned(recovery, interval, buffer) && NodeInv(Abstract()) && fresh(machine)
    {
      machine := new WriterMachine(recovery, interval, buffer);
      effects, aborted, flushTimer, view, received, answered := map[], None, None, recovery.durable, [], [];
      new;
      SpawnEstablishesInv(recovery, interval, buffer);
    }

    method SpawnEffect(effect: WriterEffect)
      requires OutputOk(Contents(), Effect(effect))
      modifies this`effects
      ensures Contents() == ExecuteOne(old(Contents()), Effect(effect))
    {
      var key := effect.Key();
      assert key !in effects;
      effects := effects[key := effect];
    }

    method ExecuteAction(action: WriterAction)
      requires OutputOk(Contents(), Action(action))
      modifies this
      ensures Contents() == ExecuteOne(old(Contents()), Action(action))
    {
      match action
      case ArmFlush(deadline) =>
        assert flushTimer.None?;
        flushTimer := Some(deadline);
      case PublishView(forest) => view := forest;
      case SendReplies(replies) => SendReplies(replies);
      case CancelCheckpointPreparation(ticket) =>
        assert PreparationKey(ticket) in effects;
        aborted := Some(ticket);
    }

    method SendReplies(replies: seq<Completion>)
      modifies this`answered
      ensures answered == old(answered) + replies
    {
      for i := 0 to |replies|
        invariant answered == old(answered) + replies[..i]
      {
        answered := answered + [replies[i]];
      }
      assert replies[..|replies|] == replies;
    }

    method ExecuteStep(outputs: seq<WriterOutput>)
      requires OutputsOk(Contents(), outputs)
      modifies this
      ensures Contents() == Execute(old(Contents()), outputs)
    {
      for i := 0 to |outputs|
        invariant OutputsOk(Contents(), outputs[i..])
        invariant Execute(Contents(), outputs[i..]) == Execute(old(Contents()), outputs)
      {
        assert outputs[i..][1..] == outputs[i + 1..];
        match outputs[i]
        case Effect(effect) => SpawnEffect(effect);
        case Action(action) => ExecuteAction(action);
      }
    }

    /** Take what the event completes out of the tables. */
    method PickUpEvent(event: WriterEvent)
      modifies this
      ensures Contents() == PickUp(old(Contents()), event)
    {
      effects := effects - Completed(event);
      if event.CheckpointPrepared? || event.CheckpointPreparationCancelled? {
        aborted := None;
      }
      if event.FlushDue? {
        flushTimer := None;
      }
      if event.CommandReceived? {
        received := received + [event.envelope];
      }
    }

    /** One turn of the loop, refining the specified turn; none of the loop's
        assertions can fail. */
    method TakeTurn(now: nat, event: WriterEvent) returns (exit: Option<WriterExit>)
      requires NodeInv(Abstract()) && Deliverable(Abstract(), event)
      modifies this, machine
      ensures Faithful(old(machine.State()), event)
      ensures (Abstract(), exit) == Turn(old(Abstract()), now, event)
      ensures exit.None? ==> NodeInv(Abstract())
    {
      hide Inv, Matches, Deliverable, Faithful, Handle, PickUp, Execute, OutputsOk;
      TurnKeepsInv(Abstract(), now, event);
      PickUpEvent(event);
      var outputs;
      outputs, exit := machine.Handle(now, event);
      ExecuteStep(outputs);
    }

    /** Run a script of instants and events for as long as the next event is one
        the loop could pick up and the writer has not stopped. */
    method Run(script: seq<(nat, WriterEvent)>) returns (taken: nat, exit: Option<WriterExit>)
      requires NodeInv(Abstract())
      modifies this, machine
      ensures taken <= |script| && RunNode(old(Abstract()), script[..taken]) == Some((Abstract(), exit))
      ensures exit.None? ==> NodeInv(Abstract())
      ensures taken < |script| && exit.None? ==> !Deliverable(Abstract(), script[taken].1)
    {
      hide NodeInv, Deliverable, Faithful, Turn;
      taken, exit := 0, None;
      assert script[..0] == [];
      while taken < |script| && exit.None? && Deliverable(Abstract(), script[taken].1)
        invariant taken <= |script| && RunNode(old(Abstract()), script[..taken]) == Some((Abstract(), exit))
        invariant exit.None? ==> NodeInv(Abstract())
        decreases |script| - taken
      {
        assert script[..taken + 1][..taken] == script[..taken];
        exit := TakeTurn(script[taken].0, script[taken].1);
        taken := taken + 1;
      }
    }
  }
}
