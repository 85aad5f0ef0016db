/** A live writer as its interpreter runs it: the machine, the effects it has
    outstanding, its timer, its published view and its conversation. */
module Nodes {
  import opened Common
  import opened Forests
  import opened Suffix
  import opened WriterSpec
  import opened WriterInvariant

  /** The interpreter's tables. `aborted` names the preparation whose task was
      cancelled; `received` and `answered` are the history of commands taken in
      and replies sent. */
  datatype Tables = Tables(
    effects: map<EffectKey, WriterEffect>,
    aborted: Option<CheckpointTicket>,
    timer: Option<nat>,
    view: Forest,
    received: seq<Envelope>,
    answered: seq<Completion>)

  datatype Node = Node(machine: WriterState, tables: Tables)

  function Spawned(recovery: WriterRecovery, flushIntervalMin: nat, flushBufferBytes: nat): Node
    requires RecoveryOk(recovery) && BufferOk(flushBufferBytes)
  {
    Node(FromRecovery(recovery, flushIntervalMin, flushBufferBytes),
         Tables(map[], None, None, recovery.durable, [], []))
  }

  /** The events a faithful interpreter can hand to the machine right now. */
  predicate Deliverable(n: Node, event: WriterEvent) {
    && (n.machine.started <==> !event.Started?)
    && match event
       case Started => true
       case CommandReceived(_) => AdmissionOpen(n.machine)
       case IngressClosed => AdmissionOpen(n.machine)
       case FlushDue => n.tables.timer.Some?
       case WalEstablished(batch, _) => WalKey(batch) in n.tables.effects
       case CheckpointPrepared(ticket, outcome) =>
         && PreparationKey(ticket) in n.tables.effects
         && (outcome.Prepared? ==>
              PreparedFrom(n.tables.effects[PreparationKey(ticket)], ticket, outcome.prepared))
       case SealPublished(ticket, _) => PublicationKey(ticket) in n.tables.effects
       case CollectFinished(cut) => CollectionKey(cut) in n.tables.effects
       case CheckpointPreparationCancelled(ticket) =>
         PreparationKey(ticket) in n.tables.effects && n.tables.aborted == Some(ticket)
  }

  /** A preparation hands back the exact source and snapshot it was given. */
  predicate PreparedFrom(effect: WriterEffect, ticket: CheckpointTicket, prepared: PreparedCheckpoint) {
    && effect.PrepareCheckpoint?
    && DescribesCheckpoint(ticket, prepared)
    && prepared.source == effect.input.source
    && prepared.snapshot == effect.input.snapshot
  }

  /** The effect whose completion an event is, if it is one. */
  function Completed(event: WriterEvent): set<EffectKey> {
    match event
    case WalEstablished(batch, _) => {WalKey(batch)}
    case CheckpointPrepared(ticket, _) => {PreparationKey(ticket)}
    case CheckpointPreparationCancelled(ticket) => {PreparationKey(ticket)}
    case SealPublished(ticket, _) => {PublicationKey(ticket)}
    case CollectFinished(cut) => {CollectionKey(cut)}
    case _ => {}
  }

  /** What leaves the interpreter's tables as the event is picked up. */
  function PickUp(t: Tables, event: WriterEvent): Tables {
    t.(effects := t.effects - Completed(event),
       aborted := if event.CheckpointPrepared? || event.CheckpointPreparationCancelled? then None else t.aborted,
       timer := if event.FlushDue? then None else t.timer,
       received := if event.CommandReceived? then t.received + [event.envelope] else t.received)
  }

  /** The interpreter's own assertions about one output. */
  predicate OutputOk(t: Tables, output: WriterOutput) {
    match output
    case Effect(effect) => effect.Key() !in t.effects
    case Action(ArmFlush(_)) => t.timer.None?
    case Action(CancelCheckpointPreparation(ticket)) => PreparationKey(ticket) in t.effects
    case Action(_) => true
  }

  function ExecuteOne(t: Tables, output: WriterOutput): Tables {
    match output
    case Effect(effect) => t.(effects := t.effects[effect.Key() := effect])
    case Action(ArmFlush(deadline)) => t.(timer := Some(deadline))
    case Action(PublishView(view)) => t.(view := view)
    case Action(SendReplies(replies)) => t.(answered := t.answered + replies)
    case Action(CancelCheckpointPreparation(ticket)) => t.(aborted := Some(ticket))
  }

  function Execute(t: Tables, outputs: seq<WriterOutput>): Tables
    decreases |outputs|
  {
    if outputs == [] then t else Execute(ExecuteOne(t, outputs[0]), outputs[1..])
  }

  predicate OutputsOk(t: Tables, outputs: seq<WriterOutput>)
    decreases |outputs|
  {
    outputs == [] || (OutputOk(t, outputs[0]) && OutputsOk(ExecuteOne(t, outputs[0]), outputs[1..]))
  }

  /** One turn of the interpreter loop. */
  function Turn(n: Node, now: nat, event: WriterEvent): (r: (Node, Option<WriterExit>))
    requires Faithful(n.machine, event)
  {
    var step := Handle(n.machine, now, event);
    (Node(step.state, Execute(PickUp(n.tables, event), step.outputs)), step.exit)
  }

  // ------------------------------------------------------------- the invariant

  /** Whether the machine's markers say this effect is outstanding. */
  predicate IsOutstanding(s: WriterState, key: EffectKey) {
    match key
    case WalKey(batch) => s.flight.Some? && s.flight.value.batch == batch
    case PreparationKey(ticket) =>
      s.checkpoint.Some? && !s.checkpoint.value.Publishing? && s.checkpoint.value.ticket == ticket
    case PublicationKey(ticket) =>
      s.checkpoint.Some? && s.checkpoint.value.Publishing? && s.checkpoint.value.ticket == ticket
    case CollectionKey(cut) => s.collector == Some(cut)
  }

  ghost predicate EffectsMatch(s: WriterState, effects: map<EffectKey, WriterEffect>) {
    forall key :: key in effects <==> IsOutstanding(s, key)
  }

  predicate MarkersMatch(s: WriterState, t: Tables) {
    && (t.timer.Some? <==> s.flushArmed)
    && t.aborted ==
       (if s.checkpoint.Some? && s.checkpoint.value.Cancelling? then Some(s.checkpoint.value.ticket) else None)
    && t.view == s.durable.forest
  }

  /** The preparation in progress was given the machine's own Seal. */
  predicate PreparationMatches(s: WriterState, t: Tables) {
    s.checkpoint.Some? && !s.checkpoint.value.Publishing? ==>
      var key := PreparationKey(s.checkpoint.value.ticket);
      key in t.effects && t.effects[key].PrepareCheckpoint? && t.effects[key].input.source == s.seal
  }

  /** The interpreter's tables say exactly what the machine's markers say. */
  ghost predicate Matches(s: WriterState, t: Tables) {
    && EffectsMatch(s, t.effects)
    && MarkersMatch(s, t)
    && PreparationMatches(s, t)
  }

  ghost predicate NodeInv(n: Node) { Inv(n.machine) && Matches(n.machine, n.tables) }

  lemma SpawnEstablishesInv(recovery: WriterRecovery, flushIntervalMin: nat, flushBufferBytes: nat)
    requires RecoveryOk(recovery) && BufferOk(flushBufferBytes)
    ensures NodeInv(Spawned(recovery, flushIntervalMin, flushBufferBytes))
  {
    RecoveryEstablishesInv(recovery, flushIntervalMin, flushBufferBytes);
  }

  /** Whatever a faithful interpreter delivers is what the machine demands. */
  lemma DeliverableIsFaithful(n: Node, event: WriterEvent)
    requires Matches(n.machine, n.tables) && Deliverable(n, event)
    ensures Faithful(n.machine, event)
  {
    hide DescribesCheckpoint, HardFull;
  }

  /** The effect that a flight or a checkpoint waits for is on its way. */
  predicate Outstanding(n: Node) {
    && (n.machine.flight.Some? ==> WalKey(n.machine.flight.value.batch) in n.tables.effects)
    && (n.machine.checkpoint.Some? ==>
         || PreparationKey(n.machine.checkpoint.value.ticket) in n.tables.effects
         || PublicationKey(n.machine.checkpoint.value.ticket) in n.tables.effects)
  }

  /** A live writer admits commands, or a flight or a checkpoint is under way
      with its effect outstanding; a collection alone never closes admission.
      A barrier that waits without a flight has its timer armed. */
  lemma NeverIdle(n: Node)
    requires NodeInv(n)
    ensures AdmissionOpen(n.machine) || n.machine.flight.Some? || n.machine.checkpoint.Some?
    ensures Outstanding(n)
    ensures n.machine.flight.None? && n.machine.pending.commands != [] ==> n.tables.timer.Some?
  {
    var s := n.machine;
    assert Bounded(s.pending);
    hide Mid;
    if s.flight.Some? {
      assert IsOutstanding(s, WalKey(s.flight.value.batch));
    }
    if s.checkpoint.Some? {
      var ticket := s.checkpoint.value.ticket;
      assert IsOutstanding(s, PreparationKey(ticket)) || IsOutstanding(s, PublicationKey(ticket));
    }
  }

  // ------------------------------------------------ one turn, in its three parts

  lemma {:induction false} ExecuteConcat(t: Tables, a: seq<WriterOutput>, b: seq<WriterOutput>)
    ensures Execute(t, a + b) == Execute(Execute(t, a), b)
    ensures OutputsOk(t, a + b) == (OutputsOk(t, a) && OutputsOk(Execute(t, a), b))
    decreases |a|
  {
    if a == [] {
      assert a + b == b;
    } else {
      assert (a + b)[1..] == a[1..] + b;
      ExecuteConcat(ExecuteOne(t, a[0]), a[1..], b);
    }
  }

  /** A part of a step run on its tables: the assertions of the interpreter
      hold and the tables match the machine again. */
  ghost predicate PartMatches(t: Tables, step: Stepped) {
    OutputsOk(t, step.outputs) && Matches(step.state, Execute(t, step.outputs))
  }

  lemma ExecuteSingle(t: Tables, output: WriterOutput)
    ensures Execute(t, [output]) == ExecuteOne(t, output)
    ensures OutputsOk(t, [output]) == OutputOk(t, output)
  {
    assert [output][1..] == [];
  }

  lemma ExecutePair(t: Tables, first: WriterOutput, second: WriterOutput)
    ensures Execute(t, [first, second]) == ExecuteOne(ExecuteOne(t, first), second)
    ensures OutputsOk(t, [first, second]) == (OutputOk(t, first) && OutputOk(ExecuteOne(t, first), second))
  {
    assert [first, second][1..] == [second];
    ExecuteSingle(ExecuteOne(t, first), second);
  }

  lemma DrainPartMatches(s: WriterState, t: Tables, now: nat)
    requires Matches(s, t) && s.flight.None?
    ensures OutputOk(t, DrainPending(s, now).output)
    ensures Matches(DrainPending(s, now).state, ExecuteOne(t, DrainPending(s, now).output))
  {
    hide Facts, Replies;
  }

  lemma FlushPartMatches(s: WriterState, t: Tables, now: nat)
    requires Matches(s, t)
    ensures PartMatches(t, ScheduleFlush(s, now))
  {
    var step := ScheduleFlush(s, now);
    hide MustDrain, SaturatingAdd;
    if s.flight.None? && s.pending.commands != [] {
      if MustDrain(s, now) {
        DrainPartMatches(s, t, now);
        ExecuteSingle(t, DrainPending(s, now).output);
        hide DrainPending, Execute, OutputsOk, OutputOk, ExecuteOne, Matches;
      } else if !s.flushArmed {
        ExecuteSingle(t, step.outputs[0]);
      }
    }
  }

  lemma CheckpointPartMatches(s: WriterState, t: Tables)
    requires Matches(s, t)
    ensures PartMatches(t, ScheduleCheckpoint(s))
  {
    var step := ScheduleCheckpoint(s);
    if step.outputs != [] {
      ExecuteSingle(t, step.outputs[0]);
    }
  }

  lemma DurablePartMatches(s: WriterState, t: Tables, batch: nat)
    requires Matches(s, t) && Faithful(s, WalEstablished(batch, Ok(Durable)))
    ensures PartMatches(PickUp(t, WalEstablished(batch, Ok(Durable))), RecordWalDurable(s))
  {
    var step := RecordWalDurable(s);
    var picked := PickUp(t, WalEstablished(batch, Ok(Durable)));
    ExecutePair(picked, step.outputs[0], step.outputs[1]);
    assert step.outputs == [step.outputs[0], step.outputs[1]];
    hide Execute, OutputsOk;
  }

  /** Admission touches none of the machine's markers. */
  lemma AdmitLeavesMarkers(s: WriterState, envelope: Envelope)
    ensures var t := Admit(s, envelope).state;
      && t.flight == s.flight && t.checkpoint == s.checkpoint && t.collector == s.collector
      && t.flushArmed == s.flushArmed && t.durable == s.durable && t.seal == s.seal
  {
    hide AdmitCommand, RunLeavesTakeoverRoom;
  }

  lemma SameMarkersMatch(s: WriterState, t: Tables, after: WriterState, next: Tables)
    requires Matches(s, t)
    requires after.flight == s.flight && after.checkpoint == s.checkpoint && after.collector == s.collector
    requires after.flushArmed == s.flushArmed && after.durable == s.durable && after.seal == s.seal
    requires next.effects == t.effects && next.aborted == t.aborted && next.timer == t.timer && next.view == t.view
    ensures Matches(after, next)
  {
  }

  lemma AdmitPartMatches(s: WriterState, t: Tables, envelope: Envelope)
    requires Matches(s, t) && Faithful(s, CommandReceived(envelope))
    ensures PartMatches(PickUp(t, CommandReceived(envelope)), ApplyEvent(s, CommandReceived(envelope)))
  {
    hide Admit, Matches, HardFull;
    var step := ApplyEvent(s, CommandReceived(envelope));
    var picked := PickUp(t, CommandReceived(envelope));
    assert picked.effects == t.effects;
    AdmitLeavesMarkers(s, envelope);
    if step.outputs != [] {
      ExecuteSingle(picked, step.outputs[0]);
    }
    SameMarkersMatch(s, t, step.state, Execute(picked, step.outputs));
  }

  lemma PreparationPartMatches(s: WriterState, t: Tables, ticket: CheckpointTicket, outcome: PreparationOutcome)
    requires Matches(s, t) && Faithful(s, CheckpointPrepared(ticket, outcome))
    ensures PartMatches(PickUp(t, CheckpointPrepared(ticket, outcome)), CompletePreparation(s, ticket, outcome))
  {
    hide DescribesCheckpoint;
    var step := CompletePreparation(s, ticket, outcome);
    var picked := PickUp(t, CheckpointPrepared(ticket, outcome));
    if step.outputs != [] {
      ExecuteSingle(picked, step.outputs[0]);
    }
  }

  lemma PublicationPartMatches(s: WriterState, t: Tables, ticket: CheckpointTicket)
    requires Matches(s, t) && Faithful(s, SealPublished(ticket, Ok(Authored)))
    ensures PartMatches(PickUp(t, SealPublished(ticket, Ok(Authored))), CompletePublication(s, ticket, Ok(Authored)))
  {
    var step := CompletePublication(s, ticket, Ok(Authored));
    var picked := PickUp(t, SealPublished(ticket, Ok(Authored)));
    if |step.outputs| == 2 {
      ExecutePair(picked, step.outputs[0], step.outputs[1]);
      assert step.outputs == [step.outputs[0], step.outputs[1]];
      hide Execute, OutputsOk;
    } else {
      ExecuteSingle(picked, step.outputs[0]);
    }
  }

  lemma QuietPartMatches(s: WriterState, t: Tables, event: WriterEvent)
    requires Matches(s, t) && Faithful(s, event) && Quiet(event) && !event.CheckpointPrepared?
    ensures PartMatches(PickUp(t, event), ApplyEvent(s, event))
  {
    var step := ApplyEvent(s, event);
    var picked := PickUp(t, event);
    if step.outputs != [] {
      ExecuteSingle(picked, step.outputs[0]);
    }
  }

  lemma ApplyPartMatches(s: WriterState, t: Tables, event: WriterEvent)
    requires Matches(s, t) && Faithful(s, event) && ApplyEvent(s, event).exit.None?
    ensures PartMatches(PickUp(t, event), ApplyEvent(s, event))
  {
    hide PartMatches, Matches;
    match event
    case CommandReceived(envelope) => AdmitPartMatches(s, t, envelope);
    case WalEstablished(batch, wal) => DurablePartMatches(s, t, batch);
    case CheckpointPrepared(ticket, outcome) => PreparationPartMatches(s, t, ticket, outcome);
    case SealPublished(ticket, publication) => PublicationPartMatches(s, t, ticket);
    case _ => QuietPartMatches(s, t, event);
  }

  /** Every turn meets the interpreter's assertions and, unless it stops the
      writer, leaves machine and tables in agreement. */
  lemma TurnKeepsInv(n: Node, now: nat, event: WriterEvent)
    requires NodeInv(n) && Deliverable(n, event)
    ensures Faithful(n.machine, event)
    ensures OutputsOk(PickUp(n.tables, event), Handle(n.machine, now, event).outputs)
    ensures Turn(n, now, event).1.None? ==> NodeInv(Turn(n, now, event).0)
  {
    DeliverableIsFaithful(n, event);
    HandleKeepsInv(n.machine, now, event);
    var applied := ApplyEvent(n.machine, event);
    var picked := PickUp(n.tables, event);
    if applied.exit.None? {
      ApplyPartMatches(n.machine, n.tables, event);
      var t1 := Execute(picked, applied.outputs);
      var flushed := ScheduleFlush(applied.state, now);
      FlushPartMatches(applied.state, t1, now);
      var t2 := Execute(t1, flushed.outputs);
      var checked := ScheduleCheckpoint(flushed.state);
      CheckpointPartMatches(flushed.state, t2);
      ExecuteConcat(t1, flushed.outputs, checked.outputs);
      ExecuteConcat(picked, applied.outputs, flushed.outputs + checked.outputs);
      hide Execute, OutputsOk, Inv, Deliverable, Faithful, ApplyEvent, ScheduleFlush, ScheduleCheckpoint, Matches;
    }
  }
}
