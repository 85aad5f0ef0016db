/** What holds over every run of a live writer. */
module NodeTheorems {
  import opened Common
  import opened Forests
  import opened Suffix
  import opened WriterSpec
  import opened WriterInvariant
  import opened Nodes

  // ------------------------------------------------------------ output shape

  predicate OnlyActions(outputs: seq<WriterOutput>) {
    forall i :: 0 <= i < |outputs| ==> outputs[i].Action?
  }

  /** No step emits more than the named bound, and a step that stops the
      writer starts no completion-producing work. */
  lemma StepShape(s: WriterState, now: nat, event: WriterEvent)
    requires Faithful(s, event)
    ensures |Handle(s, now, event).outputs| <= WRITER_OUTPUTS_PER_STEP_MAX
    ensures Handle(s, now, event).exit.Some? ==> OnlyActions(Handle(s, now, event).outputs)
  {
    hide DescribesCheckpoint, CheckpointDue, MustDrain, AdmitCommand, HardFull, RunLeavesTakeoverRoom, Facts, Replies;
    ApplyShape(s, event);
    FlushShape(ApplyEvent(s, event).state, now);
    hide ApplyEvent, ScheduleFlush;
  }

  lemma ApplyShape(s: WriterState, event: WriterEvent)
    requires Faithful(s, event)
    ensures |ApplyEvent(s, event).outputs| <= 2
    ensures ApplyEvent(s, event).exit.Some? ==> ApplyEvent(s, event).outputs == []
    ensures !OnlyActions(ApplyEvent(s, event).outputs) ==>
      ApplyEvent(s, event).state.ingressOpen || ApplyEvent(s, event).state.checkpoint.Some?
  {
    hide DescribesCheckpoint, AdmitCommand, HardFull, RunLeavesTakeoverRoom;
  }

  lemma FlushShape(s: WriterState, now: nat)
    ensures |ScheduleFlush(s, now).outputs| <= 1
    ensures !OnlyActions(ScheduleFlush(s, now).outputs) ==> ScheduleFlush(s, now).state.flight.Some?
    ensures ScheduleFlush(s, now).state.ingressOpen == s.ingressOpen
    ensures ScheduleFlush(s, now).state.checkpoint == s.checkpoint
  {
    hide MustDrain, Facts, Replies;
  }

  // -------------------------------------------------------- reply conservation

  function Envelopes(replies: seq<Completion>): seq<Envelope> {
    seq(|replies|, i requires 0 <= i < |replies| => Envelope(replies[i].command, replies[i].reply))
  }

  /** The callers a set of completions will answer. */
  function Owed(replies: seq<Completion>): multiset<Envelope> { multiset(Envelopes(replies)) }

  lemma OwedConcat(a: seq<Completion>, b: seq<Completion>)
    ensures Owed(a + b) == Owed(a) + Owed(b)
  {
    assert Envelopes(a + b) == Envelopes(a) + Envelopes(b);
  }

  function FlightOwed(s: WriterState): multiset<Envelope> {
    if s.flight.Some? then Owed(s.flight.value.replies) else multiset{}
  }

  /** The callers waiting inside the machine. */
  function Held(s: WriterState): multiset<Envelope> {
    Owed(Replies(s.pending.commands)) + FlightOwed(s)
  }

  function Emitted(outputs: seq<WriterOutput>): multiset<Envelope> {
    if outputs == [] then multiset{}
    else
      (if outputs[0].Action? && outputs[0].action.SendReplies? then Owed(outputs[0].action.replies) else multiset{})
      + Emitted(outputs[1..])
  }

  function Taken(event: WriterEvent): multiset<Envelope> {
    if event.CommandReceived? then multiset{event.envelope} else multiset{}
  }

  /** The replies a terminal WAL outcome drops with its flight. */
  function Dropped(s: WriterState, event: WriterEvent): multiset<Envelope> {
    if event.WalEstablished? && event.wal != Ok(Durable) then FlightOwed(s) else multiset{}
  }

  lemma {:induction false} EmittedConcat(a: seq<WriterOutput>, b: seq<WriterOutput>)
    ensures Emitted(a + b) == Emitted(a) + Emitted(b)
    decreases |a|
  {
    if a == [] {
      assert a + b == b;
    } else {
      assert (a + b)[1..] == a[1..] + b;
      EmittedConcat(a[1..], b);
    }
  }

  lemma EmittedSingle(output: WriterOutput)
    ensures Emitted([output]) ==
      if output.Action? && output.action.SendReplies? then Owed(output.action.replies) else multiset{}
  {
    assert [output][1..] == [];
  }

  lemma PushOwes(commands: seq<PendingCommand>, next: PendingCommand)
    ensures Owed(Replies(commands + [next])) ==
      Owed(Replies(commands)) + multiset{Envelope(next.completion.command, next.completion.reply)}
  {
    assert Replies(commands + [next]) == Replies(commands) + [next.completion];
    OwedConcat(Replies(commands), [next.completion]);
    assert Envelopes([next.completion]) == [Envelope(next.completion.command, next.completion.reply)];
  }

  lemma AdmitConserves(s: WriterState, envelope: Envelope)
    ensures var admitted := Admit(s, envelope);
      multiset{envelope} + Held(s) ==
      (if admitted.reply.Some? then Owed([admitted.reply.value]) else multiset{}) + Held(admitted.state)
  {
    var admitted := Admit(s, envelope);
    hide AdmitCommand, RunLeavesTakeoverRoom, Owed, Replies;
    if admitted.reply.Some? {
      assert Envelopes([admitted.reply.value]) == [envelope];
      assert Owed([admitted.reply.value]) == multiset([envelope]) by { OwedOne(admitted.reply.value); }
    } else {
      var commands := admitted.state.pending.commands;
      PushOwes(s.pending.commands, commands[|commands| - 1]);
    }
  }

  lemma OwedOne(reply: Completion)
    ensures Owed([reply]) == multiset{Envelope(reply.command, reply.reply)}
  {
    assert Envelopes([reply]) == [Envelope(reply.command, reply.reply)];
  }

  lemma EmittedPair(first: WriterAction, second: WriterAction)
    requires !first.SendReplies? && second.SendReplies?
    ensures Emitted([Action(first), Action(second)]) == Owed(second.replies)
  {
    assert [Action(first), Action(second)][1..] == [Action(second)];
    EmittedSingle(Action(second));
    hide Owed;
  }

  lemma WalOutcomeConserves(s: WriterState, batch: nat, wal: Result<WalEstablishment, TypedStoreError>)
    requires s.flight.Some?
    ensures Held(s) ==
      Emitted(WalOutcome(s, batch, wal).outputs) + Held(WalOutcome(s, batch, wal).state)
      + (if wal == Ok(Durable) then multiset{} else FlightOwed(s))
  {
    hide Owed, Replies, Emitted;
    NothingEmitted();
    if wal == Ok(Durable) {
      EmittedPair(PublishView(s.flight.value.after.forest), SendReplies(s.flight.value.replies));
    }
  }

  lemma QuietHolds(s: WriterState, event: WriterEvent)
    requires Faithful(s, event) && !event.CommandReceived? && !event.WalEstablished?
    ensures Held(ApplyEvent(s, event).state) == Held(s)
  {
    hide DescribesCheckpoint, HardFull, Owed, Faithful, Replies;
  }

  lemma ApplyConserves(s: WriterState, event: WriterEvent)
    requires Faithful(s, event)
    ensures Taken(event) + Held(s) ==
      Emitted(ApplyEvent(s, event).outputs) + Held(ApplyEvent(s, event).state) + Dropped(s, event)
  {
    var step := ApplyEvent(s, event);
    hide DescribesCheckpoint, HardFull, Owed, Held, Emitted, Admit, WalOutcome, FlightOwed;
    match event
    case CommandReceived(envelope) =>
      AdmitConserves(s, envelope);
      NothingEmitted();
      if step.outputs != [] { EmittedSingle(step.outputs[0]); }
    case WalEstablished(batch, wal) => WalOutcomeConserves(s, batch, wal);
    case _ =>
      QuietHolds(s, event);
      QuietEmitsNothing(s, event);
  }

  lemma NothingEmitted()
    ensures Emitted([]) == multiset{}
  {
  }

  lemma QuietEmitsNothing(s: WriterState, event: WriterEvent)
    requires Faithful(s, event) && !event.CommandReceived? && !event.WalEstablished?
    ensures Emitted(ApplyEvent(s, event).outputs) == multiset{}
  {
    hide DescribesCheckpoint, HardFull, Owed, Faithful;
    var outputs := ApplyEvent(s, event).outputs;
    if |outputs| == 2 {
      assert outputs[1..] == [outputs[1]];
      EmittedSingle(outputs[1]);
    } else if |outputs| == 1 {
      EmittedSingle(outputs[0]);
    }
  }

  lemma FlushConserves(s: WriterState, now: nat)
    ensures Held(s) == Emitted(ScheduleFlush(s, now).outputs) + Held(ScheduleFlush(s, now).state)
  {
    hide MustDrain, Facts, Owed, Emitted;
    var step := ScheduleFlush(s, now);
    NothingEmitted();
    if step.outputs != [] {
      EmittedSingle(step.outputs[0]);
      assert step.outputs == [step.outputs[0]];
    }
    assert Owed(Replies([])) == multiset{} by { NothingOwed(); }
  }

  lemma NothingOwed()
    ensures Owed(Replies([])) == multiset{}
  {
    assert Envelopes(Replies([])) == [];
  }

  lemma ScheduleConserves(s: WriterState, now: nat)
    ensures Held(s) == Emitted(Schedule(s, now).outputs) + Held(Schedule(s, now).state)
  {
    var flushed := ScheduleFlush(s, now);
    FlushConserves(s, now);
    CheckpointHalfConserves(flushed.state);
    EmittedConcat(flushed.outputs, ScheduleCheckpoint(flushed.state).outputs);
    hide Emitted, Held, ScheduleFlush, ScheduleCheckpoint;
  }

  lemma CheckpointHalfConserves(s: WriterState)
    ensures Emitted(ScheduleCheckpoint(s).outputs) == multiset{}
    ensures Held(ScheduleCheckpoint(s).state) == Held(s)
  {
    var outputs := ScheduleCheckpoint(s).outputs;
    hide Owed, Replies;
    if outputs != [] { EmittedSingle(outputs[0]); }
  }

  /** One step neither loses nor invents a caller: those taken in and those
      held are exactly those answered, those still held, and those dropped
      with a flight that failed terminally. */
  lemma HandleConserves(s: WriterState, now: nat, event: WriterEvent)
    requires Faithful(s, event)
    ensures Taken(event) + Held(s) ==
      Emitted(Handle(s, now, event).outputs) + Held(Handle(s, now, event).state) + Dropped(s, event)
  {
    hide Emitted, Held, ApplyEvent, Schedule, Faithful, Dropped, Taken;
    var applied := ApplyEvent(s, event);
    ApplyConserves(s, event);
    if applied.exit.None? {
      ScheduleConserves(applied.state, now);
      EmittedConcat(applied.outputs, Schedule(applied.state, now).outputs);
    }
  }

  // ---------------------------------------------------- overload and admission

  /** Refusing a command for want of suffix room always leaves a checkpoint in
      progress, unless the u64 coordinates themselves are ending. */
  lemma OverloadStartsCheckpoint(s: WriterState, now: nat, envelope: Envelope)
    requires Inv(s) && Faithful(s, CommandReceived(envelope))
    requires Admit(s, envelope).reply.Some?
    requires Admit(s, envelope).reply.value.answer == Refused(Overloaded)
    ensures Handle(s, now, CommandReceived(envelope)).state.checkpoint.Some? || s.nextBatch == U64_MAX
  {
    AdmissionReports(s.admitted.forest, envelope.command, s.nextBatch, envelope.reply);
    var refused := s.(retryCheckpointAt := Some(s.durableBatch));
    assert Coordinates(s) && s.ingressOpen;
    hide Reports, Inv, AdmitCommand, Faithful;
    assert Admit(s, envelope).state == refused;
    assert !RunLeavesTakeoverRoom(s.seal.replay.Batch(), s.nextBatch);
    FlushLeavesCheckpointFields(refused, now);
  }

  lemma FlushLeavesCheckpointFields(s: WriterState, now: nat)
    ensures var t := ScheduleFlush(s, now).state;
      && t.checkpoint == s.checkpoint && t.seal == s.seal && t.durableBatch == s.durableBatch
      && t.ingressOpen == s.ingressOpen && t.retryCheckpointAt == s.retryCheckpointAt
      && t.durable == s.durable
  {
    hide MustDrain, Facts, Replies;
  }

  // ------------------------------------------------------------ what replies say

  /** The replies a step sends, in order. */
  function Sent(outputs: seq<WriterOutput>): seq<Completion> {
    if outputs == [] then []
    else
      (if outputs[0].Action? && outputs[0].action.SendReplies? then outputs[0].action.replies else [])
      + Sent(outputs[1..])
  }

  lemma SentSingle(output: WriterOutput)
    ensures Sent([output]) == if output.Action? && output.action.SendReplies? then output.action.replies else []
  {
    assert [output][1..] == [];
  }

  lemma SentPair(first: WriterOutput, second: WriterOutput)
    ensures Sent([first, second]) == Sent([first]) + Sent([second])
  {
    assert [first, second] == [first] + [second];
    SentConcat([first], [second]);
  }

  lemma {:induction false} SentConcat(a: seq<WriterOutput>, b: seq<WriterOutput>)
    ensures Sent(a + b) == Sent(a) + Sent(b)
    decreases |a|
  {
    if a == [] {
      assert a + b == b;
    } else {
      assert (a + b)[1..] == a[1..] + b;
      SentConcat(a[1..], b);
    }
  }

  lemma {:induction false} ExecuteAnswers(t: Tables, outputs: seq<WriterOutput>)
    ensures Execute(t, outputs).answered == t.answered + Sent(outputs)
    ensures Execute(t, outputs).received == t.received
    ensures Emitted(outputs) == Owed(Sent(outputs))
    decreases |outputs|
  {
    hide Owed;
    NothingOwed();
    if outputs != [] {
      ExecuteAnswers(ExecuteOne(t, outputs[0]), outputs[1..]);
      var first := if outputs[0].Action? && outputs[0].action.SendReplies? then outputs[0].action.replies else [];
      OwedConcat(first, Sent(outputs[1..]));
      assert Replies([]) == [];
    }
  }

  /** A reply is backed when it refuses, or reports the durable state, or
      reports a state passed through while replaying the batch in flight. */
  ghost predicate Backed(reply: Completion, before: WriterState, after: WriterState) {
    || reply.answer.Refused?
    || Reports(reply, after.durable.forest)
    || (&& before.flight.Some? && after.durableBatch == before.flight.value.batch
        && Kept(reply, before.durable.forest, before.flight.value.batch, before.flight.value.facts))
  }

  ghost predicate AllBacked(replies: seq<Completion>, before: WriterState, after: WriterState) {
    forall i :: 0 <= i < |replies| ==> Backed(replies[i], before, after)
  }

  lemma AdmitBacked(s: WriterState, envelope: Envelope)
    requires Mid(s) && Admit(s, envelope).reply.Some?
    ensures Backed(Admit(s, envelope).reply.value, s, Admit(s, envelope).state)
    ensures Admit(s, envelope).state.durable == s.durable
  {
    AdmissionReports(s.admitted.forest, envelope.command, s.nextBatch, envelope.reply);
    HasFactsExactly(s.pending);
    hide AdmitCommand, Reports, Promised, FoldFacts, Bounded;
  }

  lemma ApplyBacked(s: WriterState, event: WriterEvent)
    requires Mid(s) && Faithful(s, event) && ApplyEvent(s, event).exit.None?
    ensures AllBacked(Sent(ApplyEvent(s, event).outputs), s, ApplyEvent(s, event).state)
  {
    var step := ApplyEvent(s, event);
    match event
    case CommandReceived(envelope) =>
      if step.outputs != [] {
        AdmitBacked(s, envelope);
        hide Backed, Admit, Mid;
        assert step.outputs[1..] == [];
      }
    case WalEstablished(batch, wal) =>
      assert PromisesStand(s);
      hide Mid, Kept, Reports, Promised;
      SentPair(step.outputs[0], step.outputs[1]);
      SentSingle(step.outputs[0]);
      SentSingle(step.outputs[1]);
      assert step.outputs == [step.outputs[0], step.outputs[1]];
      assert Sent(step.outputs) == s.flight.value.replies;
    case _ =>
      hide Mid, Backed, DescribesCheckpoint;
      QuietSendsNothing(s, event);
  }

  lemma QuietSendsNothing(s: WriterState, event: WriterEvent)
    requires Faithful(s, event) && !event.CommandReceived? && !event.WalEstablished?
    ensures Sent(ApplyEvent(s, event).outputs) == []
  {
    hide DescribesCheckpoint, HardFull, Faithful;
    var outputs := ApplyEvent(s, event).outputs;
    if |outputs| == 2 {
      SentPair(outputs[0], outputs[1]);
      SentSingle(outputs[0]);
      SentSingle(outputs[1]);
      assert outputs == [outputs[0], outputs[1]];
    } else if |outputs| == 1 {
      SentSingle(outputs[0]);
    }
  }

  /** An all-idempotent barrier reports the durable state it drains over. */
  lemma IdempotentsReportDurable(s: WriterState, i: nat)
    requires Mid(s) && s.flight.None? && Facts(s.pending.commands) == [] && i < |s.pending.commands|
    ensures Reports(Replies(s.pending.commands)[i], s.durable.forest)
  {
    PromisesBecomeKept(s.durable.forest, s.nextBatch, s.pending.commands, i);
    var n :| 0 <= n <= |Facts(s.pending.commands)|
      && ReportsAt(s.pending.commands[i].completion, s.durable.forest, s.nextBatch, Facts(s.pending.commands)[..n]);
    hide Reports, Promised;
  }

  lemma BackedLater(replies: seq<Completion>, s: WriterState, mid: WriterState, after: WriterState)
    requires AllBacked(replies, s, mid)
    requires after.durable == mid.durable && after.durableBatch == mid.durableBatch
    ensures AllBacked(replies, s, after)
  {
    hide Reports, Kept;
    forall i | 0 <= i < |replies|
      ensures Backed(replies[i], s, after)
    {
      assert Backed(replies[i], s, mid);
    }
  }

  /** Every success a step tells its caller is backed by durable state. */
  lemma HandleBacked(s: WriterState, now: nat, event: WriterEvent)
    requires Inv(s) && Faithful(s, event)
    ensures AllBacked(Sent(Handle(s, now, event).outputs), s, Handle(s, now, event).state)
  {
    var applied := ApplyEvent(s, event);
    ApplyShape(s, event);
    if applied.exit.None? {
      ApplyBacked(s, event);
      ApplyKeepsMid(s, event);
      ScheduleBacked(s, applied.state, now);
      BackedLater(Sent(applied.outputs), s, applied.state, Schedule(applied.state, now).state);
      SentConcat(applied.outputs, Schedule(applied.state, now).outputs);
      hide Mid, Backed, Schedule, ApplyEvent, Faithful, Settled, Sent;
    }
  }

  /** Scheduling changes no durable state and its replies report just that. */
  lemma ScheduleBacked(start: WriterState, s: WriterState, now: nat)
    requires Mid(s)
    ensures Schedule(s, now).state.durable == s.durable
    ensures Schedule(s, now).state.durableBatch == s.durableBatch
    ensures AllBacked(Sent(Schedule(s, now).outputs), start, Schedule(s, now).state)
  {
    var flushed := ScheduleFlush(s, now);
    var checked := ScheduleCheckpoint(flushed.state);
    FlushReportsDurable(s, now);
    FlushLeavesCheckpointFields(s, now);
    SentConcat(flushed.outputs, checked.outputs);
    if checked.outputs != [] {
      SentSingle(checked.outputs[0]);
    }
    hide ScheduleFlush, Mid, Reports, Kept;
  }

  lemma FlushReportsDurable(s: WriterState, now: nat)
    requires Mid(s)
    ensures forall i :: 0 <= i < |Sent(ScheduleFlush(s, now).outputs)| ==>
      Reports(Sent(ScheduleFlush(s, now).outputs)[i], s.durable.forest)
  {
    var step := ScheduleFlush(s, now);
    if step.outputs != [] {
      SentSingle(step.outputs[0]);
      if step.outputs[0].Action? && step.outputs[0].action.SendReplies? {
        assert Sent(step.outputs) == Replies(s.pending.commands);
        forall i | 0 <= i < |Sent(step.outputs)|
          ensures Reports(Sent(step.outputs)[i], s.durable.forest)
        {
          IdempotentsReportDurable(s, i);
          hide Reports, Mid;
        }
      }
    }
  }

  // --------------------------------------------------------------- whole runs

  /** A run of the interpreter: instants and the events picked up at them.
      Absent when some event could not have been delivered or came after the
      writer had stopped. */
  function RunNode(start: Node, steps: seq<(nat, WriterEvent)>): (r: Option<(Node, Option<WriterExit>)>) {
    if steps == [] then Some((start, None))
    else
      var before := RunNode(start, steps[..|steps| - 1]);
      var (now, event) := steps[|steps| - 1];
      if before.None? || before.value.1.Some? then None
      else if !Deliverable(before.value.0, event) || !Faithful(before.value.0.machine, event) then None
      else Some(Turn(before.value.0, now, event))
  }

  lemma {:induction false} EveryRunKeepsInv(recovery: WriterRecovery, interval: nat, buffer: nat,
                                            steps: seq<(nat, WriterEvent)>)
    requires RecoveryOk(recovery) && BufferOk(buffer)
    requires RunNode(Spawned(recovery, interval, buffer), steps).Some?
    requires RunNode(Spawned(recovery, interval, buffer), steps).value.1.None?
    ensures NodeInv(RunNode(Spawned(recovery, interval, buffer), steps).value.0)
    decreases |steps|
  {
    hide NodeInv, Turn, Deliverable, Faithful;
    if steps == [] {
      SpawnEstablishesInv(recovery, interval, buffer);
    } else {
      EveryRunKeepsInv(recovery, interval, buffer, steps[..|steps| - 1]);
      var before := RunNode(Spawned(recovery, interval, buffer), steps[..|steps| - 1]).value.0;
      TurnKeepsInv(before, steps[|steps| - 1].0, steps[|steps| - 1].1);
    }
  }

  lemma ApplyMakesNoAttempt(s: WriterState, event: WriterEvent)
    requires Faithful(s, event)
    ensures ApplyEvent(s, event).state.checkpointAttempt == s.checkpointAttempt
  {
    hide DescribesCheckpoint, AdmitCommand, HardFull, RunLeavesTakeoverRoom;
  }

  lemma HandleCountsAttempts(s: WriterState, now: nat, event: WriterEvent)
    requires Faithful(s, event)
    ensures Handle(s, now, event).state.checkpointAttempt <= s.checkpointAttempt + 1
  {
    hide Faithful, ApplyEvent, CheckpointDue, MustDrain, Facts, Replies;
    ApplyMakesNoAttempt(s, event);
  }

  /** The checkpoint attempt counter never exceeds the number of turns taken, so
      exhausting it takes as many turns as there are u64 values. */
  lemma {:induction false} AttemptsAreTurns(recovery: WriterRecovery, interval: nat, buffer: nat,
                                            steps: seq<(nat, WriterEvent)>)
    requires RecoveryOk(recovery) && BufferOk(buffer)
    requires RunNode(Spawned(recovery, interval, buffer), steps).Some?
    ensures RunNode(Spawned(recovery, interval, buffer), steps).value.0.machine.checkpointAttempt <= |steps|
    decreases |steps|
  {
    hide Handle, Deliverable, Faithful;
    if steps != [] {
      AttemptsAreTurns(recovery, interval, buffer, steps[..|steps| - 1]);
      var before := RunNode(Spawned(recovery, interval, buffer), steps[..|steps| - 1]).value.0;
      HandleCountsAttempts(before.machine, steps[|steps| - 1].0, steps[|steps| - 1].1);
    }
  }

  /** In every run of a faithful interpreter the machine is where its own
      assertions demand, before a step and between its two halves; each event
      that can be delivered is one the machine accepts; every assertion about
      the outputs, terminal steps included, holds; and the writer admits
      commands unless a flight or a checkpoint is under way. */
  lemma EveryRunIsSafe(recovery: WriterRecovery, interval: nat, buffer: nat, steps: seq<(nat, WriterEvent)>,
                       now: nat, event: WriterEvent)
    requires RecoveryOk(recovery) && BufferOk(buffer)
    requires RunNode(Spawned(recovery, interval, buffer), steps).Some?
    requires RunNode(Spawned(recovery, interval, buffer), steps).value.1.None?
    ensures var n := RunNode(Spawned(recovery, interval, buffer), steps).value.0;
      && Inv(n.machine)
      && (AdmissionOpen(n.machine) || n.machine.flight.Some? || n.machine.checkpoint.Some?)
      && Outstanding(n)
      && (n.machine.flight.None? && n.machine.pending.commands != [] ==> n.tables.timer.Some?)
      && (Deliverable(n, event) ==>
           && Faithful(n.machine, event)
           && (ApplyEvent(n.machine, event).exit.None? ==> Mid(ApplyEvent(n.machine, event).state))
           && |Handle(n.machine, now, event).outputs| <= WRITER_OUTPUTS_PER_STEP_MAX
           && OutputsOk(PickUp(n.tables, event), Handle(n.machine, now, event).outputs)
           && (Handle(n.machine, now, event).exit.Some? ==> OnlyActions(Handle(n.machine, now, event).outputs)))
  {
    hide Inv, Matches, Mid, ApplyEvent, Faithful, Handle, PickUp, Deliverable, RunNode, OnlyActions, Outstanding,
      AdmissionOpen;
    EveryRunKeepsInv(recovery, interval, buffer, steps);
    var n := RunNode(Spawned(recovery, interval, buffer), steps).value.0;
    NeverIdle(n);
    if Deliverable(n, event) {
      TurnKeepsInv(n, now, event);
      StepShape(n.machine, now, event);
      InvApplies(n.machine, event);
    }
  }

  lemma InvApplies(s: WriterState, event: WriterEvent)
    requires Inv(s) && Faithful(s, event)
    ensures ApplyEvent(s, event).exit.None? ==> Mid(ApplyEvent(s, event).state)
  {
    hide Mid, Settled, Faithful, ApplyEvent;
    ApplyKeepsMid(s, event);
  }

  lemma Balance(received: multiset<Envelope>, answered: multiset<Envelope>, held: multiset<Envelope>,
                taken: multiset<Envelope>, emitted: multiset<Envelope>, after: multiset<Envelope>,
                dropped: multiset<Envelope>)
    requires received == answered + held && taken + held == emitted + after + dropped
    ensures received + taken == (answered + emitted) + after + dropped
  {
    assert received + taken == answered + (taken + held);
  }

  lemma TurnConserves(n: Node, now: nat, event: WriterEvent)
    requires Faithful(n.machine, event)
    requires multiset(n.tables.received) == Owed(n.tables.answered) + Held(n.machine)
    ensures var (after, exit) := Turn(n, now, event);
      multiset(after.tables.received) ==
      Owed(after.tables.answered) + Held(after.machine) + Dropped(n.machine, event)
  {
    hide Handle, Faithful, Held, Dropped, Execute, Owed, Sent, Emitted;
    HandleConserves(n.machine, now, event);
    var step := Handle(n.machine, now, event);
    var picked := PickUp(n.tables, event);
    ExecuteAnswers(picked, step.outputs);
    OwedConcat(picked.answered, Sent(step.outputs));
    assert multiset(picked.received) == multiset(n.tables.received) + Taken(event);
    Balance(multiset(n.tables.received), Owed(n.tables.answered), Held(n.machine), Taken(event),
            Emitted(step.outputs), Held(step.state), Dropped(n.machine, event));
  }

  lemma ShutdownHoldsNothing(s: WriterState, now: nat, event: WriterEvent)
    requires Faithful(s, event) && Handle(s, now, event).exit == Some(Shutdown)
    ensures Held(Handle(s, now, event).state) == multiset{}
    ensures Dropped(s, event) == multiset{}
  {
    NothingOwed();
    hide Owed, DescribesCheckpoint, MustDrain, CheckpointDue, HardFull;
    var t := Handle(s, now, event).state;
    assert Quiescent(t) && ApplyEvent(s, event).exit.None?;
  }

  /** The callers a run leaves unanswered for good: those of the flight whose
      WAL effect failed in its last turn. */
  function Lost(start: Node, steps: seq<(nat, WriterEvent)>): multiset<Envelope>
    requires RunNode(start, steps).Some?
  {
    if steps == [] then multiset{}
    else Dropped(RunNode(start, steps[..|steps| - 1]).value.0.machine, steps[|steps| - 1].1)
  }

  /** Over every run, however it ends, the commands taken in are, as a multiset,
      the replies sent plus the callers still waiting plus the one flight whose
      WAL effect failed; a run that goes on has lost none, and a run that ends
      in Shutdown has answered each of them exactly once. */
  lemma {:induction false} EveryRunConserves(recovery: WriterRecovery, interval: nat, buffer: nat,
                                             steps: seq<(nat, WriterEvent)>)
    requires RecoveryOk(recovery) && BufferOk(buffer)
    requires RunNode(Spawned(recovery, interval, buffer), steps).Some?
    ensures var (n, exit) := RunNode(Spawned(recovery, interval, buffer), steps).value;
      && multiset(n.tables.received) ==
         Owed(n.tables.answered) + Held(n.machine) + Lost(Spawned(recovery, interval, buffer), steps)
      && (exit.None? ==> Lost(Spawned(recovery, interval, buffer), steps) == multiset{})
      && (exit == Some(Shutdown) ==> multiset(n.tables.received) == Owed(n.tables.answered))
    decreases |steps|
  {
    hide Owed, Held, Dropped, Deliverable, Handle, Faithful, Turn;
    if steps == [] {
      NothingToConserve(recovery, interval, buffer);
    } else {
      EveryRunConserves(recovery, interval, buffer, steps[..|steps| - 1]);
      var (n, _) := RunNode(Spawned(recovery, interval, buffer), steps[..|steps| - 1]).value;
      LastTurnConserves(n, steps[|steps| - 1].0, steps[|steps| - 1].1);
    }
  }

  lemma NothingToConserve(recovery: WriterRecovery, interval: nat, buffer: nat)
    requires RecoveryOk(recovery) && BufferOk(buffer)
    ensures var n := Spawned(recovery, interval, buffer);
      multiset(n.tables.received) == Owed(n.tables.answered) + Held(n.machine)
  {
    NothingOwed();
    assert Replies([]) == [];
  }

  lemma LastTurnConserves(n: Node, now: nat, event: WriterEvent)
    requires Faithful(n.machine, event)
    requires multiset(n.tables.received) == Owed(n.tables.answered) + Held(n.machine)
    ensures var (after, exit) := Turn(n, now, event);
      && multiset(after.tables.received) ==
         Owed(after.tables.answered) + Held(after.machine) + Dropped(n.machine, event)
      && (exit.None? ==> Dropped(n.machine, event) == multiset{})
      && (exit == Some(Shutdown) ==> multiset(after.tables.received) == Owed(after.tables.answered))
  {
    TurnConserves(n, now, event);
    var (after, exit) := Turn(n, now, event);
    if exit.None? {
      assert Dropped(n.machine, event) == multiset{};
    }
    if exit == Some(Shutdown) {
      ShutdownHoldsNothing(n.machine, now, event);
    }
    hide Owed, Held, Faithful, Handle;
  }
}
