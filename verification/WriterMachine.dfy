/** The writer machine with its fields updated in place. Every assertion the
    running machine makes about itself is an assertion here. */
module WriterMachines {
  import opened Common
  import opened Domain
  import opened Forests
  import opened Logs
  import opened Seals
  import opened Suffix
  import opened WriterSpec
  import opened WriterInvariant
  import opened NodeTheorems

  class WriterMachine {
    var started: bool
    var claim: nat
    var seal: Seal
    var base: Forest
    var admitted: Rooted
    var durable: Rooted
    var durableBatch: nat
    var nextBatch: nat
    var pending: PendingBarrier
    var flight: Option<InFlight>
    var flushIntervalMin: nat
    var flushBufferBytes: nat
    var lastFlushStartedAt: Option<nat>
    var flushArmed: bool
    var checkpointAttempt: nat
    var lastCheckpointAttemptedCut: Option<nat>
    var retryCheckpointAt: Option<nat>
    var checkpoint: Option<CheckpointMarker>
    var collector: Option<nat>
    var ingressOpen: bool
    var rootsMinted: nat

    function State(): WriterState
      reads this
    {
      WriterState(started, claim, seal, base, admitted, durable, durableBatch, nextBatch, pending, flight,
                  flushIntervalMin, flushBufferBytes, lastFlushStartedAt, flushArmed, checkpointAttempt,
                  lastCheckpointAttemptedCut, retryCheckpointAt, checkpoint, collector, ingressOpen, rootsMinted)
    }

    constructor (recovery: WriterRecovery, interval: nat, buffer: nat)
      requires RecoveryOk(recovery) && BufferOk(buffer)
      ensures State() == FromRecovery(recovery, interval, buffer)
      ensures Inv(State())
    {
      started, claim, seal, base := false, recovery.claim, recovery.seal, recovery.base;
      admitted, durable := Rooted(recovery.durable, 0), Rooted(recovery.durable, 0);
      durableBatch, nextBatch := recovery.durableBatch, recovery.durableBatch + 1;
      pending, flight := EMPTY_BARRIER, None;
      flushIntervalMin, flushBufferBytes, lastFlushStartedAt, flushArmed := interval, buffer, None, false;
      checkpointAttempt, lastCheckpointAttemptedCut, retryCheckpointAt, checkpoint := 0, None, None, None;
      collector, ingressOpen, rootsMinted := None, true, 1;
      new;
      RecoveryEstablishesInv(recovery, interval, buffer);
    }

    predicate IsHardFull()
      reads this
      ensures IsHardFull() == HardFull(State())
    {
      || |pending.commands| == WRITER_PENDING_COMMANDS_MAX
      || pending.BytesEstimated() + WAL_FACT_ENCODED_BYTES_ESTIMATE_MAX > WAL_ENCODED_BYTES_MAX
    }

    predicate IsSpaced(now: nat)
      reads this
      ensures IsSpaced(now) == SpacingSatisfied(State(), now)
    {
      lastFlushStartedAt.None? || now >= SaturatingAdd(lastFlushStartedAt.value, flushIntervalMin)
    }

    method AcceptFact(forest: Forest, fact: OperationFact, completion: Completion) returns (reply: Option<Completion>)
      requires Bounded(pending) && AdmissionOpen(State())
      modifies this
      ensures Admitted(State(), reply) == WriterSpec.AcceptFact(old(State()), forest, fact, completion)
    {
      if !RunLeavesTakeoverRoom(seal.replay.Batch(), nextBatch) {
        retryCheckpointAt := Some(durableBatch);
        return Some(completion.(answer := Refused(Overloaded)));
      }
      admitted := Rooted(forest, rootsMinted);
      rootsMinted := rootsMinted + 1;
      pending := pending.PushFact(fact, completion);
      assert pending.BytesEstimated() <= WAL_ENCODED_BYTES_MAX;
      return None;
    }

    method AcceptIdempotent(completion: Completion) returns (reply: Option<Completion>)
      modifies this
      ensures Admitted(State(), reply) == WriterSpec.AcceptIdempotent(old(State()), completion)
    {
      if flight.None? && !pending.HasFacts() {
        return Some(completion);
      }
      pending := pending.PushIdempotent(completion);
      return None;
    }

    method Admit(envelope: Envelope) returns (reply: Option<Completion>)
      requires Inv(State()) && AdmissionOpen(State())
      modifies this
      ensures Admitted(State(), reply) == WriterSpec.Admit(old(State()), envelope)
    {
      hide AdmitCommand, RunLeavesTakeoverRoom, HardFull, Promised, FoldFacts, CheckpointOk;
      assert flight.None? ==> pending.commands == [] || pending.HasFacts();
      match AdmitCommand(admitted.forest, envelope.command, nextBatch)
      case AdmitFact(forest, fact, answer) =>
        reply := AcceptFact(forest, fact, Completion(envelope.command, answer, envelope.reply));
      case AdmitIdempotent(answer) =>
        reply := AcceptIdempotent(Completion(envelope.command, answer, envelope.reply));
      case AdmitRefused(refusal) =>
        reply := Some(Completion(envelope.command, Refused(refusal), envelope.reply));
    }

    /** Split a barrier into the facts of its RUN and the replies it owes. */
    static method Split(commands: seq<PendingCommand>) returns (facts: seq<OperationFact>, replies: seq<Completion>)
      ensures facts == Facts(commands) && replies == Replies(commands)
    {
      facts, replies := [], [];
      for i := 0 to |commands|
        invariant facts == Facts(commands[..i])
        invariant replies == Replies(commands[..i])
      {
        assert commands[..i + 1][..i] == commands[..i];
        assert Replies(commands[..i + 1]) == Replies(commands[..i]) + [commands[i].completion];
        if commands[i].fact.Some? {
          facts := facts + [commands[i].fact.value];
        }
        replies := replies + [commands[i].completion];
      }
      assert commands[..|commands|] == commands;
    }

    /** Put one RUN of these facts in flight at the next batch. */
    method FlyRun(facts: seq<OperationFact>, replies: seq<Completion>, now: nat) returns (output: WriterOutput)
      requires 0 < |facts| <= WAL_RUN_FACTS_MAX && Successor(nextBatch).Some?
      modifies this`nextBatch, this`flight, this`lastFlushStartedAt
      ensures nextBatch == old(nextBatch) + 1 && lastFlushStartedAt == Some(now)
      ensures flight == Some(InFlight(old(nextBatch), admitted, replies, facts))
      ensures output == Effect(EstablishWal(WalObject(seal.partition, old(nextBatch), claim, Run(facts))))
    {
      var batch := nextBatch;
      nextBatch := Successor(batch).value;
      flight := Some(InFlight(batch, admitted, replies, facts));
      lastFlushStartedAt := Some(now);
      return Effect(EstablishWal(WalObject(seal.partition, batch, claim, Run(facts))));
    }

    method DrainPending(now: nat) returns (output: WriterOutput)
      requires Mid(State()) && flight.None? && pending.commands != []
      modifies this
      ensures Drained(State(), output) == WriterSpec.DrainPending(old(State()), now)
    {
      hide Mid, Facts, Replies;
      DrainAssertions(State());
      var facts, replies := Split(pending.commands);
      pending := EMPTY_BARRIER;
      if facts == [] {
        assert admitted == durable;
        admitted := durable;
        output := Action(SendReplies(replies));
      } else {
        output := FlyRun(facts, replies, now);
      }
    }

    method RecordWalDurable(batch: nat) returns (outputs: seq<WriterOutput>)
      requires Mid(State()) && flight.Some? && flight.value.batch == batch
      modifies this
      ensures Stepped(State(), outputs, None) == WriterSpec.RecordWalDurable(old(State()))
    {
      hide Mid;
      EmptyQueueIsTheFlight(State());
      var active := flight.value;
      flight := None;
      durable := active.after;
      durableBatch := batch;
      if pending.commands == [] {
        assert admitted == durable;
        admitted := durable;
      }
      return [Action(PublishView(durable.forest)), Action(SendReplies(active.replies))];
    }

    method CompletePreparation(ticket: CheckpointTicket, outcome: PreparationOutcome)
      returns (outputs: seq<WriterOutput>, exit: Option<WriterExit>)
      requires Faithful(State(), CheckpointPrepared(ticket, outcome))
      modifies this
      ensures Stepped(State(), outputs, exit) == WriterSpec.CompletePreparation(old(State()), ticket, outcome)
    {
      hide DescribesCheckpoint;
      outputs, exit := [], None;
      match checkpoint.value
      case Cancelling(active) =>
        assert active == ticket;
        checkpoint := None;
      case Preparing(active) =>
        assert active == ticket;
        checkpoint := None;
        match outcome {
          case Prepared(prepared) =>
            checkpoint := Some(Publishing(ticket, prepared));
            outputs := [Effect(PublishAuthority(ticket, prepared.successor))];
          case Abandoned =>
          case PreparationContradiction =>
            exit := Some(WriterContradiction(ticket.cut));
        }
    }

    method InstallPrepared(source: Seal, successor: Seal, snapshot: Forest)
      requires seal == source
      modifies this`seal, this`base
      ensures seal == successor && base == snapshot
    {
      seal := successor;
      base := snapshot;
    }

    method CompletePublication(ticket: CheckpointTicket, publication: Result<SealPublication, TypedStoreError>)
      returns (outputs: seq<WriterOutput>, exit: Option<WriterExit>)
      requires Mid(State()) && Faithful(State(), SealPublished(ticket, publication))
      modifies this
      ensures Stepped(State(), outputs, exit) == WriterSpec.CompletePublication(old(State()), ticket, publication)
    {
      hide Mid, DescribesCheckpoint;
      PublishesFromOwnSeal(State());
      outputs, exit := [], None;
      var prepared := checkpoint.value.prepared;
      checkpoint := None;
      match publication
      case Ok(Authored) =>
        var cut := prepared.successor.replay.Cut();
        InstallPrepared(prepared.source, prepared.successor, prepared.snapshot);
        outputs := [Action(PublishView(durable.forest))];
        if ingressOpen && collector.None? {
          collector := Some(cut);
          outputs := outputs + [Effect(Collect(CollectionInput(cut, prepared.source, prepared.successor)))];
        }
      case Ok(NoAuthority) => exit := Some(WriterFenced(ticket.cut));
      case Ok(Unresolved) => exit := Some(Poisoned(ticket.cut));
      case Err(StoreContradiction) => exit := Some(WriterContradiction(ticket.cut));
      case Err(_) => exit := Some(Poisoned(ticket.cut));
    }

    method CloseIngress() returns (outputs: seq<WriterOutput>)
      requires ingressOpen
      modifies this
      ensures Stepped(State(), outputs, None) == WriterSpec.CloseIngress(old(State()))
    {
      ingressOpen := false;
      outputs := [];
      if checkpoint.Some? && checkpoint.value.Preparing? {
        var ticket := checkpoint.value.ticket;
        checkpoint := Some(Cancelling(ticket));
        outputs := [Action(CancelCheckpointPreparation(ticket))];
      }
    }

    method EstablishedWal(batch: nat, wal: Result<WalEstablishment, TypedStoreError>)
      returns (outputs: seq<WriterOutput>, exit: Option<WriterExit>)
      requires Mid(State()) && flight.Some? && flight.value.batch == batch
      modifies this
      ensures Stepped(State(), outputs, exit) == WalOutcome(old(State()), batch, wal)
    {
      hide Mid;
      outputs, exit := [], None;
      match wal
      case Ok(Durable) => outputs := RecordWalDurable(batch);
      case Ok(Occupied) => flight, exit := None, Some(WriterFenced(batch));
      case Ok(UnresolvedAbsent) => flight, exit := None, Some(Poisoned(batch));
      case Err(StoreContradiction) => flight, exit := None, Some(WriterContradiction(batch));
      case Err(_) => flight, exit := None, Some(Poisoned(batch));
    }

    method ApplyEvent(event: WriterEvent) returns (outputs: seq<WriterOutput>, exit: Option<WriterExit>)
      requires Inv(State()) && Faithful(State(), event)
      modifies this
      ensures Stepped(State(), outputs, exit) == WriterSpec.ApplyEvent(old(State()), event)
    {
      hide Mid, Settled, HardFull, WriterSpec.Admit, WalOutcome, WriterSpec.CompletePreparation,
        WriterSpec.CompletePublication, DescribesCheckpoint;
      outputs, exit := [], None;
      match event
      case Started => started := true;
      case CommandReceived(envelope) =>
        var reply := Admit(envelope);
        if reply.Some? {
          outputs := [Action(SendReplies([reply.value]))];
        }
      case FlushDue => flushArmed := false;
      case IngressClosed => outputs := CloseIngress();
      case WalEstablished(batch, wal) => outputs, exit := EstablishedWal(batch, wal);
      case CheckpointPrepared(ticket, outcome) => outputs, exit := CompletePreparation(ticket, outcome);
      case SealPublished(ticket, publication) => outputs, exit := CompletePublication(ticket, publication);
      case CollectFinished(_) => collector := None;
      case CheckpointPreparationCancelled(_) => checkpoint := None;
    }

    method TakeCheckpoint() returns (input: Option<CheckpointInput>)
      requires Mid(State())
      modifies this
      ensures old(CheckpointDue(State())) ==>
        && State() == WriterSpec.TakeCheckpoint(old(State()))
        && input == Some(CheckpointInput(NextTicket(old(State())), old(seal), old(base), old(durable.forest)))
      ensures !old(CheckpointDue(State())) ==> State() == old(State()) && input == None
    {
      assert Coordinates(State()) && CheckpointOk(State());
      hide Mid;
      assert SpanThrough(seal.replay.Batch(), durableBatch) == Some(durableBatch - seal.replay.Cut());
      if checkpoint.Some? || durableBatch - seal.replay.Cut() < WAL_SUFFIX_CHECKPOINT_SPAN_TRIGGER {
        return None;
      }
      assert lastCheckpointAttemptedCut.Some? ==> lastCheckpointAttemptedCut.value <= durableBatch;
      var headIsUnattempted := lastCheckpointAttemptedCut.None? || lastCheckpointAttemptedCut.value < durableBatch;
      if !headIsUnattempted && retryCheckpointAt != Some(durableBatch) {
        return None;
      }
      assert seal.replay.Cut() < durableBatch;
      var ticket := CheckpointTicket(seal.generation, durableBatch, AttemptId(claim, checkpointAttempt));
      checkpointAttempt := checkpointAttempt + 1;
      lastCheckpointAttemptedCut := Some(durableBatch);
      retryCheckpointAt := None;
      checkpoint := Some(Preparing(ticket));
      return Some(CheckpointInput(ticket, seal, base, durable.forest));
    }

    method Flush(now: nat) returns (outputs: seq<WriterOutput>)
      requires Mid(State())
      modifies this
      ensures Stepped(State(), outputs, None) == ScheduleFlush(old(State()), now)
    {
      hide Mid, Facts, Replies, WriterSpec.DrainPending;
      outputs := [];
      if flight.None? && pending.commands != [] {
        if !pending.HasFacts() || !ingressOpen || IsHardFull() || pending.BytesEstimated() >= flushBufferBytes
           || IsSpaced(now) {
          var output := DrainPending(now);
          outputs := [output];
        } else if !flushArmed {
          var deadline := SaturatingAdd(lastFlushStartedAt.value, flushIntervalMin);
          flushArmed := true;
          outputs := [Action(ArmFlush(deadline))];
        }
      }
    }

    method Schedule(now: nat) returns (outputs: seq<WriterOutput>, exit: Option<WriterExit>)
      requires Mid(State())
      modifies this
      ensures Stepped(State(), outputs, exit) == WriterSpec.Schedule(old(State()), now)
    {
      hide Mid, ScheduleFlush, CheckpointDue, WriterSpec.TakeCheckpoint, NextTicket;
      exit := None;
      FlushKeepsMid(State(), now);
      outputs := Flush(now);
      if ingressOpen {
        var input := TakeCheckpoint();
        if input.Some? {
          outputs := outputs + [Effect(PrepareCheckpoint(input.value))];
        }
      } else if flight.None? && checkpoint.None? && pending.commands == [] {
        QuiescentShares(State());
        assert admitted.root == durable.root;
        exit := Some(Shutdown);
      }
    }

    /** One complete transition, refining the specified step. */
    method Handle(now: nat, event: WriterEvent) returns (outputs: seq<WriterOutput>, exit: Option<WriterExit>)
      requires Inv(State()) && Faithful(State(), event)
      modifies this
      ensures Stepped(State(), outputs, exit) == WriterSpec.Handle(old(State()), now, event)
      ensures exit.None? ==> Inv(State())
    {
      hide Mid, Settled, Faithful, WriterSpec.ApplyEvent, WriterSpec.Schedule, OnlyActions;
      HandleKeepsInv(State(), now, event);
      StepShape(State(), now, event);
      ApplyKeepsMid(State(), event);
      outputs, exit := ApplyEvent(event);
      if exit.None? {
        var scheduled;
        scheduled, exit := Schedule(now);
        outputs := outputs + scheduled;
      }
      assert |outputs| <= WRITER_OUTPUTS_PER_STEP_MAX;
      assert exit.Some? ==> OnlyActions(outputs);
    }
  }

  /** What the machine asserts while it drains a barrier. */
  lemma DrainAssertions(s: WriterState)
    requires Mid(s) && s.flight.None?
    ensures Facts(s.pending.commands) == [] ==> s.admitted == s.durable
    ensures Facts(s.pending.commands) != [] ==>
      |Facts(s.pending.commands)| <= WAL_RUN_FACTS_MAX && Successor(s.nextBatch).Some?
  {
    HasFactsExactly(s.pending);
    FactsLength(s.pending.commands);
  }

  lemma EmptyQueueIsTheFlight(s: WriterState)
    requires Mid(s) && s.flight.Some?
    ensures s.pending.commands == [] ==> s.admitted == s.flight.value.after
  {
    hide PromisesStand, CheckpointOk, FlightIsFold, Roomy;
  }

  lemma PublishesFromOwnSeal(s: WriterState)
    requires Mid(s) && s.checkpoint.Some? && s.checkpoint.value.Publishing?
    ensures s.checkpoint.value.prepared.source == s.seal
  {
    hide PromisesStand, AdmittedIsFold, FlightIsFold, Roomy, Bounded;
  }

  /** With nothing in flight or queued, admitted and durable share their roots. */
  lemma QuiescentShares(s: WriterState)
    requires Mid(s) && s.flight.None? && s.pending.commands == []
    ensures s.admitted == s.durable
  {
  }
}
