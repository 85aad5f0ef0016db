/** What every step of the writer machine keeps. */
module WriterInvariant {
  import opened Common
  import opened Domain
  import opened Forests
  import opened Suffix
  import opened WriterSpec

  // ------------------------------------------------------- what a reply reports

  ghost predicate LiveRecord(forest: Forest, path: StreamPath, record: StreamRecord) {
    && path in forest.directory && forest.directory[path].Live?
    && forest.directory[path].uid in forest.ledger
    && forest.ledger[forest.directory[path].uid] == record
  }

  /** The state of its path that a success reply tells its caller about. */
  ghost predicate Reports(completion: Completion, forest: Forest) {
    var path := completion.command.path;
    match completion.answer
    case StreamWasCreated => ReportsConfiguration(completion.command, forest)
    case StreamAlreadyExisted => ReportsConfiguration(completion.command, forest)
    case StreamWasClosed => ReportsClosed(path, forest)
    case StreamWasAlreadyClosed => ReportsClosed(path, forest)
    case StreamWasDeleted => path in forest.directory && forest.directory[path].Tombstone?
    case Refused(_) => false
  }

  ghost predicate ReportsConfiguration(command: Command, forest: Forest) {
    && command.CreateStream?
    && exists createdAt ::
         LiveRecord(forest, command.path,
                    StreamRecord(command.contentType, command.expiry, command.lifecycle, createdAt))
  }

  ghost predicate ReportsClosed(path: StreamPath, forest: Forest) {
    && path in forest.directory && forest.directory[path].Live?
    && forest.directory[path].uid in forest.ledger
    && forest.ledger[forest.directory[path].uid].lifecycle.Closed?
  }

  /** Each queued command reports the state right after the facts up to it. */
  ghost predicate Promised(basis: Forest, batch: nat, commands: seq<PendingCommand>) {
    commands == [] ||
    (&& Promised(basis, batch, commands[..|commands| - 1])
     && var after := FoldFacts(basis, batch, Facts(commands));
        after.Some? && Reports(commands[|commands| - 1].completion, after.value))
  }

  /** A reply reports some state passed through while replaying one batch. */
  ghost predicate Kept(completion: Completion, basis: Forest, batch: nat, facts: seq<OperationFact>) {
    exists n :: 0 <= n <= |facts| && ReportsAt(completion, basis, batch, facts[..n])
  }

  ghost predicate ReportsAt(completion: Completion, basis: Forest, batch: nat, facts: seq<OperationFact>) {
    var after := FoldFacts(basis, batch, facts);
    after.Some? && Reports(completion, after.value)
  }

  lemma {:induction false} FactsPrefix(commands: seq<PendingCommand>, n: nat)
    requires n <= |commands|
    ensures Facts(commands[..n]) <= Facts(commands)
    decreases |commands|
  {
    if n < |commands| {
      FactsPrefix(commands[..|commands| - 1], n);
      assert commands[..|commands| - 1][..n] == commands[..n];
    } else {
      assert commands[..n] == commands;
    }
  }

  lemma {:induction false} PromisedPrefix(basis: Forest, batch: nat, commands: seq<PendingCommand>, n: nat)
    requires n <= |commands| && Promised(basis, batch, commands)
    ensures Promised(basis, batch, commands[..n])
    decreases |commands|
  {
    if n < |commands| {
      PromisedPrefix(basis, batch, commands[..|commands| - 1], n);
      assert commands[..|commands| - 1][..n] == commands[..n];
    } else {
      assert commands[..n] == commands;
    }
  }

  /** Promises made while queueing are kept by the batch the queue becomes. */
  lemma PromisesBecomeKept(basis: Forest, batch: nat, commands: seq<PendingCommand>, i: nat)
    requires i < |commands| && Promised(basis, batch, commands)
    ensures Kept(commands[i].completion, basis, batch, Facts(commands))
  {
    var upTo := commands[..i + 1];
    PromisedPrefix(basis, batch, commands, i + 1);
    FactsPrefix(commands, i + 1);
    hide Reports;
    var n := |Facts(upTo)|;
    assert Facts(commands)[..n] == Facts(upTo);
    assert ReportsAt(upTo[i].completion, basis, batch, Facts(upTo));
  }

  // ------------------------------------------------------------- the invariant

  /** The state the pending facts are admitted over. */
  function Basis(s: WriterState): Rooted {
    if s.flight.Some? then s.flight.value.after else s.durable
  }

  function BytesOf(facts: seq<OperationFact>): nat {
    if facts == [] then 0
    else BytesOf(facts[..|facts| - 1]) + facts[|facts| - 1].EstimatedEncodedBytes()
  }

  predicate Coordinates(s: WriterState) {
    && s.seal.replay.Cut() <= s.durableBatch < U64_MAX
    && s.nextBatch == s.durableBatch + (if s.flight.Some? then 2 else 1) <= U64_MAX
    && (s.flight.Some? ==> s.flight.value.batch == s.durableBatch + 1)
  }

  predicate Roomy(s: WriterState) {
    && (s.pending.HasFacts() ==> RunLeavesTakeoverRoom(s.seal.replay.Batch(), s.nextBatch))
    && (s.flight.Some? ==> RunLeavesTakeoverRoom(s.seal.replay.Batch(), s.flight.value.batch))
  }

  predicate Bounded(barrier: PendingBarrier) {
    && |barrier.commands| <= WRITER_PENDING_COMMANDS_MAX
    && barrier.factsBytesEstimated == BytesOf(Facts(barrier.commands))
    && barrier.BytesEstimated() <= WAL_ENCODED_BYTES_MAX
  }

  /** The admitted forest is the fold of the queued facts, at the batch they
      will be written to, over the flight's forest or the durable one. */
  predicate AdmittedIsFold(s: WriterState) {
    && FoldFacts(Basis(s).forest, s.nextBatch, Facts(s.pending.commands)) == Some(s.admitted.forest)
    && (Facts(s.pending.commands) == [] ==> s.admitted == Basis(s))
  }

  predicate FlightIsFold(s: WriterState) {
    s.flight.Some? ==>
      && FoldFacts(s.durable.forest, s.flight.value.batch, s.flight.value.facts) == Some(s.flight.value.after.forest)
      && 0 < |s.flight.value.facts| <= WAL_RUN_FACTS_MAX
  }

  ghost predicate PromisesStand(s: WriterState) {
    && Promised(Basis(s).forest, s.nextBatch, s.pending.commands)
    && (s.flight.Some? ==>
         forall i :: 0 <= i < |s.flight.value.replies| ==>
           Kept(s.flight.value.replies[i], s.durable.forest, s.flight.value.batch, s.flight.value.facts))
  }

  predicate CheckpointOk(s: WriterState) {
    && s.claim <= s.seal.generation
    && (s.lastCheckpointAttemptedCut.Some? ==> s.lastCheckpointAttemptedCut.value <= s.durableBatch)
    && (s.checkpoint.Some? ==>
         && s.checkpoint.value.ticket.source == s.seal.generation
         && s.seal.replay.Cut() < s.checkpoint.value.ticket.cut <= s.durableBatch
         && s.checkpoint.value.ticket.attempt.ownerClaim == s.claim
         && s.checkpoint.value.ticket.attempt.localCounter < s.checkpointAttempt
         && (s.checkpoint.value.Publishing? ==>
              && DescribesCheckpoint(s.checkpoint.value.ticket, s.checkpoint.value.prepared)
              && s.checkpoint.value.prepared.source == s.seal))
    && (s.collector.Some? ==> s.collector.value <= s.seal.replay.Cut())
    && (!s.ingressOpen && s.checkpoint.Some? ==> !s.checkpoint.value.Preparing?)
  }

  /** Holds at every moment inside a step. */
  ghost predicate Mid(s: WriterState) {
    && Coordinates(s)
    && Roomy(s)
    && Bounded(s.pending)
    && AdmittedIsFold(s)
    && FlightIsFold(s)
    && PromisesStand(s)
    && CheckpointOk(s)
  }

  /** Holds between steps: whatever waits has something to wait for. */
  predicate Settled(s: WriterState) {
    && (s.flight.None? && s.pending.commands != [] ==>
         s.pending.HasFacts() && s.flushArmed && s.ingressOpen && !HardFull(s))
    && (!s.ingressOpen ==> !Quiescent(s))
  }

  ghost predicate Inv(s: WriterState) { Mid(s) && Settled(s) }

  lemma RecoveryEstablishesInv(recovery: WriterRecovery, flushIntervalMin: nat, flushBufferBytes: nat)
    requires RecoveryOk(recovery) && BufferOk(flushBufferBytes)
    ensures Inv(FromRecovery(recovery, flushIntervalMin, flushBufferBytes))
  {
  }

  lemma {:induction false} BytesPositive(facts: seq<OperationFact>)
    ensures BytesOf(facts) > 0 <==> facts != []
    ensures BytesOf(facts) <= |facts| * WAL_FACT_ENCODED_BYTES_ESTIMATE_MAX
  {
    if facts != [] {
      BytesPositive(facts[..|facts| - 1]);
    }
  }

  lemma {:induction false} FactsLength(commands: seq<PendingCommand>)
    ensures |Facts(commands)| <= |commands|
  {
    if commands != [] {
      FactsLength(commands[..|commands| - 1]);
    }
  }

  /** The byte counter says whether the barrier carries any fact. */
  lemma HasFactsExactly(barrier: PendingBarrier)
    requires Bounded(barrier)
    ensures barrier.HasFacts() <==> Facts(barrier.commands) != []
  {
    BytesPositive(Facts(barrier.commands));
  }

  // ---------------------------------------------------------------- admission

  lemma CreateReports(admitted: Forest, command: Command, batch: nat)
    requires command.CreateStream? && command.path !in admitted.directory
    requires |admitted.directory| < PARTITION_PATH_OCCUPANCIES_MAX
    ensures var fact := StreamCreated(command.path, |admitted.directory| + 1, command.contentType,
                                      command.expiry, command.lifecycle);
      StrictFold(admitted, batch, fact).Ok? &&
      ReportsConfiguration(command, StrictFold(admitted, batch, fact).value)
  {
    var fact := StreamCreated(command.path, |admitted.directory| + 1, command.contentType,
                              command.expiry, command.lifecycle);
    var after := StrictFold(admitted, batch, fact).value;
    assert LiveRecord(after, command.path,
                      StreamRecord(command.contentType, command.expiry, command.lifecycle, batch));
  }

  /** Admission decides against the admitted state: a fact folds into it and
      both kinds of success report a state the caller can rely on. */
  lemma AdmissionReports(admitted: Forest, command: Command, batch: nat, reply: nat)
    ensures match AdmitCommand(admitted, command, batch)
      case AdmitFact(forest, fact, answer) =>
        StrictFold(admitted, batch, fact) == Ok(forest) && Reports(Completion(command, answer, reply), forest)
      case AdmitIdempotent(answer) => Reports(Completion(command, answer, reply), admitted)
      case AdmitRefused(refusal) => refusal != Overloaded
  {
    match command
    case CreateStream(path, contentType, expiry, lifecycle) =>
      if path in admitted.directory {
        if admitted.directory[path].Live? {
          var uid := admitted.directory[path].uid;
          if uid in admitted.ledger {
            assert LiveRecord(admitted, path, admitted.ledger[uid]);
          }
        }
      } else if |admitted.directory| < PARTITION_PATH_OCCUPANCIES_MAX {
        CreateReports(admitted, command, batch);
      }
    case CloseStream(path) =>
    case DeleteStream(path) =>
  }

  predicate SameConfiguration(command: Command, record: StreamRecord)
    requires command.CreateStream?
  {
    && record.contentType == command.contentType && record.expiry == command.expiry
    && record.lifecycle == command.lifecycle
  }

  /** Every command is admitted, answered or refused for exactly one reason, and
      that reason is true of the admitted forest. */
  lemma AdmissionIsExact(admitted: Forest, command: Command, batch: nat)
    requires Complete(admitted)
    ensures var admission := AdmitCommand(admitted, command, batch);
      var path := command.path;
      var live := path in admitted.directory && admitted.directory[path].Live?;
      && (live ==> admitted.directory[path].uid in admitted.ledger)
      && match command
         case CreateStream(_, _, _, _) =>
           && (admission.AdmitFact? <==>
                path !in admitted.directory && |admitted.directory| < PARTITION_PATH_OCCUPANCIES_MAX)
           && (admission == AdmitIdempotent(StreamAlreadyExisted) <==>
                live && SameConfiguration(command, admitted.ledger[admitted.directory[path].uid]))
           && (admission == AdmitRefused(OccupiedPath) <==>
                path in admitted.directory
                && !(live && SameConfiguration(command, admitted.ledger[admitted.directory[path].uid])))
           && (admission == AdmitRefused(ExhaustedCapacity) <==>
                path !in admitted.directory && |admitted.directory| == PARTITION_PATH_OCCUPANCIES_MAX)
         case CloseStream(_) =>
           && (admission.AdmitFact? <==> live && admitted.ledger[admitted.directory[path].uid].lifecycle.Open?)
           && (admission == AdmitIdempotent(StreamWasAlreadyClosed) <==>
                live && admitted.ledger[admitted.directory[path].uid].lifecycle.Closed?)
           && (admission == AdmitRefused(NotLivePath) <==> !live)
         case DeleteStream(_) =>
           && (admission.AdmitFact? <==> live)
           && (admission == AdmitRefused(NotLivePath) <==> !live)
  {
    var path := command.path;
    if path in admitted.directory && admitted.directory[path].Live? {
      assert admitted.directory[path].uid in LiveUids(admitted.directory);
    }
    hide UidsDistinct, UidsInRange;
  }

  lemma PushKeepsBounded(barrier: PendingBarrier, fact: OperationFact, completion: Completion)
    requires Bounded(barrier)
    requires |barrier.commands| < WRITER_PENDING_COMMANDS_MAX
    requires barrier.BytesEstimated() + WAL_FACT_ENCODED_BYTES_ESTIMATE_MAX <= WAL_ENCODED_BYTES_MAX
    ensures Bounded(barrier.PushFact(fact, completion))
    ensures Bounded(barrier.PushIdempotent(completion))
    ensures Facts(barrier.PushFact(fact, completion).commands) == Facts(barrier.commands) + [fact]
    ensures Facts(barrier.PushIdempotent(completion).commands) == Facts(barrier.commands)
  {
    var next := barrier.PushFact(fact, completion).commands;
    assert next[..|next| - 1] == barrier.commands;
    var idem := barrier.PushIdempotent(completion).commands;
    assert idem[..|idem| - 1] == barrier.commands;
    assert Facts(idem) == Facts(barrier.commands);
    assert (Facts(barrier.commands) + [fact])[..|Facts(barrier.commands)|] == Facts(barrier.commands);
  }

  lemma PushKeepsPromised(basis: Forest, batch: nat, commands: seq<PendingCommand>, next: PendingCommand, after: Forest)
    requires Promised(basis, batch, commands)
    requires FoldFacts(basis, batch, Facts(commands + [next])) == Some(after)
    requires Reports(next.completion, after)
    ensures Promised(basis, batch, commands + [next])
  {
    assert (commands + [next])[..|commands + [next]| - 1] == commands;
  }

  lemma AcceptFactKeepsMid(s: WriterState, forest: Forest, fact: OperationFact, completion: Completion)
    requires Mid(s) && AdmissionOpen(s)
    requires StrictFold(s.admitted.forest, s.nextBatch, fact) == Ok(forest) && Reports(completion, forest)
    ensures Mid(AcceptFact(s, forest, fact, completion).state)
  {
    if RunLeavesTakeoverRoom(s.seal.replay.Batch(), s.nextBatch) {
      var next := AcceptFact(s, forest, fact, completion).state;
      PushKeepsBounded(s.pending, fact, completion);
      FoldFactsPush(Basis(s).forest, s.nextBatch, Facts(s.pending.commands), fact);
      PushKeepsPromised(Basis(s).forest, s.nextBatch, s.pending.commands, PendingCommand(Some(fact), completion),
                        forest);
    }
  }

  lemma AcceptIdempotentKeepsMid(s: WriterState, completion: Completion)
    requires Mid(s) && AdmissionOpen(s) && Reports(completion, s.admitted.forest)
    ensures Mid(AcceptIdempotent(s, completion).state)
  {
    if s.flight.Some? || s.pending.HasFacts() {
      var fact: OperationFact :| true;
      PushKeepsBounded(s.pending, fact, completion);
      PushKeepsPromised(Basis(s).forest, s.nextBatch, s.pending.commands, PendingCommand(None, completion),
                        s.admitted.forest);
    }
  }

  lemma AdmitKeepsMid(s: WriterState, envelope: Envelope)
    requires Mid(s) && AdmissionOpen(s)
    ensures Mid(Admit(s, envelope).state)
  {
    AdmissionReports(s.admitted.forest, envelope.command, s.nextBatch, envelope.reply);
    match AdmitCommand(s.admitted.forest, envelope.command, s.nextBatch)
    case AdmitFact(forest, fact, answer) =>
      AcceptFactKeepsMid(s, forest, fact, Completion(envelope.command, answer, envelope.reply));
    case AdmitIdempotent(answer) =>
      AcceptIdempotentKeepsMid(s, Completion(envelope.command, answer, envelope.reply));
    case AdmitRefused(_) =>
  }

  // ------------------------------------------------------------- group commit

  lemma DrainKeepsMid(s: WriterState, now: nat)
    requires Mid(s) && s.flight.None?
    ensures Mid(DrainPending(s, now).state)
  {
    var commands := s.pending.commands;
    HasFactsExactly(s.pending);
    FactsLength(commands);
    if Facts(commands) != [] {
      var next := DrainPending(s, now).state;
      forall i | 0 <= i < |Replies(commands)|
        ensures Kept(Replies(commands)[i], s.durable.forest, s.nextBatch, Facts(commands))
      {
        PromisesBecomeKept(s.durable.forest, s.nextBatch, commands, i);
      }
      assert next.flight.value.facts == Facts(commands);
    }
  }

  lemma DurableKeepsMid(s: WriterState)
    requires Mid(s) && s.flight.Some?
    ensures Mid(RecordWalDurable(s).state)
  {
  }

  // ------------------------------------------------------------- checkpoints

  /** Everything about the queue and the flight is a function of five fields. */
  lemma QueueUntouched(s: WriterState, t: WriterState)
    requires s.admitted == t.admitted && s.durable == t.durable && s.nextBatch == t.nextBatch
    requires s.pending == t.pending && s.flight == t.flight
    ensures AdmittedIsFold(s) == AdmittedIsFold(t)
    ensures FlightIsFold(s) == FlightIsFold(t)
    ensures PromisesStand(s) == PromisesStand(t)
    ensures s.seal == t.seal ==> Roomy(s) == Roomy(t)
  {
  }

  /** Installing a checkpoint moves the cut up to a durable coordinate only, so
      the room of everything queued or flying outlives it. */
  lemma InstallKeepsRoomy(s: WriterState, t: WriterState)
    requires Coordinates(s) && Roomy(s)
    requires s.pending == t.pending && s.flight == t.flight && s.nextBatch == t.nextBatch
    requires s.seal.replay.Cut() < t.seal.replay.Cut() <= s.durableBatch
    ensures Roomy(t)
  {
    var cut, later := s.seal.replay.Batch(), t.seal.replay.Batch();
    if s.pending.HasFacts() {
      RoomOutlivesAdvance(cut, s.nextBatch, later);
    }
    if s.flight.Some? {
      RoomOutlivesAdvance(cut, s.flight.value.batch, later);
    }
  }

  lemma PublicationKeepsMid(s: WriterState, ticket: CheckpointTicket)
    requires Mid(s) && Faithful(s, SealPublished(ticket, Ok(Authored)))
    ensures Mid(CompletePublication(s, ticket, Ok(Authored)).state)
  {
    hide Bounded, AdmittedIsFold, FlightIsFold, PromisesStand, Roomy;
    var t := CompletePublication(s, ticket, Ok(Authored)).state;
    QueueUntouched(s, t);
    InstallKeepsRoomy(s, t);
  }

  // ------------------------------------------------------------------ the step

  predicate Quiet(event: WriterEvent) {
    !event.CommandReceived? && !event.WalEstablished? && !event.SealPublished?
  }

  /** Two states that differ only in timers and markers. */
  predicate SameQueue(s: WriterState, t: WriterState) {
    && s.seal == t.seal && s.durableBatch == t.durableBatch
    && s.admitted == t.admitted && s.durable == t.durable && s.nextBatch == t.nextBatch
    && s.pending == t.pending && s.flight == t.flight
  }

  lemma SameQueueKeepsMid(s: WriterState, t: WriterState)
    requires Mid(s) && SameQueue(s, t) && CheckpointOk(t)
    ensures Mid(t)
  {
    hide Bounded, AdmittedIsFold, FlightIsFold, PromisesStand, DescribesCheckpoint, Roomy, CheckpointOk;
    QueueUntouched(s, t);
  }

  lemma PreparationKeepsCheckpointOk(s: WriterState, ticket: CheckpointTicket, outcome: PreparationOutcome)
    requires CheckpointOk(s) && Faithful(s, CheckpointPrepared(ticket, outcome))
    ensures SameQueue(s, CompletePreparation(s, ticket, outcome).state)
    ensures CheckpointOk(CompletePreparation(s, ticket, outcome).state)
  {
    hide DescribesCheckpoint;
  }

  lemma QuietKeepsCheckpointOk(s: WriterState, event: WriterEvent)
    requires CheckpointOk(s) && Faithful(s, event) && Quiet(event)
    ensures SameQueue(s, ApplyEvent(s, event).state)
    ensures CheckpointOk(ApplyEvent(s, event).state)
  {
    hide DescribesCheckpoint, CompletePreparation;
    match event
    case CheckpointPrepared(ticket, outcome) =>
      hide SameQueue, CheckpointOk;
      PreparationKeepsCheckpointOk(s, ticket, outcome);
    case IngressClosed =>
    case _ =>
  }

  lemma QuietKeepsMid(s: WriterState, event: WriterEvent)
    requires Mid(s) && Faithful(s, event) && Quiet(event)
    ensures Mid(ApplyEvent(s, event).state)
  {
    QuietKeepsCheckpointOk(s, event);
    SameQueueKeepsMid(s, ApplyEvent(s, event).state);
    hide *;
  }

  lemma ApplyKeepsMid(s: WriterState, event: WriterEvent)
    requires Mid(s) && Faithful(s, event)
    ensures ApplyEvent(s, event).exit.None? ==> Mid(ApplyEvent(s, event).state)
  {
    hide Mid;
    match event
    case CommandReceived(envelope) => AdmitKeepsMid(s, envelope);
    case WalEstablished(batch, wal) => if wal == Ok(Durable) { DurableKeepsMid(s); }
    case SealPublished(ticket, publication) =>
      if publication == Ok(Authored) { PublicationKeepsMid(s, ticket); }
    case _ => QuietKeepsMid(s, event);
  }

  lemma FlushKeepsMid(s: WriterState, now: nat)
    requires Mid(s)
    ensures Mid(ScheduleFlush(s, now).state)
  {
    if s.flight.None? && s.pending.commands != [] {
      if MustDrain(s, now) {
        DrainKeepsMid(s, now);
        hide Mid, DrainPending;
      } else {
        SameQueueKeepsMid(s, ScheduleFlush(s, now).state);
        hide Mid, DrainPending;
      }
    }
  }

  /** After the flush half a waiting barrier has facts, an armed timer and room. */
  lemma FlushSettles(s: WriterState, now: nat)
    requires Bounded(s.pending)
    ensures var t := ScheduleFlush(s, now).state;
      t.flight.None? && t.pending.commands != [] ==>
        t.pending.HasFacts() && t.flushArmed && t.ingressOpen && !HardFull(t)
  {
  }

  lemma CheckpointHalfKeepsMid(s: WriterState)
    requires Mid(s)
    ensures Mid(ScheduleCheckpoint(s).state)
  {
    hide Bounded, AdmittedIsFold, FlightIsFold, PromisesStand, Roomy;
    SameQueueKeepsMid(s, ScheduleCheckpoint(s).state);
  }

  lemma CheckpointHalfSettles(s: WriterState)
    requires s.flight.None? && s.pending.commands != [] ==>
      s.pending.HasFacts() && s.flushArmed && s.ingressOpen && !HardFull(s)
    ensures ScheduleCheckpoint(s).exit.None? ==> Settled(ScheduleCheckpoint(s).state)
  {
  }

  lemma ScheduleKeepsInv(s: WriterState, now: nat)
    requires Mid(s)
    ensures Schedule(s, now).exit.None? ==> Inv(Schedule(s, now).state)
  {
    FlushSettles(s, now);
    hide Mid, ScheduleFlush, HardFull, ScheduleCheckpoint, Settled;
    FlushKeepsMid(s, now);
    CheckpointHalfSettles(ScheduleFlush(s, now).state);
    CheckpointHalfKeepsMid(ScheduleFlush(s, now).state);
  }

  /** Every step of the machine keeps its invariant. */
  lemma HandleKeepsInv(s: WriterState, now: nat, event: WriterEvent)
    requires Inv(s) && Faithful(s, event)
    ensures Handle(s, now, event).exit.None? ==> Inv(Handle(s, now, event).state)
  {
    hide Mid, ApplyEvent, Schedule, Settled, Faithful;
    ApplyKeepsMid(s, event);
    if ApplyEvent(s, event).exit.None? {
      ScheduleKeepsInv(ApplyEvent(s, event).state, now);
    }
  }
}
