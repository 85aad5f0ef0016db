/** The writer machine as functions on its state: admission, group commit,
    durability, checkpoints and shutdown. */
module WriterSpec {
  import opened Common
  import opened Domain
  import opened Forests
  import opened Logs
  import opened Seals
  import opened Suffix

  const WRITER_OUTPUTS_PER_STEP_MAX: nat := 4

  // ---------------------------------------------------------------- commands

  datatype Command =
    | CreateStream(path: StreamPath, contentType: ContentType, expiry: ExpiryPolicy, lifecycle: Lifecycle)
    | CloseStream(path: StreamPath)
    | DeleteStream(path: StreamPath)

  datatype AdmissionRefusal = OccupiedPath | ExhaustedCapacity | NotLivePath | Overloaded

  datatype Answer =
    | StreamWasCreated | StreamAlreadyExisted
    | StreamWasClosed | StreamWasAlreadyClosed
    | StreamWasDeleted
    | Refused(refusal: AdmissionRefusal)

  /** A command with the caller's one-shot reply channel. */
  datatype Envelope = Envelope(command: Command, reply: nat)

  datatype Completion = Completion(command: Command, answer: Answer, reply: nat)

  // ------------------------------------------------------------- checkpoints

  datatype CheckpointTicket = CheckpointTicket(source: nat, cut: nat, attempt: AttemptId)

  datatype CheckpointInput = CheckpointInput(ticket: CheckpointTicket, source: Seal, base: Forest, snapshot: Forest)

  datatype PreparedCheckpoint = PreparedCheckpoint(source: Seal, successor: Seal, snapshot: Forest)

  datatype CheckpointMarker =
    | Preparing(ticket: CheckpointTicket)
    | Cancelling(ticket: CheckpointTicket)
    | Publishing(ticket: CheckpointTicket, prepared: PreparedCheckpoint)

  datatype PreparationOutcome = Prepared(prepared: PreparedCheckpoint) | Abandoned | PreparationContradiction

  /** The identities a prepared checkpoint must agree on to exist. */
  predicate DescribesCheckpoint(ticket: CheckpointTicket, prepared: PreparedCheckpoint) {
    && ticket.source == prepared.source.generation
    && prepared.source.partition == prepared.successor.partition
    && Successor(prepared.source.generation) == Some(prepared.successor.generation)
    && prepared.successor.replay == Through(ticket.cut, ticket.attempt.ownerClaim)
    && prepared.source.replay.Cut() < ticket.cut
  }

  datatype CollectionInput = CollectionInput(cut: nat, source: Seal, successor: Seal)

  // ------------------------------------------------------- events and outputs

  datatype TypedStoreError = StoreRetryable | StoreRejected | StoreContradiction

  datatype WalEstablishment = Durable | Occupied | UnresolvedAbsent

  datatype SealPublication = Authored | NoAuthority | Unresolved

  datatype WriterEvent =
    | Started
    | CommandReceived(envelope: Envelope)
    | FlushDue
    | IngressClosed
    | WalEstablished(batch: nat, wal: Result<WalEstablishment, TypedStoreError>)
    | CheckpointPrepared(ticket: CheckpointTicket, outcome: PreparationOutcome)
    | SealPublished(ticket: CheckpointTicket, publication: Result<SealPublication, TypedStoreError>)
    | CollectFinished(cut: nat)
    | CheckpointPreparationCancelled(ticket: CheckpointTicket)

  datatype EffectKey =
    | WalKey(batch: nat)
    | PreparationKey(ticket: CheckpointTicket)
    | PublicationKey(ticket: CheckpointTicket)
    | CollectionKey(cut: nat)

  datatype WriterEffect =
    | EstablishWal(run: WalObject)
    | PrepareCheckpoint(input: CheckpointInput)
    | PublishAuthority(ticket: CheckpointTicket, candidate: Seal)
    | Collect(collection: CollectionInput)
  {
    function Key(): EffectKey {
      match this
      case EstablishWal(run) => WalKey(run.batch)
      case PrepareCheckpoint(input) => PreparationKey(input.ticket)
      case PublishAuthority(ticket, _) => PublicationKey(ticket)
      case Collect(collection) => CollectionKey(collection.cut)
    }
  }

  datatype WriterAction =
    | ArmFlush(deadline: nat)
    | PublishView(view: Forest)
    | SendReplies(replies: seq<Completion>)
    | CancelCheckpointPreparation(ticket: CheckpointTicket)

  datatype WriterOutput = Effect(effect: WriterEffect) | Action(action: WriterAction)

  datatype WriterExit =
    | Shutdown
    | WriterFenced(batch: nat)
    | Poisoned(batch: nat)
    | WriterContradiction(batch: nat)

  // -------------------------------------------------------------------- state

  /** `fact` is absent when an idempotent reply inherits an earlier barrier. */
  datatype PendingCommand = PendingCommand(fact: Option<OperationFact>, completion: Completion)

  datatype PendingBarrier = PendingBarrier(commands: seq<PendingCommand>, factsBytesEstimated: nat)
  {
    function BytesEstimated(): nat { WAL_RUN_FIXED_ENCODED_BYTES_MAX + factsBytesEstimated }

    predicate HasFacts() { factsBytesEstimated > 0 }

    function PushFact(fact: OperationFact, completion: Completion): PendingBarrier {
      PendingBarrier(commands + [PendingCommand(Some(fact), completion)],
                     factsBytesEstimated + fact.EstimatedEncodedBytes())
    }

    function PushIdempotent(completion: Completion): PendingBarrier {
      this.(commands := commands + [PendingCommand(None, completion)])
    }
  }

  const EMPTY_BARRIER := PendingBarrier([], 0)

  function Facts(commands: seq<PendingCommand>): seq<OperationFact> {
    if commands == [] then []
    else
      var last := commands[|commands| - 1];
      Facts(commands[..|commands| - 1]) + (if last.fact.Some? then [last.fact.value] else [])
  }

  function Replies(commands: seq<PendingCommand>): (replies: seq<Completion>)
    ensures |replies| == |commands|
    ensures forall i :: 0 <= i < |commands| ==> replies[i] == commands[i].completion
  {
    seq(|commands|, i requires 0 <= i < |commands| => commands[i].completion)
  }

  /** A persistent forest together with the identity of its map roots. */
  datatype Rooted = Rooted(forest: Forest, root: nat)

  /** One WAL RUN in flight; `facts` are those its encoded candidate carries. */
  datatype InFlight = InFlight(batch: nat, after: Rooted, replies: seq<Completion>, facts: seq<OperationFact>)

  datatype WriterState = WriterState(
    started: bool,
    claim: nat,
    seal: Seal,
    base: Forest,
    admitted: Rooted,
    durable: Rooted,
    durableBatch: nat,
    nextBatch: nat,
    pending: PendingBarrier,
    flight: Option<InFlight>,
    flushIntervalMin: nat,
    flushBufferBytes: nat,
    lastFlushStartedAt: Option<nat>,
    flushArmed: bool,
    checkpointAttempt: nat,
    lastCheckpointAttemptedCut: Option<nat>,
    retryCheckpointAt: Option<nat>,
    checkpoint: Option<CheckpointMarker>,
    collector: Option<nat>,
    ingressOpen: bool,
    rootsMinted: nat)

  /** The complete handoff from bootstrap into the live writer. */
  datatype WriterRecovery = WriterRecovery(claim: nat, seal: Seal, base: Forest, durable: Forest, durableBatch: nat)

  predicate RecoveryOk(recovery: WriterRecovery) {
    && recovery.claim == recovery.seal.generation
    && recovery.seal.replay.Cut() <= recovery.durableBatch < U64_MAX
  }

  /** The flush byte budget the writer asserts when it is built. */
  predicate BufferOk(flushBufferBytes: nat) { 1 <= flushBufferBytes <= WAL_ENCODED_BYTES_MAX }

  function FromRecovery(recovery: WriterRecovery, flushIntervalMin: nat, flushBufferBytes: nat): WriterState
    requires RecoveryOk(recovery) && BufferOk(flushBufferBytes)
  {
    WriterState(
      false, recovery.claim, recovery.seal, recovery.base,
      Rooted(recovery.durable, 0), Rooted(recovery.durable, 0),
      recovery.durableBatch, recovery.durableBatch + 1,
      EMPTY_BARRIER, None, flushIntervalMin, flushBufferBytes, None, false,
      0, None, None, None, None, true, 1)
  }

  // ---------------------------------------------------------------- admission

  predicate HardFull(s: WriterState) {
    || |s.pending.commands| == WRITER_PENDING_COMMANDS_MAX
    || s.pending.BytesEstimated() + WAL_FACT_ENCODED_BYTES_ESTIMATE_MAX > WAL_ENCODED_BYTES_MAX
  }

  predicate AdmissionOpen(s: WriterState) { s.ingressOpen && !HardFull(s) }

  function RefusalOf(contradiction: FoldContradiction): Option<AdmissionRefusal> {
    match contradiction
    case PathOccupied => Some(OccupiedPath)
    case PathCapacityExhausted => Some(ExhaustedCapacity)
    case PathNotLive => Some(NotLivePath)
    case StreamAlreadyClosed => None
    case UidNotDenseSuccessor => None
    case PathUidMismatch => None
  }

  datatype Admission =
    | AdmitFact(forest: Forest, fact: OperationFact, answer: Answer)
    | AdmitIdempotent(answer: Answer)
    | AdmitRefused(refusal: AdmissionRefusal)

  /** Fold a constructed fact into a copy of the admitted forest. The source
      panics when the contradiction is not one a caller can be told. */
  function ApplyFact(admitted: Forest, batch: nat, fact: OperationFact, answer: Answer): Admission
    requires StrictFold(admitted, batch, fact).Err? ==> RefusalOf(StrictFold(admitted, batch, fact).error).Some?
  {
    match StrictFold(admitted, batch, fact)
    case Ok(forest) => AdmitFact(forest, fact, answer)
    case Err(contradiction) => AdmitRefused(RefusalOf(contradiction).value)
  }

  function AdmitCreate(admitted: Forest, command: Command, batch: nat): Admission
    requires command.CreateStream?
  {
    if command.path in admitted.directory then
      match admitted.directory[command.path]
      case Tombstone(_) => AdmitRefused(OccupiedPath)
      case Live(uid) =>
        if uid in admitted.ledger
           && admitted.ledger[uid].contentType == command.contentType
           && admitted.ledger[uid].expiry == command.expiry
           && admitted.ledger[uid].lifecycle == command.lifecycle
        then AdmitIdempotent(StreamAlreadyExisted)
        else AdmitRefused(OccupiedPath)
    else
      match SuccessorUid(|admitted.directory|)
      case Err(contradiction) => AdmitRefused(RefusalOf(contradiction).value)
      case Ok(uid) =>
        ApplyFact(admitted, batch,
                  StreamCreated(command.path, uid, command.contentType, command.expiry, command.lifecycle),
                  StreamWasCreated)
  }

  function ResolveLiveUid(forest: Forest, path: StreamPath): (r: Result<StreamUid, AdmissionRefusal>)
    ensures r.Ok? ==> path in forest.directory && forest.directory[path] == Live(r.value)
    ensures r.Ok? ==> r.value in forest.ledger
  {
    if path in forest.directory && forest.directory[path].Live? && forest.directory[path].uid in forest.ledger
    then Ok(forest.directory[path].uid)
    else Err(NotLivePath)
  }

  function AdmitClose(admitted: Forest, path: StreamPath, batch: nat): Admission {
    match ResolveLiveUid(admitted, path)
    case Err(refusal) => AdmitRefused(refusal)
    case Ok(uid) =>
      if admitted.ledger[uid].lifecycle.Closed? then AdmitIdempotent(StreamWasAlreadyClosed)
      else ApplyFact(admitted, batch, StreamClosed(path, uid), StreamWasClosed)
  }

  function AdmitDelete(admitted: Forest, path: StreamPath, batch: nat): Admission {
    match ResolveLiveUid(admitted, path)
    case Err(refusal) => AdmitRefused(refusal)
    case Ok(uid) => ApplyFact(admitted, batch, StreamDeleted(path, uid), StreamWasDeleted)
  }

  function AdmitCommand(admitted: Forest, command: Command, batch: nat): Admission {
    match command
    case CreateStream(_, _, _, _) => AdmitCreate(admitted, command, batch)
    case CloseStream(path) => AdmitClose(admitted, path, batch)
    case DeleteStream(path) => AdmitDelete(admitted, path, batch)
  }

  /** A step that may answer its command at once. */
  datatype Admitted = Admitted(state: WriterState, reply: Option<Completion>)

  function AcceptFact(s: WriterState, forest: Forest, fact: OperationFact, completion: Completion): Admitted {
    if !RunLeavesTakeoverRoom(s.seal.replay.Batch(), s.nextBatch) then
      Admitted(s.(retryCheckpointAt := Some(s.durableBatch)),
               Some(completion.(answer := Refused(Overloaded))))
    else
      Admitted(s.(admitted := Rooted(forest, s.rootsMinted),
                  rootsMinted := s.rootsMinted + 1,
                  pending := s.pending.PushFact(fact, completion)),
               None)
  }

  function AcceptIdempotent(s: WriterState, completion: Completion): Admitted {
    if s.flight.None? && !s.pending.HasFacts() then Admitted(s, Some(completion))
    else Admitted(s.(pending := s.pending.PushIdempotent(completion)), None)
  }

  function Admit(s: WriterState, envelope: Envelope): Admitted {
    match AdmitCommand(s.admitted.forest, envelope.command, s.nextBatch)
    case AdmitFact(forest, fact, answer) =>
      AcceptFact(s, forest, fact, Completion(envelope.command, answer, envelope.reply))
    case AdmitIdempotent(answer) =>
      AcceptIdempotent(s, Completion(envelope.command, answer, envelope.reply))
    case AdmitRefused(refusal) =>
      Admitted(s, Some(Completion(envelope.command, Refused(refusal), envelope.reply)))
  }

  // ------------------------------------------------------------- group commit

  datatype Drained = Drained(state: WriterState, output: WriterOutput)

  function DrainPending(s: WriterState, now: nat): Drained
    requires s.flight.None?
  {
    var facts := Facts(s.pending.commands);
    var replies := Replies(s.pending.commands);
    if facts == [] then
      Drained(s.(pending := EMPTY_BARRIER, admitted := s.durable), Action(SendReplies(replies)))
    else
      Drained(s.(pending := EMPTY_BARRIER,
                 nextBatch := s.nextBatch + 1,
                 flight := Some(InFlight(s.nextBatch, s.admitted, replies, facts)),
                 lastFlushStartedAt := Some(now)),
              Effect(EstablishWal(FlightRun(s, s.nextBatch, facts))))
  }

  /** The WAL object a flight of this writer carries. */
  function FlightRun(s: WriterState, batch: nat, facts: seq<OperationFact>): WalObject {
    WalObject(s.seal.partition, batch, s.claim, Run(facts))
  }

  datatype Stepped = Stepped(state: WriterState, outputs: seq<WriterOutput>, exit: Option<WriterExit>)

  function RecordWalDurable(s: WriterState): Stepped
    requires s.flight.Some?
  {
    var flight := s.flight.value;
    var landed := s.(flight := None, durable := flight.after, durableBatch := flight.batch);
    Stepped(if s.pending.commands == [] then landed.(admitted := flight.after) else landed,
            [Action(PublishView(flight.after.forest)), Action(SendReplies(flight.replies))],
            None)
  }

  function WalOutcome(s: WriterState, batch: nat, wal: Result<WalEstablishment, TypedStoreError>): Stepped
    requires s.flight.Some?
  {
    if wal == Ok(Durable) then RecordWalDurable(s)
    else
      Stepped(s.(flight := None), [],
              Some(match wal
                   case Ok(Occupied) => WriterFenced(batch)
                   case Ok(_) => Poisoned(batch)
                   case Err(StoreContradiction) => WriterContradiction(batch)
                   case Err(_) => Poisoned(batch)))
  }

  // ------------------------------------------------------------- checkpoints

  function CompletePreparation(s: WriterState, ticket: CheckpointTicket, outcome: PreparationOutcome): Stepped
    requires s.checkpoint.Some? && !s.checkpoint.value.Publishing?
  {
    if s.checkpoint.value.Cancelling? then Stepped(s.(checkpoint := None), [], None)
    else
      match outcome
      case Prepared(prepared) =>
        Stepped(s.(checkpoint := Some(Publishing(ticket, prepared))),
                [Effect(PublishAuthority(ticket, prepared.successor))], None)
      case Abandoned => Stepped(s.(checkpoint := None), [], None)
      case PreparationContradiction =>
        Stepped(s.(checkpoint := None), [], Some(WriterContradiction(ticket.cut)))
  }

  function CompletePublication(s: WriterState, ticket: CheckpointTicket,
                               publication: Result<SealPublication, TypedStoreError>): Stepped
    requires s.checkpoint.Some? && s.checkpoint.value.Publishing?
  {
    var prepared := s.checkpoint.value.prepared;
    var closed := s.(checkpoint := None);
    if publication == Ok(Authored) then
      var installed := closed.(seal := prepared.successor, base := prepared.snapshot);
      var view := Action(PublishView(s.durable.forest));
      var cut := prepared.successor.replay.Cut();
      if s.ingressOpen && s.collector.None? then
        Stepped(installed.(collector := Some(cut)),
                [view, Effect(Collect(CollectionInput(cut, prepared.source, prepared.successor)))], None)
      else Stepped(installed, [view], None)
    else
      Stepped(closed, [],
              Some(match publication
                   case Ok(NoAuthority) => WriterFenced(ticket.cut)
                   case Ok(_) => Poisoned(ticket.cut)
                   case Err(StoreContradiction) => WriterContradiction(ticket.cut)
                   case Err(_) => Poisoned(ticket.cut)))
  }

  predicate CheckpointDue(s: WriterState) {
    && s.checkpoint.None?
    && s.durableBatch - s.seal.replay.Cut() >= WAL_SUFFIX_CHECKPOINT_SPAN_TRIGGER
    && (|| s.lastCheckpointAttemptedCut.None?
        || s.lastCheckpointAttemptedCut.value < s.durableBatch
        || s.retryCheckpointAt == Some(s.durableBatch))
  }

  function NextTicket(s: WriterState): CheckpointTicket {
    CheckpointTicket(s.seal.generation, s.durableBatch, AttemptId(s.claim, s.checkpointAttempt))
  }

  function TakeCheckpoint(s: WriterState): WriterState {
    s.(checkpointAttempt := s.checkpointAttempt + 1,
       lastCheckpointAttemptedCut := Some(s.durableBatch),
       retryCheckpointAt := None,
       checkpoint := Some(Preparing(NextTicket(s))))
  }

  // ------------------------------------------------------------------ the step

  function CloseIngress(s: WriterState): Stepped {
    var closed := s.(ingressOpen := false);
    if s.checkpoint.Some? && s.checkpoint.value.Preparing? then
      Stepped(closed.(checkpoint := Some(Cancelling(s.checkpoint.value.ticket))),
              [Action(CancelCheckpointPreparation(s.checkpoint.value.ticket))], None)
    else Stepped(closed, [], None)
  }

  /** What the interpreter promises about the event it delivers. */
  predicate Faithful(s: WriterState, event: WriterEvent) {
    && (s.started <==> !event.Started?)
    && match event
       case Started => true
       case CommandReceived(_) => AdmissionOpen(s)
       case FlushDue => s.flushArmed
       case IngressClosed => s.ingressOpen
       case WalEstablished(batch, _) => s.flight.Some? && s.flight.value.batch == batch
       case CheckpointPrepared(ticket, outcome) =>
         && s.checkpoint.Some? && !s.checkpoint.value.Publishing? && s.checkpoint.value.ticket == ticket
         && (outcome.Prepared? ==>
              DescribesCheckpoint(ticket, outcome.prepared) && outcome.prepared.source == s.seal)
       case SealPublished(ticket, _) =>
         s.checkpoint.Some? && s.checkpoint.value.Publishing? && s.checkpoint.value.ticket == ticket
       case CollectFinished(cut) => s.collector == Some(cut)
       case CheckpointPreparationCancelled(ticket) => s.checkpoint == Some(Cancelling(ticket))
  }

  function ApplyEvent(s: WriterState, event: WriterEvent): Stepped
    requires Faithful(s, event)
  {
    match event
    case Started => Stepped(s.(started := true), [], None)
    case CommandReceived(envelope) =>
      var admitted := Admit(s, envelope);
      Stepped(admitted.state,
              if admitted.reply.Some? then [Action(SendReplies([admitted.reply.value]))] else [],
              None)
    case FlushDue => Stepped(s.(flushArmed := false), [], None)
    case IngressClosed => CloseIngress(s)
    case WalEstablished(batch, wal) => WalOutcome(s, batch, wal)
    case CheckpointPrepared(ticket, outcome) => CompletePreparation(s, ticket, outcome)
    case SealPublished(ticket, publication) => CompletePublication(s, ticket, publication)
    case CollectFinished(_) => Stepped(s.(collector := None), [], None)
    case CheckpointPreparationCancelled(_) => Stepped(s.(checkpoint := None), [], None)
  }

  /** Monotonic instants saturate at the end of the representable range. */
  const INSTANT_MAX: nat := U64_MAX * 1_000_000_000 + 999_999_999

  function SaturatingAdd(instant: nat, duration: nat): nat {
    if instant + duration > INSTANT_MAX then INSTANT_MAX else instant + duration
  }

  predicate SpacingSatisfied(s: WriterState, now: nat) {
    s.lastFlushStartedAt.None? || now >= SaturatingAdd(s.lastFlushStartedAt.value, s.flushIntervalMin)
  }

  predicate MustDrain(s: WriterState, now: nat) {
    || !s.pending.HasFacts()
    || !s.ingressOpen
    || HardFull(s)
    || s.pending.BytesEstimated() >= s.flushBufferBytes
    || SpacingSatisfied(s, now)
  }

  /** Drain or arm the timer for a barrier that has no flight ahead of it. */
  function ScheduleFlush(s: WriterState, now: nat): Stepped {
    if s.flight.Some? || s.pending.commands == [] then Stepped(s, [], None)
    else if MustDrain(s, now) then
      var drained := DrainPending(s, now);
      Stepped(drained.state, [drained.output], None)
    else if !s.flushArmed then
      Stepped(s.(flushArmed := true),
              [Action(ArmFlush(SaturatingAdd(s.lastFlushStartedAt.value, s.flushIntervalMin)))], None)
    else Stepped(s, [], None)
  }

  predicate Quiescent(s: WriterState) {
    s.flight.None? && s.checkpoint.None? && s.pending.commands == []
  }

  /** Start a due checkpoint, or stop once a closed writer is quiescent. */
  function ScheduleCheckpoint(s: WriterState): Stepped {
    if s.ingressOpen then
      if CheckpointDue(s) then
        Stepped(TakeCheckpoint(s),
                [Effect(PrepareCheckpoint(CheckpointInput(NextTicket(s), s.seal, s.base, s.durable.forest)))],
                None)
      else Stepped(s, [], None)
    else if Quiescent(s) then Stepped(s, [], Some(Shutdown))
    else Stepped(s, [], None)
  }

  function Schedule(s: WriterState, now: nat): Stepped {
    var flushed := ScheduleFlush(s, now);
    var checked := ScheduleCheckpoint(flushed.state);
    Stepped(checked.state, flushed.outputs + checked.outputs, checked.exit)
  }

  /** One complete synchronous machine transition. */
  function Handle(s: WriterState, now: nat, event: WriterEvent): Stepped
    requires Faithful(s, event)
  {
    var applied := ApplyEvent(s, event);
    if applied.exit.Some? then applied
    else
      var scheduled := Schedule(applied.state, now);
      Stepped(scheduled.state, applied.outputs + scheduled.outputs, scheduled.exit)
  }
}
