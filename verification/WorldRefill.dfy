/** A run in which a delayed FENCE settles where a RUN was collected and a
    superseded bootstrap reads it. */
module WorldRefill {
  import opened Common
  import opened Domain
  import opened Forests
  import opened Logs
  import opened Seals
  import opened Suffix
  import opened Merge
  import opened Checkpoints
  import opened WriterSpec
  import opened BootstrapSpec
  import opened Nodes
  import opened NodeTheorems
  import opened Stores
  import opened Worlds
  import opened WorldInvariant
  import opened WorldRuns
  import opened WorldTheorems
  import opened WorldProgress
  import opened WorldLimits

  // ------------------------------------------------------ a turn of a writer

  lemma TakeTurn(steps: seq<WorldStep>, w: World, pid: nat, n: Node, event: WriterEvent)
    returns (later: seq<WorldStep>, w': World)
    requires Reaches(steps, w) && pid in w.procs && w.procs[pid] == Running(n)
    requires Deliverable(n, event) && WriterAnswers(w.st, pid, n, event)
    ensures Faithful(n.machine, event)
    ensures var step := Handle(n.machine, 0, event);
      && Onward(steps, later, w') && w'.st == w.st && w'.rq == Issue(w.rq, pid, step.outputs)
      && (step.exit.None? ==>
           w'.procs == w.procs[pid := Running(Node(step.state, Execute(PickUp(n.tables, event), step.outputs)))])
  {
    hide Reaches, Deliverable, WriterAnswers, Faithful, Handle, Issue, Execute, PickUp, Sent;
    later, w' := Extend(steps, w, WriterTurn(pid, 0, event));
  }

  /** What one output and two outputs do. */
  lemma OutputsUnroll(rq: Requests, pid: nat, t: Tables, a: WriterOutput, b: WriterOutput)
    ensures Issue(rq, pid, []) == rq && Execute(t, []) == t
    ensures Issue(rq, pid, [a]) == IssueOne(rq, pid, a) && Execute(t, [a]) == ExecuteOne(t, a)
    ensures Issue(rq, pid, [a, b]) == IssueOne(IssueOne(rq, pid, a), pid, b)
    ensures Execute(t, [a, b]) == ExecuteOne(ExecuteOne(t, a), b)
  {
    hide IssueOne, ExecuteOne;
    assert [a, b][1..] == [b] && [a][1..] == [] && [b][1..] == [];
    assert Issue(IssueOne(rq, pid, a), pid, [b]) == IssueOne(IssueOne(rq, pid, a), pid, b);
    assert Execute(ExecuteOne(t, a), [b]) == ExecuteOne(ExecuteOne(t, a), b);
  }

  // ------------------------------------------------------- one durable command

  /** A started writer with nothing queued, in flight or due. */
  predicate Resting(s: WriterState) {
    && s.started && s.ingressOpen && s.flight.None? && s.pending == EMPTY_BARRIER && s.checkpoint.None?
    && s.admitted == s.durable && s.nextBatch == s.durableBatch + 1
    && s.flushIntervalMin == 0 && (s.lastFlushStartedAt.None? || s.lastFlushStartedAt == Some(0))
    && s.seal.replay.Cut() <= s.durableBatch && s.nextBatch - s.seal.replay.Cut() < WAL_SUFFIX_CHECKPOINT_SPAN_TRIGGER
    && s.nextBatch + 1 < U64_MAX
  }

  function Creation(path: StreamPath): Envelope { Envelope(CreateStream(path, "text/plain", NoExpiry, Open), 0) }

  function CreationFact(forest: Forest, path: StreamPath): OperationFact {
    StreamCreated(path, |forest.directory| + 1, "text/plain", NoExpiry, Open)
  }

  function CreatedBy(forest: Forest, batch: nat, path: StreamPath): Forest {
    Created(forest, path, StreamRecord("text/plain", NoExpiry, Open, batch))
  }

  /** The state after the creation has taken off. */
  function Flown(s: WriterState, path: StreamPath): WriterState {
    var forest := s.admitted.forest;
    var after := Rooted(CreatedBy(forest, s.nextBatch, path), s.rootsMinted);
    s.(admitted := after, rootsMinted := s.rootsMinted + 1, nextBatch := s.nextBatch + 1, lastFlushStartedAt := Some(0),
       flight := Some(InFlight(s.nextBatch, after, [Completion(Creation(path).command, StreamWasCreated, 0)],
                               [CreationFact(forest, path)])))
  }

  function CreationRun(s: WriterState, path: StreamPath): WalObject {
    FlightRun(s, s.nextBatch, [CreationFact(s.admitted.forest, path)])
  }

  lemma CreationFlies(s: WriterState, path: StreamPath)
    requires Resting(s) && path !in s.admitted.forest.directory
    requires |s.admitted.forest.directory| < PARTITION_PATH_OCCUPANCIES_MAX
    ensures AdmissionOpen(s) && Faithful(s, CommandReceived(Creation(path)))
    ensures Handle(s, 0, CommandReceived(Creation(path))) ==
      Stepped(Flown(s, path), [Effect(EstablishWal(CreationRun(s, path)))], None)
  {
    RunRoomExactly(s.seal.replay.Batch(), s.nextBatch);
    hide RunLeavesTakeoverRoom;
    var admitted := Admit(s, Creation(path)).state;
    assert admitted.pending.commands[..0] == [];
    assert Facts(admitted.pending.commands) == [CreationFact(s.admitted.forest, path)];
    assert Replies(admitted.pending.commands) == [Completion(Creation(path).command, StreamWasCreated, 0)];
  }

  /** The state after the creation is durable. */
  function Written(s: WriterState, path: StreamPath): WriterState {
    var after := Rooted(CreatedBy(s.admitted.forest, s.nextBatch, path), s.rootsMinted);
    s.(admitted := after, durable := after, rootsMinted := s.rootsMinted + 1, durableBatch := s.nextBatch,
       nextBatch := s.nextBatch + 1, lastFlushStartedAt := Some(0))
  }

  lemma CreationLands(s: WriterState, path: StreamPath)
    requires Resting(s)
    ensures Faithful(Flown(s, path), WalEstablished(s.nextBatch, Ok(Durable)))
    ensures Handle(Flown(s, path), 0, WalEstablished(s.nextBatch, Ok(Durable))) ==
      Stepped(Written(s, path),
              [Action(PublishView(CreatedBy(s.admitted.forest, s.nextBatch, path))),
               Action(SendReplies([Completion(Creation(path).command, StreamWasCreated, 0)]))], None)
  {
    hide CreatedBy;
  }

  /** The writer takes a creation and sends its RUN. */
  lemma SendCreation(steps: seq<WorldStep>, w: World, pid: nat, n: Node, path: StreamPath)
    returns (later: seq<WorldStep>, w': World, n': Node)
    requires Reaches(steps, w) && pid in w.procs && w.procs[pid] == Running(n)
    requires Resting(n.machine) && path !in n.machine.admitted.forest.directory
    requires |n.machine.admitted.forest.directory| < PARTITION_PATH_OCCUPANCIES_MAX
    ensures Onward(steps, later, w') && w'.st == w.st && w'.procs == w.procs[pid := Running(n')]
    ensures w'.rq == w.rq.(wals := w.rq.wals + {CreationRun(n.machine, path)})
    ensures n'.machine == Flown(n.machine, path) && WalKey(n.machine.nextBatch) in n'.tables.effects
    ensures n'.tables.effects[WalKey(n.machine.nextBatch)] == EstablishWal(CreationRun(n.machine, path))
  {
    var s, event := n.machine, CommandReceived(Creation(path));
    CreationFlies(s, path);
    hide Reaches, Handle, Resting, Flown, PickUp;
    var run := Effect(EstablishWal(CreationRun(s, path)));
    OutputsUnroll(w.rq, pid, PickUp(n.tables, event), run, run);
    later, w' := TakeTurn(steps, w, pid, n, event);
    n' := Node(Flown(s, path), Execute(PickUp(n.tables, event), [run]));
  }

  /** The writer hears that its RUN is durable. */
  lemma HearCreation(steps: seq<WorldStep>, w: World, pid: nat, n: Node, s: WriterState, path: StreamPath)
    returns (later: seq<WorldStep>, w': World, n': Node)
    requires Reaches(steps, w) && pid in w.procs && w.procs[pid] == Running(n) && Resting(s)
    requires n.machine == Flown(s, path)
    requires WalKey(s.nextBatch) in n.tables.effects
    requires n.tables.effects[WalKey(s.nextBatch)] == EstablishWal(CreationRun(s, path))
    requires WasCreated(w.st, CreationRun(s, path))
    ensures Onward(steps, later, w') && w'.st == w.st && w'.rq == w.rq && w'.procs == w.procs[pid := Running(n')]
    ensures n'.machine == Written(s, path)
  {
    var event := WalEstablished(s.nextBatch, Ok(Durable));
    CreationLands(s, path);
    assert n.machine.started;
    hide Reaches, Handle, Resting, Flown, Written, PickUp, WasCreated, CreationRun, CreatedBy;
    var view := Action(PublishView(CreatedBy(s.admitted.forest, s.nextBatch, path)));
    var replies := Action(SendReplies([Completion(Creation(path).command, StreamWasCreated, 0)]));
    OutputsUnroll(w.rq, pid, PickUp(n.tables, event), view, replies);
    later, w' := TakeTurn(steps, w, pid, n, event);
    n' := Node(Written(s, path), Execute(PickUp(n.tables, event), [view, replies]));
  }

  /** A resting writer whose durable batch is the end of the log makes one more
      stream durable there. */
  lemma WriteOne(steps: seq<WorldStep>, w: World, pid: nat, n: Node, path: StreamPath)
    returns (later: seq<WorldStep>, w': World, n': Node)
    requires Reaches(steps, w) && pid in w.procs && w.procs[pid] == Running(n) && n.machine.durableBatch == |w.st.log|
    requires Resting(n.machine) && path !in n.machine.admitted.forest.directory
    requires |n.machine.admitted.forest.directory| < PARTITION_PATH_OCCUPANCIES_MAX
    ensures var run := CreationRun(n.machine, path);
      && Onward(steps, later, w') && w'.st == Appended(w.st, run) && w'.procs == w.procs[pid := Running(n')]
      && w'.rq == w.rq.(wals := w.rq.wals + {run} - {run})
    ensures n'.machine == Written(n.machine, path)
  {
    assert CreationRun(n.machine, path).batch == |w.st.log| + 1;
    hide Reaches, Resting, Flown, Written, WasCreated, CreationRun, Appended;
    later, w', n' := SendCreation(steps, w, pid, n, path);
    later, w' := LandBehindLog(later, w', CreationRun(n.machine, path));
    later, w', n' := HearCreation(later, w', pid, n', n.machine, path);
  }

  // --------------------------------------------------- a checkpoint, published

  /** A fresh writer far enough behind its cut starts a checkpoint at once. */
  lemma StartTakesCheckpoint(s: WriterState)
    requires !s.started && s.ingressOpen && s.pending == EMPTY_BARRIER && CheckpointDue(s)
    ensures Faithful(s, Started)
    ensures Handle(s, 0, Started) ==
      Stepped(TakeCheckpoint(s.(started := true)),
              [Effect(PrepareCheckpoint(CheckpointInput(NextTicket(s), s.seal, s.base, s.durable.forest)))], None)
  {
  }

  lemma PreparedPublishes(s: WriterState, ticket: CheckpointTicket, prepared: PreparedCheckpoint)
    requires s.started && s.ingressOpen && s.pending == EMPTY_BARRIER && s.checkpoint == Some(Preparing(ticket))
    requires DescribesCheckpoint(ticket, prepared) && prepared.source == s.seal
    ensures Faithful(s, CheckpointPrepared(ticket, Prepared(prepared)))
    ensures Handle(s, 0, CheckpointPrepared(ticket, Prepared(prepared))) ==
      Stepped(s.(checkpoint := Some(Publishing(ticket, prepared))),
              [Effect(PublishAuthority(ticket, prepared.successor))], None)
  {
    hide DescribesCheckpoint;
  }

  lemma AuthoredCollects(s: WriterState, ticket: CheckpointTicket, prepared: PreparedCheckpoint)
    requires s.started && s.ingressOpen && s.pending == EMPTY_BARRIER && s.collector.None?
    requires s.checkpoint == Some(Publishing(ticket, prepared)) && s.durableBatch == prepared.successor.replay.Cut()
    ensures Faithful(s, SealPublished(ticket, Ok(Authored)))
    ensures var step := Handle(s, 0, SealPublished(ticket, Ok(Authored)));
      && step.exit.None?
      && step.outputs == [Action(PublishView(s.durable.forest)),
                          Effect(Collect(CollectionInput(s.durableBatch, prepared.source, prepared.successor)))]
  {
  }

  /** The successor a preparation of this snapshot may hand back. */
  lemma SomePreparation(ticket: CheckpointTicket, source: Seal, base: Forest, snapshot: Forest)
    returns (prepared: PreparedCheckpoint)
    requires ticket.source == source.generation < U64_MAX && source.replay.Cut() < ticket.cut
    ensures DescribesCheckpoint(ticket, prepared) && prepared.source == source && prepared.snapshot == snapshot
    ensures PreparesTables(source, base, snapshot, prepared.successor, ticket.attempt)
  {
    var tables := PreparationExists(source, base, snapshot, ticket.attempt);
    var successor := tables.(partition := source.partition, replay := Through(ticket.cut, ticket.attempt.ownerClaim));
    SameTablesPrepare(source, base, snapshot, tables, successor, ticket.attempt);
    prepared := PreparedCheckpoint(source, successor, snapshot);
  }

  lemma SameTablesPrepare(source: Seal, base: Forest, snapshot: Forest, a: Seal, b: Seal, attempt: AttemptId)
    requires PreparesTables(source, base, snapshot, a, attempt)
    requires b.directory == a.directory && b.ledger == a.ledger && b.generation == a.generation
    ensures PreparesTables(source, base, snapshot, b, attempt)
  {
    hide DirectoryChunks, LedgerChunks, ExtendTree, Minted;
    var cells, directory, ledger :|
      && Minted(directory, ledger, a.generation, attempt)
      && (|| AppendsDelta(source, base, snapshot, a, cells, directory, ledger)
          || WritesFull(snapshot, a, cells, directory, ledger));
    assert AppendsDelta(source, base, snapshot, b, cells, directory, ledger)
        || WritesFull(snapshot, b, cells, directory, ledger);
    assert SealSources(b) == SealSources(a);
  }

  lemma BeginCheckpoint(steps: seq<WorldStep>, w: World, pid: nat, n: Node)
    returns (later: seq<WorldStep>, w': World, n': Node)
    requires Reaches(steps, w) && pid in w.procs && w.procs[pid] == Running(n)
    requires !n.machine.started && n.machine.ingressOpen && n.machine.pending == EMPTY_BARRIER
    requires CheckpointDue(n.machine)
    ensures Onward(steps, later, w') && w'.st == w.st && w'.rq == w.rq && w'.procs == w.procs[pid := Running(n')]
    ensures n'.machine == TakeCheckpoint(n.machine.(started := true))
    ensures PreparationKey(NextTicket(n.machine)) in n'.tables.effects
    ensures n'.tables.effects[PreparationKey(NextTicket(n.machine))] ==
      PrepareCheckpoint(CheckpointInput(NextTicket(n.machine), n.machine.seal, n.machine.base,
                                        n.machine.durable.forest))
  {
    var s := n.machine;
    StartTakesCheckpoint(s);
    hide Reaches, Handle, CheckpointDue, TakeCheckpoint, PickUp;
    var prepare := Effect(PrepareCheckpoint(CheckpointInput(NextTicket(s), s.seal, s.base, s.durable.forest)));
    OutputsUnroll(w.rq, pid, PickUp(n.tables, Started), prepare, prepare);
    later, w' := TakeTurn(steps, w, pid, n, Started);
    n' := Node(TakeCheckpoint(s.(started := true)), Execute(PickUp(n.tables, Started), [prepare]));
  }

  lemma PublishCheckpoint(steps: seq<WorldStep>, w: World, pid: nat, n: Node, ticket: CheckpointTicket)
    returns (later: seq<WorldStep>, w': World, n': Node, prepared: PreparedCheckpoint)
    requires Reaches(steps, w) && pid in w.procs && w.procs[pid] == Running(n)
    requires n.machine.started && n.machine.ingressOpen && n.machine.pending == EMPTY_BARRIER
    requires n.machine.checkpoint == Some(Preparing(ticket)) && PreparationKey(ticket) in n.tables.effects
    requires n.tables.effects[PreparationKey(ticket)].PrepareCheckpoint?
    requires n.tables.effects[PreparationKey(ticket)].input.source == n.machine.seal
    requires ticket.source == n.machine.seal.generation < U64_MAX && n.machine.seal.replay.Cut() < ticket.cut
    ensures Onward(steps, later, w') && w'.st == w.st && w'.procs == w.procs[pid := Running(n')]
    ensures w'.rq == w.rq.(seals := w.rq.seals + {SealRequest(pid, prepared.successor, ForCheckpoint)})
    ensures n'.machine == n.machine.(checkpoint := Some(Publishing(ticket, prepared)))
    ensures DescribesCheckpoint(ticket, prepared) && prepared.source == n.machine.seal
    ensures PublicationKey(ticket) in n'.tables.effects
    ensures n'.tables.effects[PublicationKey(ticket)] == PublishAuthority(ticket, prepared.successor)
  {
    var input := n.tables.effects[PreparationKey(ticket)].input;
    prepared := SomePreparation(ticket, n.machine.seal, input.base, input.snapshot);
    PreparedPublishes(n.machine, ticket, prepared);
    hide Reaches, Handle, DescribesCheckpoint, PickUp, PreparesTables;
    var event, publish := CheckpointPrepared(ticket,
                                             Prepared(prepared)), Effect(PublishAuthority(ticket, prepared.successor));
    OutputsUnroll(w.rq, pid, PickUp(n.tables, event), publish, publish);
    later, w' := TakeTurn(steps, w, pid, n, event);
    n' := Node(n.machine.(checkpoint := Some(Publishing(ticket, prepared))),
               Execute(PickUp(n.tables, event), [publish]));
  }

  lemma LandCheckpoint(steps: seq<WorldStep>, w: World, r: SealRequest) returns (later: seq<WorldStep>, w': World)
    requires Reaches(steps, w) && r in w.rq.seals && r.seal.generation == Head(w.st) + 1
    ensures Onward(steps, later, w')
    ensures w' == w.(st := Sealed(w.st, r.pid, r.seal), rq := w.rq.(seals := w.rq.seals - {r}))
    ensures AuthoredBy(w'.st, r.seal.generation, r.pid)
  {
    ReachedNumbers(steps, w);
    assert r.seal.generation !in w.st.seals;
    hide Reaches, Numbered;
    later, w' := Extend(steps, w, LandSeal(r));
  }

  lemma BeginCollection(steps: seq<WorldStep>, w: World, pid: nat, n: Node, ticket: CheckpointTicket,
                        prepared: PreparedCheckpoint)
    returns (later: seq<WorldStep>, w': World)
    requires Reaches(steps, w) && pid in w.procs && w.procs[pid] == Running(n)
    requires n.machine.started && n.machine.ingressOpen && n.machine.pending == EMPTY_BARRIER
    requires n.machine.collector.None?
    requires n.machine.checkpoint == Some(Publishing(ticket, prepared))
    requires n.machine.durableBatch == prepared.successor.replay.Cut()
    requires PublicationKey(ticket) in n.tables.effects
    requires n.tables.effects[PublicationKey(ticket)] == PublishAuthority(ticket, prepared.successor)
    requires AuthoredBy(w.st, prepared.successor.generation, pid)
    ensures Onward(steps, later, w') && w'.st == w.st && Others(w', pid).0 == Others(w, pid).0
    ensures w'.rq == w.rq.(collectors := w.rq.collectors[prepared.successor.generation := prepared.source.replay.Cut()])
  {
    AuthoredCollects(n.machine, ticket, prepared);
    hide Reaches, Handle, PickUp, AuthoredBy;
    var event := SealPublished(ticket, Ok(Authored));
    var view := Action(PublishView(n.machine.durable.forest));
    var collect := Effect(Collect(CollectionInput(n.machine.durableBatch, prepared.source, prepared.successor)));
    OutputsUnroll(w.rq, pid, PickUp(n.tables, event), view, collect);
    later, w' := TakeTurn(steps, w, pid, n, event);
    assert w'.procs - {pid} == w.procs - {pid};
  }

  lemma RecoveredSeal(steps: seq<WorldStep>, w: World, pid: nat, recovery: WriterRecovery)
    requires Reaches(steps, w) && RecoveryOk(recovery) && recovery.claim == Head(w.st)
    requires pid in w.procs && w.procs[pid] == Running(Spawned(recovery, 0, 1))
    ensures recovery.seal.replay.Cut() == NewestCut(w.st)
  {
    hide Reaches, StoreOk, LogRoomy, RequestsOk, ProcsOk, AcksOk, BootOk, NodeInv, Footing, CheckpointTrue, Carries;
    ReachedInv(steps, w);
    ProcIsOk(w, pid);
  }

  /** A writer that takes over far behind its cut checkpoints at once and starts
      to collect from the old cut. */
  lemma Checkpoint(steps: seq<WorldStep>, w: World, pid: nat, recovery: WriterRecovery)
    returns (later: seq<WorldStep>, w': World)
    requires Reaches(steps, w) && RecoveryOk(recovery) && recovery.claim == Head(w.st) < U64_MAX
    requires pid in w.procs && w.procs[pid] == Running(Spawned(recovery, 0, 1))
    requires recovery.durableBatch - recovery.seal.replay.Cut() >= WAL_SUFFIX_CHECKPOINT_SPAN_TRIGGER
    ensures Onward(steps, later, w') && w'.st.log == w.st.log && w'.st.wal == w.st.wal
    ensures Others(w', pid).0 == Others(w, pid).0
    ensures var k := Head(w.st) + 1;
      && k in w'.st.seals && w'.st.seals[k].replay.Cut() == recovery.durableBatch
      && w'.rq.wals == w.rq.wals && w'.rq.deletes == w.rq.deletes
      && w'.rq.collectors == w.rq.collectors[k := recovery.seal.replay.Cut()]
  {
    var n := Spawned(recovery, 0, 1);
    var ticket, prepared := NextTicket(n.machine), PreparedCheckpoint(recovery.seal, recovery.seal, recovery.durable);
    hide Reaches, Spawned, Others;
    later, w', n := BeginCheckpoint(steps, w, pid, n);
    assert Others(w', pid) == Others(w, pid) by { OneMoved(w, w', pid); }
    later, w', n, prepared := PublishCheckpoint(later, w', pid, n, ticket);
    assert Others(w', pid).0 == Others(w, pid).0 by { OneMoved(w, w', pid); }
    later, w' := LandCheckpoint(later, w', SealRequest(pid, prepared.successor, ForCheckpoint));
    hide Head, AuthoredBy, DescribesCheckpoint;
    later, w' := BeginCollection(later, w', pid, n, ticket, prepared);
  }

  lemma OneMoved(w: World, w': World, pid: nat)
    requires w'.procs.Keys == w.procs.Keys + {pid} && forall p :: p in w.procs && p != pid ==> w'.procs[p] == w.procs[p]
    ensures Others(w', pid).0 == Others(w, pid).0
    ensures w'.rq == w.rq ==> Others(w', pid) == Others(w, pid)
  {
    assert w'.procs - {pid} == w.procs - {pid};
  }

  // ------------------------------------------------------------ a late FENCE

  /** The collector walks over a FENCE, deletes the RUN behind it, and a FENCE
      that was long on its way settles there. */
  lemma Refill(steps: seq<WorldStep>, w: World, k: nat, late: WalObject) returns (later: seq<WorldStep>, w': World)
    requires Reaches(steps, w) && k in w.rq.collectors && w.rq.collectors[k] == 0
    requires k in w.st.seals && w.st.seals[k].replay.Cut() >= 2 && |w.st.log| >= 2
    requires 1 in w.st.wal && w.st.wal[1].body.Fence? && 2 in w.st.wal && w.st.wal[2].body.Run?
    requires late in w.rq.wals && late.batch == 2
    ensures Onward(steps, later, w') && w'.procs == w.procs && w'.st == w.st.(wal := w.st.wal[2 := late])
  {
    hide Reaches;
    later, w' := Extend(steps, w, Visit(k));
    later, w' := Extend(later, w', Visit(k));
    later, w' := Extend(later, w', LandDelete(2));
    later, w' := Extend(later, w', LandWal(late));
    assert (w.st.wal - {2})[2 := late] == w.st.wal[2 := late];
  }

  /** No checkpoint and no collection has happened yet. */
  predicate Uncollected(w: World) { NewestCut(w.st) == 0 && w.rq.deletes == {} && w.rq.collectors == map[] }

  predicate IsFence(log: seq<WalObject>, b: nat, owner: nat) {
    1 <= b <= |log| && log[b - 1].body.Fence? && log[b - 1].owner == owner
  }

  predicate IsRun(log: seq<WalObject>, b: nat, owner: nat) {
    1 <= b <= |log| && log[b - 1].body.Run? && log[b - 1].owner == owner
  }

  /** Process 0 founds the partition and becomes its first writer. */
  lemma FirstWriter() returns (steps: seq<WorldStep>, w: World, recovery: WriterRecovery)
    ensures Reaches(steps, w) && RecoveryOk(recovery) && Uncollected(w) && Head(w.st) == 2 == recovery.claim
    ensures |w.st.log| == 1 == recovery.durableBatch && IsFence(w.st.log, 1, 2) && recovery.durable == EMPTY
    ensures recovery.seal.replay.Cut() == 0
    ensures 0 in w.procs && w.procs[0] == Running(Spawned(recovery, 0, 1))
  {
    assert Reaches([], EMPTY_WORLD);
    assert NewestCut(EMPTY_WORLD.st) == 0 && Head(EMPTY_WORLD.st) == 0;
    hide Reaches, NewestCut, Head, Spawned;
    steps, w, recovery := TakeoverCanComplete([], EMPTY_WORLD, 0, 0, 1);
    assert w.st.log[..0] == [];
    RecoveredSeal(steps, w, 0, recovery);
  }

  lemma StartIsQuiet(s: WriterState)
    requires !s.started && s.ingressOpen && s.pending == EMPTY_BARRIER && !CheckpointDue(s)
    ensures Faithful(s, Started) && Handle(s, 0, Started) == Stepped(s.(started := true), [], None)
  {
  }

  lemma BeginResting(steps: seq<WorldStep>, w: World, pid: nat, recovery: WriterRecovery)
    returns (later: seq<WorldStep>, w': World, n: Node)
    requires Reaches(steps, w) && RecoveryOk(recovery) && pid in w.procs
    requires w.procs[pid] == Running(Spawned(recovery, 0, 1))
    requires recovery.durableBatch + 1 - recovery.seal.replay.Cut() < WAL_SUFFIX_CHECKPOINT_SPAN_TRIGGER
    requires recovery.durableBatch + 2 < U64_MAX
    ensures Onward(steps, later, w') && w'.st == w.st && w'.rq == w.rq && w'.procs == w.procs[pid := Running(n)]
    ensures n.machine == FromRecovery(recovery, 0, 1).(started := true) && Resting(n.machine)
  {
    var start := Spawned(recovery, 0, 1);
    StartIsQuiet(start.machine);
    hide Reaches, Handle, PickUp, FromRecovery;
    var view := Action(PublishView(recovery.durable));
    OutputsUnroll(w.rq, pid, PickUp(start.tables, Started), view, view);
    later, w' := TakeTurn(steps, w, pid, start, Started);
    n := Node(start.machine.(started := true), PickUp(start.tables, Started));
    assert Resting(n.machine) by { RestsAfterRecovery(recovery); }
  }

  lemma RestsAfterRecovery(recovery: WriterRecovery)
    requires RecoveryOk(recovery) && recovery.durableBatch + 2 < U64_MAX
    requires recovery.durableBatch + 1 - recovery.seal.replay.Cut() < WAL_SUFFIX_CHECKPOINT_SPAN_TRIGGER
    ensures Resting(FromRecovery(recovery, 0, 1).(started := true))
  {
  }

  /** The first writer makes two streams durable. */
  lemma TwoRuns(steps: seq<WorldStep>, w: World, recovery: WriterRecovery) returns (later: seq<WorldStep>, w': World)
    requires Reaches(steps, w) && RecoveryOk(recovery) && 0 in w.procs && w.procs[0] == Running(Spawned(recovery, 0, 1))
    requires recovery.durableBatch == |w.st.log| == 1 && recovery.seal.replay.Cut() == 0 && recovery.durable == EMPTY
    ensures Onward(steps, later, w') && |w'.st.log| == 3 && w.st.log <= w'.st.log && w'.st.seals == w.st.seals
    ensures IsRun(w'.st.log, 2, recovery.claim) && IsRun(w'.st.log, 3, recovery.claim)
    ensures w'.rq.deletes == w.rq.deletes && w'.rq.collectors == w.rq.collectors && 0 in w'.procs
    ensures forall e :: e in w.rq.wals && e.body.Fence? ==> e in w'.rq.wals
  {
    hide Reaches, Spawned, Handle;
    var n, next;
    later, w', n := BeginResting(steps, w, 0, recovery);
    later, w', next := WriteOne(later, w', 0, n, "a");
    WrittenRests(n.machine, "a", "b");
    hide Resting, Written;
    later, w', next := WriteOne(later, w', 0, next, "b");
  }

  lemma WrittenRests(s: WriterState, path: StreamPath, other: StreamPath)
    requires Resting(s) && s.nextBatch + 2 < U64_MAX && s.admitted.forest == EMPTY && path != other
    requires s.nextBatch + 1 - s.seal.replay.Cut() < WAL_SUFFIX_CHECKPOINT_SPAN_TRIGGER
    ensures var t := Written(s, path);
      && Resting(t) && other !in t.admitted.forest.directory && |t.admitted.forest.directory| == 1
      && t.durableBatch == s.nextBatch && t.claim == s.claim && t.nextBatch == s.nextBatch + 1
  {
    assert Written(s, path).admitted.forest.directory.Keys == {path};
    assert |Written(s, path).admitted.forest.directory.Keys| == 1;
  }

  lemma OtherStays(w: World, w': World, pid: nat, other: nat)
    requires Others(w', pid).0 == Others(w, pid).0 && other != pid && other in w.procs
    ensures other in w'.procs && w'.procs[other] == w.procs[other]
  {
    assert other in w.procs - {pid} && other in w'.procs - {pid};
    assert (w.procs - {pid})[other] == (w'.procs - {pid})[other];
  }

  lemma ReplayFromGenesis(steps: seq<WorldStep>, w: World, pid: nat, replay: Replay)
    requires Reaches(steps, w) && At(w, pid, Replaying(replay)) && replay.loaded.claim == Head(w.st)
    requires NewestCut(w.st) == 0
    ensures replay.loaded.seal.replay == Genesis
  {
    hide Reaches, StoreOk, LogRoomy, RequestsOk, ProcsOk, AcksOk, RunningOk, Standing, ReplayExact, StateAt, Numbered,
      CutsRise, LogOk, WalOk, NoRunOf, SupersededByNewer, SealHolds;
    ReachedInv(steps, w);
    ProcIsOk(w, pid);
    StoreParts(w.st);
    assert SealOk(w.st.log, w.st.seals[Head(w.st)]);
  }

  /** A bootstrap under claim 3 asks for its FENCE at 2, the first writer's RUNs
      land at 2 and 3 before it, and a bootstrap under claim 4 stands at 4 about
      to replay from the start. */
  ghost predicate Scene(w: World, late: WalObject, pid: nat, loaded: Loaded) {
    && |w.st.log| >= 4 && IsFence(w.st.log, 1, 2) && IsRun(w.st.log, 2, 2) && IsRun(w.st.log, 3, 2)
    && late in w.rq.wals && late.batch == 2 && late.body.Fence? && late.owner == 3
    && At(w, pid, Replaying(Replay(loaded, 1, 4, None)))
  }

  lemma SetScene() returns (steps: seq<WorldStep>, w: World, late: WalObject, pid: nat, loaded: Loaded)
    ensures Reaches(steps, w) && Scene(w, late, pid, loaded) && Uncollected(w) && |w.st.log| == 4 && Head(w.st) == 4
  {
    var recovery;
    steps, w, recovery := FirstWriter();
    steps, w, late := AskLate(steps, w, recovery);
    hide Reaches, NewestCut, Others, Spawned;
    var before := w;
    steps, w := TwoRuns(steps, w, recovery);
    assert NewestCut(w.st) == NewestCut(before.st) && Head(w.st) == 3 by { SameSeals(before.st, w.st); }
    pid := NewPid(w.procs);
    before := w;
    steps, w, loaded := StartReplay(steps, w, pid);
    OthersAgree(before, w, pid);
    ReplayFromGenesis(steps, w, pid, FirstReplay(loaded, 4));
  }

  lemma SameSeals(st: Store, next: Store)
    requires next.seals == st.seals
    ensures NewestCut(next) == NewestCut(st) && Head(next) == Head(st)
  {
  }

  lemma OthersAgree(w: World, w': World, pid: nat)
    requires Others(w', pid) == Others(w, pid)
    ensures w'.rq.deletes == w.rq.deletes && w'.rq.collectors == w.rq.collectors
  {
  }

  lemma AskLate(steps: seq<WorldStep>, w: World, recovery: WriterRecovery)
    returns (later: seq<WorldStep>, w': World, late: WalObject)
    requires Reaches(steps, w) && Uncollected(w) && |w.st.log| == 1 && Head(w.st) == 2
    requires RecoveryOk(recovery) && 0 in w.procs && w.procs[0] == Running(Spawned(recovery, 0, 1))
    ensures Onward(steps, later, w') && Uncollected(w') && w'.st.log == w.st.log && Head(w'.st) == 3
    ensures 0 in w'.procs && w'.procs[0] == Running(Spawned(recovery, 0, 1))
    ensures late in w'.rq.wals && late.batch == 2 && late.body.Fence? && late.owner == 3
  {
    hide Reaches, NewestCut, Others, Head, Spawned;
    var pid := NewPid(w.procs);
    var loaded;
    later, w', loaded := RequestFence(steps, w, pid);
    late := FenceObject(loaded, 2);
    OtherStays(w, w', pid, 0);
    OthersAgree(w, w', pid);
  }

  lemma AllIntact(steps: seq<WorldStep>, w: World, b: nat)
    requires Reaches(steps, w) && w.rq.collectors == map[] && 1 <= b <= |w.st.log|
    ensures b in w.st.wal && w.st.wal[b] == w.st.log[b - 1]
  {
    hide Reaches, StoreOk, LogRoomy, ProcsOk, AcksOk, SealRequestOk, WalRequestOk, OneRunEach, NewestCut;
    ReachedInv(steps, w);
    RequestParts(w.st, w.rq);
    assert !Intact(w.st, b) ==> exists k :: Passed(w.st, w.rq, k, b);
  }

  /** Takeovers go by until the last of them is due a checkpoint. */
  lemma GoBy(steps: seq<WorldStep>, w: World, late: WalObject, pid: nat, loaded: Loaded)
    returns (later: seq<WorldStep>, w': World, last: nat, recovery: WriterRecovery)
    requires Reaches(steps, w) && Scene(w, late, pid, loaded) && Uncollected(w) && |w.st.log| == 4 && Head(w.st) == 4
    ensures Onward(steps, later, w') && Scene(w', late, pid, loaded) && Uncollected(w') && last != pid
    ensures RecoveryOk(recovery) && recovery.claim == Head(w'.st) < U64_MAX
    ensures recovery.durableBatch == |w'.st.log| == WAL_SUFFIX_CHECKPOINT_SPAN_TRIGGER
    ensures recovery.seal.replay.Cut() == 0
    ensures last in w'.procs && w'.procs[last] == Running(Spawned(recovery, 0, 1))
  {
    hide Reaches, NewestCut, Head, Others, Spawned, FoldLog;
    later, w' := CrashingTakeovers(steps, w, WAL_SUFFIX_CHECKPOINT_SPAN_TRIGGER - 5);
    last := NewPid(w'.procs);
    var before := w';
    later, w', recovery := TakeoverCanComplete(later, w', last, 0, 1);
    OtherStays(before, w', last, pid);
    OthersAgree(before, w', last);
    RecoveredSeal(later, w', last, recovery);
  }

  // ------------------------------------------------------------ the exhibits

  /** A collected coordinate is occupied again: the RUN of owner 2 that was first
      at coordinate 2 is gone, a FENCE of owner 3 stands there, and above it a
      RUN of owner 2 is still found. */
  lemma LateFenceSettles() returns (steps: seq<WorldStep>, w: World, pid: nat, loaded: Loaded)
    ensures Reaches(steps, w) && |w.st.log| >= 4
    ensures Lookup(w.st.wal, 1) == Some(w.st.log[0]) && IsFence(w.st.log, 1, 2)
    ensures 2 in w.st.wal && w.st.wal[2] != w.st.log[1] && IsRun(w.st.log, 2, 2)
    ensures w.st.wal[2].body.Fence? && w.st.wal[2].owner == 3
    ensures Lookup(w.st.wal, 3) == Some(w.st.log[2]) && IsRun(w.st.log, 3, 2)
    ensures At(w, pid, Replaying(Replay(loaded, 1, 4, None)))
    ensures forall k :: k in w.st.seals ==> Constructible(w.st.seals[k])
  {
    var late, last, recovery;
    steps, w, late, pid, loaded := SetScene();
    hide Reaches, Head, NewestCut, Others, Spawned, Constructible;
    steps, w, last, recovery := GoBy(steps, w, late, pid, loaded);
    AllIntact(steps, w, 1);
    AllIntact(steps, w, 2);
    AllIntact(steps, w, 3);
    var before := w;
    steps, w := Checkpoint(steps, w, last, recovery);
    OtherStays(before, w, last, pid);
    steps, w := Refill(steps, w, Head(before.st) + 1, late);
    SealsAreConstructible(steps, w);
  }

  /** A superseded bootstrap that replays over the late FENCE meets a RUN of an
      owner that is no longer in force. */
  lemma OwnerAnomalyHappens() returns (steps: seq<WorldStep>, w: World, pid: nat, replay: Replay)
    ensures Reaches(steps, w) && At(w, pid, Replaying(replay))
    ensures var entry := Lookup(w.st.wal, replay.next);
      && StoreAnswers(w.st, pid, Replaying(replay), WalRead(entry))
      && entry.Some? && entry.value.body.Run? && replay.owner.Some? && entry.value.owner != replay.owner.value
      && HandleReplayRead(replay, entry) == RefreshAnomaly(replay.loaded.claim)
  {
    var loaded;
    steps, w, pid, loaded := LateFenceSettles();
    hide Reaches, FoldFacts;
    var st := w.st;
    replay := Replay(loaded, 1, 4, None);
    steps, w := WorldProgress.Answer(steps, w, pid, Replaying(replay), WalRead(Some(st.wal[1])));
    replay := Replay(loaded, 2, 4, Some(2));
    assert At(w, pid, Replaying(replay));
    steps, w := WorldProgress.Answer(steps, w, pid, Replaying(replay), WalRead(Some(st.wal[2])));
    replay := Replay(loaded, 3, 4, Some(3));
    assert At(w, pid, Replaying(replay));
  }
}
