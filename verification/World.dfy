/** One partition shared by any number of processes over one object store whose
    requests land whenever the store gets to them. */
module Worlds {
  import opened Common
  import opened Logs
  import opened Seals
  import opened Merge
  import opened Checkpoints
  import opened WriterSpec
  import opened BootstrapSpec
  import opened Nodes
  import opened NodeTheorems
  import opened Stores

  datatype SealPurpose = ForGenesis | ForClaim | ForCheckpoint

  datatype SealRequest = SealRequest(pid: nat, seal: Seal, purpose: SealPurpose)

  /** Requests sent and not yet taken up by the store, whatever has become of
      the sender, and how far the collector of each generation has walked. */
  datatype Requests = Requests(
    seals: set<SealRequest>,
    wals: set<WalObject>,
    deletes: set<nat>,
    collectors: map<nat, nat>)

  datatype Proc = Booting(state: BootstrapState) | Running(node: Node) | Dead

  /** `acks` is the history of every reply any writer has sent. */
  datatype World = World(st: Store, rq: Requests, procs: map<nat, Proc>, acks: seq<Completion>)

  const EMPTY_WORLD := World(EMPTY_STORE, Requests({}, {}, {}, map[]), map[], [])

  datatype WorldStep =
    | Spawn(pid: nat)
    | Crash(pid: nat)
    | BootTurn(pid: nat, answer: BootstrapEvent, flushIntervalMin: nat, flushBufferBytes: nat)
    | WriterTurn(pid: nat, now: nat, event: WriterEvent)
    | LandSeal(request: SealRequest)
    | LandWal(entry: WalObject)
    | LandDelete(batch: nat)
    | Visit(generation: nat)

  // --------------------------------------------------- what the store answers

  /** The key a one-key ascending listing of reversed ordinals finds. */
  ghost predicate IsNewest<T>(objects: map<nat, T>, newest: Option<nat>) {
    match newest
    case None => objects == map[]
    case Some(k) => k in objects && forall j :: j in objects ==> j <= k
  }

  predicate AuthoredBy(st: Store, generation: nat, pid: nat) {
    generation in st.authors && st.authors[generation] == pid
  }

  /** Only the request that created the Seal is told so. */
  predicate PublicationTrue(st: Store, pid: nat, generation: nat, publication: SealPublication) {
    match publication
    case Authored => AuthoredBy(st, generation, pid)
    case NoAuthority => generation in st.authors && st.authors[generation] != pid
    case Unresolved => true
  }

  predicate WasCreated(st: Store, entry: WalObject) {
    || (entry.batch in st.wal && st.wal[entry.batch] == entry)
    || (1 <= entry.batch <= |st.log| && st.log[entry.batch - 1] == entry)
  }

  predicate EstablishmentTrue(st: Store, entry: WalObject, establishment: WalEstablishment) {
    match establishment
    case Durable => WasCreated(st, entry)
    case Occupied => entry.batch in st.wal && st.wal[entry.batch] != entry
    case UnresolvedAbsent => entry.batch !in st.wal
  }

  /** What an honest store may tell a bootstrap in this state. Only a table read
      can report a contradiction, because a table may have been collected. */
  ghost predicate StoreAnswers(st: Store, pid: nat, state: BootstrapState, event: BootstrapEvent) {
    match event
    case BootstrapStarted(_) => state.Initial?
    case HeadObserved(head) =>
      (state.DiscoveringHead? || state.RefreshingAnomaly? || state.RefreshingFinal?) && IsNewest(st.seals, head)
    case GenesisEstablished(genesis) =>
      && state.EstablishingGenesis?
      && (genesis.Established? ==>
           Lookup(st.seals, GENESIS_GENERATION) == Some(GenesisSeal(state.genesisPartition)))
      && (genesis.LostRace? ==> GENESIS_GENERATION in st.seals)
    case SealRead(seal) => state.ReadingSeal? && seal == Lookup(st.seals, state.generation)
    case ClaimPublished(publication) =>
      state.PublishingClaim? && PublicationTrue(st, pid, state.candidate.generation, publication)
    case TableRead(table) => state.ReadingTable? && table == state.source.table
    case WalTailObserved(tail) => state.ObservingWalTail? && IsNewest(st.wal, tail)
    case WalRead(entry) =>
      || (state.ReadingWalTail? && entry == Lookup(st.wal, state.listedTail))
      || (state.Replaying? && entry == Lookup(st.wal, state.replay.next))
    case FenceEstablished(establishment) =>
      state.EstablishingFence? && EstablishmentTrue(st, FenceObject(state.loaded, state.fence), establishment)
    case StoreFailed(error) =>
      !state.Initial? && !state.Finished? && (error.StoreContradiction? ==> state.ReadingTable?)
  }

  /** What an honest store and a correct preparation may tell a live writer. */
  ghost predicate WriterAnswers(st: Store, pid: nat, n: Node, event: WriterEvent)
    requires Deliverable(n, event)
  {
    match event
    case WalEstablished(batch, wal) =>
      var effect := n.tables.effects[WalKey(batch)];
      && wal != Err(StoreContradiction)
      && (wal == Ok(Durable) ==> effect.EstablishWal? && WasCreated(st, effect.run))
    case CheckpointPrepared(ticket, outcome) =>
      outcome.Prepared? ==>
        var effect := n.tables.effects[PreparationKey(ticket)];
        && effect.PrepareCheckpoint?
        && PreparesTables(effect.input.source, effect.input.base, effect.input.snapshot, outcome.prepared.successor,
                          ticket.attempt)
    case SealPublished(ticket, publication) =>
      var effect := n.tables.effects[PublicationKey(ticket)];
      && publication != Err(StoreContradiction)
      && (publication.Ok? ==>
           effect.PublishAuthority? && PublicationTrue(st, pid, effect.candidate.generation, publication.value))
    case _ => true
  }

  ghost predicate Enabled(w: World, step: WorldStep) {
    match step
    case Spawn(pid) => pid !in w.procs
    case Crash(pid) => pid in w.procs
    case BootTurn(pid, event, _, buffer) =>
      && pid in w.procs && w.procs[pid].Booting? && BufferOk(buffer)
      && StoreAnswers(w.st, pid, w.procs[pid].state, event)
    case WriterTurn(pid, _, event) =>
      && pid in w.procs && w.procs[pid].Running?
      && Deliverable(w.procs[pid].node, event) && WriterAnswers(w.st, pid, w.procs[pid].node, event)
    case LandSeal(request) => request in w.rq.seals
    case LandWal(entry) => entry in w.rq.wals
    case LandDelete(batch) => batch in w.rq.deletes
    case Visit(generation) =>
      && generation in w.rq.collectors && generation in w.st.seals
      && w.rq.collectors[generation] < w.st.seals[generation].replay.Cut()
  }

  // ------------------------------------------------------------------ the step

  function IssueBoot(rq: Requests, pid: nat, step: BootstrapStep): Requests {
    match step
    case Await(EstablishGenesis(genesis)) => rq.(seals := rq.seals + {SealRequest(pid, genesis, ForGenesis)})
    case Await(PublishClaim(candidate)) => rq.(seals := rq.seals + {SealRequest(pid, candidate, ForClaim)})
    case Await(EstablishFence(fence)) => rq.(wals := rq.wals + {fence})
    case _ => rq
  }

  function IssueOne(rq: Requests, pid: nat, output: WriterOutput): Requests {
    match output
    case Effect(EstablishWal(run)) => rq.(wals := rq.wals + {run})
    case Effect(PublishAuthority(_, candidate)) =>
      rq.(seals := rq.seals + {SealRequest(pid, candidate, ForCheckpoint)})
    case Effect(Collect(collection)) =>
      rq.(collectors := rq.collectors[collection.successor.generation := collection.source.replay.Cut()])
    case _ => rq
  }

  function Issue(rq: Requests, pid: nat, outputs: seq<WriterOutput>): Requests
    decreases |outputs|
  {
    if outputs == [] then rq else Issue(IssueOne(rq, pid, outputs[0]), pid, outputs[1..])
  }

  /** No panic lies behind this step: the event is one the machine accepts and
      a recovery is one the writer accepts. */
  predicate Sound(w: World, step: WorldStep) {
    match step
    case BootTurn(pid, event, _, buffer) =>
      && pid in w.procs && w.procs[pid].Booting? && Answers(w.procs[pid].state, event)
      && (HandleBootstrap(w.procs[pid].state, event).step.Recovered? ==>
           RecoveryOk(HandleBootstrap(w.procs[pid].state, event).step.recovery) && BufferOk(buffer))
    case WriterTurn(pid, _, event) =>
      && pid in w.procs && w.procs[pid].Running? && Faithful(w.procs[pid].node.machine, event)
    case _ => true
  }

  function Booted(w: World, pid: nat, state: BootstrapState, event: BootstrapEvent, interval: nat, buffer: nat): World
    requires Answers(state, event)
    requires HandleBootstrap(state, event).step.Recovered? ==>
      RecoveryOk(HandleBootstrap(state, event).step.recovery) && BufferOk(buffer)
  {
    var next := HandleBootstrap(state, event);
    var proc := match next.step
      case Await(_) => Booting(next.state)
      case Recovered(recovery) => Running(Spawned(recovery, interval, buffer))
      case Exited(_) => Dead;
    w.(rq := IssueBoot(w.rq, pid, next.step), procs := w.procs[pid := proc])
  }

  function Turned(w: World, pid: nat, n: Node, now: nat, event: WriterEvent): World
    requires Faithful(n.machine, event)
  {
    var outputs := Handle(n.machine, now, event).outputs;
    var (after, exit) := Turn(n, now, event);
    w.(rq := Issue(w.rq, pid, outputs),
       procs := w.procs[pid := if exit.Some? then Dead else Running(after)],
       acks := w.acks + Sent(outputs))
  }

  /** A create-if-absent of one WAL object reaching the store. */
  function Landed(st: Store, entry: WalObject): Store {
    if entry.batch in st.wal then st
    else if entry.batch == |st.log| + 1 then Appended(st, entry)
    else Refilled(st, entry)
  }

  /** The collector reads its next coordinate and deletes it if it is a RUN. */
  function Visited(st: Store, rq: Requests, generation: nat): Requests
    requires generation in rq.collectors
  {
    var batch := rq.collectors[generation] + 1;
    rq.(collectors := rq.collectors[generation := batch],
        deletes := if batch in st.wal && st.wal[batch].body.Run? then rq.deletes + {batch} else rq.deletes)
  }

  function Step(w: World, step: WorldStep): World
    requires Sound(w, step)
    requires step.Visit? ==> step.generation in w.rq.collectors
  {
    match step
    case Spawn(pid) => w.(procs := w.procs[pid := Booting(Initial)])
    case Crash(pid) => w.(procs := w.procs[pid := Dead])
    case BootTurn(pid, event, interval, buffer) => Booted(w, pid, w.procs[pid].state, event, interval, buffer)
    case WriterTurn(pid, now, event) => Turned(w, pid, w.procs[pid].node, now, event)
    case LandSeal(request) =>
      w.(st := if request.seal.generation in w.st.seals then w.st else Sealed(w.st, request.pid, request.seal),
         rq := w.rq.(seals := w.rq.seals - {request}))
    case LandWal(entry) => w.(st := Landed(w.st, entry), rq := w.rq.(wals := w.rq.wals - {entry}))
    case LandDelete(batch) => w.(st := Removed(w.st, batch), rq := w.rq.(deletes := w.rq.deletes - {batch}))
    case Visit(generation) => w.(rq := Visited(w.st, w.rq, generation))
  }
}
