/** What every step of the shared world keeps. */
module WorldInvariant {
  import opened Common
  import opened Domain
  import opened Forests
  import opened Logs
  import opened Seals
  import opened Merge
  import opened WriterSpec
  import opened WriterInvariant
  import opened BootstrapSpec
  import opened Nodes
  import opened Stores
  import opened Worlds

  function Partition(st: Store): nat {
    if GENESIS_GENERATION in st.seals then st.seals[GENESIS_GENERATION].partition else 0
  }

  // -------------------------------------------------------- requests on the way

  /** A Seal request: the canonical genesis, the exact claim successor of a
      published Seal, or a checkpoint of a Seal its sender authored. */
  ghost predicate SealRequestOk(st: Store, r: SealRequest) {
    var g := r.seal.generation;
    match r.purpose
    case ForGenesis => r.seal == GenesisSeal(r.seal.partition)
    case ForClaim => g >= 2 && g - 1 in st.seals && ClaimSuccessor(st.seals[g - 1]) == Some(r.seal)
    case ForCheckpoint =>
      && g >= 2 && g - 1 in st.seals
      && r.seal.partition == st.seals[g - 1].partition
      && st.seals[g - 1].replay.Cut() < r.seal.replay.Cut() && r.seal.replay.owner >= 2
      && SealOk(st.log, r.seal)
      && (forall j: nat :: r.seal.replay.owner <= j < g ==> AuthoredBy(st, j, r.pid))
  }

  /** Where a claim may try its FENCE: after its cut, right behind a coordinate
      of an older owner. */
  predicate FenceSpot(st: Store, claim: nat, fence: nat) {
    && claim in st.seals
    && st.seals[claim].replay.Cut() < fence <= |st.log| + 1
    && OwnerAfter(st.log[..fence - 1]) < claim
  }

  /** The owner of a FENCE is a claim, the first generation its process authored
      after genesis, and a later Seal whose cut reaches the FENCE replays under
      that owner or a later one. */
  ghost predicate FenceRank(st: Store, fence: WalObject) {
    && (forall pid: nat, j: nat :: AuthoredBy(st, fence.owner, pid) && AuthoredBy(st, j, pid) && j >= 2 ==>
         fence.owner <= j)
    && (forall k :: k in st.seals && k > fence.owner && st.seals[k].replay.Cut() >= fence.batch ==>
         st.seals[k].replay.Through? && st.seals[k].replay.owner >= fence.owner)
  }

  predicate RoomBehind(st: Store, entry: WalObject) {
    entry.body.Run? ==> entry.batch + 1 <= NewestCut(st) + WAL_SUFFIX_COORDINATES_MAX
  }

  /** A RUN follows its owner's last object, folds there, and can land only
      while no FENCE has taken its coordinate. */
  predicate RunSpot(log: seq<WalObject>, entry: WalObject)
    requires entry.body.Run?
  {
    && 2 <= entry.batch <= |log| + 1
    && log[entry.batch - 2].owner == entry.owner
    && entry.body.facts != []
    && FoldFacts(StateAt(log, entry.batch - 1), entry.batch, entry.body.facts).Some?
    && (entry.batch <= |log| ==> log[entry.batch - 1].body.Fence?)
  }

  ghost predicate WalRequestOk(st: Store, entry: WalObject) {
    && Belongs(st, entry) && RoomBehind(st, entry)
    && (entry.body.Fence? ==> FenceSpot(st, entry.owner, entry.batch) && FenceRank(st, entry))
    && (entry.body.Run? ==> RunSpot(st.log, entry))
  }

  predicate OneRunEach(rq: Requests) {
    forall e, f :: e in rq.wals && f in rq.wals && e.body.Run? && f.body.Run? && e.owner == f.owner ==> e == f
  }

  /** The collector of this generation has passed this coordinate. */
  predicate Passed(st: Store, rq: Requests, k: nat, b: nat) {
    && k in rq.collectors && k >= 2 && k in st.seals && k - 1 in st.seals
    && st.seals[k - 1].replay.Cut() < b <= rq.collectors[k] <= st.seals[k].replay.Cut()
  }

  predicate Deletable(st: Store, b: nat) {
    Intact(st, b) && st.log[b - 1].body.Run? && b <= NewestCut(st)
  }

  ghost predicate CollectorsOk(st: Store, rq: Requests) {
    && (forall k :: k in rq.collectors ==>
         && k >= 2 && k in st.seals && k - 1 in st.seals
         && st.seals[k - 1].replay.Cut() <= rq.collectors[k] <= st.seals[k].replay.Cut())
    && (forall b :: 1 <= b <= |st.log| && (!Intact(st, b) || b in rq.deletes) ==> exists k :: Passed(st, rq, k, b))
    && (forall b :: b in rq.deletes ==> Deletable(st, b))
  }

  ghost predicate RequestsOk(st: Store, rq: Requests) {
    && (forall r :: r in rq.seals ==> SealRequestOk(st, r))
    && (forall e :: e in rq.wals ==> WalRequestOk(st, e))
    && OneRunEach(rq)
    && CollectorsOk(st, rq)
  }

  /** Every RUN of the log leaves its successor to a takeover, measured from
      the newest cut. */
  ghost predicate LogRoomy(st: Store) { forall i :: 0 <= i < |st.log| ==> RoomBehind(st, st.log[i]) }

  // ------------------------------------------------------- a claimed bootstrap

  /** Facts about a process that holds the claim `g` and has not written yet. */
  ghost predicate Claimed(st: Store, rq: Requests, pid: nat, g: nat, seal: Seal) {
    && g >= 2 && g in st.seals && st.seals[g] == seal && AuthoredBy(st, g, pid)
    && (forall k: nat :: AuthoredBy(st, k, pid) ==> k == GENESIS_GENERATION || k == g)
    && (forall r :: r in rq.seals && r.pid == pid ==> r.purpose.ForGenesis?)
    && (forall k :: k in rq.collectors ==> !AuthoredBy(st, k, pid))
    && NoRunOf(st, rq, g)
    && SupersededByNewer(st, g)
  }

  ghost predicate NoRunOf(st: Store, rq: Requests, g: nat) {
    && (forall i :: 0 <= i < |st.log| && st.log[i].owner == g ==> st.log[i].body.Fence?)
    && (forall e :: e in rq.wals && e.owner == g ==> e.body.Fence?)
  }

  /** A later Seal either keeps this claim's cut or replays under a later owner. */
  ghost predicate SupersededByNewer(st: Store, g: nat)
    requires g in st.seals
  {
    forall k :: k in st.seals && k > g ==>
      || st.seals[k].replay.Cut() == st.seals[g].replay.Cut()
      || (st.seals[k].replay.Through? && st.seals[k].replay.owner > g)
  }

  /** Objects of owner `g` are first only at `h`, and only there can one still
      become first; zero names no coordinate. */
  ghost predicate FencesOnlyAt(st: Store, rq: Requests, g: nat, h: nat) {
    && (forall i :: 0 <= i < |st.log| && st.log[i].owner == g ==> i + 1 == h)
    && (forall e :: e in rq.wals && e.owner == g ==> e.batch <= |st.log| || e.batch == h)
  }

  ghost predicate LoadedOk(st: Store, rq: Requests, pid: nat, loaded: Loaded) {
    && Claimed(st, rq, pid, loaded.claim, loaded.seal)
    && loaded.seal.replay.Cut() <= |st.log|
    && loaded.base == StateAt(st.log, loaded.seal.replay.Cut())
  }

  /** The FENCE of this claim stands at `h`. */
  ghost predicate Standing(st: Store, rq: Requests, loaded: Loaded, h: nat) {
    && FenceSpot(st, loaded.claim, h) && FencesOnlyAt(st, rq, loaded.claim, h) && h < U64_MAX
    && h in st.wal && st.wal[h] == FenceObject(loaded, h)
  }

  function OwnerBefore(log: seq<WalObject>, next: nat): Option<nat>
    requires 1 <= next <= |log| + 1
  {
    if next == 1 then None else Some(log[next - 2].owner)
  }

  /** While its generation is the newest, a replay is exact so far. */
  predicate ReplayExact(st: Store, replay: Replay) {
    1 <= replay.next <= |st.log| + 1 &&
    (Head(st) == replay.loaded.claim ==>
      && replay.loaded.durable == StateAt(st.log, replay.next - 1)
      && replay.owner == OwnerBefore(st.log, replay.next))
  }

  /** Nothing authored beyond genesis except a claim candidate on its way. */
  ghost predicate Unclaimed(st: Store, rq: Requests, pid: nat, candidate: Option<Seal>) {
    && (forall k: nat :: AuthoredBy(st, k, pid) ==>
         || k == GENESIS_GENERATION
         || (candidate.Some? && k == candidate.value.generation && k in st.seals && st.seals[k] == candidate.value))
    && (forall r :: r in rq.seals && r.pid == pid ==>
         || r.purpose.ForGenesis?
         || (candidate.Some? && r.purpose.ForClaim? && r.seal == candidate.value))
    && (forall k :: k in rq.collectors ==> !AuthoredBy(st, k, pid))
  }

  /** The candidate is the exact successor of a published Seal and, until its
      author hears of it, nobody has written under it. */
  ghost predicate CandidateOk(st: Store, rq: Requests, pid: nat, candidate: Seal) {
    var g := candidate.generation;
    && g >= 2 && g - 1 in st.seals && ClaimSuccessor(st.seals[g - 1]) == Some(candidate)
    && (AuthoredBy(st, g, pid) ==>
         && SealRequest(pid, candidate, ForClaim) !in rq.seals
         && g in st.seals && NoRunOf(st, rq, g) && SupersededByNewer(st, g) && FencesOnlyAt(st, rq, g, 0))
  }

  ghost predicate TablesOk(b: BaseLoad, source: PlannedTable) {
    var rest := [source] + b.remaining;
    && SourcesOk(rest) && SourcesOk(SealSources(b.seal))
    && LoadTables(b.load, rest) == LoadTables(NOTHING_LOADED, SealSources(b.seal))
  }

  ghost predicate BootOk(st: Store, rq: Requests, pid: nat, state: BootstrapState) {
    match state
    case Initial => Unclaimed(st, rq, pid, None)
    case DiscoveringHead(_) => Unclaimed(st, rq, pid, None)
    case EstablishingGenesis(_) => Unclaimed(st, rq, pid, None)
    case ReadingSeal(generation) => Unclaimed(st, rq, pid, None) && generation in st.seals
    case PublishingClaim(candidate, sources) =>
      && Unclaimed(st, rq, pid, Some(candidate)) && CandidateOk(st, rq, pid, candidate)
      && sources == SealSources(candidate)
    case ReadingTable(b, source) =>
      && Claimed(st, rq, pid, b.claim, b.seal) && FencesOnlyAt(st, rq, b.claim, 0)
      && TablesOk(b, source)
    case ObservingWalTail(loaded, occupied) =>
      && LoadedOk(st, rq, pid, loaded) && FencesOnlyAt(st, rq, loaded.claim, 0) && loaded.durable == loaded.base
      && (occupied.Some? ==> FenceSpot(st, loaded.claim, occupied.value) && occupied.value <= |st.log|)
    case ReadingWalTail(loaded, fence, tail) =>
      && LoadedOk(st, rq, pid, loaded) && FencesOnlyAt(st, rq, loaded.claim, 0) && loaded.durable == loaded.base
      && loaded.seal.replay.Cut() < tail <= |st.log| && fence == tail + 1 < U64_MAX
    case EstablishingFence(loaded, fence) =>
      && LoadedOk(st, rq, pid, loaded) && loaded.durable == loaded.base
      && FenceSpot(st, loaded.claim, fence) && FencesOnlyAt(st, rq, loaded.claim, fence) && fence < U64_MAX
    case Replaying(replay) =>
      && LoadedOk(st, rq, pid, replay.loaded) && Standing(st, rq, replay.loaded, replay.fence)
      && replay.loaded.seal.replay.Cut() < replay.next <= replay.fence
      && ReplayExact(st, replay)
    case RefreshingAnomaly(claim) => Head(st) > claim && AuthoredBy(st, claim, pid)
    case RefreshingFinal(recovery) =>
      var loaded := Loaded(recovery.claim, recovery.seal, recovery.base, recovery.durable);
      && LoadedOk(st, rq, pid, loaded) && Standing(st, rq, loaded, recovery.durableBatch)
      && recovery.durableBatch <= |st.log|
      && (Head(st) == recovery.claim ==> recovery.durable == StateAt(st.log, recovery.durableBatch))
    case Finished => true
  }

  // ------------------------------------------------------------- a live writer

  function Candidate(st: Store, s: WriterState): WalObject
    requires s.flight.Some?
  {
    WalObject(Partition(st), s.flight.value.batch, s.claim, Run(s.flight.value.facts))
  }

  /** The process authored every generation from its claim through its Seal;
      anything newer of its own is the checkpoint it is publishing. */
  ghost predicate Authority(st: Store, rq: Requests, pid: nat, s: WriterState) {
    && 2 <= s.claim <= s.seal.generation
    && s.seal.generation in st.seals && st.seals[s.seal.generation] == s.seal
    && (forall j: nat :: s.claim <= j <= s.seal.generation ==> AuthoredBy(st, j, pid))
    && (forall k: nat :: AuthoredBy(st, k, pid) && k > s.seal.generation ==>
         && s.checkpoint.Some? && s.checkpoint.value.Publishing?
         && k in st.seals && st.seals[k] == s.checkpoint.value.prepared.successor
         && SealRequest(pid, s.checkpoint.value.prepared.successor, ForCheckpoint) !in rq.seals)
    && (forall r :: r in rq.seals && r.pid == pid ==>
         || r.purpose.ForGenesis?
         || (&& s.checkpoint.Some? && s.checkpoint.value.Publishing? && r.purpose.ForCheckpoint?
             && r.seal == s.checkpoint.value.prepared.successor))
    && (forall k :: k in rq.collectors && AuthoredBy(st, k, pid) ==> k <= s.seal.generation)
  }

  /** The durable state is the log's own state at the durable batch, and only
      the flight of this writer or a later FENCE can follow it. */
  ghost predicate Footing(st: Store, rq: Requests, s: WriterState) {
    && s.seal.replay.Cut() <= |st.log| && s.base == StateAt(st.log, s.seal.replay.Cut())
    && 1 <= s.durableBatch <= |st.log| && s.durable.forest == StateAt(st.log, s.durableBatch)
    && st.log[s.durableBatch - 1].owner == s.claim
    && (forall e :: e in rq.wals && e.owner == s.claim && e.body.Run? ==> s.flight.Some? && e == Candidate(st, s))
    && NextIsOurs(st, rq, s)
  }

  predicate NextIsOurs(st: Store, rq: Requests, s: WriterState)
    requires 1 <= s.durableBatch <= |st.log|
  {
    var d := s.durableBatch;
    if d == |st.log| || st.log[d].body.Fence? then true
    else
      && s.flight.Some? && st.log[d] == Candidate(st, s) && Candidate(st, s) !in rq.wals
      && (d + 1 == |st.log| || st.log[d + 1].body.Fence?)
  }

  ghost predicate CheckpointTrue(st: Store, s: WriterState) {
    s.checkpoint.Some? ==>
      var ticket := s.checkpoint.value.ticket;
      && 1 <= ticket.cut <= |st.log| && st.log[ticket.cut - 1].owner == s.claim
      && (s.checkpoint.value.Publishing? ==>
           && s.checkpoint.value.prepared.snapshot == StateAt(st.log, ticket.cut)
           && SealOk(st.log, s.checkpoint.value.prepared.successor))
  }

  ghost predicate MachineOk(st: Store, rq: Requests, pid: nat, s: WriterState) {
    Authority(st, rq, pid, s) && Footing(st, rq, s) && CheckpointTrue(st, s)
  }

  /** The effects outstanding carry exactly what the machine's markers say. */
  ghost predicate Carries(st: Store, s: WriterState, effects: map<EffectKey, WriterEffect>) {
    && (s.flight.Some? ==>
         var key := WalKey(s.flight.value.batch);
         key in effects && effects[key] == EstablishWal(Candidate(st, s)))
    && (s.checkpoint.Some? && s.checkpoint.value.Publishing? ==>
         var key := PublicationKey(s.checkpoint.value.ticket);
         && key in effects
         && effects[key] == PublishAuthority(s.checkpoint.value.ticket, s.checkpoint.value.prepared.successor))
    && (s.checkpoint.Some? && !s.checkpoint.value.Publishing? ==>
         var ticket := s.checkpoint.value.ticket;
         var key := PreparationKey(ticket);
         && key in effects && ticket.cut <= |st.log|
         && effects[key] == PrepareCheckpoint(CheckpointInput(ticket, s.seal, s.base, StateAt(st.log, ticket.cut))))
  }

  ghost predicate RunningOk(st: Store, rq: Requests, pid: nat, n: Node) {
    NodeInv(n) && MachineOk(st, rq, pid, n.machine) && Carries(st, n.machine, n.tables.effects)
  }

  ghost predicate ProcOk(st: Store, rq: Requests, pid: nat, proc: Proc) {
    match proc
    case Booting(state) => BootOk(st, rq, pid, state)
    case Running(node) => RunningOk(st, rq, pid, node)
    case Dead => true
  }

  /** A pid nobody has used yet has left no trace. */
  ghost predicate Untouched(st: Store, rq: Requests, pid: nat) {
    && (forall k: nat :: !AuthoredBy(st, k, pid))
    && (forall r :: r in rq.seals ==> r.pid != pid)
  }

  // ------------------------------------------------------------------ replies

  /** Some coordinate of the log passes through the state this reply reports. */
  ghost predicate Recorded(log: seq<WalObject>, reply: Completion) {
    reply.answer.Refused? || exists b: nat, n: nat :: RecordedAt(log, reply, b, n)
  }

  ghost predicate RecordedAt(log: seq<WalObject>, reply: Completion, b: nat, n: nat) {
    && 1 <= b <= |log| && n <= |BodyFacts(log[b - 1].body)|
    && ReportsAt(reply, StateAt(log, b - 1), b, BodyFacts(log[b - 1].body)[..n])
  }

  ghost predicate AcksOk(w: World) { forall i :: 0 <= i < |w.acks| ==> Recorded(w.st.log, w.acks[i]) }

  ghost predicate ProcsOk(w: World) {
    && (forall pid :: pid in w.procs ==> ProcOk(w.st, w.rq, pid, w.procs[pid]))
    && (forall pid :: pid !in w.procs ==> Untouched(w.st, w.rq, pid))
  }

  ghost predicate WorldInv(w: World) {
    StoreOk(w.st) && LogRoomy(w.st) && RequestsOk(w.st, w.rq) && ProcsOk(w) && AcksOk(w)
  }

  lemma EmptyWorldInv()
    ensures WorldInv(EMPTY_WORLD)
  {
    EmptyStoreOk();
  }

  lemma Unfold(w: World)
    requires WorldInv(w)
    ensures StoreOk(w.st) && LogRoomy(w.st) && RequestsOk(w.st, w.rq) && ProcsOk(w) && AcksOk(w)
  {
    hide StoreOk, LogRoomy, RequestsOk, ProcsOk, AcksOk;
  }

  lemma Refold(w: World)
    requires StoreOk(w.st) && LogRoomy(w.st) && RequestsOk(w.st, w.rq) && ProcsOk(w) && AcksOk(w)
    ensures WorldInv(w)
  {
    hide StoreOk, LogRoomy, RequestsOk, ProcsOk, AcksOk;
  }

  lemma StoreParts(st: Store)
    requires StoreOk(st)
    ensures Numbered(st) && SealsOk(st) && CutsRise(st) && LogOk(st) && WalOk(st)
  {
    hide Numbered, SealsOk, CutsRise, LogOk, WalOk;
  }

  lemma RequestParts(st: Store, rq: Requests)
    requires RequestsOk(st, rq)
    ensures CollectorsOk(st, rq) && OneRunEach(rq)
    ensures forall e :: e in rq.wals ==> WalRequestOk(st, e)
  {
    hide CollectorsOk, OneRunEach, SealRequestOk, WalRequestOk;
  }
}
