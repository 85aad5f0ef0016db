/** A Seal request wins its generation: everything the world keeps is kept. */
module WorldSeal {
  import opened Common
  import opened Forests
  import opened Logs
  import opened Seals
  import opened Rows
  import opened Merge
  import opened Checkpoints
  import opened WriterSpec
  import opened BootstrapSpec
  import opened Nodes
  import opened Stores
  import opened Worlds
  import opened WorldInvariant

  function Published(rq: Requests, r: SealRequest): Requests { rq.(seals := rq.seals - {r}) }

  function After(st: Store, r: SealRequest): Store { Sealed(st, r.pid, r.seal) }

  /** A legal Seal request whose generation is still free. */
  ghost predicate Winning(st: Store, rq: Requests, r: SealRequest) {
    && StoreOk(st) && RequestsOk(st, rq)
    && r in rq.seals && r.seal.generation !in st.seals
  }

  /** Seals and authors already published stay; exactly the next number joins. */
  ghost predicate Grows(st: Store, next: Store, r: SealRequest) {
    && Head(next) == Head(st) + 1 == r.seal.generation
    && (forall k :: k in next.seals <==> k in st.seals || k == Head(next))
    && (forall k :: k in st.seals ==> 1 <= k <= Head(st) && next.seals[k] == st.seals[k])
    && Head(next) in next.seals && next.seals[Head(next)] == r.seal
    && (forall k: nat, pid: nat :: AuthoredBy(next, k, pid) <==>
         AuthoredBy(st, k, pid) || (k == Head(next) && pid == r.pid))
    && (forall k: nat, pid: nat :: AuthoredBy(st, k, pid) ==> k in st.seals && 1 <= k <= Head(st))
    && NewestCut(next) == r.seal.replay.Cut() >= NewestCut(st)
    && next.log == st.log && next.wal == st.wal
    && (Head(st) >= 1 ==> Partition(next) == Partition(st))
  }

  lemma ClaimHoldsSame(seal: Seal, claim: Seal, forest: Forest)
    requires SealHolds(seal, forest) && ClaimSuccessor(seal) == Some(claim)
    ensures SealHolds(claim, forest)
  {
    assert claim.directory == seal.directory && claim.ledger == seal.ledger;
    assert SealSources(claim) == SealSources(seal);
    hide DirectoryRuns, LedgerRuns, Complete, TreeEntries, TreeCells, Overlay, UidsWithin, SealSources;
  }

  lemma GenesisIsSealable(st: Store, r: SealRequest)
    requires Numbered(st) && SealRequestOk(st, r) && r.purpose.ForGenesis? && r.seal.generation !in st.seals
    ensures Sealable(st, r.seal)
  {
    GenesisHoldsNothing(r.seal.partition);
    GenesisIsConstructible(r.seal.partition);
    assert st.log[..0] == [];
    hide SealHolds, Constructible;
  }

  lemma ClaimSealOk(log: seq<WalObject>, source: Seal, claim: Seal)
    requires SealOk(log, source) && ClaimSuccessor(source) == Some(claim)
    ensures SealOk(log, claim) && claim.replay == source.replay && claim.partition == source.partition
  {
    hide SealHolds, StateAt;
    ClaimIsLegal(source);
    hide LegalSeal, LegalTree, FreshIdentities;
    ClaimHoldsSame(source, claim, StateAt(log, source.replay.Cut()));
  }

  lemma ClaimIsSealable(st: Store, r: SealRequest)
    requires Numbered(st) && SealsOk(st) && SealRequestOk(st, r) && r.purpose.ForClaim?
    requires r.seal.generation !in st.seals
    ensures Sealable(st, r.seal)
  {
    hide SealOk, ClaimSuccessor;
    ClaimSealOk(st.log, st.seals[r.seal.generation - 1], r.seal);
  }

  lemma CheckpointIsSealable(st: Store, r: SealRequest)
    requires Numbered(st) && SealRequestOk(st, r) && r.purpose.ForCheckpoint? && r.seal.generation !in st.seals
    ensures Sealable(st, r.seal)
  {
    hide SealOk;
  }

  /** Whatever its purpose, a request that finds its generation free is the
      legal next Seal. */
  lemma RequestIsSealable(st: Store, rq: Requests, r: SealRequest)
    requires Winning(st, rq, r)
    ensures Sealable(st, r.seal)
  {
    assert SealRequestOk(st, r);
    hide Numbered, SealsOk, LogOk, WalOk, CutsRise, RequestsOk, SealRequestOk, Sealable;
    match r.purpose
    case ForGenesis => GenesisIsSealable(st, r);
    case ForClaim => ClaimIsSealable(st, r);
    case ForCheckpoint => CheckpointIsSealable(st, r);
  }

  lemma SealGrows(st: Store, r: SealRequest)
    requires Numbered(st) && Sealable(st, r.seal)
    ensures Grows(st, After(st, r), r)
  {
    hide SealOk;
    SealGrowsHead(st, r.pid, r.seal);
    hide NewestCut;
  }

  lemma WinningGrows(st: Store, rq: Requests, r: SealRequest)
    requires Winning(st, rq, r)
    ensures Grows(st, After(st, r), r)
    ensures StoreOk(After(st, r))
  {
    hide Numbered, SealsOk, LogOk, WalOk, CutsRise, RequestsOk, Sealable, Grows;
    RequestIsSealable(st, rq, r);
    SealKeepsStore(st, r.pid, r.seal);
    SealGrows(st, r);
  }

  // ------------------------------------------------------------------ requests

  lemma SealKeepsSealRequest(st: Store, next: Store, r: SealRequest, q: SealRequest)
    requires Grows(st, next, r) && SealRequestOk(st, q)
    ensures SealRequestOk(next, q)
  {
    hide SealOk, NewestCut, Partition;
  }

  lemma SealKeepsFenceSpot(st: Store, next: Store, r: SealRequest, claim: nat, fence: nat)
    requires Grows(st, next, r) && FenceSpot(st, claim, fence)
    ensures FenceSpot(next, claim, fence)
  {
    hide NewestCut, Partition;
  }

  /** A claim copies the replay of its predecessor; a checkpoint comes from a
      writer that authored every generation since its own claim, so that claim
      cannot be older than a FENCE whose owner lies among them. */
  lemma SealKeepsFenceRank(st: Store, next: Store, r: SealRequest, fence: WalObject)
    requires Grows(st, next, r) && SealRequestOk(st, r)
    requires FenceSpot(st, fence.owner, fence.batch) && FenceRank(st, fence)
    ensures FenceRank(next, fence)
  {
    hide SealHolds, StateAt, NewestCut, Partition, OwnerAfter, Constructible;
    if r.purpose.ForClaim? {
      assert r.seal.replay == st.seals[r.seal.generation - 1].replay;
    } else if r.purpose.ForCheckpoint? {
      var claim := r.seal.replay.owner;
      assert AuthoredBy(st, claim, r.pid);
      assert claim <= fence.owner ==> AuthoredBy(st, fence.owner, r.pid);
    }
  }

  lemma SealKeepsWalRequest(st: Store, next: Store, r: SealRequest, e: WalObject)
    requires Grows(st, next, r) && SealRequestOk(st, r) && WalRequestOk(st, e)
    ensures WalRequestOk(next, e)
  {
    hide NewestCut, Partition, RunSpot, FenceRank, SealRequestOk;
    if e.body.Fence? {
      SealKeepsFenceSpot(st, next, r, e.owner, e.batch);
      SealKeepsFenceRank(st, next, r, e);
    }
  }

  lemma SealKeepsCollectors(st: Store, next: Store, rq: Requests, r: SealRequest)
    requires Grows(st, next, r) && CollectorsOk(st, rq)
    ensures CollectorsOk(next, Published(rq, r))
  {
    hide NewestCut, Partition;
    var left := Published(rq, r);
    forall b | 1 <= b <= |next.log| && (!Intact(next, b) || b in left.deletes)
      ensures exists k :: Passed(next, left, k, b)
    {
      assert !Intact(st, b) || b in rq.deletes;
      var k :| Passed(st, rq, k, b);
      assert Passed(next, left, k, b);
    }
    forall b | b in left.deletes
      ensures Deletable(next, b)
    {
      assert Deletable(st, b);
    }
  }

  lemma SealKeepsRequests(st: Store, next: Store, rq: Requests, r: SealRequest)
    requires Grows(st, next, r) && RequestsOk(st, rq) && r in rq.seals
    ensures RequestsOk(next, Published(rq, r))
  {
    hide SealRequestOk, WalRequestOk, CollectorsOk, Grows;
    forall q | q in rq.seals - {r} ensures SealRequestOk(next, q) { SealKeepsSealRequest(st, next, r, q); }
    forall e | e in rq.wals ensures WalRequestOk(next, e) { SealKeepsWalRequest(st, next, r, e); }
    SealKeepsCollectors(st, next, rq, r);
  }

  lemma SealKeepsRoom(st: Store, next: Store, r: SealRequest)
    requires Grows(st, next, r) && LogRoomy(st)
    ensures LogRoomy(next)
  {
    hide NewestCut, Partition;
    forall i | 0 <= i < |next.log| ensures RoomBehind(next, next.log[i]) {
      assert RoomBehind(st, st.log[i]);
    }
  }

  // ----------------------------------------------------------------- bootstraps

  /** A later Seal keeps the cut of its predecessor, or belongs to a writer
      whose claim is later than that of any other process. */
  lemma SealKeepsSuperseded(st: Store, next: Store, r: SealRequest, pid: nat, g: nat)
    requires Grows(st, next, r) && SealRequestOk(st, r)
    requires AuthoredBy(st, g, pid) && SupersededByNewer(st, g) && g >= 2
    requires r.purpose.ForCheckpoint? ==> r.pid != pid
    ensures SupersededByNewer(next, g)
  {
    hide SealOk, NewestCut, Partition;
    var k := Head(next);
    if r.purpose.ForClaim? {
      assert r.seal.replay == st.seals[k - 1].replay;
    } else if r.purpose.ForCheckpoint? {
      assert r.seal.replay.owner <= g ==> AuthoredBy(st, g, r.pid);
    }
  }

  lemma SealKeepsNoRun(st: Store, next: Store, rq: Requests, r: SealRequest, g: nat)
    requires Grows(st, next, r) && NoRunOf(st, rq, g)
    ensures NoRunOf(next, Published(rq, r), g)
  {
    hide NewestCut, Partition;
  }

  lemma SealKeepsClaimed(st: Store, next: Store, rq: Requests, r: SealRequest, pid: nat, g: nat, seal: Seal)
    requires Grows(st, next, r) && r in rq.seals && SealRequestOk(st, r) && CollectorsOk(st, rq)
    requires Claimed(st, rq, pid, g, seal)
    ensures Claimed(next, Published(rq, r), pid, g, seal)
  {
    SealKeepsSuperseded(st, next, r, pid, g);
    SealKeepsNoRun(st, next, rq, r, g);
    hide SealOk, NewestCut, Partition, NoRunOf, SupersededByNewer;
    assert r.pid == pid ==> r.seal.generation == GENESIS_GENERATION;
  }

  lemma SealKeepsFencesOnly(st: Store, next: Store, rq: Requests, r: SealRequest, g: nat, h: nat)
    requires Grows(st, next, r) && FencesOnlyAt(st, rq, g, h)
    ensures FencesOnlyAt(next, Published(rq, r), g, h)
  {
    hide NewestCut, Partition;
  }

  lemma SealKeepsLoaded(st: Store, next: Store, rq: Requests, r: SealRequest, pid: nat, loaded: Loaded)
    requires Grows(st, next, r) && r in rq.seals && SealRequestOk(st, r) && CollectorsOk(st, rq)
    requires LoadedOk(st, rq, pid, loaded)
    ensures LoadedOk(next, Published(rq, r), pid, loaded)
  {
    SealKeepsClaimed(st, next, rq, r, pid, loaded.claim, loaded.seal);
    hide Claimed, StateAt, NewestCut, Partition, SealRequestOk, CollectorsOk;
  }

  lemma SealKeepsStanding(st: Store, next: Store, rq: Requests, r: SealRequest, loaded: Loaded, h: nat)
    requires Grows(st, next, r) && Standing(st, rq, loaded, h)
    ensures Standing(next, Published(rq, r), loaded, h)
  {
    SealKeepsFenceSpot(st, next, r, loaded.claim, h);
    SealKeepsFencesOnly(st, next, rq, r, loaded.claim, h);
    hide FenceSpot, FencesOnlyAt, NewestCut, Partition;
  }

  lemma SealKeepsUnclaimed(st: Store, next: Store, rq: Requests, r: SealRequest, pid: nat, candidate: Option<Seal>)
    requires Grows(st, next, r) && r in rq.seals && SealRequestOk(st, r) && CollectorsOk(st, rq)
    requires Unclaimed(st, rq, pid, candidate)
    ensures Unclaimed(next, Published(rq, r), pid, candidate)
  {
    hide SealOk, NewestCut, Partition;
  }

  /** A claim that wins finds nobody writing under its generation. */
  lemma FreshClaimIsUnused(st: Store, next: Store, rq: Requests, r: SealRequest)
    requires Grows(st, next, r) && LogOk(st) && RequestsOk(st, rq)
    ensures NoRunOf(next, Published(rq, r), Head(next)) && FencesOnlyAt(next, Published(rq, r), Head(next), 0)
    ensures SupersededByNewer(next, Head(next))
  {
    hide NewestCut, Partition, SealRequestOk, CollectorsOk, Chain, FoldLog, FenceSpot, RunSpot, RoomBehind;
    assert forall e :: e in rq.wals ==> WalRequestOk(st, e);
  }

  lemma SealKeepsCandidate(st: Store, next: Store, rq: Requests, r: SealRequest, pid: nat, candidate: Seal)
    requires Grows(st, next, r) && r in rq.seals && RequestsOk(st, rq) && LogOk(st) && Numbered(st)
    requires Unclaimed(st, rq, pid, Some(candidate)) && CandidateOk(st, rq, pid, candidate)
    ensures CandidateOk(next, Published(rq, r), pid, candidate)
  {
    var g := candidate.generation;
    assert SealRequestOk(st, r);
    if AuthoredBy(st, g, pid) {
      SealKeepsSuperseded(st, next, r, pid, g);
      SealKeepsNoRun(st, next, rq, r, g);
      SealKeepsFencesOnly(st, next, rq, r, g, 0);
      hide SealOk, NewestCut, Partition, NoRunOf, SupersededByNewer, FencesOnlyAt, LogOk, RequestsOk, Unclaimed;
    } else {
      FreshClaimIsUnused(st, next, rq, r);
      hide SealOk, NewestCut, Partition, NoRunOf, SupersededByNewer, FencesOnlyAt, LogOk, RequestsOk, Unclaimed;
    }
  }

  lemma SealKeepsReplay(st: Store, next: Store, rq: Requests, r: SealRequest, pid: nat, replay: Replay)
    requires Grows(st, next, r) && ReplayExact(st, replay) && LoadedOk(st, rq, pid, replay.loaded)
    ensures ReplayExact(next, replay)
  {
    hide NewestCut, Partition, StateAt;
  }

  lemma RequestFacts(st: Store, rq: Requests, r: SealRequest)
    requires RequestsOk(st, rq) && r in rq.seals
    ensures SealRequestOk(st, r) && CollectorsOk(st, rq)
  {
  }

  lemma GrowthFacts(st: Store, next: Store, r: SealRequest)
    requires Grows(st, next, r)
    ensures next.log == st.log && Head(next) == Head(st) + 1
    ensures forall k :: k in st.seals ==> k in next.seals
  {
  }

  lemma AuthorsStay(st: Store, next: Store, r: SealRequest, k: nat, pid: nat)
    requires Grows(st, next, r) && AuthoredBy(st, k, pid)
    ensures AuthoredBy(next, k, pid)
  {
    hide NewestCut, Partition;
  }

  lemma SealKeepsBoot(st: Store, next: Store, rq: Requests, r: SealRequest, pid: nat, state: BootstrapState)
    requires Grows(st, next, r) && r in rq.seals && RequestsOk(st, rq) && LogOk(st) && Numbered(st)
    requires BootOk(st, rq, pid, state)
    ensures BootOk(next, Published(rq, r), pid, state)
  {
    hide LogOk, Numbered, RequestsOk, SealRequestOk, CollectorsOk, Grows, Published, Unclaimed, CandidateOk, Claimed,
      LoadedOk, Standing, FenceSpot, FencesOnlyAt, ReplayExact, TablesOk, StateAt, Head;
    RequestFacts(st, rq, r);
    GrowthFacts(st, next, r);
    match state
    case PublishingClaim(candidate, _) =>
      SealKeepsUnclaimed(st, next, rq, r, pid, Some(candidate));
      SealKeepsCandidate(st, next, rq, r, pid, candidate);
    case ReadingTable(b, source) =>
      SealKeepsClaimed(st, next, rq, r, pid, b.claim, b.seal);
      SealKeepsFencesOnly(st, next, rq, r, b.claim, 0);
    case ObservingWalTail(loaded, occupied) =>
      SealKeepsLoaded(st, next, rq, r, pid, loaded);
      SealKeepsFencesOnly(st, next, rq, r, loaded.claim, 0);
      if occupied.Some? { SealKeepsFenceSpot(st, next, r, loaded.claim, occupied.value); }
    case ReadingWalTail(loaded, _, _) =>
      SealKeepsLoaded(st, next, rq, r, pid, loaded);
      SealKeepsFencesOnly(st, next, rq, r, loaded.claim, 0);
    case EstablishingFence(loaded, fence) =>
      SealKeepsLoaded(st, next, rq, r, pid, loaded);
      SealKeepsFenceSpot(st, next, r, loaded.claim, fence);
      SealKeepsFencesOnly(st, next, rq, r, loaded.claim, fence);
    case Replaying(replay) =>
      SealKeepsLoaded(st, next, rq, r, pid, replay.loaded);
      SealKeepsStanding(st, next, rq, r, replay.loaded, replay.fence);
      SealKeepsReplay(st, next, rq, r, pid, replay);
    case RefreshingFinal(recovery) =>
      var loaded := Loaded(recovery.claim, recovery.seal, recovery.base, recovery.durable);
      SealKeepsLoaded(st, next, rq, r, pid, loaded);
      SealKeepsStanding(st, next, rq, r, loaded, recovery.durableBatch);
      ClaimIsBelowNext(st, next, rq, r, pid, loaded);
    case RefreshingAnomaly(claim) => AuthorsStay(st, next, r, claim, pid);
    case Finished =>
    case _ => SealKeepsUnclaimed(st, next, rq, r, pid, None);
  }

  lemma ClaimIsBelowNext(st: Store, next: Store, rq: Requests, r: SealRequest, pid: nat, loaded: Loaded)
    requires Grows(st, next, r) && LoadedOk(st, rq, pid, loaded)
    ensures loaded.claim < Head(next)
  {
    hide NewestCut, Partition, StateAt;
  }

  // ------------------------------------------------------------------- writers

  lemma SealKeepsAuthority(st: Store, next: Store, rq: Requests, r: SealRequest, pid: nat, s: WriterState)
    requires Grows(st, next, r) && r in rq.seals && SealRequestOk(st, r) && CollectorsOk(st, rq)
    requires Authority(st, rq, pid, s)
    ensures Authority(next, Published(rq, r), pid, s)
  {
    hide SealOk, NewestCut, Partition;
    assert r.purpose.ForGenesis? ==> r.seal.generation == GENESIS_GENERATION;
  }

  lemma SealKeepsFooting(st: Store, next: Store, rq: Requests, r: SealRequest, pid: nat, s: WriterState)
    requires Grows(st, next, r) && Footing(st, rq, s) && Authority(st, rq, pid, s)
    ensures Footing(next, Published(rq, r), s)
  {
    assert Head(st) >= 1;
    assert Partition(next) == Partition(st);
    hide NewestCut, Partition, StateAt, Authority;
  }

  lemma SealKeepsCarries(st: Store, next: Store, rq: Requests, r: SealRequest, pid: nat, s: WriterState,
                         effects: map<EffectKey, WriterEffect>)
    requires Grows(st, next, r) && Authority(st, rq, pid, s) && Carries(st, s, effects)
    ensures Carries(next, s, effects)
    ensures CheckpointTrue(st, s) ==> CheckpointTrue(next, s)
  {
    assert Head(st) >= 1;
    assert Partition(next) == Partition(st) && next.log == st.log;
    hide NewestCut, Partition, StateAt, Authority, Grows, SealOk;
  }

  lemma SealKeepsProc(st: Store, next: Store, rq: Requests, r: SealRequest, pid: nat, proc: Proc)
    requires Grows(st, next, r) && r in rq.seals && RequestsOk(st, rq) && LogOk(st) && Numbered(st)
    requires ProcOk(st, rq, pid, proc)
    ensures ProcOk(next, Published(rq, r), pid, proc)
  {
    hide BootOk, NodeInv, Authority, Footing, CheckpointTrue, Carries, Grows, Published, RequestsOk, LogOk, Numbered,
      SealRequestOk, CollectorsOk;
    RequestFacts(st, rq, r);
    match proc
    case Booting(state) => SealKeepsBoot(st, next, rq, r, pid, state);
    case Running(n) =>
      SealKeepsAuthority(st, next, rq, r, pid, n.machine);
      SealKeepsFooting(st, next, rq, r, pid, n.machine);
      SealKeepsCarries(st, next, rq, r, pid, n.machine, n.tables.effects);
    case Dead =>
  }

  lemma SealKeepsUntouched(st: Store, next: Store, rq: Requests, r: SealRequest, pid: nat)
    requires Grows(st, next, r) && r in rq.seals && Untouched(st, rq, pid)
    ensures Untouched(next, Published(rq, r), pid)
  {
    hide NewestCut, Partition;
  }
}
