/** Every answer an honest store gives a bootstrap: no assertion of the machine
    fires, what it asks for next is legal, and what it recovers is exact. */
module WorldBoot {
  import opened Common
  import opened Forests
  import opened Logs
  import opened Seals
  import opened Suffix
  import opened Merge
  import opened Checkpoints
  import opened WriterSpec
  import opened BootstrapSpec
  import opened Nodes
  import opened Stores
  import opened Worlds
  import opened WorldInvariant
  import opened WorldBystander

  ghost predicate RecoveryReady(st: Store, rq: Requests, pid: nat, recovery: WriterRecovery) {
    && RecoveryOk(recovery)
    && forall interval: nat, buffer: nat :: BufferOk(buffer) ==>
         RunningOk(st, rq, pid, Spawned(recovery, interval, buffer))
  }

  /** A transition that leaves the world legal. */
  ghost predicate Legal(st: Store, rq: Requests, pid: nat, t: Transition) {
    var left := IssueBoot(rq, pid, t.step);
    && RequestsOk(st, left) && OnlyBy(st, rq, left, Some(pid))
    && (t.step.Await? ==> BootOk(st, left, pid, t.state))
    && (t.step.Recovered? ==> RecoveryReady(st, left, pid, t.step.recovery))
  }

  lemma SilentIsLegal(st: Store, rq: Requests, pid: nat, t: Transition)
    requires RequestsOk(st, rq) && IssueBoot(rq, pid, t.step) == rq
    requires t.step.Await? ==> BootOk(st, rq, pid, t.state)
    requires t.step.Recovered? ==> RecoveryReady(st, rq, pid, t.step.recovery)
    ensures Legal(st, rq, pid, t)
  {
    hide RequestsOk, BootOk, RecoveryReady, IssueBoot;
  }

  lemma NewestIsHead(st: Store, head: Option<nat>)
    requires Numbered(st) && IsNewest(st.seals, head)
    ensures head == if Head(st) == 0 then None else Some(Head(st))
  {
    if head.Some? {
      assert head.value in st.seals;
      assert Head(st) in st.seals;
    } else {
      assert |st.seals| == 0;
    }
  }

  // ------------------------------------------------------------- before a claim

  lemma GenesisRequested(st: Store, rq: Requests, pid: nat, partition: nat)
    requires RequestsOk(st, rq) && Unclaimed(st, rq, pid, None)
    ensures Legal(st, rq, pid,
                  Transition(EstablishingGenesis(partition), Await(EstablishGenesis(GenesisSeal(partition)))))
  {
    hide RequestsOk;
    MoreSealRequests(st, rq, SealRequest(pid, GenesisSeal(partition), ForGenesis));
  }

  lemma DiscoveringLegal(st: Store, rq: Requests, pid: nat, partition: nat, head: Option<nat>)
    requires RequestsOk(st, rq) && Unclaimed(st, rq, pid, None) && IsNewest(st.seals, head)
    ensures Legal(st, rq, pid, HandleHead(DiscoveringHead(partition), head))
  {
    hide RequestsOk, Unclaimed;
    if head.None? {
      GenesisRequested(st, rq, pid, partition);
    } else {
      SilentIsLegal(st, rq, pid, HandleHead(DiscoveringHead(partition), head));
    }
  }

  lemma GenesisLegal(st: Store, rq: Requests, pid: nat, partition: nat, genesis: GenesisEstablishment)
    requires RequestsOk(st, rq) && BootOk(st, rq, pid, EstablishingGenesis(partition))
    requires StoreAnswers(st, pid, EstablishingGenesis(partition), GenesisEstablished(genesis))
    ensures Legal(st, rq, pid, HandleGenesis(partition, genesis))
  {
    hide RequestsOk, Unclaimed;
    SilentIsLegal(st, rq, pid, HandleGenesis(partition, genesis));
  }

  lemma ClaimSources(source: Seal, claim: Seal)
    requires ClaimSuccessor(source) == Some(claim)
    ensures SealSources(claim) == SealSources(source)
    ensures PlanBootstrapSources(source).Some? ==> PlanBootstrapSources(source).value == SealSources(claim)
  {
  }

  lemma CandidateRequested(st: Store, rq: Requests, pid: nat, generation: nat, candidate: Seal)
    requires Numbered(st) && RequestsOk(st, rq) && Unclaimed(st, rq, pid, None) && generation in st.seals
    requires ClaimSuccessor(st.seals[generation]) == Some(candidate)
    ensures Legal(st, rq, pid,
                  Transition(PublishingClaim(candidate, SealSources(candidate)), Await(PublishClaim(candidate))))
  {
    hide RequestsOk, SealSources, NoRunOf, SupersededByNewer, FencesOnlyAt;
    var r := SealRequest(pid, candidate, ForClaim);
    var left := rq.(seals := rq.seals + {r});
    MoreSealRequests(st, rq, r);
    assert !AuthoredBy(st, candidate.generation, pid);
    assert Unclaimed(st, left, pid, Some(candidate));
    assert CandidateOk(st, left, pid, candidate);
  }

  lemma PublishedSealPlans(st: Store, generation: nat)
    requires SealsOk(st) && generation in st.seals
    ensures PlanBootstrapSources(st.seals[generation]).Some?
  {
    hide Constructible;
    assert SealOk(st.log, st.seals[generation]);
    hide StateAt, DirectoryRuns, LedgerRuns, Complete, TreeEntries, TreeCells, UidsWithin, PlanBootstrapSources;
  }

  lemma PublishedGeneration(st: Store, generation: nat)
    requires Numbered(st) && generation in st.seals
    ensures st.seals[generation].generation == generation
    ensures st.seals[generation].partition == Partition(st)
  {
  }

  /** A Seal that was listed as newest is there to be read, and its tables are
      inside the bootstrap bounds. */
  lemma SealReadLegal(st: Store, rq: Requests, pid: nat, generation: nat, seal: Option<Seal>)
    requires Numbered(st) && SealsOk(st) && RequestsOk(st, rq)
    requires Unclaimed(st, rq, pid, None) && generation in st.seals && seal == Lookup(st.seals, generation)
    ensures Answers(ReadingSeal(generation), SealRead(seal))
    ensures Legal(st, rq, pid, HandleSeal(seal))
    ensures HandleSeal(seal).step == Exited(Contradiction) ==> generation >= U64_MAX
  {
    hide Numbered, SealsOk, RequestsOk, Unclaimed, Legal, PlanBootstrapSources, BootOk;
    PublishedSealPlans(st, generation);
    PublishedGeneration(st, generation);
    if ClaimSuccessor(seal.value).Some? {
      var candidate := ClaimSuccessor(seal.value).value;
      ClaimSources(seal.value, candidate);
      CandidateRequested(st, rq, pid, generation, candidate);
    } else {
      ExitIsLegal(st, rq, pid, Contradiction);
    }
  }

  lemma ExitIsLegal(st: Store, rq: Requests, pid: nat, exit: BootstrapExit)
    requires RequestsOk(st, rq)
    ensures Legal(st, rq, pid, Exit(exit))
  {
    hide RequestsOk, BootOk, RecoveryReady;
    SilentIsLegal(st, rq, pid, Exit(exit));
  }

  // ------------------------------------------------------------ loading tables

  lemma ClaimedSealHolds(st: Store, rq: Requests, pid: nat, g: nat, seal: Seal)
    requires SealsOk(st) && Claimed(st, rq, pid, g, seal)
    ensures seal.replay.Cut() <= |st.log| && SealHolds(seal, StateAt(st.log, seal.replay.Cut()))
    ensures OwnerAfter(st.log[..seal.replay.Cut()]) < seal.generation || seal.replay.Genesis?
    ensures seal.replay.Through? ==> seal.replay.batch >= 1 && st.log[seal.replay.batch - 1].owner == seal.replay.owner
  {
    hide SealHolds, StateAt, NoRunOf, SupersededByNewer, Constructible;
    assert SealOk(st.log, st.seals[g]);
  }

  lemma HoldsMeansComplete(seal: Seal, forest: Forest)
    requires SealHolds(seal, forest)
    ensures Complete(forest)
  {
  }

  /** Whatever is left to merge, the load ends in the state at the claim's cut. */
  lemma NextTableLegal(st: Store, rq: Requests, pid: nat, b: BaseLoad)
    requires SealsOk(st) && RequestsOk(st, rq)
    requires Claimed(st, rq, pid, b.claim, b.seal) && FencesOnlyAt(st, rq, b.claim, 0)
    requires SourcesOk(b.remaining) && SourcesOk(SealSources(b.seal))
    requires LoadTables(b.load, b.remaining) == LoadTables(NOTHING_LOADED, SealSources(b.seal))
    ensures Legal(st, rq, pid, ReadNextTable(b))
    ensures !ReadNextTable(b).step.Exited?
  {
    hide SealsOk, RequestsOk, Claimed, FencesOnlyAt, SealSources, SealHolds, Complete, SourcesOk, StateAt;
    ClaimedSealHolds(st, rq, pid, b.claim, b.seal);
    var forest := StateAt(st.log, b.seal.replay.Cut());
    if b.remaining == [] {
      HoldsLoads(b.seal, forest);
      HoldsMeansComplete(b.seal, forest);
      assert LoadTables(b.load, []) == Some(b.load);
      assert Forest(b.load.merged.directory, b.load.merged.ledger) == forest;
    } else {
      assert [b.remaining[0]] + b.remaining[1..] == b.remaining;
      hide LoadTables;
    }
    SilentIsLegal(st, rq, pid, ReadNextTable(b));
  }

  lemma ClaimLegal(st: Store, rq: Requests, pid: nat, candidate: Seal, publication: SealPublication)
    requires SealsOk(st) && RequestsOk(st, rq)
    requires Unclaimed(st, rq, pid, Some(candidate)) && CandidateOk(st, rq, pid, candidate)
    requires PublicationTrue(st, pid, candidate.generation, publication)
    ensures Legal(st, rq, pid, HandleClaim(candidate, SealSources(candidate), publication))
    ensures HandleClaim(candidate, SealSources(candidate), publication).step != Exited(Contradiction)
  {
    hide Legal, Unclaimed, CandidateOk, Claimed, SealSources, RequestsOk, SealsOk, FencesOnlyAt, ReadNextTable,
      SealHolds, StateAt, SourcesOk, LoadTables;
    if publication.Authored? {
      AuthoredClaimIsClaimed(st, rq, pid, candidate);
      ClaimedSealHolds(st, rq, pid, candidate.generation, candidate);
      HoldsLoads(candidate, StateAt(st.log, candidate.replay.Cut()));
      NextTableLegal(st, rq, pid, BaseLoad(candidate.generation, candidate, SealSources(candidate), NOTHING_LOADED));
    } else {
      ExitIsLegal(st, rq, pid, HandleClaim(candidate, SealSources(candidate), publication).step.exit);
    }
  }

  lemma AuthoredClaimIsClaimed(st: Store, rq: Requests, pid: nat, candidate: Seal)
    requires Unclaimed(st, rq, pid, Some(candidate)) && CandidateOk(st, rq, pid, candidate)
    requires AuthoredBy(st, candidate.generation, pid)
    ensures Claimed(st, rq, pid, candidate.generation, candidate)
    ensures FencesOnlyAt(st, rq, candidate.generation, 0)
  {
    hide NoRunOf, SupersededByNewer, FencesOnlyAt;
    forall r | r in rq.seals && r.pid == pid ensures r.purpose.ForGenesis? {
      assert r != SealRequest(pid, candidate, ForClaim);
    }
  }

  lemma FirstSource(b: BaseLoad, source: PlannedTable)
    requires TablesOk(b, source)
    ensures DecodedOk(source.table.content) && SourcesOk(b.remaining) && SourcesOk(SealSources(b.seal))
    ensures LoadTables(NOTHING_LOADED, SealSources(b.seal)) ==
      match MergeTable(b.load, source)
      case None => None
      case Some(load) => LoadTables(load, b.remaining)
  {
    var rest := [source] + b.remaining;
    hide DecodedOk, MergeTable, SealSources;
    assert rest[0] == source && rest[1..] == b.remaining;
    assert forall i :: 0 <= i < |b.remaining| ==> b.remaining[i] == rest[i + 1];
  }

  lemma TableLegal(st: Store, rq: Requests, pid: nat, b: BaseLoad, source: PlannedTable)
    requires SealsOk(st) && RequestsOk(st, rq)
    requires Claimed(st, rq, pid, b.claim, b.seal) && FencesOnlyAt(st, rq, b.claim, 0) && TablesOk(b, source)
    ensures Answers(ReadingTable(b, source), TableRead(source.table))
    ensures Legal(st, rq, pid, HandleTable(b, source))
    ensures !HandleTable(b, source).step.Exited?
  {
    hide SealsOk, RequestsOk, Claimed, FencesOnlyAt, SealSources, SealHolds, StateAt, MergeTable, Legal,
      ReadNextTable, TablesOk, SourcesOk, LoadTables, DecodedOk;
    FirstSource(b, source);
    ClaimedSealHolds(st, rq, pid, b.claim, b.seal);
    HoldsLoads(b.seal, StateAt(st.log, b.seal.replay.Cut()));
    NextTableLegal(st, rq, pid, b.(load := MergeTable(b.load, source).value));
  }

  // --------------------------------------------------------- placing the FENCE

  /** The claim's own coordinates, as the handlers need them. */
  lemma ClaimFacts(st: Store, rq: Requests, pid: nat, loaded: Loaded)
    requires Numbered(st) && SealsOk(st) && LoadedOk(st, rq, pid, loaded)
    ensures loaded.claim == loaded.seal.generation && 2 <= loaded.claim <= Head(st)
    ensures loaded.claim in st.seals && st.seals[loaded.claim] == loaded.seal
    ensures loaded.seal.partition == Partition(st) && GENESIS_GENERATION in st.seals
    ensures AuthoredBy(st, loaded.claim, pid)
    ensures loaded.seal.replay.Through? ==>
      && loaded.seal.replay.batch >= 1
      && st.log[loaded.seal.replay.batch - 1].owner == loaded.seal.replay.owner < loaded.claim
  {
    hide SealHolds, StateAt, NoRunOf, SupersededByNewer, Constructible;
    assert SealOk(st.log, st.seals[loaded.claim]);
    hide SealsOk;
  }

  /** One more FENCE request of this claim, and nothing else changes for it. */
  lemma FenceAdded(st: Store, rq: Requests, pid: nat, loaded: Loaded, fence: nat)
    requires LoadedOk(st, rq, pid, loaded) && FencesOnlyAt(st, rq, loaded.claim, 0)
    ensures var left := rq.(wals := rq.wals + {FenceObject(loaded, fence)});
      LoadedOk(st, left, pid, loaded) && FencesOnlyAt(st, left, loaded.claim, fence)
  {
    hide SupersededByNewer, StateAt;
  }

  lemma FenceIsRanked(st: Store, rq: Requests, pid: nat, loaded: Loaded, fence: nat)
    requires LoadedOk(st, rq, pid, loaded) && FenceSpot(st, loaded.claim, fence)
    ensures FenceRank(st, FenceObject(loaded, fence))
  {
    hide NoRunOf, StateAt, OwnerAfter;
    assert SupersededByNewer(st, loaded.claim);
    assert forall other: nat :: AuthoredBy(st, loaded.claim, other) ==> other == pid;
  }

  lemma PlaceFenceLegal(st: Store, rq: Requests, pid: nat, loaded: Loaded, fence: nat)
    requires Numbered(st) && SealsOk(st) && RequestsOk(st, rq)
    requires LoadedOk(st, rq, pid, loaded) && FencesOnlyAt(st, rq, loaded.claim, 0) && loaded.durable == loaded.base
    requires FenceSpot(st, loaded.claim, fence) && fence < U64_MAX
    ensures Legal(st, rq, pid, PlaceFence(loaded, fence))
  {
    hide Numbered, SealsOk, RequestsOk, LoadedOk, FencesOnlyAt, FenceSpot, FenceRank;
    ClaimFacts(st, rq, pid, loaded);
    FenceAdded(st, rq, pid, loaded, fence);
    FenceIsRanked(st, rq, pid, loaded, fence);
    assert WalRequestOk(st, FenceObject(loaded, fence));
    MoreFences(st, rq, pid, FenceObject(loaded, fence));
  }

  /** Right behind the claim's cut stands an older owner, or nobody. */
  lemma CutIsFenceSpot(st: Store, rq: Requests, pid: nat, loaded: Loaded)
    requires Numbered(st) && SealsOk(st) && LoadedOk(st, rq, pid, loaded)
    ensures FenceSpot(st, loaded.claim, loaded.seal.replay.Cut() + 1)
  {
    hide Numbered, SealsOk, Claimed, StateAt, Partition;
    ClaimFacts(st, rq, pid, loaded);
  }

  lemma CandidateCases(cut: Option<nat>, tail: Option<nat>)
    ensures var c := PlanFenceCandidate(cut, tail);
      c.Some? ==>
        && c.value == Max(if cut.Some? then cut.value else 0, if tail.Some? then tail.value else 0) + 1
        && (BoundTakeoverFence(cut, c.value).Ok? ==>
             BoundTakeoverFence(cut, c.value).value == c.value < U64_MAX)
  {
  }

  lemma WalTailLegal(st: Store, rq: Requests, pid: nat, loaded: Loaded, occupied: Option<nat>, tail: Option<nat>)
    requires Numbered(st) && SealsOk(st) && WalOk(st) && RequestsOk(st, rq)
    requires LoadedOk(st, rq, pid, loaded) && FencesOnlyAt(st, rq, loaded.claim, 0) && loaded.durable == loaded.base
    requires IsNewest(st.wal, tail)
    ensures Legal(st, rq, pid, HandleWalTail(loaded, occupied, tail))
  {
    hide Numbered, SealsOk, RequestsOk, LoadedOk, FencesOnlyAt, Legal, BoundTakeoverFence, PlanFenceCandidate;
    var t := HandleWalTail(loaded, occupied, tail);
    var cut := loaded.seal.replay.Batch();
    CandidateCases(cut, tail);
    if t.step.Exited? {
      hide WalOk;
      ExitIsLegal(st, rq, pid, t.step.exit);
    } else if t.state.ReadingWalTail? {
      ReadTailLegal(st, rq, pid, loaded, tail.value);
    } else {
      hide WalOk;
      CutIsFenceSpot(st, rq, pid, loaded);
      PlaceFenceLegal(st, rq, pid, loaded, loaded.seal.replay.Cut() + 1);
    }
  }

  lemma ReadTailLegal(st: Store, rq: Requests, pid: nat, loaded: Loaded, tail: nat)
    requires WalOk(st) && RequestsOk(st, rq)
    requires LoadedOk(st, rq, pid, loaded) && FencesOnlyAt(st, rq, loaded.claim, 0) && loaded.durable == loaded.base
    requires tail in st.wal && loaded.seal.replay.Cut() < tail && tail + 1 < U64_MAX
    ensures Legal(st, rq, pid,
      Transition(ReadingWalTail(loaded, tail + 1, tail), Await(ReadWal(loaded.seal.partition, tail))))
  {
    assert tail <= |st.log|;
    hide WalOk, RequestsOk, LoadedOk, FencesOnlyAt;
    SilentIsLegal(st, rq, pid,
      Transition(ReadingWalTail(loaded, tail + 1, tail), Await(ReadWal(loaded.seal.partition, tail))));
  }

  /** While the claim is the newest Seal nothing above its cut was collected. */
  lemma NewestClaimIsIntact(st: Store, rq: Requests, pid: nat, loaded: Loaded, b: nat)
    requires StoreOk(st) && LoadedOk(st, rq, pid, loaded) && Head(st) == loaded.claim
    requires loaded.seal.replay.Cut() < b <= |st.log|
    ensures Intact(st, b)
  {
    AboveCutIsIntact(st, b);
  }

  lemma OwnerIsPublished(st: Store, b: nat)
    requires WalOk(st) && b in st.wal
    ensures st.wal[b].owner <= Head(st)
  {
    assert Belongs(st, st.wal[b]);
  }

  /** An object at or above the claim's owner means a newer Seal exists. */
  lemma NewerOwnerMeansNewerSeal(st: Store, rq: Requests, pid: nat, loaded: Loaded, tail: nat)
    requires StoreOk(st) && LoadedOk(st, rq, pid, loaded) && FencesOnlyAt(st, rq, loaded.claim, 0)
    requires loaded.seal.replay.Cut() < tail <= |st.log| && tail in st.wal && st.wal[tail].owner >= loaded.claim
    ensures Head(st) > loaded.claim
  {
    hide StoreOk, LoadedOk, Numbered, SealsOk, CutsRise, LogOk, WalOk;
    StoreParts(st);
    OwnerIsPublished(st, tail);
    ClaimFacts(st, rq, pid, loaded);
    if Head(st) == loaded.claim {
      NewestClaimIsIntact(st, rq, pid, loaded, tail);
      assert false;
    }
  }

  lemma TailIsFenceSpot(st: Store, rq: Requests, pid: nat, loaded: Loaded, tail: nat)
    requires WalOk(st) && LoadedOk(st, rq, pid, loaded)
    requires loaded.seal.replay.Cut() < tail <= |st.log| && tail in st.wal && st.wal[tail].owner < loaded.claim
    ensures FenceSpot(st, loaded.claim, tail + 1)
  {
    assert Intact(st, tail) || Hole(st, tail);
    hide WalOk, StateAt, NoRunOf, SupersededByNewer, NewestCut;
    assert st.log[..tail][|st.log[..tail]| - 1] == st.log[tail - 1];
  }

  lemma TailReadLegal(st: Store, rq: Requests, pid: nat, loaded: Loaded, tail: nat, entry: Option<WalObject>)
    requires StoreOk(st) && RequestsOk(st, rq) && BootOk(st, rq, pid, ReadingWalTail(loaded, tail + 1, tail))
    requires entry == Lookup(st.wal, tail)
    ensures Answers(ReadingWalTail(loaded, tail + 1, tail), WalRead(entry))
    ensures Legal(st, rq, pid, HandleTailRead(loaded, tail + 1, entry))
    ensures HandleTailRead(loaded, tail + 1, entry).step != Exited(Contradiction)
  {
    hide StoreOk, RequestsOk, BootOk, LoadedOk, FencesOnlyAt, Legal, WalOk, Numbered, SealsOk, FenceSpot, Partition,
      Head;
    TailReadFacts(st, rq, pid, loaded, tail);
    if entry.None? {
      ExitIsLegal(st, rq, pid, Retryable);
    } else if entry.value.owner >= loaded.claim {
      NewerOwnerMeansNewerSeal(st, rq, pid, loaded, tail);
      ClaimFacts(st, rq, pid, loaded);
      AnomalyLegal(st, rq, pid, loaded.claim);
    } else {
      TailIsFenceSpot(st, rq, pid, loaded, tail);
      PlaceFenceLegal(st, rq, pid, loaded, tail + 1);
    }
  }

  lemma TailReadFacts(st: Store, rq: Requests, pid: nat, loaded: Loaded, tail: nat)
    requires StoreOk(st) && BootOk(st, rq, pid, ReadingWalTail(loaded, tail + 1, tail))
    ensures WalOk(st) && Numbered(st) && SealsOk(st)
    ensures LoadedOk(st, rq, pid, loaded) && FencesOnlyAt(st, rq, loaded.claim, 0) && loaded.durable == loaded.base
    ensures loaded.seal.replay.Cut() < tail <= |st.log| && tail + 1 < U64_MAX
    ensures tail in st.wal ==> st.wal[tail].batch == tail && st.wal[tail].partition == loaded.seal.partition
  {
    ClaimFacts(st, rq, pid, loaded);
    hide LoadedOk, FencesOnlyAt, SealsOk, CutsRise, LogOk;
    if tail in st.wal { assert Belongs(st, st.wal[tail]); }
  }

  lemma AnomalyLegal(st: Store, rq: Requests, pid: nat, claim: nat)
    requires RequestsOk(st, rq) && Head(st) > claim && AuthoredBy(st, claim, pid)
    ensures Legal(st, rq, pid, RefreshAnomaly(claim))
  {
    hide RequestsOk;
    SilentIsLegal(st, rq, pid, RefreshAnomaly(claim));
  }

  // -------------------------------------------------------- the FENCE is answered

  lemma CreatedFenceStands(st: Store, loaded: Loaded, fence: nat)
    requires WalOk(st) && WasCreated(st, FenceObject(loaded, fence))
    ensures 1 <= fence <= |st.log| && fence in st.wal && st.wal[fence] == FenceObject(loaded, fence)
  {
    hide NewestCut, Belongs;
    if !(fence in st.wal && st.wal[fence] == FenceObject(loaded, fence)) {
      FenceIsIntact(st, fence);
    }
  }

  lemma ReplayStartsExact(st: Store, rq: Requests, pid: nat, loaded: Loaded, fence: nat)
    requires Numbered(st) && SealsOk(st) && LoadedOk(st, rq, pid, loaded) && loaded.durable == loaded.base
    ensures ReplayExact(st, Replay(loaded, loaded.seal.replay.Cut() + 1, fence, loaded.seal.replay.Owner()))
  {
    hide Numbered, SealsOk, Claimed, StateAt;
    ClaimFacts(st, rq, pid, loaded);
  }

  lemma DurableFenceLegal(st: Store, rq: Requests, pid: nat, loaded: Loaded, fence: nat)
    requires Numbered(st) && SealsOk(st) && WalOk(st) && RequestsOk(st, rq)
    requires LoadedOk(st, rq, pid, loaded) && loaded.durable == loaded.base
    requires FenceSpot(st, loaded.claim, fence) && FencesOnlyAt(st, rq, loaded.claim, fence) && fence < U64_MAX
    requires WasCreated(st, FenceObject(loaded, fence))
    ensures Legal(st, rq, pid, HandleFence(loaded, fence, Durable))
    ensures !HandleFence(loaded, fence, Durable).step.Exited?
  {
    hide Numbered, SealsOk, WalOk, RequestsOk, Claimed, FencesOnlyAt, WasCreated, StateAt, ReplayExact;
    ClaimFacts(st, rq, pid, loaded);
    CreatedFenceStands(st, loaded, fence);
    ReplayStartsExact(st, rq, pid, loaded, fence);
    SilentIsLegal(st, rq, pid, HandleFence(loaded, fence, Durable));
  }

  lemma FirstOfClaimIsItsFence(st: Store, rq: Requests, pid: nat, loaded: Loaded, fence: nat)
    requires Numbered(st) && SealsOk(st) && LogOk(st) && WalOk(st) && LoadedOk(st, rq, pid, loaded)
    requires 1 <= fence <= |st.log| && st.log[fence - 1].owner == loaded.claim
    ensures fence in st.wal && st.wal[fence] == FenceObject(loaded, fence)
  {
    hide Numbered, SealsOk, StateAt, FoldLog, NewestCut, WalOk, SupersededByNewer;
    ClaimFacts(st, rq, pid, loaded);
    assert Continues(st.log[..fence - 1], st.log[fence - 1]);
    assert Belongs(st, st.log[fence - 1]);
    hide Chain;
    FenceIsIntact(st, fence);
  }

  /** A FENCE answered as occupied was not first either. */
  lemma OccupiedIsForeign(st: Store, rq: Requests, pid: nat, loaded: Loaded, fence: nat)
    requires Numbered(st) && SealsOk(st) && LogOk(st) && WalOk(st)
    requires LoadedOk(st, rq, pid, loaded) && FencesOnlyAt(st, rq, loaded.claim, fence)
    requires fence in st.wal && st.wal[fence] != FenceObject(loaded, fence)
    ensures fence <= |st.log| && FencesOnlyAt(st, rq, loaded.claim, 0)
  {
    hide Numbered, SealsOk, LogOk, LoadedOk, Hole, Belongs;
    assert 1 <= fence <= |st.log|;
    if st.log[fence - 1].owner == loaded.claim {
      FirstOfClaimIsItsFence(st, rq, pid, loaded, fence);
      assert false;
    }
  }

  lemma FenceAnswerLegal(st: Store, rq: Requests, pid: nat, loaded: Loaded, fence: nat, establishment: WalEstablishment)
    requires StoreOk(st) && RequestsOk(st, rq)
    requires LoadedOk(st, rq, pid, loaded) && loaded.durable == loaded.base
    requires FenceSpot(st, loaded.claim, fence) && FencesOnlyAt(st, rq, loaded.claim, fence) && fence < U64_MAX
    requires EstablishmentTrue(st, FenceObject(loaded, fence), establishment)
    ensures Legal(st, rq, pid, HandleFence(loaded, fence, establishment))
    ensures HandleFence(loaded, fence, establishment).step != Exited(Contradiction)
  {
    hide StoreOk, RequestsOk, LoadedOk, FencesOnlyAt, FenceSpot, Legal, Numbered, SealsOk, WalOk, LogOk, CutsRise;
    StoreParts(st);
    match establishment
    case Durable => DurableFenceLegal(st, rq, pid, loaded, fence);
    case Occupied =>
      OccupiedIsForeign(st, rq, pid, loaded, fence);
      ObserveAgainLegal(st, rq, pid, loaded, fence);
    case UnresolvedAbsent => ExitIsLegal(st, rq, pid, Retryable);
  }

  lemma ObserveAgainLegal(st: Store, rq: Requests, pid: nat, loaded: Loaded, fence: nat)
    requires RequestsOk(st, rq) && LoadedOk(st, rq, pid, loaded) && loaded.durable == loaded.base
    requires FencesOnlyAt(st, rq, loaded.claim, 0) && FenceSpot(st, loaded.claim, fence) && fence <= |st.log|
    ensures Legal(st, rq, pid, Transition(ObservingWalTail(loaded, Some(fence)), Await(ObserveWalTail)))
  {
    hide RequestsOk, LoadedOk, FencesOnlyAt, FenceSpot;
    SilentIsLegal(st, rq, pid, Transition(ObservingWalTail(loaded, Some(fence)), Await(ObserveWalTail)));
  }

  // -------------------------------------------------------------------- replay

  lemma ChainAt(log: seq<WalObject>, next: nat)
    requires Chain(log) && 1 <= next <= |log|
    ensures log[next - 1].batch == next
    ensures log[next - 1].body.Fence? ==>
      OwnerBefore(log, next) == None || OwnerBefore(log, next).value < log[next - 1].owner
    ensures log[next - 1].body.Run? ==> OwnerBefore(log, next) == Some(log[next - 1].owner)
  {
    assert Continues(log[..next - 1], log[next - 1]);
    hide Chain;
  }

  /** One object of the log replays without an anomaly, from the state and the
      owner before it to those after it. */
  lemma LogReplays(log: seq<WalObject>, next: nat)
    requires Chain(log) && FoldLog(log).Some? && 1 <= next <= |log|
    ensures ReplayOne(OwnerBefore(log, next), StateAt(log, next - 1), log[next - 1])
         == Some((OwnerBefore(log, next + 1), StateAt(log, next)))
  {
    hide Chain, FoldLog, StateAt, FoldFacts;
    StateAtNext(log, next - 1);
    ChainAt(log, next);
    FoldNothing(StateAt(log, next - 1), next);
  }

  lemma FoldNothing(forest: Forest, batch: nat)
    ensures FoldFacts(forest, batch, []) == Some(forest)
  {
  }

  lemma ReplayFacts(st: Store, rq: Requests, pid: nat, replay: Replay)
    requires StoreOk(st) && BootOk(st, rq, pid, Replaying(replay))
    ensures LoadedOk(st, rq, pid, replay.loaded) && Standing(st, rq, replay.loaded, replay.fence)
    ensures replay.loaded.seal.replay.Cut() < replay.next <= replay.fence <= |st.log| && replay.fence < U64_MAX
    ensures ReplayExact(st, replay)
    ensures Numbered(st) && SealsOk(st) && WalOk(st) && LogOk(st)
  {
    hide LoadedOk, FencesOnlyAt, StateAt, Numbered, SealsOk, LogOk, CutsRise, Hole, Belongs, Intact;
  }

  /** What the store shows at a coordinate is what the machine asserts. */
  lemma ReplayReadAnswers(st: Store, rq: Requests, pid: nat, replay: Replay, entry: Option<WalObject>)
    requires StoreOk(st) && BootOk(st, rq, pid, Replaying(replay)) && entry == Lookup(st.wal, replay.next)
    ensures Answers(Replaying(replay), WalRead(entry))
  {
    hide StoreOk, BootOk, LoadedOk, Numbered, SealsOk, LogOk, ReplayExact, FenceSpot, FencesOnlyAt;
    ReplayFacts(st, rq, pid, replay);
    ClaimFacts(st, rq, pid, replay.loaded);
    if entry.Some? { assert Belongs(st, entry.value); }
  }

  /** While the claim is newest the replay meets the log itself. */
  lemma ReplayMeetsLog(st: Store, rq: Requests, pid: nat, replay: Replay)
    requires StoreOk(st) && BootOk(st, rq, pid, Replaying(replay)) && Head(st) == replay.loaded.claim
    ensures 1 <= replay.next <= |st.log| && Lookup(st.wal, replay.next) == Some(st.log[replay.next - 1])
    ensures ReplayOne(replay.owner, replay.loaded.durable, st.log[replay.next - 1])
         == Some((OwnerBefore(st.log, replay.next + 1), StateAt(st.log, replay.next)))
  {
    hide StoreOk, BootOk, LoadedOk, Numbered, SealsOk, WalOk, Standing, StateAt, ReplayOne, Chain, FoldLog;
    ReplayFacts(st, rq, pid, replay);
    NewestClaimIsIntact(st, rq, pid, replay.loaded, replay.next);
    LogReplays(st.log, replay.next);
  }

  lemma ReplayStepExact(st: Store, rq: Requests, pid: nat, replay: Replay, entry: WalObject, owner: Option<nat>,
                        durable: Forest)
    requires StoreOk(st) && BootOk(st, rq, pid, Replaying(replay)) && Some(entry) == Lookup(st.wal, replay.next)
    requires ReplayOne(replay.owner, replay.loaded.durable, entry) == Some((owner, durable))
    ensures 1 <= replay.next <= |st.log|
    ensures Head(st) == replay.loaded.claim ==>
      durable == StateAt(st.log, replay.next) && owner == OwnerBefore(st.log, replay.next + 1)
  {
    hide StoreOk, BootOk, LoadedOk, Numbered, SealsOk, WalOk, LogOk, Standing, StateAt, ReplayOne, ReplayExact;
    ReplayFacts(st, rq, pid, replay);
    if Head(st) == replay.loaded.claim { ReplayMeetsLog(st, rq, pid, replay); }
  }

  lemma DurableChanges(st: Store, rq: Requests, pid: nat, loaded: Loaded, durable: Forest, h: nat)
    requires LoadedOk(st, rq, pid, loaded) && Standing(st, rq, loaded, h)
    ensures LoadedOk(st, rq, pid, loaded.(durable := durable)) && Standing(st, rq, loaded.(durable := durable), h)
  {
    hide Claimed, StateAt, FencesOnlyAt, FenceSpot;
  }

  lemma ReplayOnLegal(st: Store, rq: Requests, pid: nat, replay: Replay, entry: WalObject, owner: Option<nat>,
                      durable: Forest)
    requires StoreOk(st) && RequestsOk(st, rq) && BootOk(st, rq, pid, Replaying(replay))
    requires Some(entry) == Lookup(st.wal, replay.next)
    requires ReplayOne(replay.owner, replay.loaded.durable, entry) == Some((owner, durable))
    ensures Legal(st, rq, pid, HandleReplayRead(replay, Some(entry)))
    ensures !HandleReplayRead(replay, Some(entry)).step.Exited?
  {
    hide StoreOk, RequestsOk, LoadedOk, Numbered, SealsOk, WalOk, LogOk, Standing, StateAt, ReplayOne, FenceSpot;
    ReplayFacts(st, rq, pid, replay);
    ReplayStepExact(st, rq, pid, replay, entry, owner, durable);
    DurableChanges(st, rq, pid, replay.loaded, durable, replay.fence);
    SilentIsLegal(st, rq, pid, HandleReplayRead(replay, Some(entry)));
  }

  /** Every replay anomaly is explained by a Seal newer than the claim. */
  lemma ReplayReadLegal(st: Store, rq: Requests, pid: nat, replay: Replay, entry: Option<WalObject>)
    requires StoreOk(st) && RequestsOk(st, rq) && BootOk(st, rq, pid, Replaying(replay))
    requires entry == Lookup(st.wal, replay.next)
    ensures Legal(st, rq, pid, HandleReplayRead(replay, entry))
    ensures !HandleReplayRead(replay, entry).step.Exited?
  {
    hide StoreOk, RequestsOk, BootOk, LoadedOk, Numbered, SealsOk, WalOk, LogOk, Standing, StateAt, ReplayOne,
      ReplayExact, Legal;
    if entry.Some? && ReplayOne(replay.owner, replay.loaded.durable, entry.value).Some? {
      var (owner, durable) := ReplayOne(replay.owner, replay.loaded.durable, entry.value).value;
      ReplayOnLegal(st, rq, pid, replay, entry.value, owner, durable);
    } else {
      ReplayFacts(st, rq, pid, replay);
      ClaimFacts(st, rq, pid, replay.loaded);
      if Head(st) == replay.loaded.claim {
        ReplayMeetsLog(st, rq, pid, replay);
        assert false;
      }
      AnomalyLegal(st, rq, pid, replay.loaded.claim);
    }
  }

  // ---------------------------------------------------------------- completion

  lemma FinalFacts(st: Store, rq: Requests, pid: nat, recovery: WriterRecovery)
    requires StoreOk(st) && BootOk(st, rq, pid, RefreshingFinal(recovery))
    ensures var loaded := Loaded(recovery.claim, recovery.seal, recovery.base, recovery.durable);
      LoadedOk(st, rq, pid, loaded) && Standing(st, rq, loaded, recovery.durableBatch)
    ensures recovery.seal.replay.Cut() < recovery.durableBatch <= |st.log| && recovery.durableBatch < U64_MAX
    ensures Head(st) == recovery.claim ==> recovery.durable == StateAt(st.log, recovery.durableBatch)
    ensures Numbered(st) && SealsOk(st) && LogOk(st)
  {
    hide LoadedOk, FencesOnlyAt, StateAt, Numbered, SealsOk, LogOk, CutsRise, WalOk;
    ClaimFacts(st, rq, pid, Loaded(recovery.claim, recovery.seal, recovery.base, recovery.durable));
  }

  /** The takeover FENCE is the last object, or a later FENCE follows it. */
  lemma FenceIsLast(st: Store, rq: Requests, g: nat, d: nat)
    requires LogOk(st) && NoRunOf(st, rq, g) && 1 <= d <= |st.log| && st.log[d - 1].owner == g
    ensures d == |st.log| || st.log[d].body.Fence?
  {
    if d < |st.log| {
      assert Continues(st.log[..d], st.log[d]);
      hide Chain, FoldLog;
      assert st.log[..d][d - 1] == st.log[d - 1];
    }
  }

  lemma RecoveredAuthority(st: Store, rq: Requests, pid: nat, loaded: Loaded, s: WriterState)
    requires Numbered(st) && SealsOk(st) && LoadedOk(st, rq, pid, loaded)
    requires s.claim == loaded.claim && s.seal == loaded.seal
    requires s.checkpoint.None?
    ensures Authority(st, rq, pid, s)
  {
    hide Numbered, SealsOk, StateAt, NoRunOf, SupersededByNewer, AuthoredBy;
    ClaimFacts(st, rq, pid, loaded);
  }

  lemma RecoveredFooting(st: Store, rq: Requests, pid: nat, recovery: WriterRecovery, s: WriterState)
    requires StoreOk(st) && BootOk(st, rq, pid, RefreshingFinal(recovery)) && Head(st) == recovery.claim
    requires s.claim == recovery.claim && s.seal == recovery.seal && s.base == recovery.base && s.flight.None?
    requires s.durable.forest == recovery.durable && s.durableBatch == recovery.durableBatch
    ensures Footing(st, rq, s)
  {
    hide StoreOk, BootOk, FencesOnlyAt, FenceSpot, StateAt, Numbered, SealsOk, LogOk;
    FinalFacts(st, rq, pid, recovery);
    var loaded := Loaded(recovery.claim, recovery.seal, recovery.base, recovery.durable);
    NewestClaimIsIntact(st, rq, pid, loaded, recovery.durableBatch);
    FenceIsLast(st, rq, recovery.claim, recovery.durableBatch);
  }

  /** A recovery handed over while its claim is newest is exactly the log. */
  lemma CompletionReady(st: Store, rq: Requests, pid: nat, recovery: WriterRecovery)
    requires StoreOk(st) && BootOk(st, rq, pid, RefreshingFinal(recovery)) && Head(st) == recovery.claim
    ensures RecoveryReady(st, rq, pid, recovery)
  {
    hide StoreOk, BootOk, LoadedOk, Standing, StateAt, Numbered, SealsOk, LogOk, Authority, Footing, NodeInv;
    FinalFacts(st, rq, pid, recovery);
    var loaded := Loaded(recovery.claim, recovery.seal, recovery.base, recovery.durable);
    ClaimFacts(st, rq, pid, loaded);
    assert RecoveryOk(recovery);
    forall interval: nat, buffer: nat | BufferOk(buffer)
      ensures RunningOk(st, rq, pid, Spawned(recovery, interval, buffer))
    {
      var n := Spawned(recovery, interval, buffer);
      SpawnEstablishesInv(recovery, interval, buffer);
      RecoveredAuthority(st, rq, pid, loaded, n.machine);
      RecoveredFooting(st, rq, pid, recovery, n.machine);
    }
  }

  lemma AnomalyRefreshLegal(st: Store, rq: Requests, pid: nat, claim: nat, head: Option<nat>)
    requires Numbered(st) && RequestsOk(st, rq) && Head(st) > claim && IsNewest(st.seals, head)
    ensures Legal(st, rq, pid, HandleHead(RefreshingAnomaly(claim), head))
    ensures HandleHead(RefreshingAnomaly(claim), head).step == Exited(Fenced(Head(st)))
  {
    hide Numbered, RequestsOk, Legal, IsNewest;
    NewestIsHead(st, head);
    ExitIsLegal(st, rq, pid, Fenced(Head(st)));
  }

  lemma FinalRefreshLegal(st: Store, rq: Requests, pid: nat, recovery: WriterRecovery, head: Option<nat>)
    requires StoreOk(st) && RequestsOk(st, rq) && BootOk(st, rq, pid, RefreshingFinal(recovery))
    requires IsNewest(st.seals, head)
    ensures HandleHead(RefreshingFinal(recovery), head).step ==
      if Head(st) == recovery.claim then Recovered(recovery) else Exited(Fenced(Head(st)))
    ensures Legal(st, rq, pid, HandleHead(RefreshingFinal(recovery), head))
  {
    hide StoreOk, RequestsOk, BootOk, Legal, RecoveryReady, IsNewest, Head, LoadedOk, Standing, StateAt, Numbered,
      SealsOk, LogOk;
    FinalFacts(st, rq, pid, recovery);
    ClaimFacts(st, rq, pid, Loaded(recovery.claim, recovery.seal, recovery.base, recovery.durable));
    NewestIsHead(st, head);
    if Head(st) == recovery.claim {
      CompletionReady(st, rq, pid, recovery);
      CompletionLegal(st, rq, pid, recovery);
    } else {
      ExitIsLegal(st, rq, pid, Fenced(Head(st)));
    }
  }

  lemma CompletionLegal(st: Store, rq: Requests, pid: nat, recovery: WriterRecovery)
    requires RequestsOk(st, rq) && RecoveryReady(st, rq, pid, recovery)
    ensures Legal(st, rq, pid, Transition(Finished, Recovered(recovery)))
  {
    hide RequestsOk, RecoveryReady, BootOk;
    SilentIsLegal(st, rq, pid, Transition(Finished, Recovered(recovery)));
  }

  // ------------------------------------------------- the list always advances

  /** Once the newest cut is past the claim's, a later owner holds it. */
  lemma NewestOwnerIsLater(st: Store, rq: Requests, pid: nat, loaded: Loaded)
    requires Numbered(st) && SealsOk(st) && LoadedOk(st, rq, pid, loaded)
    requires NewestCut(st) > loaded.seal.replay.Cut()
    ensures 1 <= NewestCut(st) <= |st.log| && st.log[NewestCut(st) - 1].owner > loaded.claim
  {
    hide StateAt, NoRunOf, SealHolds, Constructible;
    assert SealOk(st.log, st.seals[Head(st)]);
  }

  lemma RunKeepsOwner(log: seq<WalObject>, b: nat)
    requires Chain(log) && 1 <= b <= |log| && log[b - 1].body.Run?
    ensures log[b - 1].owner == OwnerAfter(log[..b - 1])
  {
    assert Continues(log[..b - 1], log[b - 1]);
  }

  /** A coordinate a claim found occupied was collected only after a FENCE of a
      later owner had been placed above it. */
  lemma CollectedBelowFence(st: Store, rq: Requests, pid: nat, loaded: Loaded, h: nat) returns (f: nat)
    requires StoreOk(st) && LoadedOk(st, rq, pid, loaded) && FenceSpot(st, loaded.claim, h)
    requires h <= |st.log| && Hole(st, h)
    ensures f in st.wal && f > h
  {
    hide StoreOk, Numbered, SealsOk, CutsRise, WalOk, Chain, FoldLog, NewestCut, Claimed, StateAt;
    StoreParts(st);
    ClaimFacts(st, rq, pid, loaded);
    NewestOwnerIsLater(st, rq, pid, loaded);
    RunKeepsOwner(st.log, h);
    var k := FenceBetween(st.log, h - 1, NewestCut(st) - 1);
    FenceIsIntact(st, k + 1);
    f := k + 1;
  }

  lemma SomethingAtOrAbove(st: Store, rq: Requests, pid: nat, loaded: Loaded, h: nat) returns (b: nat)
    requires StoreOk(st) && LoadedOk(st, rq, pid, loaded) && FenceSpot(st, loaded.claim, h) && h <= |st.log|
    ensures b in st.wal && b >= h
  {
    if h in st.wal {
      b := h;
    } else {
      assert WalOk(st);
      hide StoreOk, LoadedOk, FenceSpot;
      assert !Intact(st, h);
      b := CollectedBelowFence(st, rq, pid, loaded, h);
    }
  }

  /** No listing is ever taken for one that failed to advance, and no planned
      FENCE for one that is not behind the cut. */
  lemma ListAdvances(st: Store, rq: Requests, pid: nat, loaded: Loaded, occupied: Option<nat>, tail: Option<nat>)
    requires StoreOk(st) && LoadedOk(st, rq, pid, loaded) && IsNewest(st.wal, tail)
    requires occupied.Some? ==> FenceSpot(st, loaded.claim, occupied.value) && occupied.value <= |st.log|
    ensures HandleWalTail(loaded, occupied, tail).step != Exited(Contradiction)
    ensures occupied.Some? && PlanFenceCandidate(loaded.seal.replay.Batch(), tail).Some? ==>
      PlanFenceCandidate(loaded.seal.replay.Batch(), tail).value > occupied.value
  {
    hide StoreOk, LoadedOk, FenceSpot;
    CandidateCases(loaded.seal.replay.Batch(), tail);
    if occupied.Some? {
      var b := SomethingAtOrAbove(st, rq, pid, loaded, occupied.value);
      assert tail.Some? && tail.value >= b;
    }
  }

  // ------------------------------------------------------------ any one answer

  /** The claim is not published yet, or its answer not heard. */
  predicate BeforeClaim(state: BootstrapState) {
    || state.Initial? || state.DiscoveringHead? || state.EstablishingGenesis?
    || state.ReadingSeal? || state.PublishingClaim?
  }

  lemma EarlyAnswerLegal(st: Store, rq: Requests, pid: nat, state: BootstrapState, event: BootstrapEvent)
    requires StoreOk(st) && RequestsOk(st, rq) && BootOk(st, rq, pid, state) && StoreAnswers(st, pid, state, event)
    requires BeforeClaim(state)
    requires !event.StoreFailed?
    ensures Answers(state, event)
    ensures Legal(st, rq, pid, HandleBootstrap(state, event))
    ensures HandleBootstrap(state, event).step == Exited(Contradiction) ==>
      state.ReadingSeal? && state.generation >= U64_MAX
  {
    hide StoreOk, RequestsOk, Numbered, SealsOk, CutsRise, LogOk, WalOk, Unclaimed, CandidateOk, Legal, SealSources,
      IsNewest;
    StoreParts(st);
    match state
    case Initial => SilentIsLegal(st, rq, pid, HandleBootstrap(state, event));
    case DiscoveringHead(partition) => DiscoveringLegal(st, rq, pid, partition, event.head);
    case EstablishingGenesis(partition) => GenesisLegal(st, rq, pid, partition, event.genesis);
    case ReadingSeal(generation) => SealReadLegal(st, rq, pid, generation, event.seal);
    case PublishingClaim(candidate, _) => ClaimLegal(st, rq, pid, candidate, event.publication);
  }

  lemma LateAnswerLegal(st: Store, rq: Requests, pid: nat, state: BootstrapState, event: BootstrapEvent)
    requires StoreOk(st) && RequestsOk(st, rq) && BootOk(st, rq, pid, state) && StoreAnswers(st, pid, state, event)
    requires state.ReadingTable? || state.ObservingWalTail? || state.ReadingWalTail? || state.EstablishingFence?
    requires !event.StoreFailed?
    ensures Answers(state, event)
    ensures Legal(st, rq, pid, HandleBootstrap(state, event))
    ensures HandleBootstrap(state, event).step != Exited(Contradiction)
  {
    hide StoreOk, RequestsOk, Numbered, SealsOk, CutsRise, LogOk, WalOk, Claimed, LoadedOk, FencesOnlyAt, FenceSpot,
      TablesOk, Legal, IsNewest, EstablishmentTrue;
    StoreParts(st);
    match state
    case ReadingTable(b, source) => TableLegal(st, rq, pid, b, source);
    case ObservingWalTail(loaded, occupied) =>
      WalTailLegal(st, rq, pid, loaded, occupied, event.tail);
      ListAdvances(st, rq, pid, loaded, occupied, event.tail);
    case ReadingWalTail(loaded, fence, tail) => TailReadLegal(st, rq, pid, loaded, tail, event.entry);
    case EstablishingFence(loaded, fence) => FenceAnswerLegal(st, rq, pid, loaded, fence, event.establishment);
  }

  lemma LastAnswerLegal(st: Store, rq: Requests, pid: nat, state: BootstrapState, event: BootstrapEvent)
    requires StoreOk(st) && RequestsOk(st, rq) && BootOk(st, rq, pid, state) && StoreAnswers(st, pid, state, event)
    requires state.Replaying? || state.RefreshingAnomaly? || state.RefreshingFinal?
    requires !event.StoreFailed?
    ensures Answers(state, event)
    ensures Legal(st, rq, pid, HandleBootstrap(state, event))
    ensures HandleBootstrap(state, event).step != Exited(Contradiction)
  {
    hide StoreOk, RequestsOk, Numbered, SealsOk, CutsRise, LogOk, WalOk, LoadedOk, Standing, ReplayExact, StateAt,
      Legal, IsNewest;
    StoreParts(st);
    match state
    case Replaying(replay) =>
      ReplayReadAnswers(st, rq, pid, replay, event.entry);
      ReplayReadLegal(st, rq, pid, replay, event.entry);
    case RefreshingAnomaly(claim) => AnomalyRefreshLegal(st, rq, pid, claim, event.head);
    case RefreshingFinal(recovery) => FinalRefreshLegal(st, rq, pid, recovery, event.head);
  }

  /** Whatever an honest store answers, no assertion of the bootstrap machine
      fires, its next request and state are legal, a recovery it hands over is
      ready to run, and it reports a contradiction only when the generations
      are exhausted or the store refused or lost a table. */
  lemma AnswerLegal(st: Store, rq: Requests, pid: nat, state: BootstrapState, event: BootstrapEvent)
    requires StoreOk(st) && RequestsOk(st, rq) && BootOk(st, rq, pid, state) && StoreAnswers(st, pid, state, event)
    ensures Answers(state, event)
    ensures Legal(st, rq, pid, HandleBootstrap(state, event))
    ensures HandleBootstrap(state, event).step == Exited(Contradiction) ==>
      || (state.ReadingSeal? && state.generation >= U64_MAX)
      || (event.StoreFailed? && (event.error.StoreRejected? || state.ReadingTable?))
  {
    hide StoreOk, RequestsOk, BootOk, Legal, HandleHead, HandleGenesis, HandleSeal, HandleClaim, HandleTable,
      HandleWalTail, HandleTailRead, HandleReplayRead, HandleFence, IsNewest, EstablishmentTrue;
    if event.StoreFailed? {
      ExitIsLegal(st, rq, pid, StoreExit(event.error));
    } else if BeforeClaim(state) {
      EarlyAnswerLegal(st, rq, pid, state, event);
    } else if state.Replaying? || state.RefreshingAnomaly? || state.RefreshingFinal? {
      LastAnswerLegal(st, rq, pid, state, event);
    } else {
      LateAnswerLegal(st, rq, pid, state, event);
    }
  }
}
