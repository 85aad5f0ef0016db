/** From every reachable world a new process can take over: whatever has crashed,
    whatever is still on its way and however much has been collected. */
module WorldProgress {
  import opened Common
  import opened Domain
  import opened Forests
  import opened Logs
  import opened Seals
  import opened Suffix
  import opened Merge
  import opened WriterSpec
  import opened BootstrapSpec
  import opened Nodes
  import opened Stores
  import opened Worlds
  import opened WorldInvariant
  import opened WorldRuns
  import opened WorldTheorems
  import WorldBoot

  predicate At(w: World, pid: nat, state: BootstrapState) { pid in w.procs && w.procs[pid] == Booting(state) }

  function CheckpointRequests(rq: Requests): set<SealRequest> { set r | r in rq.seals && r.purpose.ForCheckpoint? }

  /** What a bootstrap of `pid` leaves alone: every other process, checkpoints
      and deletes on their way and the collectors. */
  function Others(w: World, pid: nat): (map<nat, Proc>, set<SealRequest>, set<nat>, map<nat, nat>) {
    (w.procs - {pid}, CheckpointRequests(w.rq), w.rq.deletes, w.rq.collectors)
  }

  /** `later` continues `steps` and reaches `w`. */
  ghost predicate Onward(steps: seq<WorldStep>, later: seq<WorldStep>, w: World) { steps <= later && Reaches(later, w) }

  lemma Extend(steps: seq<WorldStep>, w: World, step: WorldStep) returns (later: seq<WorldStep>, w': World)
    requires Reaches(steps, w) && Enabled(w, step)
    ensures Sound(w, step)
    ensures step.Visit? ==> step.generation in w.rq.collectors
    ensures Onward(steps, later, w') && w' == Step(w, step)
  {
    NoPanics(steps, w, step);
    assert step.Visit? ==> step.generation in w.rq.collectors;
    hide Enabled, Sound, Step;
    later, w' := steps + [step], Step(w, step);
    assert later[..|later| - 1] == steps && later[|later| - 1] == step;
  }

  /** One answer of the store to a bootstrap. */
  lemma Answer(steps: seq<WorldStep>, w: World, pid: nat, state: BootstrapState, event: BootstrapEvent)
    returns (later: seq<WorldStep>, w': World)
    requires Reaches(steps, w) && At(w, pid, state) && StoreAnswers(w.st, pid, state, event)
    ensures Answers(state, event)
    ensures var t := HandleBootstrap(state, event);
      && Onward(steps, later, w') && w'.st == w.st && w'.rq == IssueBoot(w.rq, pid, t.step)
      && Others(w', pid) == Others(w, pid)
      && (t.step.Await? ==> At(w', pid, t.state))
      && (t.step.Recovered? ==>
           && RecoveryOk(t.step.recovery) && pid in w'.procs
           && w'.procs[pid] == Running(Spawned(t.step.recovery, 0, 1)))
      && (t.step == Exited(Contradiction) && !event.StoreFailed? ==> state.ReadingSeal? && state.generation >= U64_MAX)
  {
    hide StoreAnswers, HandleBootstrap, Answers, Reaches, IssueBoot, Spawned, RecoveryOk;
    AnomaliesAreExplained(steps, w, pid, event, 0, 1);
    later, w' := Extend(steps, w, BootTurn(pid, event, 0, 1));
    IssueBootLeaves(w.rq, pid, HandleBootstrap(state, event).step);
    assert w'.procs - {pid} == w.procs - {pid};
  }

  lemma IssueBootLeaves(rq: Requests, pid: nat, step: BootstrapStep)
    ensures IssueBoot(rq, pid, step).deletes == rq.deletes && IssueBoot(rq, pid, step).collectors == rq.collectors
    ensures CheckpointRequests(IssueBoot(rq, pid, step)) == CheckpointRequests(rq)
  {
  }

  // -------------------------------------------------------- finding the head

  lemma HeadIsNewest(st: Store)
    requires Numbered(st)
    ensures IsNewest(st.seals, if Head(st) == 0 then None else Some(Head(st)))
  {
    if Head(st) == 0 {
      assert st.seals == map[];
    }
  }

  lemma StartDiscovery(steps: seq<WorldStep>, w: World, pid: nat) returns (later: seq<WorldStep>, w': World)
    requires Reaches(steps, w) && pid !in w.procs
    ensures Onward(steps, later, w') && w'.st == w.st && w'.rq == w.rq && At(w', pid, DiscoveringHead(0))
    ensures Others(w', pid) == Others(w, pid)
  {
    hide Reaches;
    later, w' := Extend(steps, w, Spawn(pid));
    assert w'.procs - {pid} == w.procs - {pid};
    later, w' := Answer(later, w', pid, Initial, BootstrapStarted(0));
  }

  /** The newest Seal, or the genesis this process has just established. */
  lemma FindHead(steps: seq<WorldStep>, w: World, pid: nat) returns (later: seq<WorldStep>, w': World)
    requires Reaches(steps, w) && pid !in w.procs
    ensures Onward(steps, later, w') && w'.st.log == w.st.log && Head(w'.st) == Max(Head(w.st), 1)
    ensures Head(w.st) >= 1 ==> w'.st == w.st
    ensures NewestCut(w'.st) == NewestCut(w.st)
    ensures At(w', pid, ReadingSeal(Head(w'.st)))
    ensures Others(w', pid) == Others(w, pid) && w'.rq.wals == w.rq.wals
  {
    hide Reaches, IsNewest, NewestCut, Others;
    later, w' := StartDiscovery(steps, w, pid);
    ReachedNumbers(later, w');
    HeadIsNewest(w'.st);
    if Head(w.st) >= 1 {
      later, w' := Answer(later, w', pid, DiscoveringHead(0), HeadObserved(Some(Head(w'.st))));
    } else {
      later, w' := Answer(later, w', pid, DiscoveringHead(0), HeadObserved(None));
      later, w' := FoundPartition(later, w', pid);
    }
  }

  lemma FoundPartition(steps: seq<WorldStep>, w: World, pid: nat) returns (later: seq<WorldStep>, w': World)
    requires Reaches(steps, w) && At(w, pid, EstablishingGenesis(0)) && Head(w.st) == 0
    requires SealRequest(pid, GenesisSeal(0), ForGenesis) in w.rq.seals
    ensures Onward(steps, later, w') && w'.st.log == w.st.log && Head(w'.st) == 1
    ensures NewestCut(w'.st) == NewestCut(w.st)
    ensures At(w', pid, ReadingSeal(1))
    ensures Others(w', pid) == Others(w, pid) && w'.rq.wals == w.rq.wals
  {
    ReachedNumbers(steps, w);
    hide Reaches;
    later, w' := Extend(steps, w, LandSeal(SealRequest(pid, GenesisSeal(0), ForGenesis)));
    SealGrowsHead(w.st, pid, GenesisSeal(0));
    assert CheckpointRequests(w'.rq) == CheckpointRequests(w.rq);
    later, w' := Answer(later, w', pid, EstablishingGenesis(0), GenesisEstablished(Established));
  }

  // ----------------------------------------------------------------- claiming

  lemma ClaimSteps(steps: seq<WorldStep>, w: World, pid: nat)
    returns (later: seq<WorldStep>, w': World, candidate: Seal)
    requires Reaches(steps, w) && At(w, pid, ReadingSeal(Head(w.st))) && 1 <= Head(w.st) < U64_MAX
    ensures Onward(steps, later, w') && w'.st == Sealed(w.st, pid, candidate)
    ensures Head(w.st) in w.st.seals && ClaimSuccessor(w.st.seals[Head(w.st)]) == Some(candidate)
    ensures Head(w'.st) == Head(w.st) + 1 == candidate.generation && NewestCut(w'.st) == NewestCut(w.st)
    ensures At(w', pid, PublishingClaim(candidate, SealSources(candidate)))
    ensures Others(w', pid) == Others(w, pid) && w'.rq.wals == w.rq.wals
  {
    ReachedNumbers(steps, w);
    var k := Head(w.st);
    assert k in w.st.seals && w.st.seals[k].generation == k;
    hide Reaches, Numbered, Others;
    later, w' := Answer(steps, w, pid, ReadingSeal(k), SealRead(Lookup(w.st.seals, k)));
    candidate := ClaimSuccessor(w.st.seals[k]).value;
    WorldBoot.ClaimSources(w.st.seals[k], candidate);
    assert At(w', pid, PublishingClaim(candidate, SealSources(candidate)));
    assert SealRequest(pid, candidate, ForClaim) in w'.rq.seals;
    hide PlanBootstrapSources, SealSources, ClaimSuccessor;
    later, w' := LandClaim(later, w', pid, candidate);
    SealGrowsHead(w.st, pid, candidate);
  }

  lemma LandClaim(steps: seq<WorldStep>, w: World, pid: nat, candidate: Seal) returns (later: seq<WorldStep>, w': World)
    requires Reaches(steps, w) && SealRequest(pid, candidate, ForClaim) in w.rq.seals
    requires candidate.generation == Head(w.st) + 1
    ensures Onward(steps, later, w') && w'.st == Sealed(w.st, pid, candidate) && w'.procs == w.procs
    ensures Others(w', pid) == Others(w, pid) && w'.rq.wals == w.rq.wals
  {
    ReachedNumbers(steps, w);
    assert candidate.generation !in w.st.seals;
    hide Reaches, Numbered;
    later, w' := Extend(steps, w, LandSeal(SealRequest(pid, candidate, ForClaim)));
    assert CheckpointRequests(w'.rq) == CheckpointRequests(w.rq);
  }

  /** Claim the newest Seal and hear that the claim is authored. */
  lemma Claim(steps: seq<WorldStep>, w: World, pid: nat) returns (later: seq<WorldStep>, w': World, b: BaseLoad)
    requires Reaches(steps, w) && At(w, pid, ReadingSeal(Head(w.st))) && 1 <= Head(w.st) < U64_MAX
    ensures Onward(steps, later, w') && w'.st.log == w.st.log && NewestCut(w'.st) == NewestCut(w.st)
    ensures Others(w', pid) == Others(w, pid) && w'.rq.wals == w.rq.wals && Head(w'.st) == Head(w.st) + 1
    ensures b.claim == Head(w'.st) && ReadNextTable(b).step.Await? && At(w', pid, ReadNextTable(b).state)
  {
    hide Reaches, Numbered, SealSources, ClaimSuccessor, NewestCut, Others;
    var candidate;
    later, w', candidate := ClaimSteps(steps, w, pid);
    b := BaseLoad(candidate.generation, candidate, SealSources(candidate), NOTHING_LOADED);
    hide ReadNextTable;
    later, w' := Answer(later, w', pid, PublishingClaim(candidate, SealSources(candidate)), ClaimPublished(Authored));
    assert HandleBootstrap(PublishingClaim(candidate, SealSources(candidate)),
                           ClaimPublished(Authored)) == ReadNextTable(b);
    assert ReadNextTable(b).step.Await? by { NeverRecovers(b); }
  }

  lemma NeverRecovers(b: BaseLoad)
    ensures ReadNextTable(b).step.Await? || ReadNextTable(b).step == Exited(Contradiction)
  {
    hide Complete;
  }

  // ------------------------------------------------------------ loading tables

  lemma {:induction false} LoadAll(steps: seq<WorldStep>, w: World, pid: nat, b: BaseLoad)
    returns (later: seq<WorldStep>, w': World, loaded: Loaded)
    requires Reaches(steps, w) && ReadNextTable(b).step.Await? && At(w, pid, ReadNextTable(b).state)
    ensures Onward(steps, later, w') && w'.st == w.st
    ensures At(w', pid, ObservingWalTail(loaded, None)) && loaded.claim == b.claim
    ensures Others(w', pid) == Others(w, pid) && w'.rq.wals == w.rq.wals
    decreases |b.remaining|
  {
    hide Reaches, Complete, MergeTable, DecodedOk, Others;
    if b.remaining == [] {
      later, w' := steps, w;
      loaded := ReadNextTable(b).state.loaded;
    } else {
      var rest, source := b.(remaining := b.remaining[1..]), b.remaining[0];
      later, w' := Answer(steps, w, pid, ReadingTable(rest, source), TableRead(source.table));
      NextLoad(rest, source);
      var next := rest.(load := MergeTable(rest.load, source).value);
      var more;
      more, w', loaded := LoadAll(later, w', pid, next);
      later := more;
    }
  }

  lemma NextLoad(b: BaseLoad, source: PlannedTable)
    requires DecodedOk(source.table.content) && HandleTable(b, source).step != Exited(Contradiction)
    ensures MergeTable(b.load, source).Some?
    ensures var next := b.(load := MergeTable(b.load, source).value);
      HandleTable(b, source) == ReadNextTable(next) && ReadNextTable(next).step.Await?
  {
    hide MergeTable, Complete, DecodedOk;
  }

  // ----------------------------------------------------------- placing the FENCE

  lemma SomeNewest(wal: map<nat, WalObject>) returns (tail: Option<nat>)
    ensures IsNewest(wal, tail)
  {
    if wal == map[] {
      tail := None;
    } else {
      var k := Greatest(wal.Keys);
      tail := Some(k);
    }
  }

  lemma {:induction false} Greatest(keys: set<nat>) returns (k: nat)
    requires keys != {}
    ensures k in keys && forall j :: j in keys ==> j <= k
  {
    k :| k in keys;
    if keys != {k} {
      var j := Greatest(keys - {k});
      assert keys == (keys - {k}) + {k};
      if j > k { k := j; }
    }
  }

  /** The claim is newest, so its candidate lies right behind the log and what is
      listed last, if it is above the cut, is of an older owner. */
  lemma PlaceBehindLog(steps: seq<WorldStep>, w: World, pid: nat, loaded: Loaded)
    returns (later: seq<WorldStep>, w': World)
    requires Reaches(steps, w) && At(w, pid, ObservingWalTail(loaded, None)) && loaded.claim == Head(w.st)
    requires |w.st.log| + 1 <= NewestCut(w.st) + WAL_SUFFIX_COORDINATES_MAX && |w.st.log| + 1 < U64_MAX
    ensures Onward(steps, later, w') && w'.st == w.st
    ensures At(w', pid, EstablishingFence(loaded, |w.st.log| + 1))
    ensures Others(w', pid) == Others(w, pid) && w'.rq.wals == w.rq.wals + {FenceObject(loaded, |w.st.log| + 1)}
  {
    var state := ObservingWalTail(loaded, None);
    var tail := SomeNewest(w.st.wal);
    TakeoverIsBounded(steps, w, pid, tail);
    CandidateClearsHistory(steps, w, pid, tail);
    hide Reaches, IsNewest, PlanFenceCandidate, NewestCut, Others;
    later, w' := Answer(steps, w, pid, state, WalTailObserved(tail));
    FenceBoundExactly(loaded.seal.replay.Batch(), |w.st.log| + 1);
    hide BoundTakeoverFence;
    if HandleBootstrap(state, WalTailObserved(tail)).state.ReadingWalTail? {
      later, w' := ReadOlderTail(later, w', pid, loaded, tail.value);
    }
  }

  lemma ReadOlderTail(steps: seq<WorldStep>, w: World, pid: nat, loaded: Loaded, tail: nat)
    returns (later: seq<WorldStep>, w': World)
    requires Reaches(steps, w) && At(w, pid, ReadingWalTail(loaded, |w.st.log| + 1, tail)) && loaded.claim == Head(w.st)
    requires tail in w.st.wal
    ensures Onward(steps, later, w') && w'.st == w.st
    ensures At(w', pid, EstablishingFence(loaded, |w.st.log| + 1))
    ensures Others(w', pid) == Others(w, pid) && w'.rq.wals == w.rq.wals + {FenceObject(loaded, |w.st.log| + 1)}
  {
    var state := ReadingWalTail(loaded, |w.st.log| + 1, tail);
    TailIsOlder(steps, w, pid, loaded, tail);
    hide Reaches, Others;
    later, w' := Answer(steps, w, pid, state, WalRead(Lookup(w.st.wal, tail)));
  }

  lemma TailIsOlder(steps: seq<WorldStep>, w: World, pid: nat, loaded: Loaded, tail: nat)
    requires Reaches(steps, w) && At(w, pid, ReadingWalTail(loaded, |w.st.log| + 1, tail)) && loaded.claim == Head(w.st)
    requires tail in w.st.wal
    ensures w.st.wal[tail].owner < loaded.claim
  {
    hide Reaches, StoreOk, LogRoomy, RequestsOk, ProcsOk, AcksOk, LoadedOk, FencesOnlyAt, RunningOk;
    ReachedInv(steps, w);
    ProcIsOk(w, pid);
    if w.st.wal[tail].owner >= loaded.claim {
      WorldBoot.NewerOwnerMeansNewerSeal(w.st, w.rq, pid, loaded, tail);
      assert false;
    }
  }

  // -------------------------------------------------------------- replaying

  /** Where replay starts once the FENCE stands. */
  function FirstReplay(loaded: Loaded, fence: nat): Replay {
    Replay(loaded, loaded.seal.replay.Cut() + 1, fence, loaded.seal.replay.Owner())
  }

  lemma LandFence(steps: seq<WorldStep>, w: World, pid: nat, loaded: Loaded) returns (later: seq<WorldStep>, w': World)
    requires Reaches(steps, w) && At(w, pid, EstablishingFence(loaded, |w.st.log| + 1))
    requires FenceObject(loaded, |w.st.log| + 1) in w.rq.wals
    ensures Onward(steps, later, w') && w'.st == Appended(w.st, FenceObject(loaded, |w.st.log| + 1))
    ensures At(w', pid, Replaying(FirstReplay(loaded, |w.st.log| + 1)))
    ensures Others(w', pid) == Others(w, pid) && w'.rq.wals == w.rq.wals - {FenceObject(loaded, |w.st.log| + 1)}
  {
    hide Reaches, Others, Appended;
    later, w' := LandBehindLog(steps, w, FenceObject(loaded, |w.st.log| + 1));
    assert Others(w', pid) == Others(w, pid) by { OthersFollow(w, w', pid); }
    later, w' := HearDurable(later, w', pid, loaded, |w.st.log| + 1);
  }

  lemma OthersFollow(w: World, w': World, pid: nat)
    requires w'.procs == w.procs && w'.rq.seals == w.rq.seals && w'.rq.deletes == w.rq.deletes
    requires w'.rq.collectors == w.rq.collectors
    ensures Others(w', pid) == Others(w, pid)
  {
  }

  /** A request for the coordinate behind the log lands there. */
  lemma LandBehindLog(steps: seq<WorldStep>, w: World, entry: WalObject) returns (later: seq<WorldStep>, w': World)
    requires Reaches(steps, w) && entry in w.rq.wals && entry.batch == |w.st.log| + 1
    ensures Onward(steps, later, w') && w' == w.(st := Appended(w.st, entry), rq := w.rq.(wals := w.rq.wals - {entry}))
    ensures WasCreated(w'.st, entry)
  {
    WalIsOneChain(steps, w);
    assert |w.st.log| + 1 !in w.st.wal;
    hide Reaches;
    later, w' := Extend(steps, w, LandWal(entry));
  }

  lemma HearDurable(steps: seq<WorldStep>, w: World, pid: nat, loaded: Loaded, fence: nat)
    returns (later: seq<WorldStep>, w': World)
    requires Reaches(steps, w) && At(w, pid, EstablishingFence(loaded, fence))
    requires WasCreated(w.st, FenceObject(loaded, fence))
    ensures Onward(steps, later, w') && w'.st == w.st && w'.rq == w.rq && Others(w', pid) == Others(w, pid)
    ensures At(w', pid, Replaying(FirstReplay(loaded, fence)))
  {
    NeverExitsOnDurable(steps, w, pid, loaded, fence);
    hide Reaches, WasCreated, Others;
    later, w' := Answer(steps, w, pid, EstablishingFence(loaded, fence), FenceEstablished(Durable));
  }

  lemma NeverExitsOnDurable(steps: seq<WorldStep>, w: World, pid: nat, loaded: Loaded, fence: nat)
    requires Reaches(steps, w) && At(w, pid, EstablishingFence(loaded, fence))
    ensures Successor(loaded.seal.replay.Cut()).Some?
  {
    hide Reaches, StoreOk, LogRoomy, RequestsOk, ProcsOk, AcksOk, FencesOnlyAt, RunningOk, Numbered, SealsOk,
      CutsRise, LogOk, WalOk, StateAt, Claimed;
    ReachedInv(steps, w);
    ProcIsOk(w, pid);
    StoreParts(w.st);
    WorldBoot.ClaimFacts(w.st, w.rq, pid, loaded);
  }

  /** Replay meets the log, object by object, until it has passed the FENCE. */
  lemma {:induction false} ReplayAll(steps: seq<WorldStep>, w: World, pid: nat, replay: Replay)
    returns (later: seq<WorldStep>, w': World, recovery: WriterRecovery)
    requires Reaches(steps, w) && At(w, pid, Replaying(replay)) && replay.loaded.claim == Head(w.st)
    ensures Onward(steps, later, w') && w'.st == w.st
    ensures At(w', pid, RefreshingFinal(recovery)) && recovery.claim == Head(w.st)
    ensures Others(w', pid) == Others(w, pid) && w'.rq.wals == w.rq.wals
    decreases replay.fence - replay.next
  {
    ReplaySucceeds(steps, w, pid, replay);
    var entry := w.st.log[replay.next - 1];
    hide Reaches, ReplayOne, Others;
    later, w' := Answer(steps, w, pid, Replaying(replay), WalRead(Some(entry)));
    if replay.next == replay.fence {
      recovery := HandleReplayRead(replay, Some(entry)).state.recovery;
    } else {
      var next := HandleReplayRead(replay, Some(entry)).state.replay;
      var more;
      more, w', recovery := ReplayAll(later, w', pid, next);
      later := more;
    }
  }

  lemma ReplaySucceeds(steps: seq<WorldStep>, w: World, pid: nat, replay: Replay)
    requires Reaches(steps, w) && At(w, pid, Replaying(replay)) && replay.loaded.claim == Head(w.st)
    ensures 1 <= replay.next <= |w.st.log| && replay.next <= replay.fence < U64_MAX
    ensures Lookup(w.st.wal, replay.next) == Some(w.st.log[replay.next - 1])
    ensures ReplayOne(replay.owner, replay.loaded.durable, w.st.log[replay.next - 1]).Some?
  {
    hide Reaches, StoreOk, LogRoomy, RequestsOk, ProcsOk, AcksOk, BootOk, RunningOk, ReplayOne, LoadedOk, Standing,
      ReplayExact, Numbered, SealsOk, WalOk, LogOk, StateAt;
    ReachedInv(steps, w);
    ProcIsOk(w, pid);
    WorldBoot.ReplayFacts(w.st, w.rq, pid, replay);
    WorldBoot.ReplayMeetsLog(w.st, w.rq, pid, replay);
  }

  // ------------------------------------------------------------- the theorem

  /** A new process claims the newest Seal and loads its tables. */
  lemma ClaimAndLoad(steps: seq<WorldStep>, w: World, pid: nat)
    returns (later: seq<WorldStep>, w': World, loaded: Loaded)
    requires Reaches(steps, w) && pid !in w.procs && Head(w.st) + 1 < U64_MAX
    ensures Onward(steps, later, w') && w'.st.log == w.st.log && NewestCut(w'.st) == NewestCut(w.st)
    ensures Head(w'.st) == Max(Head(w.st), 1) + 1
    ensures At(w', pid, ObservingWalTail(loaded, None)) && loaded.claim == Head(w'.st)
    ensures Others(w', pid) == Others(w, pid) && w'.rq.wals == w.rq.wals
  {
    hide Reaches, NewestCut, ReadNextTable, Others;
    var b;
    later, w' := FindHead(steps, w, pid);
    later, w', b := Claim(later, w', pid);
    later, w', loaded := LoadAll(later, w', pid, b);
  }

  /** A new process gets as far as its FENCE request, which is left on its way. */
  lemma RequestFence(steps: seq<WorldStep>, w: World, pid: nat)
    returns (later: seq<WorldStep>, w': World, loaded: Loaded)
    requires Reaches(steps, w) && pid !in w.procs && Head(w.st) + 1 < U64_MAX && |w.st.log| + 1 < U64_MAX
    requires |w.st.log| + 1 <= NewestCut(w.st) + WAL_SUFFIX_COORDINATES_MAX
    ensures Onward(steps, later, w') && w'.st.log == w.st.log && NewestCut(w'.st) == NewestCut(w.st)
    ensures Head(w'.st) == Max(Head(w.st), 1) + 1
    ensures At(w', pid, EstablishingFence(loaded, |w.st.log| + 1)) && loaded.claim == Head(w'.st)
    ensures Others(w', pid) == Others(w, pid) && w'.rq.wals == w.rq.wals + {FenceObject(loaded, |w.st.log| + 1)}
    ensures FenceObject(loaded, |w.st.log| + 1) !in w.rq.wals
  {
    hide Reaches, NewestCut, Others, Head;
    later, w', loaded := ClaimAndLoad(steps, w, pid);
    later, w' := PlaceBehindLog(later, w', pid, loaded);
    RequestsAreOlder(steps, w, FenceObject(loaded, |w.st.log| + 1));
  }

  lemma RequestsAreOlder(steps: seq<WorldStep>, w: World, entry: WalObject)
    requires Reaches(steps, w) && entry.owner > Head(w.st)
    ensures entry !in w.rq.wals
  {
    hide Reaches, StoreOk, LogRoomy, ProcsOk, AcksOk, SealRequestOk, CollectorsOk, OneRunEach, FenceSpot, FenceRank,
      RunSpot, RoomBehind;
    ReachedInv(steps, w);
    assert entry in w.rq.wals ==> WalRequestOk(w.st, entry);
  }

  /** A new process gets as far as its replay, its FENCE standing last. */
  lemma StartReplay(steps: seq<WorldStep>, w: World, pid: nat)
    returns (later: seq<WorldStep>, w': World, loaded: Loaded)
    requires Reaches(steps, w) && pid !in w.procs && Head(w.st) + 1 < U64_MAX && |w.st.log| + 1 < U64_MAX
    requires |w.st.log| + 1 <= NewestCut(w.st) + WAL_SUFFIX_COORDINATES_MAX
    ensures Onward(steps, later, w') && w'.st.log == w.st.log + [FenceObject(loaded, |w.st.log| + 1)]
    ensures NewestCut(w'.st) == NewestCut(w.st) && Head(w'.st) == Max(Head(w.st), 1) + 1 && loaded.claim == Head(w'.st)
    ensures At(w', pid, Replaying(FirstReplay(loaded, |w.st.log| + 1)))
    ensures Others(w', pid) == Others(w, pid) && w'.rq.wals == w.rq.wals
  {
    hide Reaches, Others;
    later, w', loaded := RequestFence(steps, w, pid);
    assert (w.rq.wals + {FenceObject(loaded, |w.st.log| + 1)}) - {FenceObject(loaded, |w.st.log| + 1)} == w.rq.wals;
    later, w' := LandFence(later, w', pid, loaded);
  }

  /** From every reachable world whose suffix has room, a process that starts now
      and is left alone becomes the writer, and what it serves is exactly the
      fold of the whole log. It leaves the replay cut, every other process and
      every other request where they were. */
  lemma TakeoverCanComplete(steps: seq<WorldStep>, w: World, pid: nat, interval: nat, buffer: nat)
    returns (later: seq<WorldStep>, w': World, recovery: WriterRecovery)
    requires Reaches(steps, w) && pid !in w.procs && BufferOk(buffer)
    requires Head(w.st) + 1 < U64_MAX && |w.st.log| + 1 < U64_MAX
    requires |w.st.log| + 1 <= NewestCut(w.st) + WAL_SUFFIX_COORDINATES_MAX
    ensures Onward(steps, later, w') && RecoveryOk(recovery)
    ensures pid in w'.procs && w'.procs[pid] == Running(Spawned(recovery, interval, buffer))
    ensures |w'.st.log| == |w.st.log| + 1 && w.st.log <= w'.st.log && w'.st.log[|w.st.log|].body.Fence?
    ensures recovery.claim == Head(w'.st) == w'.st.log[|w.st.log|].owner
    ensures recovery.durableBatch == |w'.st.log| && FoldLog(w'.st.log) == Some(recovery.durable)
    ensures NewestCut(w'.st) == NewestCut(w.st) && Head(w'.st) == Max(Head(w.st), 1) + 1
    ensures Others(w', pid) == Others(w, pid) && w'.rq.wals == w.rq.wals
  {
    hide Reaches, NewestCut, FoldLog, Spawned, Others;
    var loaded;
    later, w', loaded := StartReplay(steps, w, pid);
    var replay := FirstReplay(loaded, |w.st.log| + 1);
    later, w', recovery := ReplayAll(later, w', pid, replay);
    later, w' := Finish(later, w', pid, recovery, interval, buffer);
  }

  lemma Finish(steps: seq<WorldStep>, w: World, pid: nat, recovery: WriterRecovery, interval: nat, buffer: nat)
    returns (later: seq<WorldStep>, w': World)
    requires Reaches(steps, w) && At(w, pid, RefreshingFinal(recovery)) && recovery.claim == Head(w.st)
    requires BufferOk(buffer)
    ensures Onward(steps, later, w') && w'.st == w.st && RecoveryOk(recovery)
    ensures pid in w'.procs && w'.procs[pid] == Running(Spawned(recovery, interval, buffer))
    ensures recovery.durableBatch == |w.st.log| && FoldLog(w.st.log) == Some(recovery.durable)
    ensures Others(w', pid) == Others(w, pid) && w'.rq.wals == w.rq.wals
  {
    ReachedNumbers(steps, w);
    HeadIsNewest(w.st);
    ClaimIsNotZero(steps, w, pid, recovery);
    hide Reaches, IsNewest, Numbered, FoldLog, Spawned;
    var event := HeadObserved(Some(Head(w.st)));
    later, w' := Extend(steps, w, BootTurn(pid, event, interval, buffer));
    RecoveryIsExact(steps, w, pid, event, interval, buffer, recovery);
    assert w'.procs - {pid} == w.procs - {pid};
  }

  lemma ClaimIsNotZero(steps: seq<WorldStep>, w: World, pid: nat, recovery: WriterRecovery)
    requires Reaches(steps, w) && At(w, pid, RefreshingFinal(recovery))
    ensures recovery.claim >= 2
  {
    hide Reaches, StoreOk, LogRoomy, RequestsOk, ProcsOk, AcksOk, Standing, RunningOk, StateAt, NoRunOf,
      SupersededByNewer;
    ReachedInv(steps, w);
    ProcIsOk(w, pid);
  }
}
