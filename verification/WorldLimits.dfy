/** Runs in which takeovers that crash one after the other use up the suffix, and
    what becomes of the partition then. */
module WorldLimits {
  import opened Common
  import opened Domain
  import opened Forests
  import opened Logs
  import opened Seals
  import opened Merge
  import opened Checkpoints
  import opened BootstrapSpec
  import opened Nodes
  import opened Stores
  import opened Worlds
  import opened WorldInvariant
  import opened WorldRuns
  import opened WorldTheorems
  import opened WorldProgress

  // -------------------------------------------------------- repeated takeovers

  lemma NewPid(procs: map<nat, Proc>) returns (pid: nat)
    ensures pid !in procs
  {
    if procs == map[] {
      pid := 0;
    } else {
      var k := Greatest(procs.Keys);
      pid := k + 1;
    }
  }

  /** The processes of `w` are still as they were; others may have joined. */
  ghost predicate Undisturbed(w: World, w': World) {
    && (forall p :: p in w.procs ==> p in w'.procs && w'.procs[p] == w.procs[p])
    && w'.rq.wals == w.rq.wals && CheckpointRequests(w'.rq) == CheckpointRequests(w.rq)
    && w'.rq.deletes == w.rq.deletes && w'.rq.collectors == w.rq.collectors
  }

  lemma OthersUndisturbed(w: World, w': World, pid: nat)
    requires pid !in w.procs && Others(w', pid) == Others(w, pid) && w'.rq.wals == w.rq.wals
    ensures Undisturbed(w, w')
  {
    forall p | p in w.procs ensures p in w'.procs && w'.procs[p] == w.procs[p] {
      assert p in w.procs - {pid} && p in w'.procs - {pid};
      assert (w.procs - {pid})[p] == (w'.procs - {pid})[p];
    }
  }

  /** One takeover that crashes as soon as it has become the writer. */
  lemma CrashingTakeover(steps: seq<WorldStep>, w: World) returns (later: seq<WorldStep>, w': World)
    requires Reaches(steps, w) && Head(w.st) + 1 < U64_MAX && |w.st.log| + 1 < U64_MAX
    requires |w.st.log| + 1 <= NewestCut(w.st) + WAL_SUFFIX_COORDINATES_MAX
    ensures Onward(steps, later, w') && Undisturbed(w, w')
    ensures |w'.st.log| == |w.st.log| + 1 && w.st.log <= w'.st.log
    ensures NewestCut(w'.st) == NewestCut(w.st) && Head(w'.st) == Max(Head(w.st), 1) + 1
    ensures forall p :: p in w'.procs && p !in w.procs ==> w'.procs[p] == Dead
  {
    hide Reaches, NewestCut, Head, FoldLog, Spawned, Others, Undisturbed;
    var pid := NewPid(w.procs);
    var up, recovery;
    later, up, recovery := TakeoverCanComplete(steps, w, pid, 0, 1);
    later, w' := Extend(later, up, Crash(pid));
    CrashIsQuiet(w, up, w', pid);
  }

  lemma CrashIsQuiet(w: World, up: World, w': World, pid: nat)
    requires pid !in w.procs && Others(up, pid) == Others(w, pid) && up.rq.wals == w.rq.wals
    requires w' == up.(procs := up.procs[pid := Dead])
    ensures Undisturbed(w, w')
    ensures forall p :: p in w'.procs && p !in w.procs ==> w'.procs[p] == Dead
  {
    assert w'.procs - {pid} == up.procs - {pid};
    OthersUndisturbed(w, w', pid);
    forall p | p in w'.procs && p !in w.procs ensures w'.procs[p] == Dead {
      assert p != pid ==> p in w'.procs - {pid} && p in w.procs - {pid};
    }
  }

  /** Any number of takeovers that the suffix has room for. */
  lemma {:induction false} CrashingTakeovers(steps: seq<WorldStep>, w: World, n: nat)
    returns (later: seq<WorldStep>, w': World)
    requires Reaches(steps, w) && Head(w.st) + n + 1 < U64_MAX && |w.st.log| + n < U64_MAX
    requires |w.st.log| + n <= NewestCut(w.st) + WAL_SUFFIX_COORDINATES_MAX
    ensures Onward(steps, later, w') && Undisturbed(w, w')
    ensures |w'.st.log| == |w.st.log| + n && w.st.log <= w'.st.log
    ensures NewestCut(w'.st) == NewestCut(w.st) && Head(w'.st) <= Head(w.st) + n + 1
    ensures forall p :: p in w'.procs && p !in w.procs ==> w'.procs[p] == Dead
    decreases n
  {
    hide Reaches, NewestCut, Head;
    if n == 0 {
      later, w' := steps, w;
    } else {
      var most;
      later, most := CrashingTakeovers(steps, w, n - 1);
      later, w' := CrashingTakeover(later, most);
    }
  }

  // ------------------------------------------------------ the suffix runs out

  /** The newest claim listing a full suffix gives up, whatever it is told. */
  lemma FullSuffixExits(steps: seq<WorldStep>, w: World, pid: nat, loaded: Loaded, tail: Option<nat>)
    requires Reaches(steps, w) && At(w, pid, ObservingWalTail(loaded, None)) && loaded.claim == Head(w.st)
    requires |w.st.log| >= NewestCut(w.st) + WAL_SUFFIX_COORDINATES_MAX && IsNewest(w.st.wal, tail)
    ensures HandleBootstrap(ObservingWalTail(loaded, None), WalTailObserved(tail)).step == Exited(Retryable)
  {
    TakeoverIsBounded(steps, w, pid, tail);
    CandidateClearsHistory(steps, w, pid, tail);
    hide Reaches, IsNewest, PlanFenceCandidate;
    assert loaded.seal.replay.Cut() == NewestCut(w.st);
  }

  lemma CutIsInTheLog(steps: seq<WorldStep>, w: World)
    requires Reaches(steps, w)
    ensures NewestCut(w.st) <= |w.st.log|
  {
    hide Reaches, StoreOk, LogRoomy, RequestsOk, ProcsOk, AcksOk, CutsRise, LogOk, WalOk, SealHolds, StateAt,
      Constructible;
    ReachedInv(steps, w);
    StoreParts(w.st);
    assert Head(w.st) in w.st.seals ==> SealOk(w.st.log, w.st.seals[Head(w.st)]);
  }

  /** From every reachable world, takeovers that crash one after the other lead
      to a world in which the suffix is full and the next takeover, its claim
      the newest, can only exit. */
  lemma SuffixRunsOut(steps: seq<WorldStep>, w: World)
    returns (later: seq<WorldStep>, w': World, pid: nat, loaded: Loaded)
    requires Reaches(steps, w) && Head(w.st) + WAL_SUFFIX_COORDINATES_MAX + 3 < U64_MAX
    requires NewestCut(w.st) + WAL_SUFFIX_COORDINATES_MAX < U64_MAX
    ensures Onward(steps, later, w') && w.st.log <= w'.st.log && NewestCut(w'.st) == NewestCut(w.st)
    ensures |w'.st.log| >= NewestCut(w'.st) + WAL_SUFFIX_COORDINATES_MAX
    ensures At(w', pid, ObservingWalTail(loaded, None)) && loaded.claim == Head(w'.st)
    ensures forall tail :: IsNewest(w'.st.wal, tail) ==>
      HandleBootstrap(ObservingWalTail(loaded, None), WalTailObserved(tail)).step == Exited(Retryable)
  {
    hide Reaches, NewestCut, Head, Others, Undisturbed, IsNewest, HandleBootstrap;
    var full := NewestCut(w.st) + WAL_SUFFIX_COORDINATES_MAX;
    later, w' := steps, w;
    if |w.st.log| < full {
      CutIsInTheLog(steps, w);
      later, w' := CrashingTakeovers(steps, w, full - |w.st.log|);
    }
    pid := NewPid(w'.procs);
    later, w', loaded := ClaimAndLoad(later, w', pid);
    forall tail | IsNewest(w'.st.wal, tail)
      ensures HandleBootstrap(ObservingWalTail(loaded, None), WalTailObserved(tail)).step == Exited(Retryable)
    {
      FullSuffixExits(later, w', pid, loaded, tail);
    }
  }

  // ---------------------------------------------------------- and for good

  /** A bootstrap that has not asked for a FENCE. */
  predicate Early(state: BootstrapState) {
    match state
    case ReadingWalTail(_, _, _) => false
    case EstablishingFence(_, _) => false
    case Replaying(_) => false
    case RefreshingFinal(_) => false
    case _ => true
  }

  predicate NobodyWrites(procs: map<nat, Proc>) {
    forall pid :: pid in procs ==> procs[pid].Dead? || (procs[pid].Booting? && Early(procs[pid].state))
  }

  /** The suffix is full, nobody writes or has planned a FENCE, and no checkpoint
      is on its way to move the cut. */
  predicate Exhausted(w: World) {
    && |w.st.log| >= NewestCut(w.st) + WAL_SUFFIX_COORDINATES_MAX
    && NobodyWrites(w.procs)
    && CheckpointRequests(w.rq) == {}
  }

  /** Any listing of a full suffix, whichever claim asks, ends the bootstrap. */
  lemma ListingExits(st: Store, rq: Requests, pid: nat, loaded: Loaded, occupied: Option<nat>, tail: Option<nat>)
    requires StoreOk(st) && LoadedOk(st, rq, pid, loaded) && IsNewest(st.wal, tail)
    requires |st.log| >= NewestCut(st) + WAL_SUFFIX_COORDINATES_MAX
    ensures HandleWalTail(loaded, occupied, tail).step.Exited?
  {
    hide StoreOk, LoadedOk, IsNewest, NewestCut, Numbered, SealsOk, CutsRise, LogOk, WalOk;
    StoreParts(st);
    ClaimedCut(st, rq, pid, loaded);
    FullTail(st, tail);
  }

  lemma ClaimedCut(st: Store, rq: Requests, pid: nat, loaded: Loaded)
    requires Numbered(st) && CutsRise(st) && LoadedOk(st, rq, pid, loaded)
    ensures loaded.seal.replay.Cut() <= NewestCut(st)
  {
    hide NoRunOf, SupersededByNewer, StateAt;
  }

  lemma FullTail(st: Store, tail: Option<nat>)
    requires WalOk(st) && NewestCut(st) < |st.log| && IsNewest(st.wal, tail)
    ensures tail == Some(|st.log|)
  {
    hide NewestCut, Belongs, OwnerAfter;
    assert Intact(st, |st.log|) || Hole(st, |st.log|);
  }

  lemma EarlyStaysEarly(st: Store, rq: Requests, pid: nat, state: BootstrapState, event: BootstrapEvent)
    requires StoreOk(st) && BootOk(st, rq, pid, state) && StoreAnswers(st, pid, state, event) && Answers(state, event)
    requires Early(state) && |st.log| >= NewestCut(st) + WAL_SUFFIX_COORDINATES_MAX
    ensures var t := HandleBootstrap(state, event);
      && !t.step.Recovered? && (t.step.Await? ==> Early(t.state) && !t.step.effect.EstablishFence?)
  {
    hide StoreOk, LoadedOk, FencesOnlyAt, FenceSpot, Claimed, Unclaimed, CandidateOk, TablesOk, IsNewest, NewestCut,
      HandleWalTail, MergeTable, Complete, DecodedOk, PlanBootstrapSources, ClaimSuccessor;
    if event.WalTailObserved? {
      ListingExits(st, rq, pid, state.loaded, state.occupied, event.tail);
    }
  }

  lemma BootTurnStaysExhausted(steps: seq<WorldStep>, w: World, pid: nat, event: BootstrapEvent, interval: nat,
                               buffer: nat)
    requires Reaches(steps, w) && Exhausted(w) && Enabled(w, BootTurn(pid, event, interval, buffer))
    requires Sound(w, BootTurn(pid, event, interval, buffer))
    ensures Exhausted(Step(w, BootTurn(pid, event, interval, buffer)))
  {
    hide Reaches, StoreOk, LogRoomy, RequestsOk, ProcsOk, AcksOk, BootOk, RunningOk, StoreAnswers, HandleBootstrap,
      Answers, NewestCut, Early;
    ReachedInv(steps, w);
    ProcIsOk(w, pid);
    EarlyStaysEarly(w.st, w.rq, pid, w.procs[pid].state, event);
  }

  lemma SealStaysExhausted(steps: seq<WorldStep>, w: World, r: SealRequest)
    requires Reaches(steps, w) && Exhausted(w) && r in w.rq.seals
    ensures Exhausted(Step(w, LandSeal(r)))
  {
    hide Reaches, StoreOk, LogRoomy, ProcsOk, AcksOk, SealsOk, CutsRise, LogOk, WalOk, WalRequestOk, CollectorsOk,
      SealOk, OneRunEach, NobodyWrites;
    ReachedInv(steps, w);
    StoreParts(w.st);
    assert r.purpose.ForCheckpoint? ==> r in CheckpointRequests(w.rq);
    assert CheckpointRequests(Step(w, LandSeal(r)).rq) <= CheckpointRequests(w.rq);
    if r.seal.generation !in w.st.seals {
      assert SealRequestOk(w.st, r);
      SealGrowsHead(w.st, r.pid, r.seal);
    }
  }

  lemma StepStaysExhausted(steps: seq<WorldStep>, w: World, step: WorldStep)
    requires Reaches(steps, w) && Exhausted(w) && Enabled(w, step) && Sound(w, step)
    ensures Exhausted(Step(w, step))
  {
    match step
    case BootTurn(pid, event, interval, buffer) => BootTurnStaysExhausted(steps, w, pid, event, interval, buffer);
    case LandSeal(r) => SealStaysExhausted(steps, w, r);
    case WriterTurn(pid, _, _) =>
    case _ => OtherStepStaysExhausted(w, step);
  }

  lemma OtherStepStaysExhausted(w: World, step: WorldStep)
    requires Exhausted(w) && Enabled(w, step) && Sound(w, step)
    requires !step.BootTurn? && !step.LandSeal? && !step.WriterTurn?
    ensures Exhausted(Step(w, step))
  {
    assert NewestCut(Step(w, step).st) == NewestCut(w.st);
    hide NewestCut;
  }

  /** Once the suffix is exhausted no process ever becomes a writer again. */
  lemma {:induction false} ExhaustedForGood(steps: seq<WorldStep>, w: World, later: seq<WorldStep>, w': World)
    requires Reaches(steps, w) && Reaches(steps + later, w') && Exhausted(w)
    ensures Exhausted(w') && forall pid :: pid in w'.procs ==> !w'.procs[pid].Running?
    decreases |later|
  {
    hide Exhausted;
    if later == [] {
      assert steps + later == steps;
    } else {
      var all := steps + later;
      var front := later[..|later| - 1];
      assert all[..|all| - 1] == steps + front;
      hide Enabled, Sound, Step;
      var before := RunWorld(all[..|all| - 1]).value;
      assert Reaches(steps + front, before);
      ExhaustedForGood(steps, w, front, before);
      StepStaysExhausted(steps + front, before, all[|all| - 1]);
    }
    NobodyRuns(w');
  }

  lemma NobodyRuns(w: World)
    requires Exhausted(w)
    ensures forall pid :: pid in w.procs ==> !w.procs[pid].Running?
  {
    hide NewestCut;
  }

  /** Such a world is reached by crashes alone: after as many takeovers as the
      suffix has coordinates the partition has no writer and never gets one. */
  lemma ExhaustionHappens() returns (steps: seq<WorldStep>, w: World)
    ensures Reaches(steps, w) && Exhausted(w)
  {
    assert Reaches([], EMPTY_WORLD);
    assert NewestCut(EMPTY_WORLD.st) == 0 && Head(EMPTY_WORLD.st) == 0 && CheckpointRequests(EMPTY_WORLD.rq) == {};
    hide Reaches, NewestCut, Head;
    steps, w := CrashingTakeovers([], EMPTY_WORLD, WAL_SUFFIX_COORDINATES_MAX);
  }

}
