/** How often one bootstrap tries to place its FENCE. */
module WorldAttempts {
  import opened Common
  import opened Domain
  import opened Suffix
  import opened BootstrapSpec
  import opened Nodes
  import opened Worlds
  import opened WorldRuns
  import opened WorldTheorems

  /** The coordinates of the FENCEs a bootstrap step asks for. */
  function Placed(step: BootstrapStep): seq<nat> {
    if step.Await? && step.effect.EstablishFence? then [step.effect.fence.batch] else []
  }

  /** The FENCE candidates of one process over a run, in order. */
  ghost function Candidates(steps: seq<WorldStep>, pid: nat): seq<nat>
    requires RunWorld(steps).Some?
  {
    if steps == [] then []
    else
      var before, step := RunWorld(steps[..|steps| - 1]).value, steps[|steps| - 1];
      Candidates(steps[..|steps| - 1], pid) +
      if step.BootTurn? && step.pid == pid then
        Placed(HandleBootstrap(before.procs[pid].state, step.answer).step)
      else []
  }

  predicate Ascending(candidates: seq<nat>) {
    forall i, j :: 0 <= i < j < |candidates| ==> candidates[i] < candidates[j]
  }

  /** Strictly ascending, after `low` and up to `high`. */
  predicate Inside(candidates: seq<nat>, low: nat, high: nat) {
    Ascending(candidates) && forall i :: 0 <= i < |candidates| ==> low < candidates[i] <= high
  }

  predicate Few(candidates: seq<nat>) { Ascending(candidates) && |candidates| <= WAL_SUFFIX_COORDINATES_MAX }

  lemma {:induction false} InsideIsShort(candidates: seq<nat>, low: nat, high: nat)
    requires Inside(candidates, low, high) && low <= high
    ensures |candidates| <= high - low
    decreases |candidates|
  {
    if candidates != [] {
      var last := candidates[|candidates| - 1];
      InsideIsShort(candidates[..|candidates| - 1], low, last - 1);
    }
  }

  /** Where the candidates so far lie, by the state they have led to. */
  predicate Within(state: BootstrapState, candidates: seq<nat>) {
    match state
    case ObservingWalTail(loaded, occupied) =>
      var cut := loaded.seal.replay.Cut();
      if occupied.None? then candidates == []
      else Inside(candidates, cut, occupied.value) && cut <= occupied.value <= cut + WAL_SUFFIX_COORDINATES_MAX
    case ReadingWalTail(loaded, fence, _) =>
      var cut := loaded.seal.replay.Cut();
      cut < fence <= cut + WAL_SUFFIX_COORDINATES_MAX && Inside(candidates, cut, fence - 1)
    case EstablishingFence(loaded, fence) =>
      var cut := loaded.seal.replay.Cut();
      cut < fence <= cut + WAL_SUFFIX_COORDINATES_MAX && Inside(candidates, cut, fence)
    case Replaying(_) => Few(candidates)
    case RefreshingAnomaly(_) => Few(candidates)
    case RefreshingFinal(_) => Few(candidates)
    case Finished => Few(candidates)
    case _ => candidates == []
  }

  lemma WithinIsFew(state: BootstrapState, candidates: seq<nat>)
    requires Within(state, candidates)
    ensures Few(candidates)
  {
    match state
    case ObservingWalTail(loaded, occupied) =>
      if occupied.Some? { InsideIsShort(candidates, loaded.seal.replay.Cut(), occupied.value); }
    case ReadingWalTail(loaded, fence, _) => InsideIsShort(candidates, loaded.seal.replay.Cut(), fence - 1);
    case EstablishingFence(loaded, fence) => InsideIsShort(candidates, loaded.seal.replay.Cut(), fence);
    case _ =>
  }

  lemma ListingStaysWithin(loaded: Loaded, occupied: Option<nat>, tail: Option<nat>, candidates: seq<nat>)
    requires Within(ObservingWalTail(loaded, occupied), candidates)
    ensures var t := HandleWalTail(loaded, occupied, tail);
      t.step.Await? ==> Within(t.state, candidates + Placed(t.step))
  {
    var candidate := PlanFenceCandidate(loaded.seal.replay.Batch(), tail);
    if candidate.Some? {
      FenceBoundExactly(loaded.seal.replay.Batch(), candidate.value);
      hide PlanFenceCandidate, BoundTakeoverFence;
      assert candidates + [] == candidates;
    }
  }

  /** Whatever the store answers, honest or not, one more step of a bootstrap
      keeps its candidates ascending inside the suffix bound. */
  lemma AnswerStaysWithin(state: BootstrapState, event: BootstrapEvent, candidates: seq<nat>)
    requires Answers(state, event) && Within(state, candidates)
    ensures var t := HandleBootstrap(state, event);
      && Few(candidates + Placed(t.step))
      && (t.step.Await? ==> Within(t.state, candidates + Placed(t.step)))
  {
    var t := HandleBootstrap(state, event);
    WithinIsFew(state, candidates);
    assert candidates + [] == candidates;
    if event.WalTailObserved? {
      ListingStaysWithin(state.loaded, state.occupied, event.tail, candidates);
    }
    hide HandleWalTail, ReplayOne;
    if t.step.Await? {
      assert Within(t.state, candidates + Placed(t.step));
      WithinIsFew(t.state, candidates + Placed(t.step));
    }
  }

  /** The candidates of a process, by what it is now. */
  ghost predicate Counted(w: World, pid: nat, candidates: seq<nat>) {
    if pid !in w.procs then candidates == []
    else if w.procs[pid].Booting? then Within(w.procs[pid].state, candidates)
    else Few(candidates)
  }

  lemma TurnStaysCounted(w: World, step: WorldStep, pid: nat, candidates: seq<nat>)
    requires Enabled(w, step) && Sound(w, step) && step.BootTurn? && step.pid == pid && Counted(w, pid, candidates)
    ensures Counted(Step(w, step), pid, candidates + Placed(HandleBootstrap(w.procs[pid].state, step.answer).step))
  {
    hide StoreAnswers, Answers, HandleBootstrap, Within, Few, Spawned;
    AnswerStaysWithin(w.procs[pid].state, step.answer, candidates);
  }

  lemma OthersStayCounted(w: World, step: WorldStep, pid: nat, candidates: seq<nat>)
    requires Enabled(w, step) && Sound(w, step) && !(step.BootTurn? && step.pid == pid) && Counted(w, pid, candidates)
    ensures Counted(Step(w, step), pid, candidates)
  {
    hide StoreAnswers, WriterAnswers, Deliverable, HandleBootstrap, Answers, Turn, Issue, IssueBoot, Spawned,
      Few;
    if step.Crash? && step.pid == pid && w.procs[pid].Booting? {
      WithinIsFew(w.procs[pid].state, candidates);
    }
  }

  /** Over every run, each process asks for FENCEs at strictly rising coordinates
      and at most as often as the suffix has coordinates. */
  lemma {:induction false} FenceLoopEnds(steps: seq<WorldStep>, w: World, pid: nat)
    requires Reaches(steps, w)
    ensures Counted(w, pid, Candidates(steps, pid))
    ensures Ascending(Candidates(steps, pid)) && |Candidates(steps, pid)| <= WAL_SUFFIX_COORDINATES_MAX
    decreases |steps|
  {
    hide Enabled, Sound, Step, Counted, Placed, HandleBootstrap;
    if steps == [] {
      NothingCounted(w, pid);
    } else {
      var front, step := steps[..|steps| - 1], steps[|steps| - 1];
      var before := RunWorld(front).value;
      FenceLoopEnds(front, before, pid);
      if step.BootTurn? && step.pid == pid {
        TurnStaysCounted(before, step, pid, Candidates(front, pid));
      } else {
        OthersStayCounted(before, step, pid, Candidates(front, pid));
        assert Candidates(front, pid) + [] == Candidates(front, pid);
      }
    }
    CountedIsFew(w, pid, Candidates(steps, pid));
  }

  lemma NothingCounted(w: World, pid: nat)
    requires w == EMPTY_WORLD
    ensures Counted(w, pid, [])
  {
  }

  lemma CountedIsFew(w: World, pid: nat, candidates: seq<nat>)
    requires Counted(w, pid, candidates)
    ensures Few(candidates)
  {
    if pid in w.procs && w.procs[pid].Booting? {
      WithinIsFew(w.procs[pid].state, candidates);
    }
  }
}
