/** What every run of any number of bootstraps, writers, collectors, crashes and
    delayed requests guarantees. */
module WorldTheorems {
  import opened Common
  import opened Domain
  import opened Forests
  import opened Logs
  import opened Seals
  import opened Suffix
  import opened Checkpoints
  import opened WriterSpec
  import opened WriterInvariant
  import opened BootstrapSpec
  import opened Nodes
  import opened NodeTheorems
  import opened Stores
  import opened Worlds
  import opened WorldInvariant
  import opened WorldBystander
  import opened WorldRuns
  import WorldBoot
  import WorldLanding
  import WorldTurn
  import WorldWriter

  ghost predicate Reaches(steps: seq<WorldStep>, w: World) { RunWorld(steps) == Some(w) }

  lemma ReachedInv(steps: seq<WorldStep>, w: World)
    requires Reaches(steps, w)
    ensures StoreOk(w.st) && LogRoomy(w.st) && RequestsOk(w.st, w.rq) && ProcsOk(w) && AcksOk(w)
  {
    hide WorldInv, StoreOk, LogRoomy, RequestsOk, ProcsOk, AcksOk, RunWorld;
    assert RunWorld(steps) == Some(w) by { Unreach(steps, w); }
    EveryRunKeepsWorld(steps);
    Unfold(w);
  }

  lemma Unreach(steps: seq<WorldStep>, w: World)
    requires Reaches(steps, w)
    ensures RunWorld(steps) == Some(w)
  {
  }

  // ----------------------------------------------------------------- no panics

  /** No assertion, expectation or panic of either machine is ever reached: any
      answer an honest store can give in a reachable world is accepted. */
  lemma NoPanics(steps: seq<WorldStep>, w: World, step: WorldStep)
    requires Reaches(steps, w) && Enabled(w, step)
    ensures Sound(w, step)
  {
    hide WorldInv, Enabled, Sound, Step, StoreOk, LogRoomy, RequestsOk, ProcsOk, AcksOk;
    ReachedInv(steps, w);
    Refold(w);
    StepKeepsWorld(w, step);
  }

  /** The forests that admission decides against and that replay folds into are
      complete in every reachable world, so no live row ever lacks the record
      that the fold and the admission expect of it. */
  lemma {:induction false} ForestsAreComplete(steps: seq<WorldStep>, w: World, pid: nat)
    requires Reaches(steps, w) && pid in w.procs
    ensures w.procs[pid].Booting? ==> Whole(w.procs[pid].state)
    ensures w.procs[pid].Running? ==>
      Complete(w.procs[pid].node.machine.durable.forest) && Complete(w.procs[pid].node.machine.admitted.forest)
  {
    hide Whole, Complete;
    if w.procs[pid].Booting? {
      BootsStayWhole(steps, w, pid);
    } else if w.procs[pid].Running? {
      hide Reaches, StoreOk, LogRoomy, RequestsOk, ProcsOk, AcksOk, RunningOk;
      ReachedInv(steps, w);
      ProcIsOk(w, pid);
      RunningForests(w.st, w.rq, pid, w.procs[pid].node);
    }
  }

  lemma RunningForests(st: Store, rq: Requests, pid: nat, n: Node)
    requires StoreOk(st) && RunningOk(st, rq, pid, n)
    ensures Complete(n.machine.durable.forest) && Complete(n.machine.admitted.forest)
  {
    hide StoreOk, Inv, Mid, Matches, Authority, CheckpointTrue, Carries, Numbered, SealsOk, CutsRise, LogOk, WalOk,
      StateAt, NextIsOurs, Coordinates, Roomy, Bounded, CheckpointOk, FoldFacts, Facts, FoldLog, Complete;
    StoreParts(st);
    WorldWriter.LogFolds(st);
    var s := n.machine;
    StateAtIsFold(st.log, s.durableBatch);
    WorldTurn.InvIsMid(s);
    WorldWriter.MidParts(s);
    if s.flight.Some? { FoldFactsKeepComplete(s.durable.forest, s.flight.value.batch, s.flight.value.facts); }
    FoldFactsKeepComplete(Basis(s).forest, s.nextBatch, Facts(s.pending.commands));
  }

  lemma {:induction false} BootsStayWhole(steps: seq<WorldStep>, w: World, pid: nat)
    requires Reaches(steps, w) && pid in w.procs && w.procs[pid].Booting?
    ensures Whole(w.procs[pid].state)
    decreases |steps|
  {
    if steps != [] {
      hide Enabled, HandleBootstrap, Answers, Whole, Turn, Handle, Issue, IssueBoot, Sent, Faithful, RecoveryOk,
        Spawned;
      var front, step := steps[..|steps| - 1], steps[|steps| - 1];
      var before := RunWorld(front).value;
      assert Reaches(front, before);
      if pid in before.procs && before.procs[pid].Booting? { BootsStayWhole(front, before, pid); }
      if step.BootTurn? && step.pid == pid {
        HandleKeepsWhole(before.procs[pid].state, step.answer);
      }
      InitialIsWhole();
    }
  }

  lemma InitialIsWhole()
    ensures Whole(Initial)
  {
  }

  // ------------------------------------------------------------- time goes on

  lemma StepGrows(w: World, step: WorldStep)
    requires Enabled(w, step) && Sound(w, step)
    ensures w.st.log <= Step(w, step).st.log && w.acks <= Step(w, step).acks
    ensures forall k: nat, pid: nat :: AuthoredBy(w.st, k, pid) && w.st.authors.Keys == w.st.seals.Keys ==>
      AuthoredBy(Step(w, step).st, k, pid)
  {
    hide StoreAnswers, WriterAnswers, Deliverable, HandleBootstrap, Answers, Faithful, Handle, Turn, Issue, IssueBoot,
      Sent;
  }

  /** History only grows: the log, the authors and the replies of a run are kept
      by every continuation of it. */
  lemma {:induction false} RunsGrow(steps: seq<WorldStep>, w: World, later: seq<WorldStep>, w': World)
    requires Reaches(steps, w) && Reaches(steps + later, w')
    ensures w.st.log <= w'.st.log && w.acks <= w'.acks
    ensures forall k: nat, pid: nat :: AuthoredBy(w.st, k, pid) ==> AuthoredBy(w'.st, k, pid)
    decreases |later|
  {
    if later == [] {
      assert steps + later == steps;
    } else {
      var all := steps + later;
      var front := later[..|later| - 1];
      assert all[..|all| - 1] == steps + front;
      hide Enabled, Sound, Step;
      var before := RunWorld(all[..|all| - 1]).value;
      assert Reaches(steps + front, before);
      RunsGrow(steps, w, front, before);
      StepGrows(before, all[|all| - 1]);
      assert before.st.authors.Keys == before.st.seals.Keys by { ReachedNumbers(steps + front, before); }
    }
  }

  lemma ReachedNumbers(steps: seq<WorldStep>, w: World)
    requires Reaches(steps, w)
    ensures w.st.authors.Keys == w.st.seals.Keys && Numbered(w.st)
  {
    hide Reaches, StoreOk, LogRoomy, RequestsOk, ProcsOk, AcksOk, SealsOk, CutsRise, LogOk, WalOk;
    ReachedInv(steps, w);
    StoreParts(w.st);
  }

  // ---------------------------------------------------------- split-brain safety

  /** The WAL above the newest replay cut is gap-free and is the log itself; along
      the log every RUN keeps the owner in force and every FENCE raises it. */
  lemma WalIsOneChain(steps: seq<WorldStep>, w: World)
    requires Reaches(steps, w)
    ensures forall b :: NewestCut(w.st) < b <= |w.st.log| ==> b in w.st.wal && w.st.wal[b] == w.st.log[b - 1]
    ensures forall b :: b in w.st.wal ==> 1 <= b <= |w.st.log|
    ensures forall i :: 0 <= i < |w.st.log| ==> Continues(w.st.log[..i], w.st.log[i])
  {
    hide Reaches, StoreOk, LogRoomy, RequestsOk, ProcsOk, AcksOk, Numbered, SealsOk, CutsRise, FoldLog, NewestCut,
      Belongs;
    ReachedInv(steps, w);
    StoreParts(w.st);
    forall b | NewestCut(w.st) < b <= |w.st.log|
      ensures b in w.st.wal && w.st.wal[b] == w.st.log[b - 1]
    {
      assert Intact(w.st, b) || Hole(w.st, b);
    }
  }

  /** Nothing of an older owner follows the objects present in a prefix. */
  lemma LaterOwnersRise(st: Store, next: Store, f: nat, i: nat)
    requires WalOk(st) && LogOk(next) && st.log <= next.log && f in st.wal && |st.log| <= i < |next.log|
    ensures next.log[i].owner >= st.wal[f].owner
  {
    hide Belongs, Hole, FoldLog, Chain;
    OwnersRise(next.log, |st.log| - 1, i);
  }

  lemma RunsAboveRise(st: Store, f: nat, b: nat)
    requires WalOk(st) && LogOk(st) && 1 <= f < b && b in st.wal && st.wal[b].body.Run?
    ensures b <= |st.log| && st.wal[b].owner >= st.log[f - 1].owner
  {
    hide Belongs, FoldLog, Chain, OwnerAfter;
    assert Intact(st, b) || Hole(st, b);
    OwnersRise(st.log, f - 1, b - 1);
  }

  /** Once a FENCE stands at `f`, whether it was first there or settled late in
      the hole of a collected RUN, nothing of an older owner is ever appended,
      however late its create lands. Above a FENCE that was first at its
      coordinate no RUN of an older owner is ever found. */
  lemma FenceShutsOutOlderRuns(steps: seq<WorldStep>, w: World, later: seq<WorldStep>, w': World, f: nat)
    requires Reaches(steps, w) && Reaches(steps + later, w')
    requires f in w.st.wal && w.st.wal[f].body.Fence?
    ensures w.st.log <= w'.st.log
    ensures forall i :: |w.st.log| <= i < |w'.st.log| ==> w'.st.log[i].owner >= w.st.wal[f].owner
    ensures Intact(w.st, f) ==>
      forall b :: b in w'.st.wal && b > f && w'.st.wal[b].body.Run? ==> w'.st.wal[b].owner >= w.st.wal[f].owner
  {
    hide Reaches, StoreOk, LogRoomy, RequestsOk, ProcsOk, AcksOk, Numbered, SealsOk, CutsRise, LogOk, WalOk;
    RunsGrow(steps, w, later, w');
    ReachedInv(steps, w);
    ReachedInv(steps + later, w');
    StoreParts(w.st);
    StoreParts(w'.st);
    forall i | |w.st.log| <= i < |w'.st.log| ensures w'.st.log[i].owner >= w.st.wal[f].owner {
      LaterOwnersRise(w.st, w'.st, f, i);
    }
    if Intact(w.st, f) {
      forall b | b in w'.st.wal && b > f && w'.st.wal[b].body.Run? ensures w'.st.wal[b].owner >= w.st.wal[f].owner {
        RunsAboveRise(w'.st, f, b);
      }
    }
  }

  /** Only a delete takes an object away, and only from its own coordinate. */
  lemma StepKeepsObject(w: World, step: WorldStep, b: nat)
    requires Enabled(w, step) && Sound(w, step) && b in w.st.wal && b <= |w.st.log|
    requires step.LandDelete? ==> step.batch != b
    ensures b in Step(w, step).st.wal && Step(w, step).st.wal[b] == w.st.wal[b]
  {
    hide StoreAnswers, WriterAnswers, Deliverable, HandleBootstrap, Answers, Faithful, Handle, Turn, Issue, IssueBoot,
      Sent;
  }

  lemma StepKeepsFence(steps: seq<WorldStep>, w: World, step: WorldStep, f: nat)
    requires Reaches(steps, w) && Enabled(w, step) && Sound(w, step)
    requires f in w.st.wal && w.st.wal[f].body.Fence?
    ensures f in Step(w, step).st.wal && Step(w, step).st.wal[f] == w.st.wal[f]
  {
    WalIsOneChain(steps, w);
    if step.LandDelete? {
      DeleteHitsItsRun(steps, w, step.batch);
    }
    StepKeepsObject(w, step, f);
  }

  // ------------------------------------------------------------ refilled holes

  /** What a landing WAL create makes of a coordinate that is not there. */
  lemma LandingFills(st: Store, entry: WalObject, b: nat)
    requires b !in st.wal && b <= |st.log|
    ensures b in Landed(st, entry).wal <==> entry.batch == b
    ensures entry.batch == b ==> Landed(st, entry).wal[b] == entry
  {
  }

  lemma OnlyLandingFills(w: World, step: WorldStep, b: nat)
    requires Enabled(w, step) && Sound(w, step) && b !in w.st.wal && b <= |w.st.log|
    ensures b in Step(w, step).st.wal <==> step.LandWal? && step.entry.batch == b
    ensures step.LandWal? && step.entry.batch == b ==> Step(w, step).st.wal[b] == step.entry
  {
    hide StoreAnswers, WriterAnswers, Deliverable, HandleBootstrap, Answers, Faithful, Handle, Turn, Issue, IssueBoot,
      Sent, Landed;
    if step.LandWal? {
      LandingFills(w.st, step.entry, b);
    }
  }

  /** A collected coordinate is occupied again by a step exactly when that step
      lands a create on its way to it. What lands is a FENCE of a later owner
      than the RUN that was there, and not of a later one than is in force. */
  lemma HoleRefillsExactly(steps: seq<WorldStep>, w: World, step: WorldStep, b: nat)
    requires Reaches(steps, w) && Enabled(w, step) && Sound(w, step)
    requires 1 <= b <= |w.st.log| && b !in w.st.wal
    ensures b in Step(w, step).st.wal <==> step.LandWal? && step.entry in w.rq.wals && step.entry.batch == b
    ensures b in Step(w, step).st.wal ==>
      && Step(w, step).st.wal[b] == step.entry && step.entry.body.Fence?
      && w.st.log[b - 1].owner < step.entry.owner <= OwnerAfter(w.st.log)
  {
    hide Reaches, StoreOk, LogRoomy, RequestsOk, ProcsOk, AcksOk, Step, Sound, Enabled;
    OnlyLandingFills(w, step, b);
    if step.LandWal? && step.entry.batch == b {
      LandingWasRequested(w, step.entry);
      ReachedInv(steps, w);
      WorldLanding.OnlyFencesRefill(w.st, w.rq, step.entry);
    }
  }

  lemma LandingWasRequested(w: World, entry: WalObject)
    requires Enabled(w, LandWal(entry))
    ensures entry in w.rq.wals
  {
  }

  /** So a collected coordinate can be occupied again next if and only if a FENCE
      create for it is on its way. */
  lemma HoleCanRefillExactly(steps: seq<WorldStep>, w: World, b: nat)
    requires Reaches(steps, w) && 1 <= b <= |w.st.log| && b !in w.st.wal
    ensures (exists step :: Enabled(w, step) && Sound(w, step) && Fills(w, step, b)) <==>
      exists e :: e in w.rq.wals && e.batch == b && e.body.Fence?
  {
    if step :| Enabled(w, step) && Sound(w, step) && Fills(w, step, b) {
      HoleRefillsExactly(steps, w, step, b);
    }
    if e :| e in w.rq.wals && e.batch == b && e.body.Fence? {
      var step := LandWal(e);
      HoleRefillsExactly(steps, w, step, b);
      assert Enabled(w, step) && Sound(w, step) && Fills(w, step, b);
    }
  }

  /** The step leaves an object at this coordinate. */
  ghost predicate Fills(w: World, step: WorldStep, b: nat)
    requires Enabled(w, step) && Sound(w, step)
  {
    b in Step(w, step).st.wal
  }

  predicate LandsAt(step: WorldStep, b: nat) { step.LandWal? && step.entry.batch == b }

  /** Over a whole continuation: a collected coordinate is occupied at the end
      exactly when some create for it landed meanwhile, and the occupant is then a
      FENCE of a later owner than the RUN that was there. */
  lemma {:induction false} HoleRefillsInRuns(steps: seq<WorldStep>, w: World, later: seq<WorldStep>, w': World, b: nat)
    requires Reaches(steps, w) && Reaches(steps + later, w')
    requires 1 <= b <= |w.st.log| && b !in w.st.wal
    ensures w.st.log <= w'.st.log
    ensures b in w'.st.wal <==> exists i :: 0 <= i < |later| && LandsAt(later[i], b)
    ensures b in w'.st.wal ==> w'.st.wal[b].body.Fence? && w.st.log[b - 1].owner < w'.st.wal[b].owner
    decreases |later|
  {
    RunsGrow(steps, w, later, w');
    if later == [] {
      assert steps + later == steps;
    } else {
      var all := steps + later;
      var front, last := later[..|later| - 1], later[|later| - 1];
      assert all[..|all| - 1] == steps + front;
      hide Enabled, Sound, Step, LandsAt;
      var before := RunWorld(all[..|all| - 1]).value;
      assert Reaches(steps + front, before);
      HoleRefillsInRuns(steps, w, front, before, b);
      LastStepRefills(steps + front, before, last, b);
      assert forall i :: 0 <= i < |front| ==> front[i] == later[i];
      assert before.st.log[b - 1] == w.st.log[b - 1];
    }
  }

  lemma LastStepRefills(steps: seq<WorldStep>, w: World, step: WorldStep, b: nat)
    requires Reaches(steps, w) && Enabled(w, step) && Sound(w, step) && 1 <= b <= |w.st.log|
    requires b in w.st.wal ==> w.st.wal[b].body.Fence?
    ensures b in Step(w, step).st.wal <==> b in w.st.wal || LandsAt(step, b)
    ensures b in w.st.wal ==> Step(w, step).st.wal[b] == w.st.wal[b]
    ensures b !in w.st.wal && LandsAt(step, b) ==>
      Step(w, step).st.wal[b].body.Fence? && w.st.log[b - 1].owner < Step(w, step).st.wal[b].owner
  {
    hide Reaches, Step, Sound;
    if b in w.st.wal {
      StepKeepsFence(steps, w, step, b);
    } else {
      HoleRefillsExactly(steps, w, step, b);
    }
  }

  /** FENCE objects are never deleted, refilled ones included. */
  lemma {:induction false} FencesAreForGood(steps: seq<WorldStep>, w: World, later: seq<WorldStep>, w': World, f: nat)
    requires Reaches(steps, w) && Reaches(steps + later, w')
    requires f in w.st.wal && w.st.wal[f].body.Fence?
    ensures f in w'.st.wal && w'.st.wal[f] == w.st.wal[f]
    decreases |later|
  {
    if later == [] {
      assert steps + later == steps;
    } else {
      var all := steps + later;
      var front := later[..|later| - 1];
      assert all[..|all| - 1] == steps + front;
      hide Enabled, Sound, Step;
      var before := RunWorld(all[..|all| - 1]).value;
      assert Reaches(steps + front, before);
      FencesAreForGood(steps, w, front, before, f);
      StepKeepsFence(steps + front, before, all[|all| - 1], f);
    }
  }

  // ------------------------------------------------------------ exact recovery

  /** Whenever a bootstrap completes, its FENCE is the last object ever written
      and its durable forest, creation batches included, is the fold from empty
      of every RUN that was ever durable, collected ones too. */
  lemma RecoveryIsExact(steps: seq<WorldStep>, w: World, pid: nat, event: BootstrapEvent, interval: nat, buffer: nat,
                        recovery: WriterRecovery)
    requires Reaches(steps, w) && Enabled(w, BootTurn(pid, event, interval, buffer))
    requires Answers(w.procs[pid].state, event)
    requires HandleBootstrap(w.procs[pid].state, event).step == Recovered(recovery)
    ensures recovery.durableBatch == |w.st.log| && FoldLog(w.st.log) == Some(recovery.durable)
    ensures recovery.seal.replay.Cut() <= |w.st.log|
    ensures FoldLog(w.st.log[..recovery.seal.replay.Cut()]) == Some(recovery.base)
    ensures recovery.claim == Head(w.st) && AuthoredBy(w.st, recovery.claim, pid)
  {
    hide Reaches, StoreOk, LogRoomy, RequestsOk, ProcsOk, AcksOk, BootOk, RunningOk, StateAt;
    var state := w.procs[pid].state;
    ReachedInv(steps, w);
    ProcIsOk(w, pid);
    OnlyFinalRecovers(w.st, pid, state, event, recovery);
    FinalIsExact(w.st, w.rq, pid, recovery, event.head);
  }

  /** However late the recovery is taken up after that listing, its forest is
      still the log's own state at its FENCE and its claim still its own. */
  lemma RecoveryStaysExact(steps: seq<WorldStep>, w: World, pid: nat, event: BootstrapEvent, interval: nat, buffer: nat,
                           recovery: WriterRecovery, later: seq<WorldStep>, w': World)
    requires Reaches(steps, w) && Enabled(w, BootTurn(pid, event, interval, buffer)) && Reaches(steps + later, w')
    requires Answers(w.procs[pid].state, event)
    requires HandleBootstrap(w.procs[pid].state, event).step == Recovered(recovery)
    ensures recovery.durableBatch <= |w'.st.log|
    ensures FoldLog(w'.st.log[..recovery.durableBatch]) == Some(recovery.durable)
    ensures recovery.seal.replay.Cut() <= recovery.durableBatch
    ensures FoldLog(w'.st.log[..recovery.seal.replay.Cut()]) == Some(recovery.base)
    ensures AuthoredBy(w'.st, recovery.claim, pid)
  {
    RecoveryIsExact(steps, w, pid, event, interval, buffer, recovery);
    hide Reaches, Enabled, HandleBootstrap, Answers, FoldLog;
    RunsGrow(steps, w, later, w');
    assert w'.st.log[..recovery.durableBatch] == w.st.log;
    assert w'.st.log[..recovery.seal.replay.Cut()] == w.st.log[..recovery.seal.replay.Cut()];
  }

  lemma OnlyFinalRecovers(st: Store, pid: nat, state: BootstrapState, event: BootstrapEvent, recovery: WriterRecovery)
    requires Answers(state, event) && StoreAnswers(st, pid, state, event)
    requires HandleBootstrap(state, event).step == Recovered(recovery)
    ensures state == RefreshingFinal(recovery) && event.HeadObserved? && event.head == Some(recovery.claim)
    ensures IsNewest(st.seals, event.head)
  {
    hide IsNewest, BoundTakeoverFence, PlanFenceCandidate, ReplayOne, Complete;
  }

  lemma NextOwner(log: seq<WalObject>, h: nat)
    requires Chain(log) && 1 <= h < |log|
    ensures log[h].body.Fence? ==> log[h].owner > log[h - 1].owner
    ensures log[h].body.Run? ==> log[h].owner == log[h - 1].owner
  {
    assert Continues(log[..h], log[h]);
    assert log[..h][h - 1] == log[h - 1];
  }

  /** With the claim still newest, nothing can have followed its FENCE. */
  lemma FenceIsTheEnd(st: Store, rq: Requests, pid: nat, loaded: Loaded, h: nat)
    requires StoreOk(st) && LoadedOk(st, rq, pid, loaded)
    requires Head(st) == loaded.claim && 1 <= h <= |st.log| && st.log[h - 1].owner == loaded.claim
    ensures h == |st.log|
  {
    hide StateAt, SealsOk, CutsRise, WalOk, Numbered, FoldLog, SupersededByNewer;
    hide Chain;
    assert h < |st.log| ==> Belongs(st, st.log[h]);
    if h < |st.log| {
      NextOwner(st.log, h);
      assert false;
    }
  }

  lemma FinalIsExact(st: Store, rq: Requests, pid: nat, recovery: WriterRecovery, head: Option<nat>)
    requires StoreOk(st) && BootOk(st, rq, pid, RefreshingFinal(recovery))
    requires head == Some(recovery.claim) && IsNewest(st.seals, head)
    ensures recovery.durableBatch == |st.log| && FoldLog(st.log) == Some(recovery.durable)
    ensures recovery.seal.replay.Cut() <= |st.log|
    ensures FoldLog(st.log[..recovery.seal.replay.Cut()]) == Some(recovery.base)
    ensures recovery.claim == Head(st) && AuthoredBy(st, recovery.claim, pid)
  {
    hide StoreOk, BootOk, Standing, StateAt, Numbered, SealsOk, LogOk, CutsRise, WalOk, FoldLog, Claimed, IsNewest,
      FencesOnlyAt;
    WorldBoot.FinalFacts(st, rq, pid, recovery);
    var loaded := Loaded(recovery.claim, recovery.seal, recovery.base, recovery.durable);
    WorldBoot.ClaimFacts(st, rq, pid, loaded);
    WorldBoot.NewestIsHead(st, head);
    WorldBoot.NewestClaimIsIntact(st, rq, pid, loaded, recovery.durableBatch);
    StandingFence(st, rq, loaded, recovery.durableBatch);
    FenceIsTheEnd(st, rq, pid, loaded, recovery.durableBatch);
    WorldWriter.LogFolds(st);
    StateAtIsFold(st.log, recovery.durableBatch);
    StateAtIsFold(st.log, recovery.seal.replay.Cut());
    assert st.log[..|st.log|] == st.log;
  }

  lemma StandingFence(st: Store, rq: Requests, loaded: Loaded, h: nat)
    requires Standing(st, rq, loaded, h)
    ensures h in st.wal && st.wal[h] == FenceObject(loaded, h)
  {
  }

  // ------------------------------------------------- no acknowledged command lost

  /** Every success reply ever sent reports a state that replay of the log passes
      through, so whatever a later bootstrap recovers, it folds a log in which
      the reported state happened. */
  lemma AcknowledgedIsRecovered(steps: seq<WorldStep>, w: World, later: seq<WorldStep>, w': World, i: nat,
                                pid: nat, event: BootstrapEvent, interval: nat, buffer: nat, recovery: WriterRecovery)
    requires Reaches(steps, w) && i < |w.acks| && !w.acks[i].answer.Refused?
    requires Reaches(steps + later, w') && Enabled(w', BootTurn(pid, event, interval, buffer))
    requires Answers(w'.procs[pid].state, event)
    requires HandleBootstrap(w'.procs[pid].state, event).step == Recovered(recovery)
    ensures FoldLog(w'.st.log) == Some(recovery.durable)
    ensures exists b: nat, n: nat :: RecordedAt(w'.st.log, w.acks[i], b, n)
  {
    hide Reaches, StoreOk, LogRoomy, RequestsOk, ProcsOk, HandleBootstrap, Answers, Enabled, RecordedAt;
    RunsGrow(steps, w, later, w');
    ReachedInv(steps + later, w');
    assert w'.acks[i] == w.acks[i];
    RecoveryIsExact(steps + later, w', pid, event, interval, buffer, recovery);
  }

  /** What a live writer has published as its view is the log's own state at its
      durable batch. */
  lemma ViewIsTheLog(steps: seq<WorldStep>, w: World, pid: nat)
    requires Reaches(steps, w) && pid in w.procs && w.procs[pid].Running?
    ensures var n := w.procs[pid].node;
      1 <= n.machine.durableBatch <= |w.st.log| && FoldLog(w.st.log[..n.machine.durableBatch]) == Some(n.tables.view)
  {
    hide Reaches, StoreOk, LogRoomy, RequestsOk, ProcsOk, AcksOk, RunningOk, FoldLog;
    ReachedInv(steps, w);
    ProcIsOk(w, pid);
    RunningView(w.st, w.rq, pid, w.procs[pid].node);
  }

  /** When a success leaves a writer, the state it reports is passed through by
      the RUN at the writer's durable batch or is the state there, and that is
      the state of the view it has published. */
  lemma ReplyIsInTheView(steps: seq<WorldStep>, w: World, pid: nat, now: nat, event: WriterEvent, i: nat)
    requires Reaches(steps, w) && Enabled(w, WriterTurn(pid, now, event))
    requires Faithful(w.procs[pid].node.machine, event)
    requires i < |Sent(Handle(w.procs[pid].node.machine, now, event).outputs)|
    requires !Sent(Handle(w.procs[pid].node.machine, now, event).outputs)[i].answer.Refused?
    ensures var reply := Sent(Handle(w.procs[pid].node.machine, now, event).outputs)[i];
      var (after, exit) := Turn(w.procs[pid].node, now, event);
      && (exists n: nat :: RecordedAt(w.st.log, reply, after.machine.durableBatch, n))
      && (exit.None? ==>
           && 1 <= after.machine.durableBatch <= |w.st.log|
           && FoldLog(w.st.log[..after.machine.durableBatch]) == Some(after.tables.view))
  {
    hide Reaches, StoreOk, LogRoomy, RequestsOk, ProcsOk, AcksOk, BootOk, RunningOk, Deliverable, WriterAnswers,
      Faithful, Handle, Issue, Sent, Execute, PickUp, Recorded, RecordedAt, ApplyEvent, FoldLog, OnlyBy;
    ReachedInv(steps, w);
    ProcIsOk(w, pid);
    var n := w.procs[pid].node;
    RepliesComeUnfinished(n.machine, now, event);
    WorldTurn.RepliesAreRecorded(w.st, w.rq, pid, n, now, event, i);
    WorldTurn.TurnLegal(w.st, w.rq, pid, n, now, event);
    var (after, exit) := Turn(n, now, event);
    if exit.None? { RunningView(w.st, Issue(w.rq, pid, Handle(n.machine, now, event).outputs), pid, after); }
  }

  /** A step that fails its event sends nothing. */
  lemma RepliesComeUnfinished(s: WriterState, now: nat, event: WriterEvent)
    requires Faithful(s, event) && Sent(Handle(s, now, event).outputs) != []
    ensures ApplyEvent(s, event).exit.None?
  {
    ApplyShape(s, event);
    hide ApplyEvent, Faithful, Schedule;
  }

  lemma RunningView(st: Store, rq: Requests, pid: nat, n: Node)
    requires StoreOk(st) && RunningOk(st, rq, pid, n)
    ensures 1 <= n.machine.durableBatch <= |st.log| && FoldLog(st.log[..n.machine.durableBatch]) == Some(n.tables.view)
  {
    hide StoreOk, Numbered, SealsOk, CutsRise, LogOk, WalOk, Inv, EffectsMatch, PreparationMatches, Authority,
      CheckpointTrue, Carries, NextIsOurs, StateAt, FoldLog;
    StoreParts(st);
    WorldWriter.LogFolds(st);
    StateAtIsFold(st.log, n.machine.durableBatch);
  }

  // --------------------------------------------------- anomalies are explained

  /** A replay anomaly always means a newer Seal: the refresh that follows it
      exits Fenced. No bootstrap reports a contradiction unless generations are
      exhausted, the store refused a request, or a table could not be read. */
  lemma AnomaliesAreExplained(steps: seq<WorldStep>, w: World, pid: nat, event: BootstrapEvent, interval: nat,
                              buffer: nat)
    requires Reaches(steps, w) && Enabled(w, BootTurn(pid, event, interval, buffer))
    ensures Answers(w.procs[pid].state, event)
    ensures var state := w.procs[pid].state;
      var step := HandleBootstrap(state, event).step;
      && (state.RefreshingAnomaly? && event.HeadObserved? ==>
           step == Exited(Fenced(Head(w.st))) && Head(w.st) > state.claim)
      && (step == Exited(Contradiction) ==>
           || (state.ReadingSeal? && state.generation >= U64_MAX)
           || (event.StoreFailed? && (event.error.StoreRejected? || state.ReadingTable?)))
  {
    hide Reaches, StoreOk, LogRoomy, RequestsOk, ProcsOk, AcksOk, RunningOk, BootOk, WorldBoot.Legal, IsNewest,
      HandleHead;
    var state := w.procs[pid].state;
    ReachedInv(steps, w);
    ProcIsOk(w, pid);
    WorldBoot.AnswerLegal(w.st, w.rq, pid, state, event);
    if state.RefreshingAnomaly? && event.HeadObserved? {
      assert Numbered(w.st) by { ReachedNumbers(steps, w); }
      assert Head(w.st) > state.claim by { AnomalyIsBehind(w.st, w.rq, pid, state.claim); }
      WorldBoot.AnomalyRefreshLegal(w.st, w.rq, pid, state.claim, event.head);
    }
  }

  lemma AnomalyIsBehind(st: Store, rq: Requests, pid: nat, claim: nat)
    requires BootOk(st, rq, pid, RefreshingAnomaly(claim))
    ensures Head(st) > claim && AuthoredBy(st, claim, pid)
  {
  }

  // ------------------------------------------------------------ unique authority

  /** The process holds the owner token of this generation. */
  predicate HoldsClaim(proc: Proc, g: nat) {
    match proc
    case Dead => false
    case Running(n) => n.machine.claim == g
    case Booting(state) =>
      match state
      case ReadingTable(b, _) => b.claim == g
      case ObservingWalTail(loaded, _) => loaded.claim == g
      case ReadingWalTail(loaded, _, _) => loaded.claim == g
      case EstablishingFence(loaded, _) => loaded.claim == g
      case Replaying(replay) => replay.loaded.claim == g
      case RefreshingAnomaly(claim) => claim == g
      case RefreshingFinal(recovery) => recovery.claim == g
      case _ => false
  }

  lemma HolderIsAuthor(st: Store, rq: Requests, pid: nat, proc: Proc, g: nat)
    requires ProcOk(st, rq, pid, proc) && HoldsClaim(proc, g)
    ensures AuthoredBy(st, g, pid)
  {
    hide NodeInv, Footing, CheckpointTrue, Carries, Standing, FencesOnlyAt, FenceSpot, ReplayExact, StateAt, TablesOk,
      NoRunOf, SupersededByNewer, Unclaimed, CandidateOk;
  }

  /** At most one process ever holds the owner token of a generation, at one
      moment or at two different ones, although rival claimants of one head
      encode identical bytes. */
  lemma UniqueAuthority(steps: seq<WorldStep>, w: World, later: seq<WorldStep>, w': World, p: nat, q: nat, g: nat)
    requires Reaches(steps, w) && p in w.procs && HoldsClaim(w.procs[p], g)
    requires Reaches(steps + later, w') && q in w'.procs && HoldsClaim(w'.procs[q], g)
    ensures p == q
  {
    hide Reaches, StoreOk, LogRoomy, RequestsOk, ProcsOk, AcksOk, ProcOk, HoldsClaim;
    RunsGrow(steps, w, later, w');
    ReachedInv(steps, w);
    ReachedInv(steps + later, w');
    ProcIsOk(w, p);
    ProcIsOk(w', q);
    HolderIsAuthor(w.st, w.rq, p, w.procs[p], g);
    HolderIsAuthor(w'.st, w'.rq, q, w'.procs[q], g);
  }

  /** Generations are numbered without gaps, belong to one partition, replay
      under an owner older than themselves, and never move the cut back. */
  lemma SealsFormAChain(steps: seq<WorldStep>, w: World, j: nat, k: nat)
    requires Reaches(steps, w) && 1 <= j <= k <= Head(w.st)
    ensures j in w.st.seals && k in w.st.seals
    ensures w.st.seals[k].generation == k && w.st.seals[j].partition == w.st.seals[k].partition
    ensures w.st.seals[j].replay.Cut() <= w.st.seals[k].replay.Cut() <= |w.st.log|
    ensures w.st.seals[k].replay.Through? ==> w.st.seals[k].replay.owner < k
  {
    hide Reaches, StoreOk, LogRoomy, RequestsOk, ProcsOk, AcksOk, LogOk, WalOk, SealHolds, StateAt, Constructible;
    ReachedInv(steps, w);
    StoreParts(w.st);
    assert SealOk(w.st.log, w.st.seals[k]);
  }

  /** Every Seal ever published passes every check its construction makes: the
      stores, ages and identities of its tables, the bounds of its runs and
      trees, and the order of its replay owner. */
  lemma SealsAreConstructible(steps: seq<WorldStep>, w: World)
    requires Reaches(steps, w)
    ensures forall k :: k in w.st.seals ==> Constructible(w.st.seals[k])
  {
    hide Reaches, StoreOk, LogRoomy, RequestsOk, ProcsOk, AcksOk, Numbered, CutsRise, LogOk, WalOk, SealHolds, StateAt,
      Constructible;
    ReachedInv(steps, w);
    StoreParts(w.st);
    forall k | k in w.st.seals ensures Constructible(w.st.seals[k]) { assert SealOk(w.st.log, w.st.seals[k]); }
  }

  /** So does the successor a live writer has had prepared, whether or not it is
      ever published. */
  lemma PreparedIsConstructible(steps: seq<WorldStep>, w: World, pid: nat, ticket: CheckpointTicket,
                                prepared: PreparedCheckpoint)
    requires Reaches(steps, w) && pid in w.procs && w.procs[pid].Running?
    requires w.procs[pid].node.machine.checkpoint == Some(Publishing(ticket, prepared))
    ensures Constructible(prepared.successor)
  {
    hide Reaches, StoreOk, LogRoomy, RequestsOk, ProcsOk, AcksOk, SealHolds, StateAt, Constructible, BootOk, NodeInv,
      Authority, Footing, Carries;
    ReachedInv(steps, w);
    ProcIsOk(w, pid);
  }

  // ------------------------------------------------------ collection is invisible

  /** A FENCE planned under a claim that is still the newest Seal lies behind
      every coordinate occupied so far, collected ones included. */
  lemma CandidateClearsHistory(steps: seq<WorldStep>, w: World, pid: nat, tail: Option<nat>)
    requires Reaches(steps, w) && pid in w.procs && w.procs[pid].Booting? && w.procs[pid].state.ObservingWalTail?
    requires IsNewest(w.st.wal, tail) && Head(w.st) == w.procs[pid].state.loaded.claim
    ensures PlanFenceCandidate(w.procs[pid].state.loaded.seal.replay.Batch(), tail) == Successor(|w.st.log|)
  {
    hide Reaches, StoreOk, LogRoomy, RequestsOk, ProcsOk, AcksOk, LoadedOk, FencesOnlyAt, FenceSpot, Numbered,
      SealsOk, CutsRise, LogOk, RunningOk, StateAt;
    ReachedInv(steps, w);
    ProcIsOk(w, pid);
    var loaded := w.procs[pid].state.loaded;
    assert LoadedOk(w.st, w.rq, pid, loaded);
    TailReachesTheEnd(w.st, w.rq, pid, loaded, tail);
  }

  lemma TailReachesTheEnd(st: Store, rq: Requests, pid: nat, loaded: Loaded, tail: Option<nat>)
    requires StoreOk(st) && LoadedOk(st, rq, pid, loaded) && Head(st) == loaded.claim && IsNewest(st.wal, tail)
    ensures loaded.seal.replay.Cut() <= |st.log|
    ensures PlanFenceCandidate(loaded.seal.replay.Batch(), tail) == Successor(|st.log|)
  {
    hide StoreOk, Numbered, SealsOk, CutsRise, LogOk, Claimed, StateAt, Hole, Belongs, Intact;
    StoreParts(st);
    var cut := loaded.seal.replay.Cut();
    if cut < |st.log| {
      WorldBoot.NewestClaimIsIntact(st, rq, pid, loaded, |st.log|);
      IntactIsPresent(st, |st.log|);
    }
    assert tail.Some? ==> tail.value <= |st.log|;
    WorldBoot.ClaimFacts(st, rq, pid, loaded);
  }

  lemma IntactIsPresent(st: Store, b: nat)
    requires Intact(st, b)
    ensures b in st.wal
  {
  }

  /** An unconditional delete, however late it lands, removes the very RUN its
      collector had read: nothing else can be at that coordinate by then. */
  lemma DeleteHitsItsRun(steps: seq<WorldStep>, w: World, b: nat)
    requires Reaches(steps, w) && b in w.rq.deletes
    ensures 1 <= b <= |w.st.log| && b in w.st.wal && w.st.wal[b] == w.st.log[b - 1] && w.st.wal[b].body.Run?
    ensures b <= NewestCut(w.st)
  {
    hide Reaches, StoreOk, LogRoomy, RequestsOk, ProcsOk, AcksOk, OneRunEach, WalRequestOk, NewestCut, Passed;
    ReachedInv(steps, w);
    RequestParts(w.st, w.rq);
    assert Deletable(w.st, b);
  }

  // --------------------------------------------------- checkpoints are transparent

  /** Whatever Seal a live writer stands on, its base folded with the RUNs after
      its cut is its durable state, however far the log ran during preparation
      and publication. */
  lemma CheckpointsAreTransparent(steps: seq<WorldStep>, w: World, pid: nat)
    requires Reaches(steps, w) && pid in w.procs && w.procs[pid].Running?
    ensures var s := w.procs[pid].node.machine;
      && s.seal.replay.Cut() <= s.durableBatch <= |w.st.log|
      && FoldSuffix(s.base, w.st.log[..s.durableBatch], s.seal.replay.Cut()) == Some(s.durable.forest)
  {
    hide Reaches, StoreOk, LogRoomy, RequestsOk, ProcsOk, AcksOk, Numbered, SealsOk, CutsRise, LogOk, WalOk, Inv,
      Matches, Authority, CheckpointTrue, Carries, NextIsOurs, StateAt, FoldLog, Mid, Roomy, Bounded, AdmittedIsFold,
      FlightIsFold, CheckpointOk;
    ReachedInv(steps, w);
    ProcIsOk(w, pid);
    StoreParts(w.st);
    WorldWriter.LogFolds(w.st);
    var s := w.procs[pid].node.machine;
    assert Mid(s) by { WorldTurn.InvIsMid(s); }
    WorldWriter.MidParts(s);
    SuffixIsDurable(w.st.log, s.seal.replay.Cut(), s.durableBatch);
  }

  lemma SuffixIsDurable(log: seq<WalObject>, cut: nat, d: nat)
    requires FoldLog(log).Some? && cut <= d <= |log|
    ensures FoldSuffix(StateAt(log, cut), log[..d], cut) == Some(StateAt(log, d))
  {
    hide FoldSuffix;
    StateAtIsFold(log, cut);
    StateAtIsFold(log, d);
    assert log[..d][..cut] == log[..cut];
    SuffixCompletesPrefix(log[..d], cut);
  }

  // ------------------------------------------------------------ bounded takeover

  /** Every RUN ever written still leaves its successor within the suffix bound
      of the newest cut. */
  lemma RunsLeaveRoom(steps: seq<WorldStep>, w: World, b: nat)
    requires Reaches(steps, w) && 1 <= b <= |w.st.log| && w.st.log[b - 1].body.Run?
    ensures b + 1 <= NewestCut(w.st) + WAL_SUFFIX_COORDINATES_MAX
  {
    hide Reaches, StoreOk, RequestsOk, ProcsOk, AcksOk, Numbered, SealsOk, CutsRise, WalOk, NewestCut, FoldLog;
    ReachedInv(steps, w);
    StoreParts(w.st);
    assert RoomBehind(w.st, w.st.log[b - 1]);
    assert Continues(w.st.log[..b - 1], w.st.log[b - 1]);
  }

  /** A takeover whose claim is the newest Seal passes the fence bound exactly
      when the coordinate behind the log is within the suffix bound of its cut
      and is not the last one; right after a RUN the first condition always
      holds. */
  lemma TakeoverIsBounded(steps: seq<WorldStep>, w: World, pid: nat, tail: Option<nat>)
    requires Reaches(steps, w) && pid in w.procs && w.procs[pid].Booting? && w.procs[pid].state.ObservingWalTail?
    requires IsNewest(w.st.wal, tail) && Head(w.st) == w.procs[pid].state.loaded.claim
    ensures var loaded := w.procs[pid].state.loaded;
      var cut := loaded.seal.replay.Batch();
      && Head(w.st) in w.st.seals && cut == w.st.seals[Head(w.st)].replay.Batch()
      && (HandleBootstrap(w.procs[pid].state, WalTailObserved(tail)).step.Await? <==>
           |w.st.log| + 1 <= loaded.seal.replay.Cut() + WAL_SUFFIX_COORDINATES_MAX && |w.st.log| + 1 < U64_MAX)
      && (w.st.log != [] && w.st.log[|w.st.log| - 1].body.Run? ==>
           |w.st.log| + 1 <= loaded.seal.replay.Cut() + WAL_SUFFIX_COORDINATES_MAX)
  {
    hide Reaches, StoreOk, LogRoomy, RequestsOk, ProcsOk, AcksOk, LoadedOk, FencesOnlyAt, FenceSpot, Numbered,
      SealsOk, CutsRise, LogOk, WalOk, RunningOk, StateAt, IsNewest, PlanFenceCandidate, BoundTakeoverFence;
    ReachedInv(steps, w);
    ProcIsOk(w, pid);
    StoreParts(w.st);
    var state := w.procs[pid].state;
    var loaded := state.loaded;
    assert LoadedOk(w.st, w.rq, pid, loaded);
    WorldBoot.ClaimFacts(w.st, w.rq, pid, loaded);
    CandidateClearsHistory(steps, w, pid, tail);
    TailReachesTheEnd(w.st, w.rq, pid, loaded, tail);
    WorldBoot.ListAdvances(w.st, w.rq, pid, loaded, state.occupied, tail);
    FenceBoundExactly(loaded.seal.replay.Batch(), |w.st.log| + 1);
    if w.st.log != [] && w.st.log[|w.st.log| - 1].body.Run? { RunsLeaveRoom(steps, w, |w.st.log|); }
  }

  /** Each listing of the loop over occupied FENCE candidates strictly advances and
      stays within the suffix bound. */
  lemma FenceLoopAdvances(steps: seq<WorldStep>, w: World, pid: nat, tail: Option<nat>)
    requires Reaches(steps, w) && pid in w.procs && w.procs[pid].Booting? && w.procs[pid].state.ObservingWalTail?
    requires IsNewest(w.st.wal, tail)
    ensures var state := w.procs[pid].state;
      var cut := state.loaded.seal.replay.Cut();
      var next := HandleBootstrap(state, WalTailObserved(tail));
      next.step.Await? ==>
        && (next.state.ReadingWalTail? || next.state.EstablishingFence?)
        && cut < next.state.fence <= cut + WAL_SUFFIX_COORDINATES_MAX
        && (state.occupied.Some? ==> state.occupied.value < next.state.fence)
  {
    hide Reaches, StoreOk, LogRoomy, RequestsOk, ProcsOk, AcksOk, LoadedOk, FencesOnlyAt, FenceSpot, RunningOk,
      IsNewest, PlanFenceCandidate, BoundTakeoverFence;
    ReachedInv(steps, w);
    ProcIsOk(w, pid);
    var state := w.procs[pid].state;
    WorldBoot.ListAdvances(w.st, w.rq, pid, state.loaded, state.occupied, tail);
    var candidate := PlanFenceCandidate(state.loaded.seal.replay.Batch(), tail);
    if candidate.Some? { FenceBoundExactly(state.loaded.seal.replay.Batch(), candidate.value); }
  }
}
