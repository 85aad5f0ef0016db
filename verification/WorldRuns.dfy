/** Every run of the shared world keeps its invariant. */
module WorldRuns {
  import opened Common
  import opened WriterSpec
  import opened BootstrapSpec
  import opened Nodes
  import opened NodeTheorems
  import opened Stores
  import opened Worlds
  import opened WorldInvariant
  import opened WorldBystander
  import WorldBoot
  import WorldLanding
  import WorldTurn

  /** The actor's own new state joins everyone else's. */
  lemma ActorKeepsWorld(w: World, next: World, pid: nat)
    requires WorldInv(w) && pid in w.procs && next.st == w.st
    requires next.procs.Keys == w.procs.Keys && forall p :: p in w.procs && p != pid ==> next.procs[p] == w.procs[p]
    requires RequestsOk(next.st, next.rq) && OnlyBy(w.st, w.rq, next.rq, Some(pid))
    requires ProcOk(next.st, next.rq, pid, next.procs[pid])
    requires AcksOk(next)
    ensures WorldInv(next)
  {
    hide WorldInv, StoreOk, LogRoomy, RequestsOk, AcksOk, ProcsOk, OnlyBy, ProcOk, Untouched, FencesStay;
    Unfold(w);
    assert FencesStay(w.st, w.st) by { NothingGoes(w.st); }
    BystandersKeep(w, w.st, next.rq, Some(pid));
    assert ProcsOk(next) by { EveryoneIsOk(w, next, pid); }
    Refold(next);
  }

  lemma NothingGoes(st: Store)
    ensures FencesStay(st, st)
  {
  }

  lemma EveryoneIsOk(w: World, next: World, pid: nat)
    requires OthersOk(next.st, next.rq, w.procs, Some(pid)) && pid in w.procs
    requires next.procs.Keys == w.procs.Keys && forall p :: p in w.procs && p != pid ==> next.procs[p] == w.procs[p]
    requires ProcOk(next.st, next.rq, pid, next.procs[pid])
    ensures ProcsOk(next)
  {
    hide ProcOk, Untouched;
  }

  lemma ProcIsOk(w: World, pid: nat)
    requires ProcsOk(w) && pid in w.procs
    ensures ProcOk(w.st, w.rq, pid, w.procs[pid])
  {
    hide ProcOk, Untouched;
  }

  // ----------------------------------------------------------- the two turns

  lemma BootTurnSound(w: World, pid: nat, event: BootstrapEvent, interval: nat, buffer: nat)
    requires WorldInv(w) && Enabled(w, BootTurn(pid, event, interval, buffer))
    ensures Sound(w, BootTurn(pid, event, interval, buffer))
    ensures WorldBoot.Legal(w.st, w.rq, pid, HandleBootstrap(w.procs[pid].state, event))
  {
    hide WorldInv, StoreOk, LogRoomy, RequestsOk, AcksOk, ProcsOk, BootOk, RunningOk, HandleBootstrap, Answers,
      StoreAnswers;
    Unfold(w);
    ProcIsOk(w, pid);
    WorldBoot.AnswerLegal(w.st, w.rq, pid, w.procs[pid].state, event);
  }

  lemma BootedProcOk(st: Store, rq: Requests, pid: nat, t: Transition, interval: nat, buffer: nat)
    requires WorldBoot.Legal(st, rq, pid, t) && BufferOk(buffer)
    ensures RequestsOk(st, IssueBoot(rq, pid, t.step)) && OnlyBy(st, rq, IssueBoot(rq, pid, t.step), Some(pid))
    ensures t.step.Await? ==> ProcOk(st, IssueBoot(rq, pid, t.step), pid, Booting(t.state))
    ensures t.step.Recovered? ==>
      RecoveryOk(t.step.recovery) &&
      ProcOk(st, IssueBoot(rq, pid, t.step), pid, Running(Spawned(t.step.recovery, interval, buffer)))
  {
    hide RequestsOk, OnlyBy, BootOk, RunningOk, IssueBoot, Spawned;
  }

  lemma BootTurnKeepsWorld(w: World, pid: nat, event: BootstrapEvent, interval: nat, buffer: nat)
    requires WorldInv(w) && Enabled(w, BootTurn(pid, event, interval, buffer))
    ensures Sound(w, BootTurn(pid, event, interval, buffer))
    ensures WorldInv(Step(w, BootTurn(pid, event, interval, buffer)))
  {
    hide WorldInv, StoreOk, LogRoomy, RequestsOk, AcksOk, ProcsOk, HandleBootstrap, Answers, StoreAnswers, IssueBoot,
      OnlyBy, BootOk, RunningOk, WorldBoot.Legal, Spawned, RecoveryOk;
    BootTurnSound(w, pid, event, interval, buffer);
    var t := HandleBootstrap(w.procs[pid].state, event);
    var next := Step(w, BootTurn(pid, event, interval, buffer));
    Unfold(w);
    BootedProcOk(w.st, w.rq, pid, t, interval, buffer);
    WorldLanding.AcksFollowLog(w, next);
    assert next.procs.Keys == w.procs.Keys;
    ActorKeepsWorld(w, next, pid);
  }

  lemma MoreAcks(w: World, next: World, sent: seq<Completion>)
    requires AcksOk(w) && next.st.log == w.st.log && next.acks == w.acks + sent
    requires forall i :: 0 <= i < |sent| ==> Recorded(w.st.log, sent[i])
    ensures AcksOk(next)
  {
    hide Recorded;
  }

  lemma WriterTurnKeepsWorld(w: World, pid: nat, now: nat, event: WriterEvent)
    requires WorldInv(w) && Enabled(w, WriterTurn(pid, now, event))
    ensures Sound(w, WriterTurn(pid, now, event))
    ensures WorldInv(Step(w, WriterTurn(pid, now, event)))
  {
    hide WorldInv, StoreOk, LogRoomy, RequestsOk, AcksOk, ProcsOk, BootOk, RunningOk, Deliverable, WriterAnswers,
      Faithful, Handle, Turn, Issue, OnlyBy, Sent, Recorded;
    Unfold(w);
    ProcIsOk(w, pid);
    var n := w.procs[pid].node;
    WorldTurn.TurnLegal(w.st, w.rq, pid, n, now, event);
    var next := Step(w, WriterTurn(pid, now, event));
    MoreAcks(w, next, Sent(Handle(n.machine, now, event).outputs));
    assert next.procs.Keys == w.procs.Keys;
    ActorKeepsWorld(w, next, pid);
  }

  // ----------------------------------------------------------- steps and runs

  /** Every step any process, the store or a crash can take is free of panics
      and keeps the invariant of the world. */
  lemma StepKeepsWorld(w: World, step: WorldStep)
    requires WorldInv(w) && Enabled(w, step)
    ensures Sound(w, step)
    ensures WorldInv(Step(w, step))
  {
    hide WorldInv, StoreAnswers, WriterAnswers, Deliverable, Answers, Faithful, HandleBootstrap;
    match step
    case Spawn(pid) => WorldLanding.SpawnKeepsWorld(w, pid);
    case Crash(pid) => WorldLanding.CrashKeepsWorld(w, pid);
    case BootTurn(pid, event, interval, buffer) => BootTurnKeepsWorld(w, pid, event, interval, buffer);
    case WriterTurn(pid, now, event) => WriterTurnKeepsWorld(w, pid, now, event);
    case LandSeal(request) => WorldLanding.LandSealKeepsWorld(w, request);
    case LandWal(entry) => WorldLanding.LandWalKeepsWorld(w, entry);
    case LandDelete(batch) => WorldLanding.LandDeleteKeepsWorld(w, batch);
    case Visit(generation) => WorldLanding.VisitKeepsWorld(w, generation);
  }

  /** The world after a run of steps, absent if one of them was impossible. */
  ghost function RunWorld(steps: seq<WorldStep>): Option<World> {
    if steps == [] then Some(EMPTY_WORLD)
    else
      var before := RunWorld(steps[..|steps| - 1]);
      var step := steps[|steps| - 1];
      if before.None? || !Enabled(before.value, step) || !Sound(before.value, step) then None
      else Some(Step(before.value, step))
  }

  lemma {:induction false} EveryRunKeepsWorld(steps: seq<WorldStep>)
    requires RunWorld(steps).Some?
    ensures WorldInv(RunWorld(steps).value)
  {
    hide WorldInv, Enabled, Sound, Step;
    if steps == [] {
      EmptyWorldInv();
    } else {
      EveryRunKeepsWorld(steps[..|steps| - 1]);
      StepKeepsWorld(RunWorld(steps[..|steps| - 1]).value, steps[|steps| - 1]);
    }
  }
}
