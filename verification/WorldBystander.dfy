/** Processes that a step does not concern: objects other than FENCEs may come
    and go, and one other process may send requests of its own. */
module WorldBystander {
  import opened Common
  import opened Logs
  import opened Seals
  import opened WriterSpec
  import opened BootstrapSpec
  import opened Nodes
  import opened Stores
  import opened Worlds
  import opened WorldInvariant

  /** Every new request is the actor's: sent by it, or under a generation that
      it authored. */
  ghost predicate OnlyBy(st: Store, rq: Requests, next: Requests, actor: Option<nat>) {
    && (forall r :: r in next.seals ==> r in rq.seals || actor == Some(r.pid))
    && (forall e :: e in next.wals ==> e in rq.wals || (actor.Some? && AuthoredBy(st, e.owner, actor.value)))
    && (forall k :: k in next.collectors ==> k in rq.collectors || (actor.Some? && AuthoredBy(st, k, actor.value)))
  }

  /** The history is untouched and no FENCE has gone. */
  predicate FencesStay(st: Store, next: Store) {
    && next.seals == st.seals && next.authors == st.authors && next.log == st.log
    && (forall h :: h in st.wal && st.wal[h].body.Fence? ==> h in next.wal && next.wal[h] == st.wal[h])
  }

  lemma SameAuthors(st: Store, next: Store)
    requires FencesStay(st, next)
    ensures forall k: nat, pid: nat :: AuthoredBy(next, k, pid) <==> AuthoredBy(st, k, pid)
    ensures Partition(next) == Partition(st) && Head(next) == Head(st) && NewestCut(next) == NewestCut(st)
  {
  }

  lemma KeepsNoRun(st: Store, next: Store, rq: Requests, left: Requests, actor: Option<nat>, pid: nat, g: nat)
    requires FencesStay(st, next) && OnlyBy(st, rq, left, actor) && actor != Some(pid) && AuthoredBy(st, g, pid)
    ensures NoRunOf(st, rq, g) ==> NoRunOf(next, left, g)
    ensures forall h :: FencesOnlyAt(st, rq, g, h) ==> FencesOnlyAt(next, left, g, h)
  {
  }

  lemma KeepsSuperseded(st: Store, next: Store, g: nat)
    requires FencesStay(st, next) && g in st.seals && SupersededByNewer(st, g)
    ensures SupersededByNewer(next, g)
  {
  }

  lemma KeepsClaimed(st: Store, next: Store, rq: Requests, left: Requests, actor: Option<nat>, pid: nat, g: nat,
                     seal: Seal)
    requires FencesStay(st, next) && OnlyBy(st, rq, left, actor) && actor != Some(pid)
    requires Claimed(st, rq, pid, g, seal)
    ensures Claimed(next, left, pid, g, seal)
    ensures forall h :: FencesOnlyAt(st, rq, g, h) ==> FencesOnlyAt(next, left, g, h)
  {
    SameAuthors(st, next);
    KeepsNoRun(st, next, rq, left, actor, pid, g);
    KeepsSuperseded(st, next, g);
    hide NoRunOf, SupersededByNewer, FencesOnlyAt;
  }

  lemma KeepsUnclaimed(st: Store, next: Store, rq: Requests, left: Requests, actor: Option<nat>, pid: nat,
                       candidate: Option<Seal>)
    requires FencesStay(st, next) && OnlyBy(st, rq, left, actor) && actor != Some(pid)
    requires Unclaimed(st, rq, pid, candidate)
    ensures Unclaimed(next, left, pid, candidate)
  {
    SameAuthors(st, next);
  }

  lemma KeepsCandidate(st: Store, next: Store, rq: Requests, left: Requests, actor: Option<nat>, pid: nat,
                       candidate: Seal)
    requires FencesStay(st, next) && OnlyBy(st, rq, left, actor) && actor != Some(pid)
    requires CandidateOk(st, rq, pid, candidate)
    ensures CandidateOk(next, left, pid, candidate)
  {
    SameAuthors(st, next);
    var g := candidate.generation;
    if AuthoredBy(st, g, pid) {
      KeepsNoRun(st, next, rq, left, actor, pid, g);
      KeepsSuperseded(st, next, g);
    }
    hide NoRunOf, SupersededByNewer, FencesOnlyAt;
  }

  lemma KeepsLoaded(st: Store, next: Store, rq: Requests, left: Requests, actor: Option<nat>, pid: nat, loaded: Loaded)
    requires FencesStay(st, next) && OnlyBy(st, rq, left, actor) && actor != Some(pid)
    requires LoadedOk(st, rq, pid, loaded)
    ensures LoadedOk(next, left, pid, loaded)
    ensures forall h :: FencesOnlyAt(st, rq, loaded.claim, h) ==> FencesOnlyAt(next, left, loaded.claim, h)
    ensures forall h :: FenceSpot(st, loaded.claim, h) ==> FenceSpot(next, loaded.claim, h)
    ensures forall h :: Standing(st, rq, loaded, h) ==> Standing(next, left, loaded, h)
  {
    KeepsClaimed(st, next, rq, left, actor, pid, loaded.claim, loaded.seal);
    hide Claimed, FencesOnlyAt, StateAt, OwnerAfter;
  }

  lemma KeepsReplay(st: Store, next: Store, replay: Replay)
    requires FencesStay(st, next) && ReplayExact(st, replay)
    ensures ReplayExact(next, replay)
  {
    hide StateAt;
  }

  lemma SameAuthor(st: Store, next: Store, k: nat, pid: nat)
    requires FencesStay(st, next)
    ensures AuthoredBy(next, k, pid) <==> AuthoredBy(st, k, pid)
  {
  }

  lemma StayFacts(st: Store, next: Store)
    requires FencesStay(st, next)
    ensures next.log == st.log && next.seals == st.seals
  {
  }

  lemma KeepsBoot(st: Store, next: Store, rq: Requests, left: Requests, actor: Option<nat>, pid: nat,
                  state: BootstrapState)
    requires FencesStay(st, next) && OnlyBy(st, rq, left, actor) && actor != Some(pid)
    requires BootOk(st, rq, pid, state)
    ensures BootOk(next, left, pid, state)
  {
    hide FencesStay, OnlyBy, Unclaimed, CandidateOk, Claimed, LoadedOk, Standing, FenceSpot, FencesOnlyAt, ReplayExact,
      TablesOk, StateAt;
    StayFacts(st, next);
    match state
    case PublishingClaim(candidate, _) =>
      KeepsUnclaimed(st, next, rq, left, actor, pid, Some(candidate));
      KeepsCandidate(st, next, rq, left, actor, pid, candidate);
    case ReadingTable(b, source) =>
      KeepsClaimed(st, next, rq, left, actor, pid, b.claim, b.seal);
    case ObservingWalTail(loaded, occupied) => KeepsLoaded(st, next, rq, left, actor, pid, loaded);
    case ReadingWalTail(loaded, _, _) => KeepsLoaded(st, next, rq, left, actor, pid, loaded);
    case EstablishingFence(loaded, fence) => KeepsLoaded(st, next, rq, left, actor, pid, loaded);
    case Replaying(replay) =>
      KeepsLoaded(st, next, rq, left, actor, pid, replay.loaded);
      KeepsReplay(st, next, replay);
    case RefreshingFinal(recovery) =>
      KeepsLoaded(st, next, rq, left, actor, pid,
                  Loaded(recovery.claim, recovery.seal, recovery.base, recovery.durable));
    case RefreshingAnomaly(claim) => SameAuthor(st, next, claim, pid);
    case Finished =>
    case _ => KeepsUnclaimed(st, next, rq, left, actor, pid, None);
  }

  lemma KeepsAuthority(st: Store, next: Store, rq: Requests, left: Requests, actor: Option<nat>, pid: nat,
                       s: WriterState)
    requires FencesStay(st, next) && OnlyBy(st, rq, left, actor) && actor != Some(pid)
    requires Authority(st, rq, pid, s)
    ensures Authority(next, left, pid, s)
  {
    SameAuthors(st, next);
  }

  lemma KeepsFooting(st: Store, next: Store, rq: Requests, left: Requests, actor: Option<nat>, pid: nat, s: WriterState)
    requires FencesStay(st, next) && OnlyBy(st, rq, left, actor) && actor != Some(pid)
    requires AuthoredBy(st, s.claim, pid) && Footing(st, rq, s)
    ensures Footing(next, left, s)
  {
    SameAuthors(st, next);
    hide StateAt, Partition;
  }

  lemma KeepsCarries(st: Store, next: Store, s: WriterState, effects: map<EffectKey, WriterEffect>)
    requires FencesStay(st, next) && Carries(st, s, effects) && CheckpointTrue(st, s)
    ensures Carries(next, s, effects) && CheckpointTrue(next, s)
  {
    SameAuthors(st, next);
    hide StateAt, Partition, SealOk;
  }

  lemma KeepsProc(st: Store, next: Store, rq: Requests, left: Requests, actor: Option<nat>, pid: nat, proc: Proc)
    requires FencesStay(st, next) && OnlyBy(st, rq, left, actor) && actor != Some(pid)
    requires ProcOk(st, rq, pid, proc)
    ensures ProcOk(next, left, pid, proc)
  {
    hide FencesStay, OnlyBy, BootOk, NodeInv, Footing, CheckpointTrue, Carries, Authority;
    match proc
    case Booting(state) => KeepsBoot(st, next, rq, left, actor, pid, state);
    case Running(n) =>
      ClaimIsOwn(st, rq, pid, n.machine);
      KeepsAuthority(st, next, rq, left, actor, pid, n.machine);
      KeepsFooting(st, next, rq, left, actor, pid, n.machine);
      KeepsCarries(st, next, n.machine, n.tables.effects);
    case Dead =>
  }

  lemma ClaimIsOwn(st: Store, rq: Requests, pid: nat, s: WriterState)
    requires Authority(st, rq, pid, s)
    ensures AuthoredBy(st, s.claim, pid)
  {
  }

  lemma KeepsUntouched(st: Store, next: Store, rq: Requests, left: Requests, actor: Option<nat>, pid: nat)
    requires FencesStay(st, next) && OnlyBy(st, rq, left, actor) && actor != Some(pid)
    requires Untouched(st, rq, pid)
    ensures Untouched(next, left, pid)
  {
    SameAuthors(st, next);
  }

  /** Everyone but the actor is unaffected. */
  ghost predicate OthersOk(st: Store, rq: Requests, procs: map<nat, Proc>, actor: Option<nat>) {
    && (forall pid :: pid in procs && actor != Some(pid) ==> ProcOk(st, rq, pid, procs[pid]))
    && (forall pid :: pid !in procs ==> Untouched(st, rq, pid))
  }

  lemma BystandersKeep(w: World, next: Store, left: Requests, actor: Option<nat>)
    requires ProcsOk(w) && FencesStay(w.st, next) && OnlyBy(w.st, w.rq, left, actor)
    requires actor.Some? ==> actor.value in w.procs
    ensures OthersOk(next, left, w.procs, actor)
  {
    hide FencesStay, OnlyBy, ProcOk, Untouched;
    forall pid | pid in w.procs && actor != Some(pid) ensures ProcOk(next, left, pid, w.procs[pid]) {
      KeepsProc(w.st, next, w.rq, left, actor, pid, w.procs[pid]);
    }
    forall pid | pid !in w.procs ensures Untouched(next, left, pid) {
      KeepsUntouched(w.st, next, w.rq, left, actor, pid);
    }
  }

  // ------------------------------------------------------------ new requests

  lemma MoreSealRequests(st: Store, rq: Requests, r: SealRequest)
    requires RequestsOk(st, rq) && SealRequestOk(st, r)
    ensures RequestsOk(st, rq.(seals := rq.seals + {r}))
    ensures OnlyBy(st, rq, rq.(seals := rq.seals + {r}), Some(r.pid))
  {
    hide SealRequestOk, WalRequestOk, CollectorsOk;
    var more := rq.(seals := rq.seals + {r});
    assert CollectorsOk(st, more) by { CollectorsAlone(st, rq, more); }
  }

  lemma CollectorsAlone(st: Store, rq: Requests, more: Requests)
    requires CollectorsOk(st, rq) && more.collectors == rq.collectors && more.deletes == rq.deletes
    ensures CollectorsOk(st, more)
  {
    hide Intact, Deletable;
    forall b | 1 <= b <= |st.log| && (!Intact(st, b) || b in more.deletes)
      ensures exists k :: Passed(st, more, k, b)
    {
      var k :| Passed(st, rq, k, b);
      assert Passed(st, more, k, b);
    }
  }

  lemma MoreFences(st: Store, rq: Requests, pid: nat, fence: WalObject)
    requires RequestsOk(st, rq) && WalRequestOk(st, fence) && fence.body.Fence? && AuthoredBy(st, fence.owner, pid)
    ensures RequestsOk(st, rq.(wals := rq.wals + {fence}))
    ensures OnlyBy(st, rq, rq.(wals := rq.wals + {fence}), Some(pid))
  {
    hide SealRequestOk, WalRequestOk, CollectorsOk;
    var more := rq.(wals := rq.wals + {fence});
    assert CollectorsOk(st, more) by { CollectorsAlone(st, rq, more); }
  }
}
