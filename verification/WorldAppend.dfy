/** The log grows by one object: everything the world keeps is kept. */
module WorldAppend {
  import opened Common
  import opened Forests
  import opened Logs
  import opened Seals
  import opened WriterSpec
  import opened WriterInvariant
  import opened BootstrapSpec
  import opened Nodes
  import opened Stores
  import opened Worlds
  import opened WorldInvariant

  function Taken(rq: Requests, entry: WalObject): Requests { rq.(wals := rq.wals - {entry}) }

  /** A WAL request that lands right behind the log. */
  ghost predicate Arriving(st: Store, rq: Requests, entry: WalObject) {
    && LogOk(st) && WalOk(st) && OneRunEach(rq)
    && entry in rq.wals && WalRequestOk(st, entry) && entry.batch == |st.log| + 1
  }

  lemma ArrivalIsAppendable(st: Store, rq: Requests, entry: WalObject)
    requires Arriving(st, rq, entry)
    ensures Appendable(st, entry)
  {
    hide Chain, FoldLog, WalOk, OneRunEach, RoomBehind;
    assert st.log[..|st.log|] == st.log;
    if entry.body.Fence? {
      assert FoldFacts(StateAt(st.log, |st.log|), |st.log| + 1, []).Some?;
    }
  }

  // ------------------------------------------------------------------ requests

  lemma AppendKeepsSealRequest(st: Store, entry: WalObject, r: SealRequest)
    requires SealRequestOk(st, r)
    ensures SealRequestOk(Appended(st, entry), r)
  {
    hide SealOk;
    if r.purpose.ForCheckpoint? {
      AppendKeepsSealOk(st.log, entry, r.seal);
      assert forall j: nat :: AuthoredBy(st, j, r.pid) ==> AuthoredBy(Appended(st, entry), j, r.pid);
    }
  }

  lemma AppendKeepsFenceSpot(st: Store, entry: WalObject, claim: nat, fence: nat)
    requires FenceSpot(st, claim, fence)
    ensures FenceSpot(Appended(st, entry), claim, fence)
  {
    assert (st.log + [entry])[..fence - 1] == st.log[..fence - 1];
  }

  /** Two RUNs right behind the log would be of one owner, hence one RUN. */
  lemma AppendKeepsWalRequest(st: Store, rq: Requests, entry: WalObject, e: WalObject)
    requires Arriving(st, rq, entry) && e in rq.wals && e != entry && WalRequestOk(st, e)
    ensures WalRequestOk(Appended(st, entry), e)
  {
    hide Chain, FoldLog, LogOk, WalOk, FoldFacts;
    assert NewestCut(Appended(st, entry)) == NewestCut(st);
    hide NewestCut;
    if e.body.Fence? {
      AppendKeepsFenceSpot(st, entry, e.owner, e.batch);
      assert forall j: nat, pid: nat :: AuthoredBy(Appended(st, entry), j, pid) <==> AuthoredBy(st, j, pid);
    } else {
      StateAtAppend(st.log, entry, e.batch - 1);
      hide StateAt, FenceSpot;
      assert (st.log + [entry])[e.batch - 2] == st.log[e.batch - 2];
    }
  }

  lemma AppendKeepsPassed(st: Store, rq: Requests, entry: WalObject, k: nat, b: nat)
    requires Passed(st, rq, k, b)
    ensures Passed(Appended(st, entry), Taken(rq, entry), k, b)
  {
  }

  lemma AppendKeepsDeletable(st: Store, entry: WalObject, b: nat)
    requires WalOk(st) && Deletable(st, b)
    ensures Deletable(Appended(st, entry), b)
  {
    assert (st.log + [entry])[b - 1] == st.log[b - 1];
  }

  lemma AppendKeepsIntact(st: Store, entry: WalObject, b: nat)
    requires WalOk(st) && 1 <= b <= |st.log| + 1
    ensures Intact(Appended(st, entry), b) <==> Intact(st, b) || b == |st.log| + 1
  {
    hide Belongs, Hole;
  }

  lemma AppendKeepsCollectors(st: Store, rq: Requests, entry: WalObject)
    requires WalOk(st) && CollectorsOk(st, rq)
    ensures CollectorsOk(Appended(st, entry), Taken(rq, entry))
  {
    var next, left := Appended(st, entry), Taken(rq, entry);
    hide WalOk;
    forall b | 1 <= b <= |next.log| && (!Intact(next, b) || b in left.deletes)
      ensures exists k :: Passed(next, left, k, b)
    {
      AppendKeepsIntact(st, entry, b);
      hide Intact;
      assert b in rq.deletes ==> Deletable(st, b);
      assert b <= |st.log|;
      var k :| Passed(st, rq, k, b);
      AppendKeepsPassed(st, rq, entry, k, b);
    }
    hide Deletable;
    forall b | b in left.deletes
      ensures Deletable(next, b)
    {
      AppendKeepsDeletable(st, entry, b);
    }
  }

  lemma AppendKeepsRequests(st: Store, rq: Requests, entry: WalObject)
    requires Arriving(st, rq, entry) && RequestsOk(st, rq)
    ensures RequestsOk(Appended(st, entry), Taken(rq, entry))
  {
    hide SealRequestOk, WalRequestOk, CollectorsOk, Appended;
    forall r | r in rq.seals ensures SealRequestOk(Appended(st, entry), r) { AppendKeepsSealRequest(st, entry, r); }
    forall e | e in rq.wals - {entry} ensures WalRequestOk(Appended(st, entry), e) {
      AppendKeepsWalRequest(st, rq, entry, e);
    }
    AppendKeepsCollectors(st, rq, entry);
  }

  lemma AppendKeepsRoom(st: Store, rq: Requests, entry: WalObject)
    requires LogRoomy(st) && Arriving(st, rq, entry)
    ensures LogRoomy(Appended(st, entry))
  {
    assert NewestCut(Appended(st, entry)) == NewestCut(st);
    hide NewestCut, LogOk, WalOk, FenceSpot, RunSpot, OneRunEach;
  }

  // ----------------------------------------------------------------- bootstraps

  lemma AppendKeepsClaimed(st: Store, rq: Requests, entry: WalObject, pid: nat, g: nat, seal: Seal)
    requires Claimed(st, rq, pid, g, seal) && entry in rq.wals
    ensures Claimed(Appended(st, entry), Taken(rq, entry), pid, g, seal)
  {
    assert forall k: nat :: AuthoredBy(Appended(st, entry), k, pid) <==> AuthoredBy(st, k, pid);
  }

  lemma AppendKeepsFencesOnly(st: Store, rq: Requests, entry: WalObject, g: nat, h: nat)
    requires FencesOnlyAt(st, rq, g, h) && entry in rq.wals && entry.batch == |st.log| + 1
    ensures FencesOnlyAt(Appended(st, entry), Taken(rq, entry), g, h)
  {
  }

  lemma AppendKeepsLoaded(st: Store, rq: Requests, entry: WalObject, pid: nat, loaded: Loaded)
    requires LoadedOk(st, rq, pid, loaded) && entry in rq.wals
    ensures LoadedOk(Appended(st, entry), Taken(rq, entry), pid, loaded)
  {
    AppendKeepsClaimed(st, rq, entry, pid, loaded.claim, loaded.seal);
    StateAtAppend(st.log, entry, loaded.seal.replay.Cut());
    hide Claimed, StateAt;
  }

  lemma AppendKeepsStanding(st: Store, rq: Requests, entry: WalObject, loaded: Loaded, h: nat)
    requires Standing(st, rq, loaded, h) && entry in rq.wals && entry.batch == |st.log| + 1 && WalOk(st)
    ensures Standing(Appended(st, entry), Taken(rq, entry), loaded, h)
  {
    AppendKeepsFenceSpot(st, entry, loaded.claim, h);
    AppendKeepsFencesOnly(st, rq, entry, loaded.claim, h);
    hide FenceSpot, FencesOnlyAt;
  }

  lemma AppendKeepsReplay(st: Store, entry: WalObject, replay: Replay)
    requires ReplayExact(st, replay)
    ensures ReplayExact(Appended(st, entry), replay)
  {
    StateAtAppend(st.log, entry, replay.next - 1);
    hide StateAt;
  }

  lemma AppendKeepsUnclaimed(st: Store, rq: Requests, entry: WalObject, pid: nat, candidate: Option<Seal>)
    requires Unclaimed(st, rq, pid, candidate)
    ensures Unclaimed(Appended(st, entry), Taken(rq, entry), pid, candidate)
  {
    assert forall k: nat :: AuthoredBy(Appended(st, entry), k, pid) <==> AuthoredBy(st, k, pid);
  }

  lemma AppendKeepsCandidate(st: Store, rq: Requests, entry: WalObject, pid: nat, candidate: Seal)
    requires CandidateOk(st, rq, pid, candidate) && entry in rq.wals && entry.batch == |st.log| + 1
    ensures CandidateOk(Appended(st, entry), Taken(rq, entry), pid, candidate)
  {
    if AuthoredBy(st, candidate.generation, pid) {
      AppendKeepsFencesOnly(st, rq, entry, candidate.generation, 0);
    }
  }

  lemma AppendKeepsBoot(st: Store, rq: Requests, entry: WalObject, pid: nat, state: BootstrapState)
    requires Arriving(st, rq, entry) && BootOk(st, rq, pid, state)
    ensures BootOk(Appended(st, entry), Taken(rq, entry), pid, state)
  {
    hide LogOk, WalOk, OneRunEach, WalRequestOk, Unclaimed, CandidateOk, Claimed, LoadedOk, Standing, FenceSpot,
      FencesOnlyAt, ReplayExact, TablesOk, StateAt;
    match state
    case PublishingClaim(candidate, _) =>
      AppendKeepsUnclaimed(st, rq, entry, pid, Some(candidate));
      AppendKeepsCandidate(st, rq, entry, pid, candidate);
    case ReadingTable(b, source) =>
      AppendKeepsClaimed(st, rq, entry, pid, b.claim, b.seal);
      AppendKeepsFencesOnly(st, rq, entry, b.claim, 0);
    case ObservingWalTail(loaded, occupied) =>
      AppendKeepsLoaded(st, rq, entry, pid, loaded);
      AppendKeepsFencesOnly(st, rq, entry, loaded.claim, 0);
      if occupied.Some? { AppendKeepsFenceSpot(st, entry, loaded.claim, occupied.value); }
    case ReadingWalTail(loaded, _, _) =>
      AppendKeepsLoaded(st, rq, entry, pid, loaded);
      AppendKeepsFencesOnly(st, rq, entry, loaded.claim, 0);
    case EstablishingFence(loaded, fence) =>
      AppendKeepsLoaded(st, rq, entry, pid, loaded);
      AppendKeepsFenceSpot(st, entry, loaded.claim, fence);
      AppendKeepsFencesOnly(st, rq, entry, loaded.claim, fence);
    case Replaying(replay) =>
      AppendKeepsLoaded(st, rq, entry, pid, replay.loaded);
      AppendKeepsStanding(st, rq, entry, replay.loaded, replay.fence);
      AppendKeepsReplay(st, entry, replay);
    case RefreshingFinal(recovery) =>
      var loaded := Loaded(recovery.claim, recovery.seal, recovery.base, recovery.durable);
      AppendKeepsLoaded(st, rq, entry, pid, loaded);
      AppendKeepsStanding(st, rq, entry, loaded, recovery.durableBatch);
      StateAtAppend(st.log, entry, recovery.durableBatch);
    case RefreshingAnomaly(claim) =>
      assert AuthoredBy(Appended(st, entry), claim, pid) <==> AuthoredBy(st, claim, pid);
    case Finished =>
    case _ => AppendKeepsUnclaimed(st, rq, entry, pid, None);
  }

  // ------------------------------------------------------------------- writers

  lemma AppendKeepsNextOurs(st: Store, rq: Requests, entry: WalObject, s: WriterState)
    requires Arriving(st, rq, entry) && Footing(st, rq, s)
    ensures NextIsOurs(Appended(st, entry), Taken(rq, entry), s)
  {
    hide LogOk, WalOk, OneRunEach, StateAt, FoldFacts, FenceSpot, Belongs, RoomBehind;
    var d := s.durableBatch;
    assert Partition(Appended(st, entry)) == Partition(st);
  }

  lemma AppendKeepsFooting(st: Store, rq: Requests, entry: WalObject, s: WriterState)
    requires Arriving(st, rq, entry) && Footing(st, rq, s)
    ensures Footing(Appended(st, entry), Taken(rq, entry), s)
  {
    AppendKeepsNextOurs(st, rq, entry, s);
    StateAtAppend(st.log, entry, s.seal.replay.Cut());
    StateAtAppend(st.log, entry, s.durableBatch);
    assert Partition(Appended(st, entry)) == Partition(st);
    hide NextIsOurs, StateAt, LogOk, WalOk, OneRunEach, WalRequestOk, Partition;
  }

  lemma AppendKeepsAuthority(st: Store, rq: Requests, entry: WalObject, pid: nat, s: WriterState)
    requires Authority(st, rq, pid, s)
    ensures Authority(Appended(st, entry), Taken(rq, entry), pid, s)
  {
    assert forall k: nat :: AuthoredBy(Appended(st, entry), k, pid) <==> AuthoredBy(st, k, pid);
  }

  lemma AppendKeepsCheckpoint(st: Store, entry: WalObject, s: WriterState)
    requires CheckpointTrue(st, s)
    ensures CheckpointTrue(Appended(st, entry), s)
  {
    hide SealOk, StateAt;
    if s.checkpoint.Some? {
      StateAtAppend(st.log, entry, s.checkpoint.value.ticket.cut);
      if s.checkpoint.value.Publishing? {
        AppendKeepsSealOk(st.log, entry, s.checkpoint.value.prepared.successor);
      }
    }
  }

  lemma AppendKeepsCarries(st: Store, entry: WalObject, s: WriterState, effects: map<EffectKey, WriterEffect>)
    requires Carries(st, s, effects)
    ensures Carries(Appended(st, entry), s, effects)
  {
    hide StateAt;
    assert Partition(Appended(st, entry)) == Partition(st);
    hide Partition;
    if s.checkpoint.Some? && !s.checkpoint.value.Publishing? {
      StateAtAppend(st.log, entry, s.checkpoint.value.ticket.cut);
    }
  }

  lemma AppendKeepsProc(st: Store, rq: Requests, entry: WalObject, pid: nat, proc: Proc)
    requires Arriving(st, rq, entry) && ProcOk(st, rq, pid, proc)
    ensures ProcOk(Appended(st, entry), Taken(rq, entry), pid, proc)
  {
    hide Arriving, BootOk, NodeInv, Authority, Footing, CheckpointTrue, Carries, Appended, Taken;
    match proc
    case Booting(state) => AppendKeepsBoot(st, rq, entry, pid, state);
    case Running(n) =>
      AppendKeepsAuthority(st, rq, entry, pid, n.machine);
      AppendKeepsFooting(st, rq, entry, n.machine);
      AppendKeepsCheckpoint(st, entry, n.machine);
      AppendKeepsCarries(st, entry, n.machine, n.tables.effects);
    case Dead =>
  }

  lemma AppendKeepsRecorded(log: seq<WalObject>, entry: WalObject, reply: Completion)
    requires Recorded(log, reply)
    ensures Recorded(log + [entry], reply)
  {
    if !reply.answer.Refused? {
      var b: nat, n: nat :| RecordedAt(log, reply, b, n);
      StateAtAppend(log, entry, b - 1);
      hide StateAt, ReportsAt;
      assert (log + [entry])[b - 1] == log[b - 1];
      assert RecordedAt(log + [entry], reply, b, n);
    }
  }
}
