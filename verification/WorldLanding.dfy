/** Steps of the store itself: requests land, collectors walk, processes start
    and crash. */
module WorldLanding {
  import opened Common
  import opened Forests
  import opened Logs
  import opened Seals
  import opened Checkpoints
  import opened Stores
  import opened Worlds
  import opened WorldInvariant
  import WorldAppend
  import WorldSeal
  import WorldBoot
  import opened WorldBystander

  /** A change that leaves the log and every process alone. */
  lemma QuietKeepsWorld(w: World, next: Store, left: Requests)
    requires WorldInv(w) && next.log == w.st.log
    requires StoreOk(next) && LogRoomy(next) && RequestsOk(next, left)
    requires FencesStay(w.st, next) && OnlyBy(w.st, w.rq, left, None)
    ensures WorldInv(w.(st := next, rq := left))
  {
    hide StoreOk, LogRoomy, RequestsOk, ProcsOk, AcksOk, FencesStay, OnlyBy, WorldInv, OthersOk;
    var after := w.(st := next, rq := left);
    Unfold(w);
    BystandersKeep(w, next, left, None);
    assert ProcsOk(after) by { OthersAreAll(after); }
    assert AcksOk(after) by { AcksFollowLog(w, after); }
    Refold(after);
  }

  lemma OthersAreAll(w: World)
    requires OthersOk(w.st, w.rq, w.procs, None)
    ensures ProcsOk(w)
  {
    hide ProcOk, Untouched;
  }

  lemma AcksFollowLog(w: World, next: World)
    requires AcksOk(w) && next.st.log == w.st.log && next.acks == w.acks
    ensures AcksOk(next)
  {
    hide Recorded;
  }

  // ------------------------------------------------------------ a WAL create

  lemma Arrives(st: Store, rq: Requests, entry: WalObject)
    requires StoreOk(st) && RequestsOk(st, rq) && entry in rq.wals && entry.batch == |st.log| + 1
    ensures WorldAppend.Arriving(st, rq, entry) && Appendable(st, entry)
  {
    hide StoreOk, RequestsOk, LogOk, WalOk, OneRunEach, WalRequestOk, Appendable;
    StoreParts(st);
    RequestParts(st, rq);
    WorldAppend.ArrivalIsAppendable(st, rq, entry);
  }

  lemma AppendKeepsProcs(w: World, next: World, entry: WalObject)
    requires ProcsOk(w) && WorldAppend.Arriving(w.st, w.rq, entry)
    requires next == w.(st := Appended(w.st, entry), rq := WorldAppend.Taken(w.rq, entry))
    ensures ProcsOk(next)
  {
    hide ProcOk, Untouched, WorldAppend.Arriving, Appended, WorldAppend.Taken;
    forall pid | pid in next.procs ensures ProcOk(next.st, next.rq, pid, next.procs[pid]) {
      WorldAppend.AppendKeepsProc(w.st, w.rq, entry, pid, w.procs[pid]);
    }
    forall pid | pid !in next.procs ensures Untouched(next.st, next.rq, pid) {
      AppendKeepsUntouched(w.st, w.rq, entry, pid);
    }
  }

  lemma AppendKeepsAcks(w: World, next: World, entry: WalObject)
    requires AcksOk(w) && next.st.log == w.st.log + [entry] && next.acks == w.acks
    ensures AcksOk(next)
  {
    hide Recorded;
    forall i | 0 <= i < |next.acks| ensures Recorded(next.st.log, next.acks[i]) {
      WorldAppend.AppendKeepsRecorded(w.st.log, entry, w.acks[i]);
    }
  }

  lemma AppendKeepsWorld(w: World, entry: WalObject)
    requires WorldInv(w) && entry in w.rq.wals && entry.batch == |w.st.log| + 1
    ensures WorldInv(w.(st := Appended(w.st, entry), rq := WorldAppend.Taken(w.rq, entry)))
  {
    hide StoreOk, LogRoomy, RequestsOk, ProcsOk, AcksOk, WorldInv, WorldAppend.Arriving, Appendable;
    var next := w.(st := Appended(w.st, entry), rq := WorldAppend.Taken(w.rq, entry));
    Unfold(w);
    Arrives(w.st, w.rq, entry);
    AppendKeepsStore(w.st, entry);
    WorldAppend.AppendKeepsRequests(w.st, w.rq, entry);
    WorldAppend.AppendKeepsRoom(w.st, w.rq, entry);
    AppendKeepsProcs(w, next, entry);
    AppendKeepsAcks(w, next, entry);
    Refold(next);
  }

  lemma AppendKeepsUntouched(st: Store, rq: Requests, entry: WalObject, pid: nat)
    requires Untouched(st, rq, pid)
    ensures Untouched(Appended(st, entry), WorldAppend.Taken(rq, entry), pid)
  {
    assert forall k: nat :: AuthoredBy(Appended(st, entry), k, pid) <==> AuthoredBy(st, k, pid);
  }

  /** Fewer WAL requests on the way never hurts. */
  lemma FewerRequests(st: Store, rq: Requests, entry: WalObject)
    requires RequestsOk(st, rq)
    ensures RequestsOk(st, WorldAppend.Taken(rq, entry))
  {
    hide SealRequestOk, WalRequestOk, CollectorsOk;
    CollectorsAlone(st, rq, WorldAppend.Taken(rq, entry));
  }

  /** A request whose coordinate is free inside the log has found a hole. */
  lemma FreeMeansHole(st: Store, entry: WalObject)
    requires WalOk(st) && WalRequestOk(st, entry) && entry.batch !in st.wal && entry.batch != |st.log| + 1
    ensures 1 <= entry.batch <= |st.log| && st.log[entry.batch - 1].body.Run? && entry.body.Fence?
    ensures entry.batch <= NewestCut(st)
  {
    hide Belongs, RoomBehind, FoldFacts, StateAt, NewestCut, OwnerAfter, FenceRank;
    assert 1 <= entry.batch <= |st.log|;
    assert Intact(st, entry.batch) || Hole(st, entry.batch);
  }

  /** A FENCE at or below the newest cut belongs to no later owner than the one
      in force at the end of the log. */
  lemma CutOutranksFence(st: Store, fence: WalObject)
    requires Numbered(st) && SealsOk(st) && CutsRise(st) && LogOk(st)
    requires fence.body.Fence? && WalRequestOk(st, fence) && fence.batch <= NewestCut(st)
    ensures fence.owner <= OwnerAfter(st.log)
  {
    hide RoomBehind, FoldLog, Belongs, Chain, StateAt, SealHolds, Constructible;
    var newest := st.seals[Head(st)];
    assert SealOk(st.log, newest);
    assert newest.replay.owner >= fence.owner;
    OwnersRise(st.log, newest.replay.batch - 1, |st.log| - 1);
  }

  /** Whatever finds its coordinate free inside the log is a FENCE of a later
      owner, though not later than the owner in force, settling in the hole of a
      collected RUN. */
  lemma OnlyFencesRefill(st: Store, rq: Requests, entry: WalObject)
    requires StoreOk(st) && RequestsOk(st, rq)
    requires entry in rq.wals && entry.batch !in st.wal && entry.batch != |st.log| + 1
    ensures 1 <= entry.batch <= |st.log| && Belongs(st, entry) && entry.body.Fence?
    ensures st.log[entry.batch - 1].owner < entry.owner <= OwnerAfter(st.log) && st.log[entry.batch - 1].body.Run?
  {
    hide StoreOk, RequestsOk, Numbered, SealsOk, CutsRise, WalOk, CollectorsOk, OneRunEach, Chain, FoldLog,
      RoomBehind, RunSpot, FenceRank, NewestCut;
    StoreParts(st);
    RequestParts(st, rq);
    FreeMeansHole(st, entry);
    CutOutranksFence(st, entry);
    WorldBoot.RunKeepsOwner(st.log, entry.batch);
  }

  lemma RefillKeepsCollectors(st: Store, rq: Requests, fence: WalObject)
    requires CollectorsOk(st, rq) && fence.batch !in st.wal
    requires 1 <= fence.batch <= |st.log| && fence != st.log[fence.batch - 1]
    ensures CollectorsOk(Refilled(st, fence), rq)
  {
    var next := Refilled(st, fence);
    assert NewestCut(next) == NewestCut(st);
    hide NewestCut;
    forall b | 1 <= b <= |next.log| && (!Intact(next, b) || b in rq.deletes)
      ensures exists k :: Passed(next, rq, k, b)
    {
      assert !Intact(st, b) || b in rq.deletes;
      var k :| Passed(st, rq, k, b);
      assert Passed(next, rq, k, b);
    }
    forall b | b in rq.deletes ensures Deletable(next, b) { assert Deletable(st, b); }
  }

  /** Requests are judged against the history, not against what is present. */
  lemma HistoryJudgesAll(st: Store, next: Store, rq: Requests)
    requires next.seals == st.seals && next.authors == st.authors && next.log == st.log && RequestsOk(st, rq)
    ensures forall r :: r in rq.seals ==> SealRequestOk(next, r)
    ensures forall e :: e in rq.wals ==> WalRequestOk(next, e)
    ensures LogRoomy(st) ==> LogRoomy(next)
  {
    hide SealOk, RunSpot, CollectorsOk;
    assert NewestCut(next) == NewestCut(st);
    hide NewestCut;
    forall r | r in rq.seals ensures SealRequestOk(next, r) {
      assert SealRequestOk(st, r);
      assert forall j: nat :: AuthoredBy(st, j, r.pid) <==> AuthoredBy(next, j, r.pid);
    }
    forall e | e in rq.wals ensures WalRequestOk(next, e) {
      assert WalRequestOk(st, e);
      assert forall j: nat, pid: nat :: AuthoredBy(st, j, pid) <==> AuthoredBy(next, j, pid);
    }
    if LogRoomy(st) {
      forall i | 0 <= i < |next.log| ensures RoomBehind(next, next.log[i]) { assert RoomBehind(st, st.log[i]); }
    }
  }

  lemma HistoryJudges(st: Store, next: Store, rq: Requests)
    requires next.seals == st.seals && next.authors == st.authors && next.log == st.log
    requires RequestsOk(st, rq) && CollectorsOk(next, rq)
    ensures RequestsOk(next, rq)
    ensures LogRoomy(st) ==> LogRoomy(next)
  {
    hide SealRequestOk, WalRequestOk, CollectorsOk, LogRoomy;
    HistoryJudgesAll(st, next, rq);
  }

  lemma RefillFacts(st: Store, rq: Requests, fence: WalObject)
    requires fence.batch !in st.wal
    ensures FencesStay(st, Refilled(st, fence)) && OnlyBy(st, rq, WorldAppend.Taken(rq, fence), None)
  {
  }

  lemma RefillKeepsWorld(w: World, fence: WalObject)
    requires WorldInv(w) && fence in w.rq.wals && fence.batch !in w.st.wal && fence.batch != |w.st.log| + 1
    ensures WorldInv(w.(st := Refilled(w.st, fence), rq := WorldAppend.Taken(w.rq, fence)))
  {
    hide StoreOk, LogRoomy, RequestsOk, ProcsOk, AcksOk, WorldInv, FencesStay, OnlyBy, CollectorsOk, OneRunEach,
      WalRequestOk;
    var next := Refilled(w.st, fence);
    Unfold(w);
    OnlyFencesRefill(w.st, w.rq, fence);
    RefillKeepsStore(w.st, fence);
    RequestParts(w.st, w.rq);
    RefillKeepsCollectors(w.st, w.rq, fence);
    HistoryJudges(w.st, next, w.rq);
    FewerRequests(next, w.rq, fence);
    RefillFacts(w.st, w.rq, fence);
    QuietKeepsWorld(w, next, WorldAppend.Taken(w.rq, fence));
  }

  lemma RefusalFacts(st: Store, rq: Requests, entry: WalObject, r: SealRequest)
    ensures FencesStay(st, st)
    ensures OnlyBy(st, rq, WorldAppend.Taken(rq, entry), None) && OnlyBy(st, rq, WorldSeal.Published(rq, r), None)
  {
  }

  lemma RefusalKeepsWorld(w: World, entry: WalObject)
    requires WorldInv(w)
    ensures WorldInv(w.(rq := WorldAppend.Taken(w.rq, entry)))
  {
    hide StoreOk, LogRoomy, RequestsOk, ProcsOk, AcksOk, WorldInv, FencesStay, OnlyBy;
    Unfold(w);
    FewerRequests(w.st, w.rq, entry);
    RefusalFacts(w.st, w.rq, entry, SealRequest(0, GenesisSeal(0), ForGenesis));
    QuietKeepsWorld(w, w.st, WorldAppend.Taken(w.rq, entry));
  }

  lemma LandWalKeepsWorld(w: World, entry: WalObject)
    requires WorldInv(w) && entry in w.rq.wals
    ensures WorldInv(Step(w, LandWal(entry)))
  {
    hide WorldInv;
    if entry.batch in w.st.wal { RefusalKeepsWorld(w, entry); }
    else if entry.batch == |w.st.log| + 1 { AppendKeepsWorld(w, entry); }
    else { RefillKeepsWorld(w, entry); }
  }

  // ------------------------------------------------------------ a Seal create

  lemma FewerSealRequests(st: Store, rq: Requests, r: SealRequest)
    requires RequestsOk(st, rq)
    ensures RequestsOk(st, WorldSeal.Published(rq, r))
  {
    hide SealRequestOk, WalRequestOk, CollectorsOk;
    CollectorsAlone(st, rq, WorldSeal.Published(rq, r));
  }

  lemma SealRefusalKeepsWorld(w: World, r: SealRequest)
    requires WorldInv(w)
    ensures WorldInv(w.(rq := WorldSeal.Published(w.rq, r)))
  {
    hide StoreOk, LogRoomy, RequestsOk, ProcsOk, AcksOk, WorldInv, FencesStay, OnlyBy;
    Unfold(w);
    FewerSealRequests(w.st, w.rq, r);
    RefusalFacts(w.st, w.rq, WalObject(0, 0, 0, Fence), r);
    QuietKeepsWorld(w, w.st, WorldSeal.Published(w.rq, r));
  }

  lemma SealKeepsProcs(w: World, next: World, r: SealRequest)
    requires ProcsOk(w) && r in w.rq.seals && RequestsOk(w.st, w.rq) && StoreOk(w.st)
    requires WorldSeal.Grows(w.st, next.st, r)
    requires next == w.(st := WorldSeal.After(w.st, r), rq := WorldSeal.Published(w.rq, r))
    ensures ProcsOk(next)
  {
    hide ProcOk, Untouched, WorldSeal.Grows, WorldSeal.After, WorldSeal.Published, StoreOk, RequestsOk, Numbered, LogOk,
      SealsOk, CutsRise, WalOk;
    StoreParts(w.st);
    forall pid | pid in next.procs ensures ProcOk(next.st, next.rq, pid, next.procs[pid]) {
      WorldSeal.SealKeepsProc(w.st, next.st, w.rq, r, pid, w.procs[pid]);
    }
    forall pid | pid !in next.procs ensures Untouched(next.st, next.rq, pid) {
      WorldSeal.SealKeepsUntouched(w.st, next.st, w.rq, r, pid);
    }
  }

  lemma SealWinKeepsWorld(w: World, r: SealRequest)
    requires WorldInv(w) && r in w.rq.seals && r.seal.generation !in w.st.seals
    ensures WorldInv(w.(st := WorldSeal.After(w.st, r), rq := WorldSeal.Published(w.rq, r)))
  {
    hide StoreOk, LogRoomy, RequestsOk, ProcsOk, AcksOk, WorldInv, WorldSeal.Grows, WorldSeal.After,
      WorldSeal.Published;
    var next := w.(st := WorldSeal.After(w.st, r), rq := WorldSeal.Published(w.rq, r));
    Unfold(w);
    WorldSeal.WinningGrows(w.st, w.rq, r);
    WorldSeal.SealKeepsRequests(w.st, next.st, w.rq, r);
    WorldSeal.SealKeepsRoom(w.st, next.st, r);
    WorldSeal.GrowthFacts(w.st, next.st, r);
    SealKeepsProcs(w, next, r);
    AcksFollowLog(w, next);
    Refold(next);
  }

  lemma LandSealKeepsWorld(w: World, r: SealRequest)
    requires WorldInv(w) && r in w.rq.seals
    ensures WorldInv(Step(w, LandSeal(r)))
  {
    hide WorldInv;
    if r.seal.generation in w.st.seals { SealRefusalKeepsWorld(w, r); } else { SealWinKeepsWorld(w, r); }
  }

  // ------------------------------------------------------------- collection

  function Deleted(rq: Requests, b: nat): Requests { rq.(deletes := rq.deletes - {b}) }

  lemma RemoveChanges(st: Store, b: nat, c: nat)
    requires Deletable(st, b)
    ensures Intact(Removed(st, b), c) <==> Intact(st, c) && c != b
    ensures Deletable(Removed(st, b), c) <==> Deletable(st, c) && c != b
    ensures NewestCut(Removed(st, b)) == NewestCut(st)
  {
  }

  lemma DeleteKeepsCollectors(st: Store, rq: Requests, b: nat)
    requires CollectorsOk(st, rq) && b in rq.deletes
    ensures CollectorsOk(Removed(st, b), Deleted(rq, b))
  {
    var next, left := Removed(st, b), Deleted(rq, b);
    assert Deletable(st, b);
    hide Intact, Deletable;
    forall c | 1 <= c <= |next.log| && (!Intact(next, c) || c in left.deletes)
      ensures exists k :: Passed(next, left, k, c)
    {
      RemoveChanges(st, b, c);
      var k :| Passed(st, rq, k, c);
      assert Passed(next, left, k, c);
    }
    forall c | c in left.deletes ensures Deletable(next, c) { RemoveChanges(st, b, c); }
  }

  lemma CollectorsDecide(st: Store, rq: Requests, left: Requests)
    requires RequestsOk(st, rq) && left.seals == rq.seals && left.wals == rq.wals && CollectorsOk(st, left)
    ensures RequestsOk(st, left)
  {
    hide CollectorsOk, SealRequestOk, WalRequestOk;
  }

  lemma DeleteKeepsRequests(st: Store, rq: Requests, b: nat)
    requires RequestsOk(st, rq) && b in rq.deletes
    ensures RequestsOk(Removed(st, b), Deleted(rq, b))
    ensures LogRoomy(st) ==> LogRoomy(Removed(st, b))
  {
    hide SealRequestOk, WalRequestOk, CollectorsOk, LogRoomy, RoomBehind;
    DeleteKeepsCollectors(st, rq, b);
    HistoryJudgesAll(st, Removed(st, b), rq);
  }

  lemma LandDeleteFacts(st: Store, rq: Requests, b: nat)
    requires CollectorsOk(st, rq) && b in rq.deletes
    ensures Deletable(st, b)
    ensures FencesStay(st, Removed(st, b)) && OnlyBy(st, rq, Deleted(rq, b), None)
  {
    hide NewestCut, Passed;
    assert Deletable(st, b);
  }

  lemma LandDeleteKeepsWorld(w: World, b: nat)
    requires WorldInv(w) && b in w.rq.deletes
    ensures WorldInv(Step(w, LandDelete(b)))
  {
    hide StoreOk, LogRoomy, RequestsOk, ProcsOk, AcksOk, WorldInv, FencesStay, OnlyBy, CollectorsOk, OneRunEach,
      WalRequestOk;
    Unfold(w);
    RequestParts(w.st, w.rq);
    LandDeleteFacts(w.st, w.rq, b);
    RemoveKeepsStore(w.st, b);
    DeleteKeepsRequests(w.st, w.rq, b);
    QuietKeepsWorld(w, Removed(w.st, b), Deleted(w.rq, b));
  }

  /** Two collectors never walk the same coordinate. */
  lemma RangesDisjoint(st: Store, rq: Requests, j: nat, k: nat, b: nat)
    requires CutsRise(st) && Passed(st, rq, j, b)
    requires k >= 2 && k in st.seals && k - 1 in st.seals
    requires st.seals[k - 1].replay.Cut() < b <= st.seals[k].replay.Cut()
    ensures j == k
  {
  }

  lemma NextVisitIsFresh(st: Store, rq: Requests, k: nat)
    requires CutsRise(st) && CollectorsOk(st, rq)
    requires k in rq.collectors && rq.collectors[k] < st.seals[k].replay.Cut() <= |st.log|
    ensures Intact(st, rq.collectors[k] + 1) && rq.collectors[k] + 1 !in rq.deletes
  {
    var b := rq.collectors[k] + 1;
    hide CutsRise;
    if !Intact(st, b) || b in rq.deletes {
      var j: nat :| Passed(st, rq, j, b);
      hide Intact, Deletable;
      RangesDisjoint(st, rq, j, k, b);
      assert false;
    }
  }

  lemma VisitKeepsPassed(st: Store, rq: Requests, k: nat, j: nat, b: nat)
    requires k in rq.collectors && Passed(st, rq, j, b)
    requires k in st.seals && rq.collectors[k] < st.seals[k].replay.Cut()
    ensures Passed(st, Visited(st, rq, k), j, b)
  {
  }

  /** What the visit asks to delete is an intact RUN below the newest cut. */
  lemma VisitDeletes(st: Store, rq: Requests, k: nat)
    requires Numbered(st) && CutsRise(st) && CollectorsOk(st, rq)
    requires k in rq.collectors && rq.collectors[k] < st.seals[k].replay.Cut() <= |st.log|
    ensures forall b :: b in Visited(st, rq, k).deletes ==>
      b in rq.deletes || (b == rq.collectors[k] + 1 && Deletable(st, b))
  {
    NextVisitIsFresh(st, rq, k);
    NewestIsNumbered(st);
    hide NewestCut, Numbered, CutsRise, CollectorsOk;
  }

  lemma VisitPasses(st: Store, rq: Requests, k: nat, b: nat)
    requires CollectorsOk(st, rq) && 1 <= b <= |st.log|
    requires k in rq.collectors && rq.collectors[k] < st.seals[k].replay.Cut()
    requires b == rq.collectors[k] + 1 || !Intact(st, b) || b in rq.deletes
    ensures exists j :: Passed(st, Visited(st, rq, k), j, b)
  {
    var left := Visited(st, rq, k);
    if b == rq.collectors[k] + 1 {
      hide Intact, Deletable;
      assert Passed(st, left, k, b);
    } else {
      var j: nat :| Passed(st, rq, j, b);
      hide Intact, Deletable, Passed, Visited;
      VisitKeepsPassed(st, rq, k, j, b);
    }
  }

  lemma VisitKeepsCollectors(st: Store, rq: Requests, k: nat)
    requires Numbered(st) && CutsRise(st) && CollectorsOk(st, rq)
    requires k in rq.collectors && rq.collectors[k] < st.seals[k].replay.Cut() <= |st.log|
    ensures CollectorsOk(st, Visited(st, rq, k))
  {
    hide Intact, Deletable, Passed, Numbered, CutsRise;
    VisitDeletes(st, rq, k);
    var left := Visited(st, rq, k);
    forall b | 1 <= b <= |st.log| && (!Intact(st, b) || b in left.deletes)
      ensures exists j :: Passed(st, left, j, b)
    {
      VisitPasses(st, rq, k, b);
    }
  }

  lemma VisitFacts(st: Store, rq: Requests, k: nat)
    requires SealsOk(st) && k in rq.collectors && k in st.seals
    ensures st.seals[k].replay.Cut() <= |st.log|
    ensures FencesStay(st, st) && OnlyBy(st, rq, Visited(st, rq, k), None)
  {
    hide SealHolds, StateAt, Constructible;
    assert SealOk(st.log, st.seals[k]);
  }

  lemma VisitKeepsWorld(w: World, k: nat)
    requires WorldInv(w) && k in w.rq.collectors && k in w.st.seals
    requires w.rq.collectors[k] < w.st.seals[k].replay.Cut()
    ensures WorldInv(Step(w, Visit(k)))
  {
    hide StoreOk, LogRoomy, RequestsOk, ProcsOk, AcksOk, WorldInv, FencesStay, OnlyBy, CollectorsOk, OneRunEach,
      WalRequestOk, Numbered, CutsRise, SealsOk, LogOk, WalOk, Visited;
    Unfold(w);
    StoreParts(w.st);
    RequestParts(w.st, w.rq);
    VisitFacts(w.st, w.rq, k);
    VisitKeepsCollectors(w.st, w.rq, k);
    VisitLeavesRequests(w.st, w.rq, k);
    CollectorsDecide(w.st, w.rq, Visited(w.st, w.rq, k));
    QuietKeepsWorld(w, w.st, Visited(w.st, w.rq, k));
  }

  lemma VisitLeavesRequests(st: Store, rq: Requests, k: nat)
    requires k in rq.collectors
    ensures Visited(st, rq, k).seals == rq.seals && Visited(st, rq, k).wals == rq.wals
  {
  }

  // --------------------------------------------------------- start and crash

  lemma SpawnKeepsWorld(w: World, pid: nat)
    requires WorldInv(w) && pid !in w.procs
    ensures WorldInv(Step(w, Spawn(pid)))
  {
    hide StoreOk, LogRoomy, RequestsOk, Recorded, RunningOk;
    assert Untouched(w.st, w.rq, pid);
    assert CollectorsOk(w.st, w.rq) by { RequestsHaveCollectors(w.st, w.rq); }
    assert Unclaimed(w.st, w.rq, pid, None);
  }

  lemma RequestsHaveCollectors(st: Store, rq: Requests)
    requires RequestsOk(st, rq)
    ensures CollectorsOk(st, rq)
  {
  }

  lemma CrashKeepsWorld(w: World, pid: nat)
    requires WorldInv(w) && pid in w.procs
    ensures WorldInv(Step(w, Crash(pid)))
  {
    hide StoreOk, LogRoomy, RequestsOk, Recorded, RunningOk, BootOk, Untouched;
  }
}
