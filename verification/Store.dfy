/** The shared object store: Seals and WAL objects under create-if-absent,
    together with the history of who authored what and what was first at each
    coordinate. */
module Stores {
  import opened Common
  import opened Forests
  import opened Logs
  import opened Seals
  import opened Checkpoints

  /** `seals` and `wal` are the objects present. `authors` says whose request
      created each Seal and `log` lists the first occupant of each coordinate,
      whether or not a collector has deleted it since. */
  datatype Store = Store(
    seals: map<nat, Seal>,
    authors: map<nat, nat>,
    log: seq<WalObject>,
    wal: map<nat, WalObject>)

  const EMPTY_STORE := Store(map[], map[], [], map[])

  /** The newest generation, zero before genesis. */
  function Head(st: Store): nat { |st.seals| }

  /** The replay cut of the newest Seal, zero before genesis. */
  function NewestCut(st: Store): nat { if Head(st) in st.seals then st.seals[Head(st)].replay.Cut() else 0 }

  /** The state the log replays to just after its first `n` coordinates. */
  function StateAt(log: seq<WalObject>, n: nat): Forest
    requires n <= |log|
  {
    if FoldLog(log[..n]).Some? then FoldLog(log[..n]).value else EMPTY
  }

  predicate Intact(st: Store, b: nat) { 1 <= b <= |st.log| && b in st.wal && st.wal[b] == st.log[b - 1] }

  /** A collected RUN below the newest cut. A delayed FENCE of a later owner may
      have settled there since. */
  predicate Hole(st: Store, b: nat)
    requires 1 <= b <= |st.log|
  {
    && b <= NewestCut(st)
    && st.log[b - 1].body.Run?
    && (b in st.wal ==> st.wal[b].body.Fence? && st.wal[b].owner > st.log[b - 1].owner)
  }

  /** What holds of each published or requested Seal: it passes every check of its
      construction, it replays through a coordinate of the log under that
      coordinate's owner, and its tables hold the state there. */
  ghost predicate SealOk(log: seq<WalObject>, seal: Seal) {
    && seal.replay.Cut() <= |log|
    && (seal.replay.Through? ==>
         && seal.replay.batch >= 1
         && log[seal.replay.batch - 1].owner == seal.replay.owner < seal.generation)
    && SealHolds(seal, StateAt(log, seal.replay.Cut()))
    && Constructible(seal)
  }

  ghost predicate Numbered(st: Store) {
    && (forall k :: k in st.seals <==> 1 <= k <= Head(st))
    && st.authors.Keys == st.seals.Keys
    && (forall k :: k in st.seals ==>
         st.seals[k].generation == k && st.seals[k].partition == st.seals[GENESIS_GENERATION].partition)
  }

  ghost predicate SealsOk(st: Store) { forall k :: k in st.seals ==> SealOk(st.log, st.seals[k]) }

  /** Along published generations the replay cut never moves back. */
  predicate CutsRise(st: Store) {
    forall j, k :: j in st.seals && k in st.seals && j <= k ==> st.seals[j].replay.Cut() <= st.seals[k].replay.Cut()
  }

  /** An object that belongs to this partition and to a published owner. */
  predicate Belongs(st: Store, entry: WalObject) {
    && 1 <= entry.owner <= Head(st) && GENESIS_GENERATION in st.seals
    && entry.partition == st.seals[GENESIS_GENERATION].partition
  }

  ghost predicate LogOk(st: Store) {
    && Chain(st.log)
    && FoldLog(st.log).Some?
    && (forall i :: 0 <= i < |st.log| ==> Belongs(st, st.log[i]))
  }

  ghost predicate WalOk(st: Store) {
    && (forall b :: b in st.wal ==>
         && 1 <= b <= |st.log| && st.wal[b].batch == b && Belongs(st, st.wal[b])
         && st.wal[b].owner <= OwnerAfter(st.log))
    && (forall b :: 1 <= b <= |st.log| ==> Intact(st, b) || Hole(st, b))
  }

  ghost predicate StoreOk(st: Store) {
    Numbered(st) && SealsOk(st) && CutsRise(st) && LogOk(st) && WalOk(st)
  }

  lemma EmptyStoreOk()
    ensures StoreOk(EMPTY_STORE)
  {
  }

  // ------------------------------------------------------------ consequences

  lemma StateAtAppend(log: seq<WalObject>, entry: WalObject, n: nat)
    requires n <= |log|
    ensures StateAt(log + [entry], n) == StateAt(log, n)
  {
    assert (log + [entry])[..n] == log[..n];
  }

  lemma StateAtIsFold(log: seq<WalObject>, n: nat)
    requires n <= |log| && FoldLog(log).Some?
    ensures FoldLog(log[..n]) == Some(StateAt(log, n))
    ensures Complete(StateAt(log, n))
  {
    FoldLogPrefix(log, n);
    FoldLogComplete(log[..n]);
  }

  lemma StateAtNext(log: seq<WalObject>, n: nat)
    requires n < |log| && FoldLog(log).Some?
    ensures FoldFacts(StateAt(log, n), n + 1, BodyFacts(log[n].body)) == Some(StateAt(log, n + 1))
  {
    StateAtIsFold(log, n);
    StateAtIsFold(log, n + 1);
    assert log[..n + 1][..n] == log[..n];
  }

  lemma NewestIsNumbered(st: Store)
    requires Numbered(st) && CutsRise(st)
    ensures Head(st) >= 1 ==> Head(st) in st.seals
    ensures forall k :: k in st.seals ==> st.seals[k].replay.Cut() <= NewestCut(st)
  {
  }

  /** Above the newest cut the objects present are exactly the log. */
  lemma AboveCutIsIntact(st: Store, b: nat)
    requires StoreOk(st) && NewestCut(st) < b <= |st.log|
    ensures Intact(st, b)
  {
  }

  /** A FENCE that was first at its coordinate is there for good. */
  lemma FenceIsIntact(st: Store, b: nat)
    requires WalOk(st) && 1 <= b <= |st.log| && st.log[b - 1].body.Fence?
    ensures Intact(st, b)
  {
  }

  // --------------------------------------------------------------- one append

  function Appended(st: Store, entry: WalObject): Store {
    st.(log := st.log + [entry], wal := st.wal[|st.log| + 1 := entry])
  }

  predicate Appendable(st: Store, entry: WalObject) {
    && Continues(st.log, entry) && Belongs(st, entry)
    && FoldFacts(StateAt(st.log, |st.log|), |st.log| + 1, BodyFacts(entry.body)).Some?
  }

  lemma AppendKeepsLog(st: Store, entry: WalObject)
    requires LogOk(st) && Appendable(st, entry)
    ensures LogOk(Appended(st, entry))
  {
    ChainPush(st.log, entry);
    FoldLogPush(st.log, entry);
    assert st.log[..|st.log|] == st.log;
    hide Chain, FoldLog, Continues;
  }

  lemma AppendKeepsSealOk(log: seq<WalObject>, entry: WalObject, seal: Seal)
    requires SealOk(log, seal)
    ensures SealOk(log + [entry], seal)
  {
    StateAtAppend(log, entry, seal.replay.Cut());
    hide SealHolds, StateAt, Constructible;
  }

  lemma AppendKeepsSeals(st: Store, entry: WalObject)
    requires SealsOk(st)
    ensures SealsOk(Appended(st, entry))
  {
    hide SealOk;
    forall k | k in st.seals
      ensures SealOk(Appended(st, entry).log, st.seals[k])
    {
      AppendKeepsSealOk(st.log, entry, st.seals[k]);
    }
  }

  lemma AppendKeepsWal(st: Store, entry: WalObject)
    requires WalOk(st) && Continues(st.log, entry) && Belongs(st, entry)
    ensures WalOk(Appended(st, entry))
  {
    var next := Appended(st, entry);
    assert NewestCut(next) == NewestCut(st);
    hide NewestCut;
    forall b | 1 <= b <= |next.log|
      ensures Intact(next, b) || Hole(next, b)
    {
      if b <= |st.log| {
        assert next.log[b - 1] == st.log[b - 1];
        assert Intact(st, b) || Hole(st, b);
      }
    }
  }

  lemma AppendKeepsStore(st: Store, entry: WalObject)
    requires StoreOk(st) && Appendable(st, entry)
    ensures StoreOk(Appended(st, entry))
  {
    hide LogOk, WalOk, SealsOk;
    AppendKeepsLog(st, entry);
    AppendKeepsSeals(st, entry);
    AppendKeepsWal(st, entry);
  }

  // ------------------------------------------------------------- one new Seal

  function Sealed(st: Store, pid: nat, seal: Seal): Store {
    st.(seals := st.seals[seal.generation := seal], authors := st.authors[seal.generation := pid])
  }

  ghost predicate Sealable(st: Store, seal: Seal) {
    && seal.generation == Head(st) + 1
    && (Head(st) >= 1 ==> GENESIS_GENERATION in st.seals && seal.partition == st.seals[GENESIS_GENERATION].partition)
    && SealOk(st.log, seal)
    && NewestCut(st) <= seal.replay.Cut()
  }

  lemma SealGrowsHead(st: Store, pid: nat, seal: Seal)
    requires Numbered(st) && seal.generation == Head(st) + 1
    ensures Head(Sealed(st, pid, seal)) == Head(st) + 1
    ensures forall k :: k in st.seals ==>
      k in Sealed(st, pid, seal).seals && Sealed(st, pid, seal).seals[k] == st.seals[k]
    ensures forall k :: k in st.authors ==>
      k in Sealed(st, pid, seal).authors && Sealed(st, pid, seal).authors[k] == st.authors[k]
    ensures NewestCut(Sealed(st, pid, seal)) == seal.replay.Cut()
  {
    var next := Sealed(st, pid, seal);
    assert next.seals.Keys == st.seals.Keys + {seal.generation};
    assert |next.seals.Keys| == |st.seals.Keys| + 1;
    assert |next.seals| == |next.seals.Keys| && |st.seals| == |st.seals.Keys|;
  }

  lemma SealKeepsNumbered(st: Store, pid: nat, seal: Seal)
    requires Numbered(st) && Sealable(st, seal)
    ensures Numbered(Sealed(st, pid, seal))
  {
    hide SealOk, NewestCut;
    SealGrowsHead(st, pid, seal);
  }

  lemma SealKeepsCuts(st: Store, pid: nat, seal: Seal)
    requires Numbered(st) && CutsRise(st) && Sealable(st, seal)
    ensures CutsRise(Sealed(st, pid, seal))
  {
    hide SealOk;
    NewestIsNumbered(st);
  }

  lemma SealKeepsBelongs(st: Store, pid: nat, seal: Seal, entry: WalObject)
    requires Numbered(st) && seal.generation == Head(st) + 1 && Belongs(st, entry)
    ensures Belongs(Sealed(st, pid, seal), entry)
  {
    SealGrowsHead(st, pid, seal);
  }

  lemma SealKeepsLog(st: Store, pid: nat, seal: Seal)
    requires Numbered(st) && seal.generation == Head(st) + 1 && LogOk(st)
    ensures LogOk(Sealed(st, pid, seal))
  {
    hide Chain, FoldLog, Belongs, Numbered, Sealed;
    assert Sealed(st, pid, seal).log == st.log by { SealLeavesWal(st, pid, seal); }
    forall i | 0 <= i < |st.log|
      ensures Belongs(Sealed(st, pid, seal), st.log[i])
    {
      SealKeepsBelongs(st, pid, seal, st.log[i]);
    }
  }

  lemma SealLeavesWal(st: Store, pid: nat, seal: Seal)
    ensures Sealed(st, pid, seal).log == st.log && Sealed(st, pid, seal).wal == st.wal
  {
  }

  lemma SealAdvancesCut(st: Store, pid: nat, seal: Seal)
    requires Numbered(st) && Sealable(st, seal)
    ensures NewestCut(st) <= NewestCut(Sealed(st, pid, seal)) && seal.generation == Head(st) + 1
  {
    hide SealOk;
    SealGrowsHead(st, pid, seal);
  }

  lemma SealKeepsWal(st: Store, pid: nat, seal: Seal)
    requires Numbered(st) && WalOk(st) && Sealable(st, seal)
    ensures WalOk(Sealed(st, pid, seal))
  {
    hide Belongs, NewestCut, Numbered, Sealed, OwnerAfter, Sealable;
    var next := Sealed(st, pid, seal);
    SealAdvancesCut(st, pid, seal);
    SealLeavesWal(st, pid, seal);
    forall b | b in next.wal
      ensures 1 <= b <= |next.log| && next.wal[b].batch == b && Belongs(next, next.wal[b])
      ensures next.wal[b].owner <= OwnerAfter(next.log)
    {
      SealKeepsBelongs(st, pid, seal, st.wal[b]);
    }
    forall b | 1 <= b <= |next.log|
      ensures Intact(next, b) || Hole(next, b)
    {
      assert Intact(st, b) || Hole(st, b);
    }
  }

  lemma SealKeepsStore(st: Store, pid: nat, seal: Seal)
    requires StoreOk(st) && Sealable(st, seal)
    ensures StoreOk(Sealed(st, pid, seal))
  {
    SealKeepsNumbered(st, pid, seal);
    SealKeepsCuts(st, pid, seal);
    SealKeepsLog(st, pid, seal);
    SealKeepsWal(st, pid, seal);
    hide Numbered, CutsRise, LogOk, WalOk, SealOk;
  }

  // --------------------------------------------------- collection and its holes

  function Removed(st: Store, b: nat): Store { st.(wal := st.wal - {b}) }

  lemma RemoveKeepsStore(st: Store, b: nat)
    requires StoreOk(st) && Intact(st, b) && st.log[b - 1].body.Run? && b <= NewestCut(st)
    ensures StoreOk(Removed(st, b))
  {
    var next := Removed(st, b);
    hide SealsOk, Chain, FoldLog;
    assert NewestCut(next) == NewestCut(st);
    forall c | 1 <= c <= |next.log|
      ensures Intact(next, c) || Hole(next, c)
    {
      assert Intact(st, c) || Hole(st, c);
    }
    assert SealsOk(next) by { SealsFollowLog(st, next); }
  }

  lemma SealsFollowLog(st: Store, next: Store)
    requires SealsOk(st) && next.seals == st.seals && next.log == st.log
    ensures SealsOk(next)
  {
  }

  function Refilled(st: Store, fence: WalObject): Store { st.(wal := st.wal[fence.batch := fence]) }

  lemma RefillKeepsStore(st: Store, fence: WalObject)
    requires StoreOk(st) && Belongs(st, fence) && fence.body.Fence?
    requires 1 <= fence.batch <= |st.log| && fence.batch !in st.wal
    requires st.log[fence.batch - 1].owner < fence.owner <= OwnerAfter(st.log)
    ensures StoreOk(Refilled(st, fence))
  {
    var next := Refilled(st, fence);
    hide SealsOk, Chain, FoldLog;
    assert NewestCut(next) == NewestCut(st);
    forall c | 1 <= c <= |next.log|
      ensures Intact(next, c) || Hole(next, c)
    {
      assert Intact(st, c) || Hole(st, c);
    }
    assert SealsOk(next) by { SealsFollowLog(st, next); }
  }
}
