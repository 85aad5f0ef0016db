/** The two-map forest: Directory and Ledger under strict fold. */
module Forests {
  import opened Common
  import opened Domain

  /** Resident Directory and Ledger rows. */
  datatype Forest = Forest(
    directory: map<StreamPath, DirectoryEntry>,
    ledger: map<StreamUid, StreamRecord>)

  function LiveUids(directory: map<StreamPath, DirectoryEntry>): (uids: set<StreamUid>) {
    set path | path in directory && directory[path].Live? :: directory[path].uid
  }

  predicate UidsInRange(directory: map<StreamPath, DirectoryEntry>) {
    forall path :: path in directory ==> 1 <= directory[path].uid <= |directory|
  }

  predicate UidsDistinct(directory: map<StreamPath, DirectoryEntry>) {
    forall p, q :: p in directory && q in directory && directory[p].uid == directory[q].uid ==> p == q
  }

  /** The cross-store invariant: within capacity, uids are a bijection onto
      `1..=n`, and exactly the live uids have a Ledger record. */
  predicate Complete(forest: Forest) {
    && |forest.directory| <= PARTITION_PATH_OCCUPANCIES_MAX
    && UidsInRange(forest.directory)
    && UidsDistinct(forest.directory)
    && forest.ledger.Keys == LiveUids(forest.directory)
  }

  const EMPTY := Forest(map[], map[])

  datatype FoldContradiction =
    | PathOccupied
    | PathCapacityExhausted
    | UidNotDenseSuccessor
    | PathNotLive
    | PathUidMismatch
    | StreamAlreadyClosed

  /** The next dense stream identity, refused at the path bound. */
  function SuccessorUid(pathCount: nat): (uid: Result<StreamUid, FoldContradiction>)
    ensures uid.Ok? <==> pathCount < PARTITION_PATH_OCCUPANCIES_MAX
    ensures uid.Ok? ==> uid.value == pathCount + 1
    ensures uid.Err? ==> uid.error == PathCapacityExhausted
  {
    if pathCount >= PARTITION_PATH_OCCUPANCIES_MAX then Err(PathCapacityExhausted) else Ok(pathCount + 1)
  }

  /** The uid of a live row that the fact names exactly. The source panics on
      a live row without a Ledger record; a complete forest has none. */
  function RequireLiveUid(forest: Forest, path: StreamPath, uid: StreamUid): (r: Result<StreamUid, FoldContradiction>)
    ensures r.Ok? ==> path in forest.directory && forest.directory[path] == Live(uid)
    ensures r.Ok? ==> r.value == uid && uid in forest.ledger
  {
    if path !in forest.directory then Err(PathNotLive)
    else match forest.directory[path]
      case Tombstone(_) => Err(PathNotLive)
      case Live(live) =>
        if live != uid then Err(PathUidMismatch)
        else if uid !in forest.ledger then Err(PathNotLive)
        else Ok(uid)
  }

  /** One fact applied at `batch`, or the first contradiction it meets. */
  function StrictFold(forest: Forest, batch: nat, fact: OperationFact): (r: Result<Forest, FoldContradiction>)
  {
    match fact
    case StreamCreated(path, uid, contentType, expiry, lifecycle) =>
      if path in forest.directory then Err(PathOccupied)
      else
        var expected := SuccessorUid(|forest.directory|);
        if expected.Err? then Err(expected.error)
        else if uid != expected.value then Err(UidNotDenseSuccessor)
        else Ok(Created(forest, path, StreamRecord(contentType, expiry, lifecycle, batch)))
    case StreamClosed(path, uid) =>
      var live := RequireLiveUid(forest, path, uid);
      if live.Err? then Err(live.error)
      else if forest.ledger[uid].lifecycle.Closed? then Err(StreamAlreadyClosed)
      else Ok(ClosedStream(forest, uid))
    case StreamDeleted(path, uid) =>
      var live := RequireLiveUid(forest, path, uid);
      if live.Err? then Err(live.error) else Ok(Deleted(forest, path))
  }

  function ClosedStream(forest: Forest, uid: StreamUid): Forest
    requires uid in forest.ledger
  {
    forest.(ledger := forest.ledger[uid := forest.ledger[uid].(lifecycle := Closed)])
  }

  function Created(forest: Forest, path: StreamPath, record: StreamRecord): Forest {
    var uid := |forest.directory| + 1;
    Forest(forest.directory[path := Live(uid)], forest.ledger[uid := record])
  }

  function Deleted(forest: Forest, path: StreamPath): Forest
    requires path in forest.directory
  {
    var uid := forest.directory[path].uid;
    Forest(forest.directory[path := Tombstone(uid)], forest.ledger - {uid})
  }

  lemma CreateKeepsComplete(forest: Forest, path: StreamPath, record: StreamRecord)
    requires Complete(forest)
    requires path !in forest.directory && |forest.directory| < PARTITION_PATH_OCCUPANCIES_MAX
    ensures Complete(Created(forest, path, record))
  {
    var uid := |forest.directory| + 1;
    InsertKeepsUids(forest.directory, path);
    LiveUidsAfter(forest.directory, path, Live(uid));
    assert forest.ledger[uid := record].Keys == forest.ledger.Keys + {uid};
  }

  lemma InsertKeepsUids(directory: map<StreamPath, DirectoryEntry>, path: StreamPath)
    requires path !in directory && UidsInRange(directory) && UidsDistinct(directory)
    ensures |directory[path := Live(|directory| + 1)]| == |directory| + 1
    ensures UidsInRange(directory[path := Live(|directory| + 1)])
    ensures UidsDistinct(directory[path := Live(|directory| + 1)])
    ensures |directory| + 1 !in LiveUids(directory)
  {
    var next := directory[path := Live(|directory| + 1)];
    assert next.Keys == directory.Keys + {path};
    assert |next.Keys| == |directory.Keys| + 1;
  }

  lemma DeleteKeepsComplete(forest: Forest, path: StreamPath)
    requires Complete(forest)
    requires path in forest.directory && forest.directory[path].Live?
    ensures Complete(Deleted(forest, path))
  {
    var next := Deleted(forest, path);
    assert next.directory.Keys == forest.directory.Keys;
    assert |next.directory| == |forest.directory|;
    LiveUidsAfter(forest.directory, path, next.directory[path]);
    assert forest.directory[path].uid in LiveUids(forest.directory);
  }

  /** Writing one row changes the live uids by that row alone. */
  lemma LiveUidsAfter(directory: map<StreamPath, DirectoryEntry>, path: StreamPath, entry: DirectoryEntry)
    requires UidsDistinct(directory)
    requires path in directory ==> directory[path].uid == entry.uid
    requires path !in directory ==> entry.uid !in LiveUids(directory)
    ensures LiveUids(directory[path := entry]) ==
      (LiveUids(directory) - {entry.uid}) + (if entry.Live? then {entry.uid} else {})
  {
    var next := directory[path := entry];
    forall u | u in LiveUids(directory) && u != entry.uid
      ensures u in LiveUids(next)
    {
      var p :| p in directory && directory[p] == Live(u);
      assert next[p] == Live(u);
    }
    if entry.Live? {
      assert next[path] == entry;
    }
    forall u | u in LiveUids(next)
      ensures (u == entry.uid && entry.Live?) || u in LiveUids(directory) - {entry.uid}
    {
      var p :| p in next && next[p] == Live(u);
      if p != path {
        assert directory[p] == Live(u);
      }
    }
  }

  /** Every successful fold keeps the cross-store invariant, and on a complete
      forest every live row has the record whose absence would be a panic. */
  lemma FoldKeepsComplete(forest: Forest, batch: nat, fact: OperationFact)
    requires Complete(forest)
    ensures StrictFold(forest, batch, fact).Ok? ==> Complete(StrictFold(forest, batch, fact).value)
    ensures forall path :: path in forest.directory && forest.directory[path].Live? ==>
      forest.directory[path].uid in forest.ledger
  {
    if StrictFold(forest, batch, fact).Ok? {
      match fact
      case StreamCreated(path, uid, contentType, expiry, lifecycle) =>
        CreateKeepsComplete(forest, path, StreamRecord(contentType, expiry, lifecycle, batch));
      case StreamClosed(path, uid) =>
        assert ClosedStream(forest, uid).ledger.Keys == forest.ledger.Keys;
      case StreamDeleted(path, uid) =>
        DeleteKeepsComplete(forest, path);
    }
  }

  /** A fact joins a complete forest exactly when its path is in the state the
      fact presumes; otherwise the contradiction says what is in the way. */
  lemma FoldAcceptsExactly(forest: Forest, batch: nat, fact: OperationFact)
    requires Complete(forest)
    ensures var r := StrictFold(forest, batch, fact);
      var path := fact.path;
      var live := path in forest.directory && forest.directory[path].Live?;
      match fact
      case StreamCreated(_, uid, _, _, _) =>
        && (r == Err(PathOccupied) <==> path in forest.directory)
        && (r == Err(PathCapacityExhausted) <==>
             path !in forest.directory && |forest.directory| == PARTITION_PATH_OCCUPANCIES_MAX)
        && (r.Ok? <==>
             && path !in forest.directory && |forest.directory| < PARTITION_PATH_OCCUPANCIES_MAX
             && uid == |forest.directory| + 1)
        && (r.Err? ==> r.error in {PathOccupied, PathCapacityExhausted, UidNotDenseSuccessor})
      case StreamClosed(_, uid) =>
        && (r == Err(PathNotLive) <==> !live)
        && (r == Err(PathUidMismatch) <==> live && forest.directory[path].uid != uid)
        && (r.Ok? <==>
             && live && forest.directory[path].uid == uid
             && uid in forest.ledger && forest.ledger[uid].lifecycle.Open?)
        && (r.Err? ==> r.error in {PathNotLive, PathUidMismatch, StreamAlreadyClosed})
      case StreamDeleted(_, uid) =>
        && (r == Err(PathNotLive) <==> !live)
        && (r.Ok? <==> live && forest.directory[path].uid == uid)
        && (r.Err? ==> r.error in {PathNotLive, PathUidMismatch})
  {
    FoldKeepsComplete(forest, batch, fact);
  }

  function Entry(forest: Forest, path: StreamPath): Option<DirectoryEntry> {
    if path in forest.directory then Some(forest.directory[path]) else None
  }

  function Record(forest: Forest, uid: StreamUid): Option<StreamRecord> {
    if uid in forest.ledger then Some(forest.ledger[uid]) else None
  }

  /** What a fold leaves behind, path by path and record by record: the batch of
      creation is written once and survives closing, and nothing else moves. */
  lemma FoldChangesOnly(forest: Forest, batch: nat, fact: OperationFact, path: StreamPath, uid: StreamUid)
    requires Complete(forest) && StrictFold(forest, batch, fact).Ok?
    ensures var after := StrictFold(forest, batch, fact).value;
      && (path != fact.path || fact.StreamClosed? ==> Entry(after, path) == Entry(forest, path))
      && (uid != fact.uid ==> Record(after, uid) == Record(forest, uid))
      && match fact
         case StreamCreated(_, _, contentType, expiry, lifecycle) =>
           && Entry(after, fact.path) == Some(Live(fact.uid))
           && Record(after, fact.uid) == Some(StreamRecord(contentType, expiry, lifecycle, batch))
           && Record(forest, fact.uid) == None
         case StreamClosed(_, _) =>
           && Record(forest, fact.uid).Some? && Record(after, fact.uid).Some?
           && Record(after, fact.uid).value.lifecycle.Closed?
           && Record(after, fact.uid).value.(lifecycle := Open) == Record(forest, fact.uid).value
         case StreamDeleted(_, _) => Entry(after, fact.path) == Some(Tombstone(fact.uid)) && Record(after,
                                                                                                    fact.uid) == None
  {
    assert |forest.directory| + 1 !in LiveUids(forest.directory);
  }

  /** The facts of one batch in order; `None` as soon as one contradicts. */
  function FoldFacts(forest: Forest, batch: nat, facts: seq<OperationFact>): (r: Option<Forest>)
  {
    if facts == [] then Some(forest)
    else
      var before := FoldFacts(forest, batch, facts[..|facts| - 1]);
      if before.None? then None
      else
        var last := StrictFold(before.value, batch, facts[|facts| - 1]);
        if last.Ok? then Some(last.value) else None
  }

  lemma FoldFactsPush(forest: Forest, batch: nat, facts: seq<OperationFact>, fact: OperationFact)
    ensures FoldFacts(forest, batch, facts + [fact]) ==
      match FoldFacts(forest, batch, facts)
      case None => None
      case Some(before) =>
        match StrictFold(before, batch, fact)
        case Ok(after) => Some(after)
        case Err(_) => None
  {
    assert (facts + [fact])[..|facts + [fact]| - 1] == facts;
  }

  /** Occupancy is permanent: a fold never frees a path nor reassigns its uid. */
  lemma FoldKeepsPaths(forest: Forest, batch: nat, fact: OperationFact)
    requires StrictFold(forest, batch, fact).Ok?
    ensures forall path :: path in forest.directory ==>
      path in StrictFold(forest, batch, fact).value.directory &&
      StrictFold(forest, batch, fact).value.directory[path].uid == forest.directory[path].uid
  {
  }

  lemma {:induction false} FoldFactsKeepPaths(forest: Forest, batch: nat, facts: seq<OperationFact>)
    requires FoldFacts(forest, batch, facts).Some?
    ensures forest.directory.Keys <= FoldFacts(forest, batch, facts).value.directory.Keys
  {
    if facts != [] {
      FoldFactsKeepPaths(forest, batch, facts[..|facts| - 1]);
    }
  }

  lemma {:induction false} FoldFactsKeepComplete(forest: Forest, batch: nat, facts: seq<OperationFact>)
    requires Complete(forest)
    ensures FoldFacts(forest, batch, facts).Some? ==> Complete(FoldFacts(forest, batch, facts).value)
  {
    if facts != [] {
      FoldFactsKeepComplete(forest, batch, facts[..|facts| - 1]);
      var before := FoldFacts(forest, batch, facts[..|facts| - 1]);
      if before.Some? {
        FoldKeepsComplete(before.value, batch, facts[|facts| - 1]);
      }
    }
  }

  /** Pigeonhole: distinct uids in `1..=n` for `n` paths leave none untaken. */
  lemma EveryUidIsTaken(directory: map<StreamPath, DirectoryEntry>, uid: nat)
    requires UidsInRange(directory) && UidsDistinct(directory)
    requires 1 <= uid <= |directory|
    ensures exists path :: path in directory && directory[path].uid == uid
  {
    var n := |directory|;
    var uids := set path | path in directory :: directory[path].uid as nat;
    DistinctUids(directory, directory.Keys);
    assert uids == UidsOf(directory, directory.Keys);
    assert uids <= UpTo(n);
    SameSizeSubset(uids, UpTo(n));
    assert uid in uids;
  }

  function UidsOf(directory: map<StreamPath, DirectoryEntry>, paths: set<StreamPath>): set<nat>
    requires paths <= directory.Keys
  {
    set path | path in paths :: directory[path].uid as nat
  }

  /** Distinct uids: as many uids as paths, for any part of the directory. */
  lemma {:induction false} DistinctUids(directory: map<StreamPath, DirectoryEntry>, paths: set<StreamPath>)
    requires UidsDistinct(directory) && paths <= directory.Keys
    ensures |UidsOf(directory, paths)| == |paths|
  {
    if paths != {} {
      var path :| path in paths;
      var rest := paths - {path};
      DistinctUids(directory, rest);
      assert UidsOf(directory, paths) == UidsOf(directory, rest) + {directory[path].uid as nat};
    } else {
      assert UidsOf(directory, paths) == {};
    }
  }
}
