/** The forest's maps updated in place, and the slot array that decides whether
    merged rows form a forest at all. */
module ForestChecks {
  import opened Common
  import opened Domain
  import opened Forests
  import opened Rows

  /** A forest owned by a replay or an admission: folds change its two maps. */
  class MutableForest {
    var directory: map<StreamPath, DirectoryEntry>
    var ledger: map<StreamUid, StreamRecord>

    function Value(): Forest
      reads this
    {
      Forest(directory, ledger)
    }

    constructor (forest: Forest)
      ensures Value() == forest
    {
      directory, ledger := forest.directory, forest.ledger;
    }

    /** One fact under the strict fold rules; a rejected fold changes nothing. */
    method Apply(batch: nat, fact: OperationFact) returns (r: Result<(), FoldContradiction>)
      requires Complete(Value())
      modifies this
      ensures match StrictFold(old(Value()), batch, fact)
        case Ok(after) => r.Ok? && Value() == after
        case Err(contradiction) => r == Err(contradiction) && Value() == old(Value())
      ensures Complete(Value())
    {
      FoldKeepsComplete(Value(), batch, fact);
      match fact {
      case StreamCreated(path, uid, contentType, expiry, lifecycle) =>
        if path in directory {
          return Err(PathOccupied);
        }
        var expected := SuccessorUid(|directory|);
        if expected.Err? {
          return Err(expected.error);
        }
        if uid != expected.value {
          return Err(UidNotDenseSuccessor);
        }
        FreshUid(Value());
        assert uid !in ledger;
        hide Complete;
        directory := directory[path := Live(uid)];
        ledger := ledger[uid := StreamRecord(contentType, expiry, lifecycle, batch)];
      case StreamClosed(path, uid) =>
        var live := RequireLiveUid(Value(), path, uid);
        if live.Err? {
          return Err(live.error);
        }
        var record := ledger[uid];
        if record.lifecycle.Closed? {
          return Err(StreamAlreadyClosed);
        }
        hide Complete;
        ledger := ledger[uid := StreamRecord(record.contentType, record.expiry, Closed, record.createdAt)];
      case StreamDeleted(path, uid) =>
        var live := RequireLiveUid(Value(), path, uid);
        if live.Err? {
          return Err(live.error);
        }
        assert uid in ledger && directory[path] == Live(uid);
        hide Complete;
        directory := directory[path := Tombstone(uid)];
        ledger := ledger - {uid};
      }
      return Ok(());
    }

    /** The facts of one replayed RUN; false at the first that contradicts. */
    method ApplyAll(batch: nat, facts: seq<OperationFact>) returns (folded: bool)
      requires Complete(Value())
      modifies this
      ensures folded <==> FoldFacts(old(Value()), batch, facts).Some?
      ensures folded ==> FoldFacts(old(Value()), batch, facts) == Some(Value())
      ensures Complete(Value())
    {
      hide Complete, StrictFold;
      for i := 0 to |facts|
        invariant FoldFacts(old(Value()), batch, facts[..i]) == Some(Value())
        invariant Complete(Value())
      {
        assert facts[..i + 1] == facts[..i] + [facts[i]];
        FoldFactsPush(old(Value()), batch, facts[..i], facts[i]);
        var r := Apply(batch, facts[i]);
        if r.Err? {
          FoldFactsStuck(old(Value()), batch, facts, i + 1);
          return false;
        }
      }
      assert facts[..|facts|] == facts;
      return true;
    }
  }

  lemma FreshUid(forest: Forest)
    requires Complete(forest)
    ensures |forest.directory| + 1 !in forest.ledger
  {
  }

  /** A fold that contradicts stays contradicted whatever follows. */
  lemma {:induction false} FoldFactsStuck(forest: Forest, batch: nat, facts: seq<OperationFact>, n: nat)
    requires n <= |facts| && FoldFacts(forest, batch, facts[..n]).None?
    ensures FoldFacts(forest, batch, facts).None?
    decreases |facts|
  {
    if n < |facts| {
      assert facts[..|facts| - 1][..n] == facts[..n];
      FoldFactsStuck(forest, batch, facts[..|facts| - 1], n);
    } else {
      assert facts[..n] == facts;
    }
  }

  // ------------------------------------------------------------- the slot check

  datatype ForestContradiction = UidGap | CountMismatch | LiveWithoutRecord | RecordWithoutLive | TombstoneWithRecord

  datatype UidState = LiveMissingRecord | LiveWithRecord | Buried

  type DirectoryRows = seq<(StreamPath, DirectoryEntry)>
  type RecordRows = seq<(StreamUid, StreamRecord)>

  predicate RecordsAscend(rows: RecordRows) { forall i, j :: 0 <= i < j < |rows| ==> rows[i].0 < rows[j].0 }

  /** The defect each error names. */
  ghost predicate Explains(error: ForestContradiction, directory: DirectoryRows, ledger: RecordRows) {
    match error
    case CountMismatch =>
      || |directory| > PARTITION_PATH_OCCUPANCIES_MAX
      || exists i :: 0 <= i < |directory| && directory[i].1.uid > |directory|
    case UidGap => exists i, j :: 0 <= i < j < |directory| && directory[i].1.uid == directory[j].1.uid
    case LiveWithoutRecord =>
      exists i :: 0 <= i < |directory| && directory[i].1.Live? && !HasRecord(ledger, directory[i].1.uid)
    case RecordWithoutLive => exists i :: 0 <= i < |ledger| && ledger[i].0 > |directory|
    case TombstoneWithRecord => exists i :: 0 <= i < |ledger| && HasTombstone(directory, ledger[i].0)
  }

  predicate HasRecord(ledger: RecordRows, uid: StreamUid) { exists i :: 0 <= i < |ledger| && ledger[i].0 == uid }

  predicate HasTombstone(directory: DirectoryRows, uid: StreamUid) {
    exists i :: 0 <= i < |directory| && directory[i].1 == Tombstone(uid)
  }

  function Slot(entry: DirectoryEntry): UidState { if entry.Live? then LiveMissingRecord else Buried }

  /** Some row among the first `k` took slot `u`. */
  predicate Taken(rows: DirectoryRows, k: nat, u: nat)
    requires k <= |rows|
  {
    exists i :: 0 <= i < k && SlotIndex(rows[i]) == u
  }

  function SlotIndex(row: (StreamPath, DirectoryEntry)): nat { row.1.uid as int - 1 }

  predicate DistinctSlots(rows: DirectoryRows, k: nat)
    requires k <= |rows|
  {
    forall i, j :: 0 <= i < j < k ==> SlotIndex(rows[i]) != SlotIndex(rows[j])
  }

  /** The slots say exactly which of the first `k` rows took which uid. */
  predicate SlotsHold(slots: seq<Option<UidState>>, rows: DirectoryRows, k: nat)
    requires k <= |rows|
  {
    && |slots| == |rows|
    && (forall i :: 0 <= i < k ==> SlotIndex(rows[i]) < |slots| && slots[SlotIndex(rows[i])] == Some(Slot(rows[i].1)))
    && DistinctSlots(rows, k)
    && (forall u :: 0 <= u < |slots| && slots[u].Some? ==> Taken(rows, k, u))
  }

  lemma TakenGrows(rows: DirectoryRows, k: nat, u: nat)
    requires k < |rows|
    ensures Taken(rows, k + 1, u) <==> Taken(rows, k, u) || SlotIndex(rows[k]) == u
  {
    if Taken(rows, k, u) {
      var i :| 0 <= i < k && SlotIndex(rows[i]) == u;
      assert 0 <= i < k + 1;
    }
  }

  lemma FillKeepsSlots(before: seq<Option<UidState>>, after: seq<Option<UidState>>, rows: DirectoryRows, k: nat)
    requires k < |rows| && SlotsHold(before, rows, k) && SlotIndex(rows[k]) < |before|
    requires before[SlotIndex(rows[k])].None? && after == before[SlotIndex(rows[k]) := Some(Slot(rows[k].1))]
    ensures SlotsHold(after, rows, k + 1)
  {
    hide Taken, SlotIndex;
    forall u | 0 <= u < |after| && after[u].Some? ensures Taken(rows, k + 1, u) {
      TakenGrows(rows, k, u);
      assert u != SlotIndex(rows[k]) ==> before[u].Some?;
    }
  }

  lemma TakenTwice(rows: DirectoryRows, k: nat)
    requires k < |rows| && Taken(rows, k, SlotIndex(rows[k]))
    ensures exists i, j :: 0 <= i < j < |rows| && rows[i].1.uid == rows[j].1.uid
  {
    var i :| 0 <= i < k && SlotIndex(rows[i]) == SlotIndex(rows[k]);
    assert rows[i].1.uid == rows[k].1.uid;
  }

  /** Take one slot per row, refusing a uid out of range or taken already. */
  method FillSlots(rows: DirectoryRows) returns (slots: array<Option<UidState>>, error: Option<ForestContradiction>)
    ensures fresh(slots) && slots.Length == |rows|
    ensures error.None? ==> SlotsHold(slots[..], rows, |rows|)
    ensures error == Some(CountMismatch) ==> exists i :: 0 <= i < |rows| && rows[i].1.uid > |rows|
    ensures error == Some(UidGap) ==> exists i, j :: 0 <= i < j < |rows| && rows[i].1.uid == rows[j].1.uid
    ensures error.Some? ==> error.value.CountMismatch? || error.value.UidGap?
  {
    hide Taken;
    slots := new Option<UidState>[|rows|](_ => None);
    for k := 0 to |rows|
      invariant SlotsHold(slots[..], rows, k)
    {
      var index := SlotIndex(rows[k]);
      if index >= slots.Length {
        assert rows[k].1.uid > |rows|;
        return slots, Some(CountMismatch);
      }
      if slots[index].Some? {
        assert slots[..][index].Some?;
        TakenTwice(rows, k);
        return slots, Some(UidGap);
      }
      ghost var before := slots[..];
      slots[index] := Some(Slot(rows[k].1));
      FillKeepsSlots(before, slots[..], rows, k);
    }
    return slots, None;
  }

  // ------------------------------------------------------ rows and the map they write

  lemma LastIsNew(rows: DirectoryRows)
    requires PathsAscend(rows) && rows != []
    ensures rows[|rows| - 1].0 !in RowsMap(rows[..|rows| - 1])
  {
    var front, last := rows[..|rows| - 1], rows[|rows| - 1].0;
    RowsMapKeys(front);
    hide RowsMap;
    LessIrreflexive(last);
    assert forall i :: 0 <= i < |front| ==> front[i].0 == rows[i].0;
    assert last !in Keys(front);
  }

  /** Ascending rows are distinct rows: the map they write has one entry each. */
  lemma {:induction false} RowsAreEntries(rows: DirectoryRows)
    requires PathsAscend(rows)
    ensures |RowsMap(rows)| == |rows|
    ensures forall i :: 0 <= i < |rows| ==> rows[i].0 in RowsMap(rows) && RowsMap(rows)[rows[i].0] == rows[i].1
  {
    if rows != [] {
      var front, last := rows[..|rows| - 1], rows[|rows| - 1];
      assert PathsAscend(front);
      LastIsNew(rows);
      RowsAreEntries(front);
      hide PathsAscend;
      assert RowsMap(rows).Keys == RowsMap(front).Keys + {last.0};
      assert |RowsMap(rows)| == |RowsMap(rows).Keys| && |RowsMap(front)| == |RowsMap(front).Keys|;
      forall i | 0 <= i < |rows| ensures rows[i].0 in RowsMap(rows) && RowsMap(rows)[rows[i].0] == rows[i].1 {
        if i < |front| { assert front[i] == rows[i]; }
      }
    }
  }

  lemma EntryIsARow(rows: DirectoryRows, path: StreamPath) returns (i: nat)
    requires PathsAscend(rows) && path in RowsMap(rows)
    ensures i < |rows| && rows[i].0 == path && rows[i].1 == RowsMap(rows)[path]
  {
    RowsMapKeys(rows);
    RowsAreEntries(rows);
    hide RowsMap, PathsAscend;
    assert path in Keys(rows);
    var k :| 0 <= k < |rows| && rows[k].0 == path;
    i := k;
  }

  /** Uids in `1..=n` and pairwise distinct, by row and by map. */
  lemma RowsAreDense(rows: DirectoryRows)
    requires PathsAscend(rows)
    ensures |RowsMap(rows)| == |rows|
    ensures (forall i :: 0 <= i < |rows| ==> rows[i].1.uid <= |rows|) <==> UidsInRange(RowsMap(rows))
    ensures DistinctSlots(rows, |rows|) <==> UidsDistinct(RowsMap(rows))
  {
    RowsAreEntries(rows);
    RangeByRow(rows);
    DistinctByRow(rows);
  }

  lemma RangeByRow(rows: DirectoryRows)
    requires PathsAscend(rows) && |RowsMap(rows)| == |rows|
    ensures (forall i :: 0 <= i < |rows| ==> rows[i].1.uid <= |rows|) <==> UidsInRange(RowsMap(rows))
  {
    RowsAreEntries(rows);
    hide RowsMap, PathsAscend;
    var m := RowsMap(rows);
    if forall i :: 0 <= i < |rows| ==> rows[i].1.uid <= |rows| {
      forall path | path in m ensures 1 <= m[path].uid <= |m| { var i := EntryIsARow(rows, path); }
    } else {
      var i :| 0 <= i < |rows| && rows[i].1.uid > |rows|;
      assert m[rows[i].0] == rows[i].1;
    }
  }

  lemma DistinctRowsMap(rows: DirectoryRows)
    requires PathsAscend(rows) && DistinctSlots(rows, |rows|)
    ensures UidsDistinct(RowsMap(rows))
  {
    hide RowsMap, PathsAscend;
    var m := RowsMap(rows);
    forall p, q | p in m && q in m && m[p].uid == m[q].uid ensures p == q {
      var i := EntryIsARow(rows, p);
      var j := EntryIsARow(rows, q);
      assert SlotIndex(rows[i]) == SlotIndex(rows[j]);
    }
  }

  lemma DistinctMapRows(rows: DirectoryRows, i: nat, j: nat)
    requires PathsAscend(rows) && UidsDistinct(RowsMap(rows)) && i < j < |rows|
    ensures SlotIndex(rows[i]) != SlotIndex(rows[j])
  {
    LessIrreflexive(rows[i].0);
    assert rows[i].0 != rows[j].0;
    hide RowsMap, PathsAscend;
    RowsAreEntries(rows);
    assert RowsMap(rows)[rows[i].0] == rows[i].1 && RowsMap(rows)[rows[j].0] == rows[j].1;
  }

  lemma DistinctByRow(rows: DirectoryRows)
    requires PathsAscend(rows)
    ensures DistinctSlots(rows, |rows|) <==> UidsDistinct(RowsMap(rows))
  {
    hide RowsMap, PathsAscend, UidsDistinct, SlotIndex;
    if DistinctSlots(rows, |rows|) { DistinctRowsMap(rows); }
    if UidsDistinct(RowsMap(rows)) {
      forall i, j | 0 <= i < j < |rows| ensures SlotIndex(rows[i]) != SlotIndex(rows[j]) {
        DistinctMapRows(rows, i, j);
      }
    }
  }

  /** No slot is vacant once every row has taken one. */
  lemma NoneVacant(slots: seq<Option<UidState>>, rows: DirectoryRows, u: nat) returns (i: nat)
    requires PathsAscend(rows) && SlotsHold(slots, rows, |rows|) && u < |slots|
    ensures i < |rows| && SlotIndex(rows[i]) == u && slots[u] == Some(Slot(rows[i].1))
  {
    hide RowsMap, PathsAscend, Taken;
    RowsAreDense(rows);
    EveryUidIsTaken(RowsMap(rows), u + 1);
    var path :| path in RowsMap(rows) && RowsMap(rows)[path].uid == u + 1;
    i := EntryIsARow(rows, path);
  }

  // ------------------------------------------------------------- the records

  /** The slot of a row once the first `m` records are marked. */
  function Marked(entry: DirectoryEntry, ledger: RecordRows, m: nat): UidState
    requires m <= |ledger|
  {
    if entry.Tombstone? then Buried
    else if HasRecord(ledger[..m], entry.uid) then LiveWithRecord
    else LiveMissingRecord
  }

  predicate SlotsMarked(slots: seq<Option<UidState>>, rows: DirectoryRows, ledger: RecordRows, m: nat)
    requires m <= |ledger|
  {
    && |slots| == |rows|
    && (forall i :: 0 <= i < |rows| ==>
         SlotIndex(rows[i]) < |slots| && slots[SlotIndex(rows[i])] == Some(Marked(rows[i].1, ledger, m)))
  }

  lemma NothingMarked(slots: seq<Option<UidState>>, rows: DirectoryRows, ledger: RecordRows)
    requires SlotsHold(slots, rows, |rows|)
    ensures SlotsMarked(slots, rows, ledger, 0)
  {
    hide Taken;
  }

  lemma MarkOne(ledger: RecordRows, m: nat, uid: StreamUid)
    requires m < |ledger|
    ensures HasRecord(ledger[..m + 1], uid) <==> HasRecord(ledger[..m], uid) || ledger[m].0 == uid
  {
    if HasRecord(ledger[..m], uid) {
      var i :| 0 <= i < |ledger[..m]| && ledger[..m][i].0 == uid;
      assert ledger[..m + 1][i].0 == uid;
    }
    if ledger[m].0 == uid {
      assert ledger[..m + 1][m].0 == uid;
    }
    if HasRecord(ledger[..m + 1], uid) {
      var i :| 0 <= i < |ledger[..m + 1]| && ledger[..m + 1][i].0 == uid;
      if i < m { assert ledger[..m][i].0 == uid; }
    }
  }

  lemma MarkKeepsSlots(before: seq<Option<UidState>>, after: seq<Option<UidState>>, rows: DirectoryRows,
                       ledger: RecordRows, m: nat)
    requires m < |ledger| && SlotsMarked(before, rows, ledger, m)
    requires ledger[m].0 <= |rows| && before[ledger[m].0 as int - 1] == Some(LiveMissingRecord)
    requires after == before[ledger[m].0 as int - 1 := Some(LiveWithRecord)]
    ensures SlotsMarked(after, rows, ledger, m + 1)
  {
    hide HasRecord;
    forall i | 0 <= i < |rows|
      ensures SlotIndex(rows[i]) < |after| && after[SlotIndex(rows[i])] == Some(Marked(rows[i].1, ledger, m + 1))
    {
      MarkOne(ledger, m, rows[i].1.uid);
    }
  }

  predicate HasLive(rows: DirectoryRows, uid: StreamUid) { exists i :: 0 <= i < |rows| && rows[i].1 == Live(uid) }

  /** What stands in the slot of the next record. */
  lemma SlotOfRecord(filled: seq<Option<UidState>>, slots: seq<Option<UidState>>, rows: DirectoryRows,
                     ledger: RecordRows, m: nat)
    requires PathsAscend(rows) && RecordsAscend(ledger) && SlotsHold(filled, rows, |rows|)
    requires m < |ledger| && SlotsMarked(slots, rows, ledger, m) && ledger[m].0 <= |rows|
    ensures var slot := slots[ledger[m].0 as int - 1];
      && slot.Some? && !slot.value.LiveWithRecord?
      && (slot.value.LiveMissingRecord? ==> HasLive(rows, ledger[m].0))
      && (slot.value.Buried? ==> HasTombstone(rows, ledger[m].0))
  {
    assert |filled| == |rows|;
    hide PathsAscend, SlotsHold;
    var i := NoneVacant(filled, rows, ledger[m].0 as int - 1);
    assert !HasRecord(ledger[..m], ledger[m].0);
    hide HasRecord, RecordsAscend;
    assert slots[SlotIndex(rows[i])] == Some(Marked(rows[i].1, ledger, m));
    assert rows[i].1 == Live(ledger[m].0) || rows[i].1 == Tombstone(ledger[m].0);
  }

  /** Mark one slot per record, refusing a record that no live row owns. */
  method MarkRecords(slots: array<Option<UidState>>, rows: DirectoryRows, ledger: RecordRows)
    returns (error: Option<ForestContradiction>)
    requires PathsAscend(rows) && RecordsAscend(ledger) && SlotsHold(slots[..], rows, |rows|)
    modifies slots
    ensures error.None? ==> SlotsMarked(slots[..], rows, ledger, |ledger|)
    ensures error.None? ==> forall m :: 0 <= m < |ledger| ==> HasLive(rows, ledger[m].0)
    ensures error == Some(RecordWithoutLive) ==> exists m :: 0 <= m < |ledger| && ledger[m].0 > |rows|
    ensures error == Some(TombstoneWithRecord) ==> exists m :: 0 <= m < |ledger| && HasTombstone(rows, ledger[m].0)
    ensures error.Some? ==> error.value.RecordWithoutLive? || error.value.TombstoneWithRecord?
  {
    ghost var filled := slots[..];
    NothingMarked(filled, rows, ledger);
    assert slots.Length == |rows|;
    hide PathsAscend, RecordsAscend, SlotsHold, SlotsMarked, HasLive, HasTombstone;
    for m := 0 to |ledger|
      invariant SlotsMarked(slots[..], rows, ledger, m)
      invariant forall j :: 0 <= j < m ==> HasLive(rows, ledger[j].0)
    {
      var index := ledger[m].0 as int - 1;
      if index >= slots.Length {
        return Some(RecordWithoutLive);
      }
      SlotOfRecord(filled, slots[..], rows, ledger, m);
      assert slots[..][index] == slots[index];
      match slots[index].value
      case LiveMissingRecord =>
        ghost var before := slots[..];
        slots[index] := Some(LiveWithRecord);
        MarkKeepsSlots(before, slots[..], rows, ledger, m);
      case Buried => return Some(TombstoneWithRecord);
      case LiveWithRecord => assert false;
    }
    return None;
  }

  // ---------------------------------------------------- the whole constructor

  function Assembled(directory: DirectoryRows, ledger: RecordRows): Forest {
    Forest(RowsMap(directory), RowsMap(ledger))
  }

  lemma RecordKeys(ledger: RecordRows, uid: StreamUid)
    ensures uid in RowsMap(ledger) <==> HasRecord(ledger, uid)
  {
    RowsMapKeys(ledger);
    hide RowsMap;
    assert uid in Keys(ledger) <==> HasRecord(ledger, uid);
  }

  lemma LiveKeys(directory: DirectoryRows, uid: StreamUid)
    requires PathsAscend(directory)
    ensures uid in LiveUids(RowsMap(directory)) <==> HasLive(directory, uid)
  {
    RowsAreEntries(directory);
    hide RowsMap, PathsAscend;
    var m := RowsMap(directory);
    if uid in LiveUids(m) {
      var path :| path in m && m[path] == Live(uid);
      var i := EntryIsARow(directory, path);
      assert directory[i].1 == Live(uid);
    }
    if HasLive(directory, uid) {
      var i :| 0 <= i < |directory| && directory[i].1 == Live(uid);
      assert m[directory[i].0] == Live(uid);
    }
  }

  /** The cross-store invariant read off the rows. */
  lemma CompleteByRows(directory: DirectoryRows, ledger: RecordRows)
    requires PathsAscend(directory)
    ensures Complete(Assembled(directory, ledger)) <==>
      && |directory| <= PARTITION_PATH_OCCUPANCIES_MAX
      && (forall i :: 0 <= i < |directory| ==> directory[i].1.uid <= |directory|)
      && DistinctSlots(directory, |directory|)
      && (forall uid: StreamUid :: HasRecord(ledger, uid) <==> HasLive(directory, uid))
  {
    RowsAreDense(directory);
    hide RowsMap, PathsAscend, DistinctSlots, UidsDistinct, UidsInRange, LiveUids, HasRecord, HasLive;
    forall uid: StreamUid
      ensures uid in RowsMap(ledger) <==> HasRecord(ledger, uid)
      ensures uid in LiveUids(RowsMap(directory)) <==> HasLive(directory, uid)
    {
      RecordKeys(ledger, uid);
      LiveKeys(directory, uid);
    }
    assert (forall uid: StreamUid :: HasRecord(ledger, uid) <==> HasLive(directory, uid)) <==>
      RowsMap(ledger).Keys == LiveUids(RowsMap(directory));
  }

  /** Whether some slot still waits for its record. */
  method SomeMissing(slots: array<Option<UidState>>) returns (missing: bool)
    ensures missing <==> exists u :: 0 <= u < slots.Length && slots[u] == Some(LiveMissingRecord)
  {
    for u := 0 to slots.Length
      invariant forall v :: 0 <= v < u ==> slots[v] != Some(LiveMissingRecord)
    {
      if slots[u] == Some(LiveMissingRecord) {
        return true;
      }
    }
    return false;
  }

  method SomeVacant(slots: array<Option<UidState>>) returns (vacant: bool)
    ensures vacant <==> exists u :: 0 <= u < slots.Length && slots[u].None?
  {
    for u := 0 to slots.Length
      invariant forall v :: 0 <= v < u ==> slots[v].Some?
    {
      if slots[u].None? {
        return true;
      }
    }
    return false;
  }

  lemma NoVacancy(slots: seq<Option<UidState>>, rows: DirectoryRows)
    requires PathsAscend(rows) && SlotsHold(slots, rows, |rows|)
    ensures forall u :: 0 <= u < |slots| ==> slots[u].Some?
  {
    forall u | 0 <= u < |slots| ensures slots[u].Some? { var i := NoneVacant(slots, rows, u); }
  }

  lemma MissingMeans(slots: seq<Option<UidState>>, filled: seq<Option<UidState>>, rows: DirectoryRows,
                     ledger: RecordRows, u: nat)
    requires PathsAscend(rows) && SlotsHold(filled, rows, |rows|) && SlotsMarked(slots, rows, ledger, |ledger|)
    requires u < |slots| && slots[u] == Some(LiveMissingRecord)
    ensures exists i :: 0 <= i < |rows| && rows[i].1.Live? && !HasRecord(ledger, rows[i].1.uid)
  {
    assert |filled| == |rows|;
    hide PathsAscend, SlotsHold;
    var i := NoneVacant(filled, rows, u);
    assert ledger[..|ledger|] == ledger;
    hide HasRecord;
    assert slots[SlotIndex(rows[i])] == Some(Marked(rows[i].1, ledger, |ledger|));
    assert rows[i].1.Live? && !HasRecord(ledger, rows[i].1.uid);
  }

  lemma NothingMissing(slots: seq<Option<UidState>>, rows: DirectoryRows, ledger: RecordRows, uid: StreamUid)
    requires SlotsMarked(slots, rows, ledger, |ledger|) && HasLive(rows, uid)
    requires forall u :: 0 <= u < |slots| ==> slots[u] != Some(LiveMissingRecord)
    ensures HasRecord(ledger, uid)
  {
    var i :| 0 <= i < |rows| && rows[i].1 == Live(uid);
    assert ledger[..|ledger|] == ledger;
    hide HasRecord;
    assert slots[SlotIndex(rows[i])] == Some(Marked(rows[i].1, ledger, |ledger|));
  }

  /** The rows spell out what `m` holds outside `left`. */
  ghost predicate SpellsRest<K, V>(rows: seq<(K, V)>, m: map<K, V>, left: set<K>) {
    && left <= m.Keys <= left + Keys(rows)
    && forall i :: 0 <= i < |rows| ==> rows[i].0 in m && m[rows[i].0] == rows[i].1
  }

  predicate IsGreatestPath(paths: set<StreamPath>, last: StreamPath) {
    last in paths && forall path :: path in paths && path != last ==> Less(path, last)
  }

  predicate IsGreatestUid(uids: set<StreamUid>, last: StreamUid) {
    last in uids && forall uid :: uid in uids && uid != last ==> uid < last
  }

  ghost predicate PathsBelow(left: set<StreamPath>, rows: DirectoryRows) {
    PathsAscend(rows) && forall path, i :: path in left && 0 <= i < |rows| ==> Less(path, rows[i].0)
  }

  ghost predicate RecordsBelow(left: set<StreamUid>, rows: RecordRows) {
    RecordsAscend(rows) && forall uid, i :: uid in left && 0 <= i < |rows| ==> uid < rows[i].0
  }

  /** The rows of an ordered map as its iterator yields them. */
  method DirectoryInOrder(m: map<StreamPath, DirectoryEntry>) returns (rows: DirectoryRows)
    ensures PathsAscend(rows) && RowsMap(rows) == m
  {
    rows := [];
    var left := m.Keys;
    assert SpellsRest(rows, m, left) && PathsBelow(left, rows);
    hide SpellsRest, PathsBelow, IsGreatestPath;
    while left != {}
      invariant SpellsRest(rows, m, left) && PathsBelow(left, rows)
      decreases |left|
    {
      ghost var greatest := GreatestPath(left);
      assert IsGreatestPath(left, greatest) by { GreatestIs(left, greatest); }
      var last :| last in left && IsGreatestPath(left, last);
      SpellsMore(rows, m, left, last);
      PathBelow(rows, m, left, last);
      rows := [(last, m[last])] + rows;
      left := left - {last};
    }
    SpellsAll(rows, m);
    PathsDone(rows);
  }

  method RecordsInOrder(m: map<StreamUid, StreamRecord>) returns (rows: RecordRows)
    ensures RecordsAscend(rows) && RowsMap(rows) == m
  {
    rows := [];
    var left := m.Keys;
    assert SpellsRest(rows, m, left) && RecordsBelow(left, rows);
    hide SpellsRest, RecordsBelow;
    while left != {}
      invariant SpellsRest(rows, m, left) && RecordsBelow(left, rows)
      decreases |left|
    {
      ghost var greatest := GreatestUid(left);
      var last :| last in left && IsGreatestUid(left, last);
      SpellsMore(rows, m, left, last);
      RecordBelow(rows, m, left, last);
      rows := [(last, m[last])] + rows;
      left := left - {last};
    }
    SpellsAll(rows, m);
    assert RecordsAscend(rows) by { RecordsDone(rows); }
  }

  lemma SpellsMore<K, V>(rows: seq<(K, V)>, m: map<K, V>, left: set<K>, last: K)
    requires SpellsRest(rows, m, left) && last in left
    ensures last in m && SpellsRest([(last, m[last])] + rows, m, left - {last})
  {
    KeysPrepend(rows, (last, m[last]));
  }

  lemma SpellsAll<K, V>(rows: seq<(K, V)>, m: map<K, V>)
    requires SpellsRest(rows, m, {})
    ensures RowsMap(rows) == m
  {
    RowsOfMap(rows, m);
  }

  lemma GreatestIs(paths: set<StreamPath>, last: StreamPath)
    requires last in paths && forall path :: path in paths && path != last ==> Less(path, last)
    ensures IsGreatestPath(paths, last)
  {
  }

  lemma PathBelow(rows: DirectoryRows, m: map<StreamPath, DirectoryEntry>, left: set<StreamPath>, last: StreamPath)
    requires PathsBelow(left, rows) && IsGreatestPath(left, last) && last in m
    ensures PathsBelow(left - {last}, [(last, m[last])] + rows)
  {
  }

  lemma PathsDone(rows: DirectoryRows)
    requires PathsBelow({}, rows)
    ensures PathsAscend(rows)
  {
  }

  lemma RecordBelow(rows: RecordRows, m: map<StreamUid, StreamRecord>, left: set<StreamUid>, last: StreamUid)
    requires RecordsBelow(left, rows) && IsGreatestUid(left, last) && last in m
    ensures RecordsBelow(left - {last}, [(last, m[last])] + rows)
  {
  }

  lemma RecordsDone(rows: RecordRows)
    requires RecordsBelow({}, rows)
    ensures RecordsAscend(rows)
  {
  }

  lemma KeysPrepend<K, V>(rows: seq<(K, V)>, row: (K, V))
    ensures Keys([row] + rows) == Keys(rows) + {row.0}
  {
    var more := [row] + rows;
    assert more[0] == row && forall i :: 0 <= i < |rows| ==> rows[i] == more[i + 1];
    forall k | k in Keys(rows) + {row.0} ensures k in Keys(more) {
      if k in Keys(rows) {
        var i :| 0 <= i < |rows| && rows[i].0 == k;
        assert more[i + 1].0 == k;
      } else {
        assert more[0].0 == k;
      }
    }
  }

  /** The validating constructor over rows in key order: it accepts exactly the
      rows that form a complete forest, and every error it reports names a
      defect that is really there. */
  method TryForest(directory: DirectoryRows, ledger: RecordRows) returns (r: Result<Forest, ForestContradiction>)
    requires PathsAscend(directory) && RecordsAscend(ledger)
    ensures r.Ok? <==> Complete(Assembled(directory, ledger))
    ensures r.Ok? ==> r.value == Assembled(directory, ledger)
    ensures r.Err? ==> Explains(r.error, directory, ledger)
  {
    hide RowsMap, PathsAscend, RecordsAscend, SlotsMarked, Complete, HasRecord, HasLive, HasTombstone;
    CompleteByRows(directory, ledger);
    if |directory| > PARTITION_PATH_OCCUPANCIES_MAX {
      return Err(CountMismatch);
    }
    var slots, error := FillSlots(directory);
    if error.Some? {
      GapIsNotDistinct(directory);
      return Err(error.value);
    }
    ghost var filled := slots[..];
    SlotsAreDense(filled, directory);
    NoVacancy(filled, directory);
    hide SlotsHold, DistinctSlots;
    var vacant := SomeVacant(slots);
    assert !vacant by { assert forall u :: 0 <= u < slots.Length ==> slots[u] == filled[u]; }
    error := MarkRecords(slots, directory, ledger);
    if error.Some? {
      StrayRecord(directory, ledger);
      return Err(error.value);
    }
    var missing := SomeMissing(slots);
    if missing {
      MissingIsExplained(slots[..], filled, directory, ledger);
      return Err(LiveWithoutRecord);
    }
    AllRecorded(slots[..], directory, ledger);
    return Ok(Assembled(directory, ledger));
  }

  lemma SlotsAreDense(slots: seq<Option<UidState>>, rows: DirectoryRows)
    requires SlotsHold(slots, rows, |rows|)
    ensures |slots| == |rows| && DistinctSlots(rows, |rows|)
    ensures forall i :: 0 <= i < |rows| ==> rows[i].1.uid <= |rows|
  {
    hide Taken, DistinctSlots;
    forall i | 0 <= i < |rows| ensures rows[i].1.uid <= |rows| { assert SlotIndex(rows[i]) < |slots|; }
  }

  lemma GapIsNotDistinct(rows: DirectoryRows)
    ensures (exists i, j :: 0 <= i < j < |rows| && rows[i].1.uid == rows[j].1.uid) ==> !DistinctSlots(rows, |rows|)
  {
    if exists i, j :: 0 <= i < j < |rows| && rows[i].1.uid == rows[j].1.uid {
      var i, j :| 0 <= i < j < |rows| && rows[i].1.uid == rows[j].1.uid;
      assert SlotIndex(rows[i]) == SlotIndex(rows[j]);
    }
  }

  /** A record beyond the uids or on a tombstone has no live row. */
  lemma StrayRecord(rows: DirectoryRows, ledger: RecordRows)
    requires DistinctSlots(rows, |rows|) && forall i :: 0 <= i < |rows| ==> rows[i].1.uid <= |rows|
    ensures forall m :: 0 <= m < |ledger| && (ledger[m].0 > |rows| || HasTombstone(rows, ledger[m].0)) ==>
      HasRecord(ledger, ledger[m].0) && !HasLive(rows, ledger[m].0)
  {
    forall m | 0 <= m < |ledger| && (ledger[m].0 > |rows| || HasTombstone(rows, ledger[m].0))
      ensures HasRecord(ledger, ledger[m].0) && !HasLive(rows, ledger[m].0)
    {
      if HasTombstone(rows, ledger[m].0) {
        var i :| 0 <= i < |rows| && rows[i].1 == Tombstone(ledger[m].0);
        assert SlotIndex(rows[i]) == ledger[m].0 as int - 1;
      }
    }
  }

  lemma MissingIsExplained(slots: seq<Option<UidState>>, filled: seq<Option<UidState>>, rows: DirectoryRows,
                           ledger: RecordRows)
    requires PathsAscend(rows) && SlotsHold(filled, rows, |rows|) && SlotsMarked(slots, rows, ledger, |ledger|)
    requires exists u :: 0 <= u < |slots| && slots[u] == Some(LiveMissingRecord)
    ensures Explains(LiveWithoutRecord, rows, ledger)
    ensures exists uid: StreamUid :: HasLive(rows, uid) && !HasRecord(ledger, uid)
  {
    hide PathsAscend, SlotsHold, SlotsMarked, HasRecord;
    var u :| 0 <= u < |slots| && slots[u] == Some(LiveMissingRecord);
    MissingMeans(slots, filled, rows, ledger, u);
    var i :| 0 <= i < |rows| && rows[i].1.Live? && !HasRecord(ledger, rows[i].1.uid);
    assert HasLive(rows, rows[i].1.uid);
  }

  lemma AllRecorded(slots: seq<Option<UidState>>, rows: DirectoryRows, ledger: RecordRows)
    requires SlotsMarked(slots, rows, ledger, |ledger|)
    requires forall u :: 0 <= u < |slots| ==> slots[u] != Some(LiveMissingRecord)
    requires forall m :: 0 <= m < |ledger| ==> HasLive(rows, ledger[m].0)
    ensures forall uid: StreamUid :: HasRecord(ledger, uid) <==> HasLive(rows, uid)
  {
    hide SlotsMarked, HasLive;
    forall uid: StreamUid ensures HasRecord(ledger, uid) <==> HasLive(rows, uid) {
      if HasLive(rows, uid) { NothingMissing(slots, rows, ledger, uid); }
    }
  }
}
