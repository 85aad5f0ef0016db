/** The typed Seal and WAL stores over create-if-absent, the collector's walk,
    and the validation of a Seal. */
module TypedStores {
  import opened Common
  import opened Logs
  import opened Seals
  import opened WriterSpec
  import opened BootstrapSpec

  /** What becomes of one create request. */
  datatype Fate =
    | Heard        // the store acts on it and the sender hears the response
    | Unheard      // the store acts on it and the response is lost
    | Stray        // the store has not acted on it while the sender waited
    | Denied       // the store refuses it definitively

  datatype CreateEvidence = Direct | DurableMatch | NotOurs | NoEvidence

  /** One namespace of immutable objects under create-if-absent. */
  class ObjectStore<T(==)> {
    var objects: map<nat, T>

    constructor ()
      ensures objects == map[]
    {
      objects := map[];
    }

    /** One conditional create, sent once. `readable` says whether the compare
        read behind a conflict succeeds. */
    method Create(key: nat, candidate: T, fate: Fate, readable: bool)
      returns (evidence: Result<CreateEvidence, TypedStoreError>)
      modifies this
      ensures objects == old(objects) || (key !in old(objects) && objects == old(objects)[key := candidate])
      ensures evidence == Ok(Direct) ==> key !in old(objects) && objects == old(objects)[key := candidate]
      ensures evidence == Ok(DurableMatch) ==> key in old(objects) && objects[key] == candidate
      ensures evidence == Ok(NotOurs) ==> key in old(objects) && objects[key] != candidate
      ensures evidence.Err? ==> objects == old(objects) && evidence.error.StoreRejected?
      ensures fate.Heard? && readable ==> evidence.Ok? && evidence.value != NoEvidence && key in objects
    {
      match fate
      case Denied => return Err(StoreRejected);
      case Stray => return Ok(NoEvidence);
      case Unheard =>
        if key !in objects {
          objects := objects[key := candidate];
        }
        return Ok(NoEvidence);
      case Heard =>
        if key !in objects {
          objects := objects[key := candidate];
          return Ok(Direct);
        }
        if !readable {
          return Ok(NoEvidence);
        }
        return Ok(if objects[key] == candidate then DurableMatch else NotOurs);
    }
  }

  /** Only the winning response makes an author; identical bytes do not. */
  method PublishAuthority(store: ObjectStore<Seal>, candidate: Seal, fate: Fate, readable: bool)
    returns (publication: Result<SealPublication, TypedStoreError>)
    modifies store
    ensures publication == Ok(Authored) ==>
      && candidate.generation !in old(store.objects)
      && store.objects == old(store.objects)[candidate.generation := candidate]
    ensures publication == Ok(NoAuthority) ==>
      candidate.generation in old(store.objects) && store.objects == old(store.objects)
    ensures candidate.generation in old(store.objects) ==>
      publication != Ok(Authored) && store.objects == old(store.objects)
  {
    var evidence := store.Create(candidate.generation, candidate, fate, readable);
    match evidence
    case Ok(Direct) => return Ok(Authored);
    case Ok(DurableMatch) => return Ok(NoAuthority);
    case Ok(NotOurs) => return Ok(NoAuthority);
    case Ok(NoEvidence) => return Ok(Unresolved);
    case Err(error) => return Err(error);
  }

  /** Genesis bears no authority, so equal bytes are as good as a win. */
  method PublishGenesis(store: ObjectStore<Seal>, candidate: Seal, fate: Fate, readable: bool)
    returns (genesis: Result<GenesisEstablishment, TypedStoreError>)
    modifies store
    ensures genesis == Ok(Established) ==>
      candidate.generation in store.objects && store.objects[candidate.generation] == candidate
    ensures genesis == Ok(LostRace) ==>
      candidate.generation in store.objects && store.objects[candidate.generation] != candidate
    ensures candidate.generation in old(store.objects) ==> store.objects == old(store.objects)
  {
    var evidence := store.Create(candidate.generation, candidate, fate, readable);
    match evidence
    case Ok(Direct) => return Ok(Established);
    case Ok(DurableMatch) => return Ok(Established);
    case Ok(NotOurs) => return Ok(LostRace);
    case Ok(NoEvidence) => return Ok(GenesisUnresolved);
    case Err(error) => return Err(error);
  }

  /** A WAL create reconciles one ambiguous response with one exact read, so its
      answer is true of the store at that moment. */
  method Establish(store: ObjectStore<WalObject>, candidate: WalObject, fate: Fate, readable: bool, reconcilable: bool)
    returns (wal: Result<WalEstablishment, TypedStoreError>)
    modifies store
    ensures wal == Ok(Durable) ==> candidate.batch in store.objects && store.objects[candidate.batch] == candidate
    ensures wal == Ok(Occupied) ==> candidate.batch in store.objects && store.objects[candidate.batch] != candidate
    ensures wal == Ok(UnresolvedAbsent) ==> candidate.batch !in store.objects
    ensures candidate.batch in old(store.objects) ==> store.objects == old(store.objects)
    ensures wal != Err(StoreContradiction)
  {
    var evidence := store.Create(candidate.batch, candidate, fate, readable);
    match evidence
    case Ok(Direct) => return Ok(Durable);
    case Ok(DurableMatch) => return Ok(Durable);
    case Ok(NotOurs) => return Ok(Occupied);
    case Ok(NoEvidence) =>
      if !reconcilable {
        return Err(StoreRetryable);
      }
      if candidate.batch !in store.objects {
        return Ok(UnresolvedAbsent);
      }
      return Ok(if store.objects[candidate.batch] == candidate then Durable else Occupied);
    case Err(error) => return Err(error);
  }

  // ---------------------------------------------------------------- collection

  /** The objects left once every RUN in `(low, high]` is gone. */
  function Swept(objects: map<nat, WalObject>, low: nat, high: nat): map<nat, WalObject> {
    map b | b in objects && !(low < b <= high && objects[b].body.Run?) :: objects[b]
  }

  lemma SweepOne(objects: map<nat, WalObject>, low: nat, b: nat)
    requires low < b
    ensures Swept(objects, low, b) ==
      if b in objects && objects[b].body.Run? then Swept(objects, low, b - 1) - {b} else Swept(objects, low, b - 1)
  {
  }

  /** Walk the coordinates of `(low, cut]` one by one, deleting each RUN found and
      stopping at the first failure. A read may fail, a delete may fail before
      or after it takes effect. Whatever happens, what is gone is every RUN of
      some prefix of the range and nothing else. */
  method CollectRuns(store: ObjectStore<WalObject>, low: nat, cut: nat,
                     unread: set<nat>, undeleted: set<nat>, unheard: set<nat>)
    returns (ghost reached: nat, finished: bool)
    requires low < cut
    modifies store
    ensures low <= reached <= cut && store.objects == Swept(old(store.objects), low, reached)
    ensures finished ==> reached == cut
    ensures unread + undeleted + unheard == {} ==> finished
  {
    ghost var before := store.objects;
    var batch := low + 1;
    assert Swept(before, low, low) == before;
    while true
      invariant low < batch <= cut && store.objects == Swept(before, low, batch - 1)
      decreases cut - batch
    {
      SweepOne(before, low, batch);
      if batch in unread {
        return batch - 1, false;
      }
      if batch in store.objects && store.objects[batch].body.Run? {
        if batch in undeleted {
          return batch - 1, false;
        }
        store.objects := store.objects - {batch};
        if batch in unheard {
          return batch, false;
        }
      }
      if batch == cut {
        return cut, true;
      }
      batch := batch + 1;
    }
  }

  /** Sweeping removes no FENCE and nothing outside its range, and sweeping a
      range after a prefix of it is sweeping the range. */
  lemma SweepIsSelective(objects: map<nat, WalObject>, low: nat, mid: nat, high: nat)
    requires low <= mid <= high
    ensures forall b :: b in objects && (objects[b].body.Fence? || b <= low || b > high) ==>
      b in Swept(objects, low, high) && Swept(objects, low, high)[b] == objects[b]
    ensures Swept(Swept(objects, low, mid), low, high) == Swept(objects, low, high)
  {
  }

  // ------------------------------------------------------------- a valid Seal

  datatype SealError =
    | NonCanonicalGenesis | ReplayOwnerNotBeforeSeal | StoreMismatch | FutureTable | DuplicateTableObject

  method CheckTables(tables: seq<TableRef>, store: StoreKind, generation: nat) returns (error: Option<SealError>)
    ensures error.None? <==> TablesFit(tables, store, generation)
    ensures error == Some(StoreMismatch) ==> exists i :: 0 <= i < |tables| && tables[i].id.store != store
    ensures error == Some(FutureTable) ==> exists i :: 0 <= i < |tables| && tables[i].id.birthGeneration > generation
    ensures error.Some? ==> error.value.StoreMismatch? || error.value.FutureTable?
  {
    for i := 0 to |tables|
      invariant TablesFit(tables[..i], store, generation)
    {
      if tables[i].id.store != store {
        return Some(StoreMismatch);
      }
      if tables[i].id.birthGeneration > generation {
        return Some(FutureTable);
      }
      assert forall j :: 0 <= j < i ==> tables[..i][j] == tables[j];
    }
    assert tables[..|tables|] == tables;
    return None;
  }

  /** Insert identities one by one; a repeated one is found at once. */
  method CheckDistinct(tables: seq<TableRef>) returns (distinct: bool)
    ensures distinct <==> DistinctObjects(tables)
  {
    var identities: set<TableObjectId> := {};
    for i := 0 to |tables|
      invariant identities == set j | 0 <= j < i :: tables[j].id
      invariant DistinctObjects(tables[..i])
    {
      if tables[i].id in identities {
        return false;
      }
      identities := identities + {tables[i].id};
    }
    assert tables[..|tables|] == tables;
    return true;
  }

  method NewSeal(partition: nat, generation: nat, replay: WalReplayPoint, directory: TreeVersion, ledger: TreeVersion)
    returns (r: Result<Seal, SealError>)
    ensures r.Ok? <==> LegalSeal(Seal(partition, generation, replay, directory, ledger))
    ensures r.Ok? ==> r.value == Seal(partition, generation, replay, directory, ledger)
    ensures r == Err(DuplicateTableObject) ==> !DistinctObjects(TreeTables(directory) + TreeTables(ledger))
  {
    if generation == GENESIS_GENERATION && (replay != Genesis || directory.runs != [] || ledger.runs != []) {
      return Err(NonCanonicalGenesis);
    }
    if replay.Through? && replay.owner >= generation {
      return Err(ReplayOwnerNotBeforeSeal);
    }
    var error := CheckTables(TreeTables(directory), Directory, generation);
    if error.Some? {
      return Err(error.value);
    }
    error := CheckTables(TreeTables(ledger), Ledger, generation);
    if error.Some? {
      return Err(error.value);
    }
    var distinct := CheckDistinct(TreeTables(directory) + TreeTables(ledger));
    if !distinct {
      return Err(DuplicateTableObject);
    }
    return Ok(Seal(partition, generation, replay, directory, ledger));
  }
}
