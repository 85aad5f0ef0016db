/** The bootstrap machine with its state replaced in place, its merge loops and
    its replay loop. */
module BootstrapMachines {
  import opened Common
  import opened Domain
  import opened Forests
  import opened Logs
  import opened Seals
  import opened Suffix
  import opened Rows
  import opened Merge
  import opened WriterSpec
  import opened BootstrapSpec
  import opened ForestChecks

  // ------------------------------------------------------------ merging tables

  /** The rows merged so far, overwritten in place. */
  class RowMerger {
    var directory: map<StreamPath, DirectoryEntry>
    var ledger: map<StreamUid, StreamRecord>
    var residentBytes: nat

    function Value(): MergedRows
      reads this
    {
      MergedRows(directory, ledger, residentBytes)
    }

    constructor (rows: MergedRows)
      ensures Value() == rows
    {
      directory, ledger, residentBytes := rows.directory, rows.ledger, rows.residentBytes;
    }

    method MergeDirectory(rows: seq<(StreamPath, DirectoryEntry)>) returns (merged: bool)
      modifies this
      ensures merged <==> MergeDirectoryRows(old(Value()), rows).Some?
      ensures merged ==> MergeDirectoryRows(old(Value()), rows) == Some(Value())
    {
      for i := 0 to |rows|
        invariant MergeDirectoryRows(old(Value()), rows[..i]) == Some(Value())
      {
        assert rows[..i + 1][..i] == rows[..i];
        var (key, entry) := rows[i];
        if key !in directory {
          var total := AddResidentBytes(residentBytes, DIRECTORY_ROW_LOGICAL_BYTES_MAX);
          if total.None? {
            DirectoryStuck(old(Value()), rows, i + 1);
            return false;
          }
          residentBytes := total.value;
        }
        directory := directory[key := entry];
      }
      assert rows[..|rows|] == rows;
      return true;
    }

    /** Removing a record always finds its bytes in the account. */
    method MergeLedger(rows: seq<(StreamUid, LedgerCell)>) returns (merged: bool)
      requires Accounted(Value())
      modifies this
      ensures merged <==> MergeLedgerRows(old(Value()), rows).Some?
      ensures merged ==> MergeLedgerRows(old(Value()), rows) == Some(Value()) && Accounted(Value())
    {
      hide Accounted;
      for i := 0 to |rows|
        invariant MergeLedgerRows(old(Value()), rows[..i]) == Some(Value()) && Accounted(Value())
      {
        assert rows[..i + 1][..i] == rows[..i];
        var (uid, cell) := rows[i];
        LedgerRowAccounted(Value(), rows[i]);
        match cell
        case Value(record) =>
          if uid !in ledger {
            var total := AddResidentBytes(residentBytes, LEDGER_VALUE_ROW_LOGICAL_BYTES_MAX);
            if total.None? {
              LedgerStuck(old(Value()), rows, i + 1);
              return false;
            }
            residentBytes := total.value;
          }
          ledger := ledger[uid := record];
        case Delete =>
          if uid in ledger {
            assert residentBytes >= LEDGER_VALUE_ROW_LOGICAL_BYTES_MAX;
            ledger := ledger - {uid};
            residentBytes := residentBytes - LEDGER_VALUE_ROW_LOGICAL_BYTES_MAX;
          }
      }
      assert rows[..|rows|] == rows;
      return true;
    }
  }

  lemma {:induction false} DirectoryStuck(merged: MergedRows, rows: seq<(StreamPath, DirectoryEntry)>, n: nat)
    requires n <= |rows| && MergeDirectoryRows(merged, rows[..n]).None?
    ensures MergeDirectoryRows(merged, rows).None?
    decreases |rows|
  {
    if n < |rows| {
      assert rows[..|rows| - 1][..n] == rows[..n];
      DirectoryStuck(merged, rows[..|rows| - 1], n);
    } else {
      assert rows[..n] == rows;
    }
  }

  lemma {:induction false} LedgerStuck(merged: MergedRows, rows: seq<(StreamUid, LedgerCell)>, n: nat)
    requires n <= |rows| && MergeLedgerRows(merged, rows[..n]).None?
    ensures MergeLedgerRows(merged, rows).None?
    decreases |rows|
  {
    if n < |rows| {
      assert rows[..|rows| - 1][..n] == rows[..n];
      LedgerStuck(merged, rows[..|rows| - 1], n);
    } else {
      assert rows[..n] == rows;
    }
  }

  /** The tables of one manifest tree, oldest run first. */
  method PlanTree(runs: seq<SortedRun>) returns (sources: seq<PlannedTable>)
    ensures sources == TreeSources(runs)
  {
    sources := [];
    var i := |runs|;
    while i > 0
      invariant 0 <= i <= |runs|
      invariant sources == TreeSources(runs[i..])
    {
      i := i - 1;
      assert runs[i..][1..] == runs[i + 1..];
      var run := PlanRun(runs[i]);
      sources := sources + run;
    }
  }

  method PlanRun(run: SortedRun) returns (sources: seq<PlannedTable>)
    ensures sources == RunSources(run)
  {
    sources := [];
    for index := 0 to |run.tables|
      invariant index == 0 ==> sources == []
      invariant index > 0 ==> sources + TailSources(run.tables[index..]) == RunSources(run)
    {
      assert run.tables[index..][1..] == run.tables[index + 1..];
      sources := sources + [PlannedTable(run.tables[index], index == 0)];
    }
  }

  method SumBytes(sources: seq<PlannedTable>) returns (bytes: nat)
    ensures bytes == TotalBytes(sources)
  {
    bytes := 0;
    for i := 0 to |sources|
      invariant bytes + TotalBytes(sources[i..]) == TotalBytes(sources)
    {
      assert sources[i..][1..] == sources[i + 1..];
      bytes := bytes + sources[i].table.objectBytes;
    }
  }

  /** Count the selected tables and their bytes against the bootstrap bounds. */
  method PlanSources(seal: Seal) returns (plan: Option<seq<PlannedTable>>)
    ensures plan == PlanBootstrapSources(seal)
  {
    hide TreeSources, TotalBytes;
    var directory := PlanTree(seal.directory.runs);
    var ledger := PlanTree(seal.ledger.runs);
    var sources := directory + ledger;
    var bytes := SumBytes(sources);
    if |sources| > PARTITION_BOOTSTRAP_OBJECTS_MAX || bytes > PARTITION_BOOTSTRAP_BYTES_MAX {
      return None;
    }
    return Some(sources);
  }

  // -------------------------------------------------------------- the machine

  class BootstrapMachine {
    var state: BootstrapState

    constructor ()
      ensures state == Initial && Whole(state)
    {
      state := Initial;
    }

    method Issue(next: BootstrapState, effect: BootstrapEffect) returns (step: BootstrapStep)
      modifies this
      ensures Transition(state, step) == Transition(next, Await(effect))
    {
      state := next;
      return Await(effect);
    }

    method Stop(exit: BootstrapExit) returns (step: BootstrapStep)
      modifies this
      ensures Transition(state, step) == Exit(exit)
    {
      state := Finished;
      return Exited(exit);
    }

    method OnHead(head: Option<nat>) returns (step: BootstrapStep)
      requires Answers(state, HeadObserved(head))
      modifies this
      ensures Transition(state, step) == HandleHead(old(state), head)
    {
      match state
      case DiscoveringHead(partition) =>
        if head.Some? {
          step := Issue(ReadingSeal(head.value), ReadSeal(head.value));
        } else {
          step := Issue(EstablishingGenesis(partition), EstablishGenesis(GenesisSeal(partition)));
        }
      case RefreshingAnomaly(claim) =>
        if head.Some? && head.value > claim {
          step := Stop(Fenced(head.value));
        } else {
          step := Stop(Contradiction);
        }
      case RefreshingFinal(recovery) =>
        if head == Some(recovery.claim) {
          state := Finished;
          step := Recovered(recovery);
        } else if head.Some? && head.value > recovery.claim {
          step := Stop(Fenced(head.value));
        } else {
          step := Stop(Contradiction);
        }
    }

    method OnSeal(observed: Option<Seal>) returns (step: BootstrapStep)
      modifies this
      ensures Transition(state, step) == HandleSeal(observed)
    {
      hide PlanBootstrapSources;
      if observed.None? {
        step := Stop(Contradiction);
        return;
      }
      var sources := PlanSources(observed.value);
      if sources.None? {
        step := Stop(Contradiction);
        return;
      }
      var candidate := ClaimSuccessor(observed.value);
      if candidate.None? {
        step := Stop(Contradiction);
      } else {
        step := Issue(PublishingClaim(candidate.value, sources.value), PublishClaim(candidate.value));
      }
    }

    method NextTable(load: BaseLoad) returns (step: BootstrapStep)
      modifies this
      ensures Transition(state, step) == ReadNextTable(load)
    {
      hide Complete, RowsMap, PathsAscend, RecordsAscend, Explains;
      if load.remaining == [] {
        var directory := DirectoryInOrder(load.load.merged.directory);
        var ledger := RecordsInOrder(load.load.merged.ledger);
        var checked := TryForest(directory, ledger);
        if checked.Err? {
          step := Stop(Contradiction);
        } else {
          var forest := checked.value;
          step := Issue(ObservingWalTail(Loaded(load.claim, load.seal, forest, forest), None), ObserveWalTail);
        }
      } else {
        var source := load.remaining[0];
        step := Issue(ReadingTable(load.(remaining := load.remaining[1..]), source),
                      ReadTable(load.seal.partition, source.table));
      }
    }

    method OnTable() returns (step: BootstrapStep)
      requires state.ReadingTable? && DecodedOk(state.source.table.content) && Accounted(state.baseLoad.load.merged)
      modifies this
      ensures Transition(state, step) == HandleTable(old(state.baseLoad), old(state.source))
    {
      hide ReadNextTable, MergeDirectoryRows, MergeLedgerRows, Accounted;
      var b, source := state.baseLoad, state.source;
      var rows := new RowMerger(b.load.merged);
      match source.table.content
      case DirectoryTable(table) =>
        var previous := if source.startsRun then None else b.load.previousDirectory;
        if previous.Some? && !Less(previous.value, table[0].0) {
          step := Stop(Contradiction);
          return;
        }
        var merged := rows.MergeDirectory(table);
        if !merged {
          step := Stop(Contradiction);
          return;
        }
        step := NextTable(b.(load := b.load.(merged := rows.Value(), previousDirectory := Some(table[|table| - 1].0))));
      case LedgerTable(table) =>
        var previous := if source.startsRun then None else b.load.previousLedger;
        if previous.Some? && table[0].0 <= previous.value {
          step := Stop(Contradiction);
          return;
        }
        var merged := rows.MergeLedger(table);
        if !merged {
          step := Stop(Contradiction);
          return;
        }
        step := NextTable(b.(load := b.load.(merged := rows.Value(), previousLedger := Some(table[|table| - 1].0))));
    }

    method OnWalTail(tail: Option<nat>) returns (step: BootstrapStep)
      requires state.ObservingWalTail?
      modifies this
      ensures Transition(state, step) == HandleWalTail(old(state.loaded), old(state.occupied), tail)
    {
      hide PlanFenceCandidate, BoundTakeoverFence;
      var loaded, occupied := state.loaded, state.occupied;
      var cut := loaded.seal.replay.Batch();
      var candidate := PlanFenceCandidate(cut, tail);
      if candidate.None? {
        step := Stop(Retryable);
        return;
      }
      if occupied.Some? && candidate.value <= occupied.value {
        step := Stop(Contradiction);
        return;
      }
      var fence := BoundTakeoverFence(cut, candidate.value);
      if fence.Err? {
        step := Stop(TakeoverFenceExit(fence.error));
      } else if tail.Some? && (cut.None? || tail.value > cut.value) {
        step := Issue(ReadingWalTail(loaded, fence.value, tail.value), ReadWal(loaded.seal.partition, tail.value));
      } else {
        step := Place(loaded, fence.value);
      }
    }

    method Place(loaded: Loaded, fence: nat) returns (step: BootstrapStep)
      modifies this
      ensures Transition(state, step) == PlaceFence(loaded, fence)
    {
      step := Issue(EstablishingFence(loaded, fence), EstablishFence(FenceObject(loaded, fence)));
    }

    method OnTailRead(entry: Option<WalObject>) returns (step: BootstrapStep)
      requires state.ReadingWalTail?
      modifies this
      ensures Transition(state, step) == HandleTailRead(old(state.loaded), old(state.fence), entry)
    {
      var loaded, fence := state.loaded, state.fence;
      if entry.None? {
        step := Stop(Retryable);
      } else if entry.value.owner >= loaded.claim {
        step := Issue(RefreshingAnomaly(loaded.claim), ObserveHead);
      } else {
        step := Place(loaded, fence);
      }
    }

    method OnFence(establishment: WalEstablishment) returns (step: BootstrapStep)
      requires state.EstablishingFence?
      modifies this
      ensures Transition(state, step) == HandleFence(old(state.loaded), old(state.fence), establishment)
    {
      var loaded, fence := state.loaded, state.fence;
      match establishment
      case Durable =>
        var next := Successor(loaded.seal.replay.Cut());
        if next.None? {
          step := Stop(Retryable);
        } else {
          step := Issue(Replaying(Replay(loaded, next.value, fence, loaded.seal.replay.Owner())),
                        ReadWal(loaded.seal.partition, next.value));
        }
      case Occupied => step := Issue(ObservingWalTail(loaded, Some(fence)), ObserveWalTail);
      case UnresolvedAbsent => step := Stop(Retryable);
    }

    /** Fold one object into the recovered forest in place. */
    method ReplayObject(replay: Replay, entry: WalObject) returns (folded: Option<(Option<nat>, Forest)>)
      requires Complete(replay.loaded.durable) && entry.batch == replay.next
      ensures folded == ReplayOne(replay.owner, replay.loaded.durable, entry)
    {
      hide Complete, FoldFacts;
      match entry.body
      case Fence =>
        if replay.owner.Some? && entry.owner <= replay.owner.value {
          return None;
        }
        return Some((Some(entry.owner), replay.loaded.durable));
      case Run(facts) =>
        if replay.owner != Some(entry.owner) {
          return None;
        }
        var durable := new MutableForest(replay.loaded.durable);
        var applied := durable.ApplyAll(replay.next, facts);
        if !applied {
          return None;
        }
        return Some((replay.owner, durable.Value()));
    }

    method OnReplayRead(entry: Option<WalObject>) returns (step: BootstrapStep)
      requires state.Replaying? && Whole(state) && Answers(state, WalRead(entry))
      modifies this
      ensures Transition(state, step) == HandleReplayRead(old(state.replay), entry)
    {
      hide Complete, ReplayOne;
      var replay := state.replay;
      var loaded := replay.loaded;
      if entry.None? {
        step := Issue(RefreshingAnomaly(loaded.claim), ObserveHead);
        return;
      }
      var folded := ReplayObject(replay, entry.value);
      if folded.None? {
        step := Issue(RefreshingAnomaly(loaded.claim), ObserveHead);
        return;
      }
      var (owner, durable) := folded.value;
      if replay.next == replay.fence {
        step := Issue(RefreshingFinal(WriterRecovery(loaded.claim, loaded.seal, loaded.base, durable, replay.fence)),
                      ObserveHead);
        return;
      }
      var next := Successor(replay.next);
      if next.None? {
        step := Stop(Contradiction);
      } else {
        step := Issue(Replaying(Replay(loaded.(durable := durable), next.value, replay.fence, owner)),
                      ReadWal(loaded.seal.partition, next.value));
      }
    }

    method OnStoreFailure(error: TypedStoreError) returns (step: BootstrapStep)
      modifies this
      ensures Transition(state, step) == HandleStoreFailure(old(state), error)
    {
      if error.StoreContradiction? && state.ReadingWalTail? {
        step := Issue(RefreshingAnomaly(state.loaded.claim), ObserveHead);
      } else if error.StoreContradiction? && state.Replaying? {
        step := Issue(RefreshingAnomaly(state.replay.loaded.claim), ObserveHead);
      } else {
        step := Stop(StoreExit(error));
      }
    }

    method OnGenesis(genesis: GenesisEstablishment) returns (step: BootstrapStep)
      requires state.EstablishingGenesis?
      modifies this
      ensures Transition(state, step) == HandleGenesis(old(state.genesisPartition), genesis)
    {
      match genesis
      case Established => step := Issue(ReadingSeal(GENESIS_GENERATION), ReadSeal(GENESIS_GENERATION));
      case LostRace => step := Issue(DiscoveringHead(state.genesisPartition), ObserveHead);
      case GenesisUnresolved => step := Stop(Retryable);
    }

    method OnClaim(publication: SealPublication) returns (step: BootstrapStep)
      requires state.PublishingClaim?
      modifies this
      ensures Transition(state, step) == HandleClaim(old(state.candidate), old(state.sources), publication)
    {
      hide ReadNextTable;
      var candidate, sources := state.candidate, state.sources;
      match publication
      case Authored => step := NextTable(BaseLoad(candidate.generation, candidate, sources, NOTHING_LOADED));
      case NoAuthority => step := Stop(Fenced(candidate.generation));
      case Unresolved => step := Stop(Retryable);
    }

    /** One complete transition, refining the specified one. */
    method Handle(event: BootstrapEvent) returns (step: BootstrapStep)
      requires Answers(state, event) && Whole(state)
      modifies this
      ensures Transition(state, step) == HandleBootstrap(old(state), event)
      ensures Whole(state)
    {
      hide Complete, Accounted, HandleHead, HandleSeal, HandleClaim, HandleTable, HandleWalTail, HandleTailRead,
        HandleReplayRead, HandleFence, HandleGenesis, HandleStoreFailure, DecodedOk;
      HandleKeepsWhole(state, event);
      match event
      case BootstrapStarted(partition) => step := Issue(DiscoveringHead(partition), ObserveHead);
      case HeadObserved(head) => step := OnHead(head);
      case GenesisEstablished(genesis) => step := OnGenesis(genesis);
      case SealRead(seal) => step := OnSeal(seal);
      case ClaimPublished(publication) => step := OnClaim(publication);
      case TableRead(_) => step := OnTable();
      case WalTailObserved(tail) => step := OnWalTail(tail);
      case WalRead(entry) =>
        if state.ReadingWalTail? {
          step := OnTailRead(entry);
        } else {
          step := OnReplayRead(entry);
        }
      case FenceEstablished(establishment) => step := OnFence(establishment);
      case StoreFailed(error) => step := OnStoreFailure(error);
    }
  }
}
