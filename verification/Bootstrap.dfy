/** The bootstrap machine as functions on its state: claim the newest Seal,
    load its tables, place a takeover FENCE, replay the suffix, refresh. */
module BootstrapSpec {
  import opened Common
  import opened Forests
  import opened Logs
  import opened Seals
  import opened Suffix
  import opened Rows
  import opened Merge
  import opened WriterSpec

  datatype BootstrapExit = Retryable | Fenced(observed: nat) | Contradiction

  datatype GenesisEstablishment = Established | LostRace | GenesisUnresolved

  datatype BootstrapEvent =
    | BootstrapStarted(genesisPartition: nat)
    | HeadObserved(head: Option<nat>)
    | GenesisEstablished(genesis: GenesisEstablishment)
    | SealRead(seal: Option<Seal>)
    | ClaimPublished(publication: SealPublication)
    | TableRead(table: TableRef)
    | WalTailObserved(tail: Option<nat>)
    | WalRead(entry: Option<WalObject>)
    | FenceEstablished(establishment: WalEstablishment)
    | StoreFailed(error: TypedStoreError)

  datatype BootstrapEffect =
    | ObserveHead
    | EstablishGenesis(genesis: Seal)
    | ReadSeal(generation: nat)
    | PublishClaim(candidate: Seal)
    | ReadTable(partition: nat, table: TableRef)
    | ObserveWalTail
    | ReadWal(partition: nat, batch: nat)
    | EstablishFence(fence: WalObject)

  /** A claimed Seal with its tables loaded. */
  datatype Loaded = Loaded(claim: nat, seal: Seal, base: Forest, durable: Forest)

  datatype BaseLoad = BaseLoad(claim: nat, seal: Seal, remaining: seq<PlannedTable>, load: Load)

  datatype Replay = Replay(loaded: Loaded, next: nat, fence: nat, owner: Option<nat>)

  datatype BootstrapState =
    | Initial
    | DiscoveringHead(genesisPartition: nat)
    | EstablishingGenesis(genesisPartition: nat)
    | ReadingSeal(generation: nat)
    | PublishingClaim(candidate: Seal, sources: seq<PlannedTable>)
    | ReadingTable(baseLoad: BaseLoad, source: PlannedTable)
    | ObservingWalTail(loaded: Loaded, occupied: Option<nat>)
    | ReadingWalTail(loaded: Loaded, fence: nat, listedTail: nat)
    | EstablishingFence(loaded: Loaded, fence: nat)
    | Replaying(replay: Replay)
    | RefreshingAnomaly(claim: nat)
    | RefreshingFinal(recovery: WriterRecovery)
    | Finished

  datatype BootstrapStep =
    | Await(effect: BootstrapEffect)
    | Recovered(recovery: WriterRecovery)
    | Exited(exit: BootstrapExit)

  datatype Transition = Transition(state: BootstrapState, step: BootstrapStep)

  function Exit(exit: BootstrapExit): Transition { Transition(Finished, Exited(exit)) }

  function FenceObject(loaded: Loaded, fence: nat): WalObject {
    WalObject(loaded.seal.partition, fence, loaded.claim, Fence)
  }

  /** The event completes the effect the state awaits, with the identities the
      issued request carries; the machine panics on anything else. */
  predicate Answers(state: BootstrapState, event: BootstrapEvent) {
    match event
    case BootstrapStarted(_) => state.Initial?
    case HeadObserved(_) => state.DiscoveringHead? || state.RefreshingAnomaly? || state.RefreshingFinal?
    case GenesisEstablished(_) => state.EstablishingGenesis?
    case SealRead(seal) => state.ReadingSeal? && (seal.Some? ==> seal.value.generation == state.generation)
    case ClaimPublished(_) => state.PublishingClaim?
    case TableRead(table) => state.ReadingTable? && table == state.source.table && DecodedOk(table.content)
    case WalTailObserved(_) => state.ObservingWalTail?
    case WalRead(entry) =>
      (match state
       case ReadingWalTail(loaded, _, listedTail) =>
         entry.Some? ==> entry.value.batch == listedTail && entry.value.partition == loaded.seal.partition
       case Replaying(replay) =>
         entry.Some? ==>
           && entry.value.batch == replay.next && entry.value.partition == replay.loaded.seal.partition
           && (replay.next == replay.fence ==> entry.value == FenceObject(replay.loaded, replay.fence))
       case _ => false)
    case FenceEstablished(_) => state.EstablishingFence?
    case StoreFailed(_) => !state.Initial? && !state.Finished?
  }

  function HandleHead(state: BootstrapState, head: Option<nat>): Transition
    requires Answers(state, HeadObserved(head))
  {
    match state
    case DiscoveringHead(partition) =>
      if head.Some? then Transition(ReadingSeal(head.value), Await(ReadSeal(head.value)))
      else Transition(EstablishingGenesis(partition), Await(EstablishGenesis(GenesisSeal(partition))))
    case RefreshingAnomaly(claim) =>
      if head.Some? && head.value > claim then Exit(Fenced(head.value)) else Exit(Contradiction)
    case RefreshingFinal(recovery) =>
      if head == Some(recovery.claim) then Transition(Finished, Recovered(recovery))
      else if head.Some? && head.value > recovery.claim then Exit(Fenced(head.value))
      else Exit(Contradiction)
  }

  function HandleGenesis(partition: nat, genesis: GenesisEstablishment): Transition {
    match genesis
    case Established => Transition(ReadingSeal(GENESIS_GENERATION), Await(ReadSeal(GENESIS_GENERATION)))
    case LostRace => Transition(DiscoveringHead(partition), Await(ObserveHead))
    case GenesisUnresolved => Exit(Retryable)
  }

  function HandleSeal(observed: Option<Seal>): Transition {
    if observed.None? then Exit(Contradiction)
    else
      var sources := PlanBootstrapSources(observed.value);
      if sources.None? then Exit(Contradiction)
      else
        var candidate := ClaimSuccessor(observed.value);
        if candidate.None? then Exit(Contradiction)
        else Transition(PublishingClaim(candidate.value, sources.value), Await(PublishClaim(candidate.value)))
  }

  function HandleClaim(candidate: Seal, sources: seq<PlannedTable>, publication: SealPublication): Transition {
    match publication
    case Authored => ReadNextTable(BaseLoad(candidate.generation, candidate, sources, NOTHING_LOADED))
    case NoAuthority => Exit(Fenced(candidate.generation))
    case Unresolved => Exit(Retryable)
  }

  /** Ask for the next selected table, or validate what has been merged. */
  function ReadNextTable(b: BaseLoad): Transition {
    if b.remaining == [] then
      var forest := Forest(b.load.merged.directory, b.load.merged.ledger);
      if !Complete(forest) then Exit(Contradiction)
      else Transition(ObservingWalTail(Loaded(b.claim, b.seal, forest, forest), None), Await(ObserveWalTail))
    else
      Transition(ReadingTable(b.(remaining := b.remaining[1..]), b.remaining[0]),
                 Await(ReadTable(b.seal.partition, b.remaining[0].table)))
  }

  function HandleTable(b: BaseLoad, source: PlannedTable): Transition
    requires DecodedOk(source.table.content)
  {
    match MergeTable(b.load, source)
    case None => Exit(Contradiction)
    case Some(load) => ReadNextTable(b.(load := load))
  }

  /** The coordinate right after the cut and the listed tail. */
  function PlanFenceCandidate(cut: Option<nat>, tail: Option<nat>): Option<nat> {
    if cut.None? && tail.None? then Some(1)
    else Successor(Max(if cut.Some? then cut.value else 0, if tail.Some? then tail.value else 0))
  }

  function TakeoverFenceExit(error: TakeoverFenceError): BootstrapExit {
    match error
    case NoRunCoordinate => Retryable
    case NotAfterCut => Contradiction
    case SpanExceeded(_) => Retryable
  }

  function HandleWalTail(loaded: Loaded, occupied: Option<nat>, tail: Option<nat>): Transition {
    var cut := loaded.seal.replay.Batch();
    var candidate := PlanFenceCandidate(cut, tail);
    if candidate.None? then Exit(Retryable)
    else if occupied.Some? && candidate.value <= occupied.value then Exit(Contradiction)
    else
      match BoundTakeoverFence(cut, candidate.value)
      case Err(error) => Exit(TakeoverFenceExit(error))
      case Ok(fence) =>
        if tail.Some? && (cut.None? || tail.value > cut.value) then
          Transition(ReadingWalTail(loaded, fence, tail.value), Await(ReadWal(loaded.seal.partition, tail.value)))
        else PlaceFence(loaded, fence)
  }

  function PlaceFence(loaded: Loaded, fence: nat): Transition {
    Transition(EstablishingFence(loaded, fence), Await(EstablishFence(FenceObject(loaded, fence))))
  }

  function RefreshAnomaly(claim: nat): Transition { Transition(RefreshingAnomaly(claim), Await(ObserveHead)) }

  function HandleTailRead(loaded: Loaded, fence: nat, entry: Option<WalObject>): Transition {
    if entry.None? then Exit(Retryable)
    else if entry.value.owner >= loaded.claim then RefreshAnomaly(loaded.claim)
    else PlaceFence(loaded, fence)
  }

  function HandleFence(loaded: Loaded, fence: nat, establishment: WalEstablishment): Transition {
    match establishment
    case Durable =>
      var next := Successor(loaded.seal.replay.Cut());
      if next.None? then Exit(Retryable)
      else Transition(Replaying(Replay(loaded, next.value, fence, loaded.seal.replay.Owner())),
                      Await(ReadWal(loaded.seal.partition, next.value)))
    case Occupied => Transition(ObservingWalTail(loaded, Some(fence)), Await(ObserveWalTail))
    case UnresolvedAbsent => Exit(Retryable)
  }

  /** Replay of one object on top of an owner and a state, absent on any
      owner-order or fold anomaly. */
  function ReplayOne(owner: Option<nat>, durable: Forest, entry: WalObject): Option<(Option<nat>, Forest)> {
    match entry.body
    case Fence => if owner.Some? && entry.owner <= owner.value then None else Some((Some(entry.owner), durable))
    case Run(facts) =>
      if owner != Some(entry.owner) then None
      else
        var folded := FoldFacts(durable, entry.batch, facts);
        if folded.None? then None else Some((owner, folded.value))
  }

  function HandleReplayRead(replay: Replay, entry: Option<WalObject>): Transition {
    var loaded := replay.loaded;
    if entry.None? then RefreshAnomaly(loaded.claim)
    else
      match ReplayOne(replay.owner, loaded.durable, entry.value)
      case None => RefreshAnomaly(loaded.claim)
      case Some((owner, durable)) =>
        if replay.next == replay.fence then
          Transition(RefreshingFinal(WriterRecovery(loaded.claim, loaded.seal, loaded.base, durable, replay.fence)),
                     Await(ObserveHead))
        else
          var next := Successor(replay.next);
          if next.None? then Exit(Contradiction)
          else Transition(Replaying(Replay(loaded.(durable := durable), next.value, replay.fence, owner)),
                          Await(ReadWal(loaded.seal.partition, next.value)))
  }

  function StoreExit(error: TypedStoreError): BootstrapExit {
    if error.StoreRetryable? then Retryable else Contradiction
  }

  function HandleStoreFailure(state: BootstrapState, error: TypedStoreError): Transition {
    if error.StoreContradiction? && state.ReadingWalTail? then RefreshAnomaly(state.loaded.claim)
    else if error.StoreContradiction? && state.Replaying? then RefreshAnomaly(state.replay.loaded.claim)
    else Exit(StoreExit(error))
  }

  /** One complete bootstrap transition. */
  function HandleBootstrap(state: BootstrapState, event: BootstrapEvent): Transition
    requires Answers(state, event)
  {
    match event
    case BootstrapStarted(partition) => Transition(DiscoveringHead(partition), Await(ObserveHead))
    case HeadObserved(head) => HandleHead(state, head)
    case GenesisEstablished(genesis) => HandleGenesis(state.genesisPartition, genesis)
    case SealRead(seal) => HandleSeal(seal)
    case ClaimPublished(publication) => HandleClaim(state.candidate, state.sources, publication)
    case TableRead(_) => HandleTable(state.baseLoad, state.source)
    case WalTailObserved(tail) => HandleWalTail(state.loaded, state.occupied, tail)
    case WalRead(entry) =>
      (match state
       case ReadingWalTail(loaded, fence, _) => HandleTailRead(loaded, fence, entry)
       case Replaying(replay) => HandleReplayRead(replay, entry))
    case FenceEstablished(establishment) => HandleFence(state.loaded, state.fence, establishment)
    case StoreFailed(error) => HandleStoreFailure(state, error)
  }

  // -------------------------------------------------- states hold real forests

  /** The account of merged rows is exact, and whatever forest the machine is
      about to fold facts into is complete, so neither a removed record without
      its bytes nor a live row without its record can make it panic. */
  predicate Whole(state: BootstrapState) {
    match state
    case ReadingTable(b, _) => Accounted(b.load.merged)
    case ObservingWalTail(loaded, _) => Complete(loaded.durable)
    case ReadingWalTail(loaded, _, _) => Complete(loaded.durable)
    case EstablishingFence(loaded, _) => Complete(loaded.durable)
    case Replaying(replay) => Complete(replay.loaded.durable)
    case RefreshingFinal(recovery) => Complete(recovery.durable)
    case _ => true
  }

  lemma ReplayKeepsWhole(owner: Option<nat>, durable: Forest, entry: WalObject)
    requires Complete(durable) && ReplayOne(owner, durable, entry).Some?
    ensures Complete(ReplayOne(owner, durable, entry).value.1)
  {
    hide Complete, FoldFacts;
    if entry.body.Run? { FoldFactsKeepComplete(durable, entry.batch, entry.body.facts); }
  }

  lemma NothingIsAccounted()
    ensures Accounted(NOTHING_LOADED.merged)
  {
  }

  lemma HandleKeepsWhole(state: BootstrapState, event: BootstrapEvent)
    requires Answers(state, event) && Whole(state)
    ensures Whole(HandleBootstrap(state, event).state)
    ensures HandleBootstrap(state, event).step.Recovered? ==>
      Complete(HandleBootstrap(state, event).step.recovery.durable)
  {
    hide Complete, Accounted, ReplayOne, PlanFenceCandidate, BoundTakeoverFence, MergeTable, PlanBootstrapSources,
      RowsMap, Overlay;
    NothingIsAccounted();
    if state.ReadingTable? && event.TableRead? && MergeTable(state.baseLoad.load, state.source).Some? {
      TableMerges(state.baseLoad.load, state.source);
    }
    if state.Replaying? && event.WalRead? && event.entry.Some? {
      var replay := state.replay;
      if ReplayOne(replay.owner, replay.loaded.durable, event.entry.value).Some? {
        ReplayKeepsWhole(replay.owner, replay.loaded.durable, event.entry.value);
      }
    }
  }
}
