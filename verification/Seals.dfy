/** Seals, their manifests and the claim that succeeds one. */
module Seals {
  import opened Common
  import opened Domain

  datatype StoreKind = Directory | Ledger | Tally | Annals

  datatype AttemptId = AttemptId(ownerClaim: nat, localCounter: nat)

  datatype TableObjectId = TableObjectId(birthGeneration: nat, attempt: AttemptId, ordinal: nat, store: StoreKind)

  /** The rows one immutable table decodes to. */
  datatype DecodedTable =
    | DirectoryTable(directoryRows: seq<(StreamPath, DirectoryEntry)>)
    | LedgerTable(ledgerRows: seq<(StreamUid, LedgerCell)>)

  /** A selected table. Table objects are immutable and identity-checked when
      read, so the reference carries the rows it selects. */
  datatype TableRef = TableRef(id: TableObjectId, objectBytes: nat, content: DecodedTable)

  datatype SortedRun = SortedRun(tables: seq<TableRef>)

  /** Runs from newest to oldest. */
  datatype TreeVersion = TreeVersion(runs: seq<SortedRun>)

  datatype WalReplayPoint = Genesis | Through(batch: nat, owner: nat)
  {
    function Batch(): Option<nat> {
      match this
      case Genesis => None
      case Through(batch, _) => Some(batch)
    }

    /** The inclusive cut as a coordinate, zero at genesis. */
    function Cut(): nat {
      match this
      case Genesis => 0
      case Through(batch, _) => batch
    }

    function Owner(): Option<nat> {
      match this
      case Genesis => None
      case Through(_, owner) => Some(owner)
    }
  }

  datatype Seal = Seal(
    partition: nat,
    generation: nat,
    replay: WalReplayPoint,
    directory: TreeVersion,
    ledger: TreeVersion)

  const GENESIS_GENERATION: nat := 1
  const EMPTY_TREE := TreeVersion([])

  function GenesisSeal(partition: nat): Seal {
    Seal(partition, GENESIS_GENERATION, Genesis, EMPTY_TREE, EMPTY_TREE)
  }

  /** The exact claim successor: one generation later, everything else kept. */
  function ClaimSuccessor(seal: Seal): (claim: Option<Seal>)
    ensures claim.Some? <==> seal.generation < U64_MAX
    ensures claim.Some? ==> claim.value.generation == seal.generation + 1
    ensures claim.Some? ==> claim.value.(generation := seal.generation) == seal
  {
    match Successor(seal.generation)
    case None => None
    case Some(generation) => Some(seal.(generation := generation))
  }

  // ------------------------------------------------- what the constructors check

  const TREE_RUNS_MAX: nat := 16
  const RUN_TABLES_MAX: nat := 4096

  function TreeTables(tree: TreeVersion): seq<TableRef> { RunTables(tree.runs) }

  function RunTables(runs: seq<SortedRun>): seq<TableRef> {
    if runs == [] then [] else runs[0].tables + RunTables(runs[1..])
  }

  predicate TablesFit(tables: seq<TableRef>, store: StoreKind, generation: nat) {
    forall i :: 0 <= i < |tables| ==> tables[i].id.store == store && tables[i].id.birthGeneration <= generation
  }

  predicate DistinctObjects(tables: seq<TableRef>) {
    forall i, j :: 0 <= i < j < |tables| ==> tables[i].id != tables[j].id
  }

  /** A Seal that may exist: generation one is only the empty genesis, replay is
      under an older owner, every table belongs to its tree's store and is not
      from the future, and no table object is selected twice. */
  predicate LegalSeal(seal: Seal) {
    && (seal.generation == GENESIS_GENERATION ==> seal == GenesisSeal(seal.partition))
    && (seal.replay.Through? ==> seal.replay.owner < seal.generation)
    && TablesFit(TreeTables(seal.directory), Directory, seal.generation)
    && TablesFit(TreeTables(seal.ledger), Ledger, seal.generation)
    && DistinctObjects(TreeTables(seal.directory) + TreeTables(seal.ledger))
  }

  /** A tree of a bounded number of nonempty, bounded runs. */
  predicate LegalTree(tree: TreeVersion) {
    && |tree.runs| <= TREE_RUNS_MAX
    && forall i :: 0 <= i < |tree.runs| ==> 0 < |tree.runs[i].tables| <= RUN_TABLES_MAX
  }

  /** Table identities whose owner's claim is older than the table's birth. */
  predicate FreshIdentities(tables: seq<TableRef>) {
    forall i :: 0 <= i < |tables| ==> tables[i].id.attempt.ownerClaim < tables[i].id.birthGeneration
  }

  /** A Seal that passes every check made on it, its trees, its runs and its
      table identities. */
  predicate Constructible(seal: Seal) {
    && seal.generation >= GENESIS_GENERATION && LegalSeal(seal)
    && LegalTree(seal.directory) && LegalTree(seal.ledger)
    && FreshIdentities(TreeTables(seal.directory)) && FreshIdentities(TreeTables(seal.ledger))
  }

  lemma GenesisIsConstructible(partition: nat)
    ensures Constructible(GenesisSeal(partition))
  {
  }

  /** A claim successor is not validated again because it cannot fail to be legal. */
  lemma ClaimIsLegal(seal: Seal)
    requires LegalSeal(seal) && seal.generation >= GENESIS_GENERATION && ClaimSuccessor(seal).Some?
    ensures LegalSeal(ClaimSuccessor(seal).value)
    ensures Constructible(seal) ==> Constructible(ClaimSuccessor(seal).value)
  {
    var claim := ClaimSuccessor(seal).value;
    assert claim.directory == seal.directory && claim.ledger == seal.ledger && claim.replay == seal.replay;
  }
}
