/** Every Seal a checkpoint preparation builds passes the checks its construction
    makes. */
module SealLegality {
  import opened Domain
  import opened Forests
  import opened Seals
  import opened Rows
  import opened Merge
  import opened Checkpoints

  predicate NoneShared(a: seq<TableRef>, b: seq<TableRef>) {
    forall i, j :: 0 <= i < |a| && 0 <= j < |b| ==> a[i].id != b[j].id
  }

  lemma DistinctConcat(a: seq<TableRef>, b: seq<TableRef>)
    ensures DistinctObjects(a + b) <==> DistinctObjects(a) && DistinctObjects(b) && NoneShared(a, b)
  {
    var all := a + b;
    if DistinctObjects(all) {
      forall i, j | 0 <= i < j < |a| ensures a[i].id != a[j].id { assert all[i].id != all[j].id; }
      forall i, j | 0 <= i < j < |b| ensures b[i].id != b[j].id { assert all[|a| + i].id != all[|a| + j].id; }
      forall i, j | 0 <= i < |a| && 0 <= j < |b| ensures a[i].id != b[j].id { assert all[i].id != all[|a| + j].id; }
    }
  }

  lemma NoneSharedConcat(a: seq<TableRef>, b: seq<TableRef>, c: seq<TableRef>)
    ensures NoneShared(a + b, c) <==> NoneShared(a, c) && NoneShared(b, c)
    ensures NoneShared(c, a + b) <==> NoneShared(c, a) && NoneShared(c, b)
  {
    var all := a + b;
    assert forall i :: 0 <= i < |a| ==> all[i] == a[i];
    assert forall i :: 0 <= i < |b| ==> all[|a| + i] == b[i];
  }

  /** Two older and two newer lists, each pair distinct and no identity shared
      between old and new, are distinct in whatever order they are joined. */
  lemma DistinctInterleaved(d: seq<TableRef>, oldD: seq<TableRef>, l: seq<TableRef>, oldL: seq<TableRef>)
    requires DistinctObjects(d + l) && DistinctObjects(oldD + oldL)
    requires NoneShared(d + l, oldD + oldL)
    ensures DistinctObjects((d + oldD) + (l + oldL))
  {
    hide DistinctObjects, NoneShared;
    DistinctConcat(d, l);
    DistinctConcat(oldD, oldL);
    NoneSharedConcat(d, l, oldD + oldL);
    NoneSharedConcat(oldD, oldL, d);
    NoneSharedConcat(oldD, oldL, l);
    Mirrored(l, oldD);
    DistinctConcat(d, oldD);
    DistinctConcat(l, oldL);
    NoneSharedConcat(d, oldD, l + oldL);
    NoneSharedConcat(l, oldL, d);
    NoneSharedConcat(l, oldL, oldD);
    DistinctConcat(d + oldD, l + oldL);
  }

  lemma Mirrored(a: seq<TableRef>, b: seq<TableRef>)
    requires NoneShared(a, b)
    ensures NoneShared(b, a)
  {
  }

  lemma ExtendTables(carried: TreeVersion, tables: seq<TableRef>)
    ensures TreeTables(ExtendTree(carried, tables)) == tables + TreeTables(carried)
  {
    if tables != [] {
      assert ([SortedRun(tables)] + carried.runs)[1..] == carried.runs;
    }
  }

  /** Minted identities fit the successor and are distinct among themselves. */
  lemma MintedAreLegal(d: seq<TableRef>, l: seq<TableRef>, generation: nat, attempt: AttemptId)
    requires Minted(d, l, generation, attempt) && attempt.ownerClaim < generation
    ensures TablesFit(d, Directory, generation) && TablesFit(l, Ledger, generation)
    ensures FreshIdentities(d) && FreshIdentities(l) && DistinctObjects(d + l)
  {
    DistinctConcat(d, l);
  }

  /** Whatever an earlier Seal carries was born before. */
  lemma MintedAreNew(d: seq<TableRef>, l: seq<TableRef>, oldD: seq<TableRef>, oldL: seq<TableRef>,
                     generation: nat, attempt: AttemptId)
    requires Minted(d, l, generation + 1, attempt)
    requires TablesFit(oldD, Directory, generation) && TablesFit(oldL, Ledger, generation)
    ensures NoneShared(d + l, oldD + oldL)
  {
    var newer, carried := d + l, oldD + oldL;
    assert forall i :: 0 <= i < |newer| ==> newer[i].id.birthGeneration == generation + 1;
    assert forall i :: 0 <= i < |carried| ==> carried[i].id.birthGeneration <= generation;
  }

  lemma FitConcat(a: seq<TableRef>, b: seq<TableRef>, store: StoreKind, generation: nat, earlier: nat)
    requires TablesFit(a, store, generation) && TablesFit(b, store, earlier) && earlier <= generation
    requires FreshIdentities(a) && FreshIdentities(b)
    ensures TablesFit(a + b, store, generation) && FreshIdentities(a + b)
  {
  }

  // ------------------------------------------------------------- runs and trees

  lemma {:induction false} TailLength(tables: seq<TableRef>)
    ensures |TailSources(tables)| == |tables|
  {
    if tables != [] { TailLength(tables[1..]); }
  }

  /** A fresh run is no longer than the bounded plan of its Seal. */
  lemma ExtendedIsLegalTree(carried: TreeVersion, tables: seq<TableRef>)
    requires LegalTree(carried) && |ExtendTree(carried, tables).runs| <= TREE_RUNS_MAX
    requires |TreeSources(ExtendTree(carried, tables).runs)| <= PARTITION_BOOTSTRAP_OBJECTS_MAX
    ensures LegalTree(ExtendTree(carried, tables))
  {
    if tables != [] {
      var runs := [SortedRun(tables)] + carried.runs;
      assert runs[1..] == carried.runs;
      TailLength(tables[1..]);
      assert |RunSources(runs[0])| == |tables|;
    }
  }

  lemma ExtendedIsLegal(source: Seal, successor: Seal, d: seq<TableRef>, l: seq<TableRef>, attempt: AttemptId)
    requires Constructible(source) && successor.generation == source.generation + 1
    requires successor.replay.Through? ==> successor.replay.owner < successor.generation
    requires Minted(d, l, successor.generation, attempt) && attempt.ownerClaim < successor.generation
    requires successor.directory == ExtendTree(source.directory, d) && successor.ledger == ExtendTree(source.ledger, l)
    requires RunsFit(successor)
    requires PlanBootstrapSources(successor).Some?
    ensures Constructible(successor)
  {
    hide ExtendTree, Minted, TablesFit, DistinctObjects, FreshIdentities, LegalTree, TreeTables, TotalBytes,
      TreeSources;
    var oldD, oldL := TreeTables(source.directory), TreeTables(source.ledger);
    ExtendTables(source.directory, d);
    ExtendTables(source.ledger, l);
    MintedAreLegal(d, l, successor.generation, attempt);
    MintedAreNew(d, l, oldD, oldL, source.generation, attempt);
    DistinctInterleaved(d, oldD, l, oldL);
    FitConcat(d, oldD, Directory, successor.generation, source.generation);
    FitConcat(l, oldL, Ledger, successor.generation, source.generation);
    ExtendedIsLegalTree(source.directory, d);
    ExtendedIsLegalTree(source.ledger, l);
  }

  /** A checkpoint prepared from a Seal that passes every check passes every
      check, whether it carries the source's tables or none. */
  lemma PreparationIsLegal(source: Seal, base: Forest, snapshot: Forest, successor: Seal, attempt: AttemptId)
    requires Constructible(source) && PreparesTables(source, base, snapshot, successor, attempt)
    requires successor.generation == source.generation + 1 && attempt.ownerClaim < successor.generation
    requires successor.replay.Through? ==> successor.replay.owner < successor.generation
    ensures Constructible(successor)
  {
    hide Constructible, AppendsDelta, WritesFull, PlanBootstrapSources, Minted;
    var cells: ForestDelta, d: seq<TableRef>, l: seq<TableRef> :|
      && Minted(d, l, successor.generation, attempt)
      && (|| AppendsDelta(source, base, snapshot, successor, cells, d, l)
          || WritesFull(snapshot, successor, cells, d, l));
    if AppendsDelta(source, base, snapshot, successor, cells, d, l) {
      AppendedTrees(source, base, snapshot, successor, cells, d, l);
      ExtendedIsLegal(source, successor, d, l, attempt);
    } else {
      FullTrees(snapshot, successor, cells, d, l);
      var bare := source.(directory := EMPTY_TREE, ledger := EMPTY_TREE);
      BareIsLegal(source, bare);
      ExtendedIsLegal(bare, successor, d, l, attempt);
    }
  }

  lemma AppendedTrees(source: Seal, base: Forest, snapshot: Forest, successor: Seal, cells: ForestDelta,
                      d: seq<TableRef>, l: seq<TableRef>)
    requires AppendsDelta(source, base, snapshot, successor, cells, d, l)
    ensures successor.directory == ExtendTree(source.directory, d) && successor.ledger == ExtendTree(source.ledger, l)
    ensures RunsFit(successor)
  {
  }

  lemma FullTrees(snapshot: Forest, successor: Seal, cells: ForestDelta, d: seq<TableRef>, l: seq<TableRef>)
    requires WritesFull(snapshot, successor, cells, d, l)
    ensures successor.directory == ExtendTree(EMPTY_TREE, d) && successor.ledger == ExtendTree(EMPTY_TREE, l)
    ensures RunsFit(successor)
  {
  }

  /** A Seal without tables passes whatever a Seal with tables does. */
  lemma BareIsLegal(source: Seal, bare: Seal)
    requires Constructible(source) && bare == source.(directory := EMPTY_TREE, ledger := EMPTY_TREE)
    ensures Constructible(bare)
  {
  }
}
