/** WAL objects and the exact replay of a log of them. */
module Logs {
  import opened Common
  import opened Domain
  import opened Forests

  datatype WalBody = Run(facts: seq<OperationFact>) | Fence

  datatype WalObject = WalObject(partition: nat, batch: nat, owner: nat, body: WalBody)

  /** The facts one WAL body contributes; a FENCE contributes none. */
  function BodyFacts(body: WalBody): seq<OperationFact> {
    match body
    case Run(facts) => facts
    case Fence => []
  }

  /** The state after replaying a whole log: object `i` sits at coordinate `i + 1`. */
  function FoldLog(log: seq<WalObject>): (r: Option<Forest>) {
    if log == [] then Some(EMPTY)
    else
      var before := FoldLog(log[..|log| - 1]);
      if before.None? then None
      else FoldFacts(before.value, |log|, BodyFacts(log[|log| - 1].body))
  }

  /** The owner in force after a log, zero before the first FENCE. */
  function OwnerAfter(log: seq<WalObject>): nat {
    if log == [] then 0 else log[|log| - 1].owner
  }

  /** Whether `entry` is a legal continuation: a RUN keeps the owner in force
      and a FENCE strictly raises it. */
  predicate Continues(log: seq<WalObject>, entry: WalObject) {
    && entry.batch == |log| + 1
    && (entry.body.Fence? ==> entry.owner > OwnerAfter(log))
    && (entry.body.Run? ==> log != [] && entry.owner == OwnerAfter(log) && entry.body.facts != [])
  }

  /** A log every coordinate of which legally continues its prefix. */
  ghost predicate Chain(log: seq<WalObject>) {
    forall i :: 0 <= i < |log| ==> Continues(log[..i], log[i])
  }

  lemma ChainPush(log: seq<WalObject>, entry: WalObject)
    requires Chain(log) && Continues(log, entry)
    ensures Chain(log + [entry])
  {
    var next := log + [entry];
    forall i | 0 <= i < |next|
      ensures Continues(next[..i], next[i])
    {
      assert next[..i] == log[..i];
      if i == |log| {
        assert log[..i] == log;
      } else {
        assert next[i] == log[i];
      }
    }
  }

  lemma FoldLogPush(log: seq<WalObject>, entry: WalObject)
    requires FoldLog(log).Some?
    ensures FoldLog(log + [entry]) == FoldFacts(FoldLog(log).value, |log| + 1, BodyFacts(entry.body))
  {
    assert (log + [entry])[..|log + [entry]| - 1] == log;
  }

  /** Whatever a log replays to satisfies the cross-store invariant. */
  lemma {:induction false} FoldLogComplete(log: seq<WalObject>)
    ensures FoldLog(log).Some? ==> Complete(FoldLog(log).value)
  {
    if log != [] {
      var before := FoldLog(log[..|log| - 1]);
      FoldLogComplete(log[..|log| - 1]);
      if before.Some? {
        FoldFactsKeepComplete(before.value, |log|, BodyFacts(log[|log| - 1].body));
      }
    }
  }

  lemma {:induction false} FoldLogPrefix(log: seq<WalObject>, n: nat)
    requires FoldLog(log).Some? && n <= |log|
    ensures FoldLog(log[..n]).Some?
    decreases |log|
  {
    if n < |log| {
      FoldLogPrefix(log[..|log| - 1], n);
      assert log[..|log| - 1][..n] == log[..n];
    } else {
      assert log[..n] == log;
    }
  }

  /** Owners never fall along a chain. */
  lemma {:induction false} OwnersRise(log: seq<WalObject>, i: nat, j: nat)
    requires Chain(log) && i <= j < |log|
    ensures log[i].owner <= log[j].owner
    decreases j
  {
    if i < j {
      OwnersRise(log, i, j - 1);
      assert Continues(log[..j], log[j]);
    }
  }

  /** Between two owners of a chain stands the FENCE that raised one to the other. */
  lemma {:induction false} FenceBetween(log: seq<WalObject>, i: nat, j: nat) returns (k: nat)
    requires Chain(log) && i <= j < |log| && log[i].owner < log[j].owner
    ensures i < k <= j && log[k].body.Fence? && log[i].owner < log[k].owner
    decreases j
  {
    assert Continues(log[..j], log[j]);
    if log[j].body.Fence? {
      k := j;
    } else {
      assert log[j - 1].owner == log[j].owner;
      k := FenceBetween(log, i, j - 1);
    }
  }

  /** Replay from an intermediate state over the coordinates after `from`. */
  function FoldSuffix(base: Forest, log: seq<WalObject>, from: nat): (r: Option<Forest>)
    requires from <= |log|
  {
    if from == |log| then Some(base)
    else
      var before := FoldSuffix(base, log[..|log| - 1], from);
      if before.None? then None
      else FoldFacts(before.value, |log|, BodyFacts(log[|log| - 1].body))
  }

  /** A checkpointed prefix and the suffix after it replay to the whole. */
  lemma {:induction false} SuffixCompletesPrefix(log: seq<WalObject>, from: nat)
    requires from <= |log| && FoldLog(log).Some? && FoldLog(log[..from]).Some?
    ensures FoldSuffix(FoldLog(log[..from]).value, log, from) == FoldLog(log)
    decreases |log|
  {
    if from < |log| {
      var shorter := log[..|log| - 1];
      assert shorter[..from] == log[..from];
      FoldLogPrefix(log, |log| - 1);
      SuffixCompletesPrefix(shorter, from);
    } else {
      assert log[..from] == log;
    }
  }
}
