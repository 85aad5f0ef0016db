/** A live writer's turn in the shared world, in its three parts. */
module WorldWriter {
  import opened Common
  import opened Domain
  import opened Forests
  import opened Logs
  import opened Seals
  import opened Suffix
  import opened Checkpoints
  import opened WriterSpec
  import opened WriterInvariant
  import opened Nodes
  import opened NodeTheorems
  import opened Stores
  import SealLegality
  import opened Worlds
  import opened WorldInvariant
  import opened WorldBystander

  /** One part of a turn leaves the world legal: its requests are the writer's
      own, and machine and effects still agree with the store. */
  ghost predicate PartLegal(st: Store, rq: Requests, pid: nat, t: Tables, step: Stepped) {
    var left := Issue(rq, pid, step.outputs);
    && RequestsOk(st, left) && OnlyBy(st, rq, left, Some(pid))
    && MachineOk(st, left, pid, step.state)
    && Carries(st, step.state, Execute(t, step.outputs).effects)
  }

  // ------------------------------------------------------------- plumbing

  lemma {:induction false} IssueConcat(rq: Requests, pid: nat, a: seq<WriterOutput>, b: seq<WriterOutput>)
    ensures Issue(rq, pid, a + b) == Issue(Issue(rq, pid, a), pid, b)
    decreases |a|
  {
    if a == [] {
      assert a + b == b;
    } else {
      assert (a + b)[1..] == a[1..] + b;
      IssueConcat(IssueOne(rq, pid, a[0]), pid, a[1..], b);
    }
  }

  lemma IssueSingle(rq: Requests, pid: nat, output: WriterOutput)
    ensures Issue(rq, pid, [output]) == IssueOne(rq, pid, output)
  {
    assert [output][1..] == [];
  }

  lemma {:induction false} ActionsIssueNothing(rq: Requests, pid: nat, t: Tables, outputs: seq<WriterOutput>)
    requires OnlyActions(outputs)
    ensures Issue(rq, pid, outputs) == rq
    ensures Execute(t, outputs).effects == t.effects
    decreases |outputs|
  {
    if outputs != [] {
      ActionsIssueNothing(IssueOne(rq, pid, outputs[0]), pid, ExecuteOne(t, outputs[0]), outputs[1..]);
    }
  }

  lemma OnlyByTwice(st: Store, a: Requests, b: Requests, c: Requests, actor: Option<nat>)
    requires OnlyBy(st, a, b, actor) && OnlyBy(st, b, c, actor)
    ensures OnlyBy(st, a, c, actor)
  {
  }

  lemma OnlyBySame(st: Store, rq: Requests, actor: Option<nat>)
    ensures OnlyBy(st, rq, rq, actor)
  {
  }

  // ------------------------------------------- parts that send no request

  /** The fields the world knows about are untouched; a checkpoint that is not
      being published may have been dropped or marked for cancellation. */
  predicate Alike(s: WriterState, after: WriterState) {
    && after.claim == s.claim && after.seal == s.seal && after.base == s.base
    && after.durable.forest == s.durable.forest && after.durableBatch == s.durableBatch && after.flight == s.flight
    && (|| after.checkpoint == s.checkpoint
        || (&& s.checkpoint.Some? && !s.checkpoint.value.Publishing?
            && (|| after.checkpoint.None?
                || (&& !after.checkpoint.value.Publishing?
                    && after.checkpoint.value.ticket == s.checkpoint.value.ticket))))
  }

  lemma AlikeKeepsMachine(st: Store, rq: Requests, pid: nat, s: WriterState, after: WriterState)
    requires MachineOk(st, rq, pid, s) && Alike(s, after)
    ensures MachineOk(st, rq, pid, after)
  {
    hide StateAt, SealOk, Partition;
  }

  /** The effects the machine still waits for are all still there. */
  ghost predicate KeepsNeeded(after: WriterState, effects: map<EffectKey, WriterEffect>, next: map<EffectKey,
                              WriterEffect>) {
    && (after.flight.Some? ==> KeepsKey(effects, next, WalKey(after.flight.value.batch)))
    && (after.checkpoint.Some? ==>
         && KeepsKey(effects, next, PreparationKey(after.checkpoint.value.ticket))
         && KeepsKey(effects, next, PublicationKey(after.checkpoint.value.ticket)))
  }

  predicate KeepsKey(effects: map<EffectKey, WriterEffect>, next: map<EffectKey, WriterEffect>, key: EffectKey) {
    key in effects ==> key in next && next[key] == effects[key]
  }

  lemma AlikeKeepsCarries(st: Store, s: WriterState, after: WriterState,
                          effects: map<EffectKey, WriterEffect>, next: map<EffectKey, WriterEffect>)
    requires Carries(st, s, effects) && Alike(s, after) && KeepsNeeded(after, effects, next)
    ensures Carries(st, after, next)
  {
    hide StateAt, Partition;
  }

  lemma SilentPartLegal(st: Store, rq: Requests, pid: nat, s: WriterState, t: Tables, picked: Tables, step: Stepped)
    requires RequestsOk(st, rq) && MachineOk(st, rq, pid, s) && Carries(st, s, t.effects)
    requires Alike(s, step.state) && OnlyActions(step.outputs) && KeepsNeeded(step.state, t.effects, picked.effects)
    ensures PartLegal(st, rq, pid, picked, step)
  {
    hide RequestsOk, MachineOk, Carries, Alike, KeepsNeeded, Execute, Issue, OnlyBy;
    ActionsIssueNothing(rq, pid, picked, step.outputs);
    AlikeKeepsMachine(st, rq, pid, s, step.state);
    AlikeKeepsCarries(st, s, step.state, t.effects, picked.effects);
    OnlyBySame(st, rq, Some(pid));
  }

  lemma QuietAlike(s: WriterState, event: WriterEvent)
    requires Faithful(s, event)
    requires !event.WalEstablished? && !event.SealPublished? && !event.CheckpointPrepared?
    ensures Alike(s, ApplyEvent(s, event).state) && OnlyActions(ApplyEvent(s, event).outputs)
  {
    hide AdmitCommand, HardFull, RunLeavesTakeoverRoom;
  }

  lemma QuietKeepsNeeded(s: WriterState, t: Tables, event: WriterEvent)
    requires Faithful(s, event)
    requires !event.WalEstablished? && !event.SealPublished? && !event.CheckpointPrepared?
    ensures KeepsNeeded(ApplyEvent(s, event).state, t.effects, PickUp(t, event).effects)
  {
    hide AdmitCommand, HardFull, RunLeavesTakeoverRoom;
  }

  lemma QuietPartLegal(st: Store, rq: Requests, pid: nat, s: WriterState, t: Tables, event: WriterEvent)
    requires RequestsOk(st, rq) && MachineOk(st, rq, pid, s) && Carries(st, s, t.effects) && Faithful(s, event)
    requires !event.WalEstablished? && !event.SealPublished? && !event.CheckpointPrepared?
    ensures PartLegal(st, rq, pid, PickUp(t, event), ApplyEvent(s, event))
  {
    hide RequestsOk, MachineOk, Carries, PartLegal, Alike, KeepsNeeded, PickUp, ApplyEvent, Faithful, OnlyActions;
    QuietAlike(s, event);
    QuietKeepsNeeded(s, t, event);
    SilentPartLegal(st, rq, pid, s, t, PickUp(t, event), ApplyEvent(s, event));
  }

  // --------------------------------------------------------- a RUN is durable

  /** The flight was first at its coordinate, so the next object is a later
      FENCE or nothing. */
  lemma CreatedFlightIsNext(st: Store, rq: Requests, pid: nat, s: WriterState)
    requires WalOk(st) && Footing(st, rq, s) && s.flight.Some? && s.flight.value.batch == s.durableBatch + 1
    requires WasCreated(st, Candidate(st, s))
    ensures s.durableBatch < |st.log| && st.log[s.durableBatch] == Candidate(st, s)
    ensures Candidate(st, s) !in rq.wals
    ensures s.durableBatch + 1 == |st.log| || st.log[s.durableBatch + 1].body.Fence?
  {
    hide StateAt, Partition, NewestCut, Belongs;
    var d := s.durableBatch;
    assert Intact(st, d + 1) || !(d + 1 in st.wal && st.wal[d + 1] == Candidate(st, s));
  }

  lemma DurableFooting(st: Store, rq: Requests, pid: nat, s: WriterState)
    requires StoreOk(st) && Footing(st, rq, s) && FlightIsFold(s) && Coordinates(s)
    requires s.flight.Some? && WasCreated(st, Candidate(st, s))
    ensures Footing(st, rq, RecordWalDurable(s).state)
  {
    hide StoreOk, Numbered, SealsOk, CutsRise, LogOk, WalOk, StateAt, Partition, FoldFacts, WasCreated;
    StoreParts(st);
    CreatedFlightIsNext(st, rq, pid, s);
    assert FoldLog(st.log).Some? by { LogFolds(st); }
    StateAtNext(st.log, s.durableBatch);
  }

  lemma LogFolds(st: Store)
    requires LogOk(st)
    ensures FoldLog(st.log).Some? && Chain(st.log)
  {
  }

  lemma DurableKeepsRest(st: Store, rq: Requests, pid: nat, s: WriterState)
    requires s.flight.Some? && Authority(st, rq, pid, s) && CheckpointTrue(st, s)
    ensures Authority(st, rq, pid, RecordWalDurable(s).state)
    ensures CheckpointTrue(st, RecordWalDurable(s).state)
  {
    hide StateAt, SealOk, Partition;
  }

  lemma DurableCarries(st: Store, s: WriterState, effects: map<EffectKey, WriterEffect>)
    requires s.flight.Some? && Carries(st, s, effects)
    ensures Carries(st, RecordWalDurable(s).state, effects - {WalKey(s.flight.value.batch)})
  {
    hide StateAt, Partition;
  }

  lemma MidParts(s: WriterState)
    requires Mid(s)
    ensures Coordinates(s) && Roomy(s) && Bounded(s.pending) && AdmittedIsFold(s) && FlightIsFold(s) && CheckpointOk(s)
  {
    hide Coordinates, Roomy, Bounded, AdmittedIsFold, FlightIsFold, CheckpointOk, PromisesStand;
  }

  lemma DurablePartLegal(st: Store, rq: Requests, pid: nat, s: WriterState, t: Tables, batch: nat)
    requires StoreOk(st) && RequestsOk(st, rq) && MachineOk(st, rq, pid, s) && Carries(st, s, t.effects) && Mid(s)
    requires s.flight.Some? && s.flight.value.batch == batch && WasCreated(st, Candidate(st, s))
    ensures PartLegal(st, rq, pid, PickUp(t, WalEstablished(batch, Ok(Durable))), RecordWalDurable(s))
  {
    hide StoreOk, RequestsOk, Carries, Mid, Authority, Footing, CheckpointTrue, WasCreated, FlightIsFold, Coordinates,
      Execute, Issue, OnlyBy, Roomy, Bounded, AdmittedIsFold, CheckpointOk, RecordWalDurable;
    var picked := PickUp(t, WalEstablished(batch, Ok(Durable)));
    MidParts(s);
    DurableFooting(st, rq, pid, s);
    DurableKeepsRest(st, rq, pid, s);
    DurableCarries(st, s, t.effects);
    assert OnlyActions(RecordWalDurable(s).outputs) by { DurableOnlyActs(s); }
    ActionsIssueNothing(rq, pid, picked, RecordWalDurable(s).outputs);
    OnlyBySame(st, rq, Some(pid));
  }

  lemma DurableOnlyActs(s: WriterState)
    requires s.flight.Some?
    ensures OnlyActions(RecordWalDurable(s).outputs)
  {
  }

  // ------------------------------------------------- a checkpoint is prepared

  /** Occupancy only grows along the log. */
  lemma {:induction false} PathsGrow(log: seq<WalObject>, i: nat, j: nat)
    requires FoldLog(log).Some? && i <= j <= |log|
    ensures StateAt(log, i).directory.Keys <= StateAt(log, j).directory.Keys
    decreases j
  {
    hide StateAt, FoldLog, FoldFacts;
    if i < j {
      PathsGrow(log, i, j - 1);
      StateAtNext(log, j - 1);
      FoldFactsKeepPaths(StateAt(log, j - 1), j, BodyFacts(log[j - 1].body));
    }
  }

  lemma OwnSealHolds(st: Store, rq: Requests, pid: nat, s: WriterState)
    requires SealsOk(st) && Authority(st, rq, pid, s) && Footing(st, rq, s)
    ensures SealHolds(s.seal, s.base) && Constructible(s.seal)
  {
    hide SealHolds, StateAt, NextIsOurs, Constructible;
    assert SealOk(st.log, st.seals[s.seal.generation]);
  }

  /** What a correct preparation builds is a legal next Seal of this writer. */
  lemma PreparedIsOk(st: Store, rq: Requests, pid: nat, s: WriterState, ticket: CheckpointTicket,
                     prepared: PreparedCheckpoint)
    requires StoreOk(st) && MachineOk(st, rq, pid, s) && CheckpointOk(s)
    requires s.checkpoint.Some? && s.checkpoint.value.ticket == ticket
    requires DescribesCheckpoint(ticket, prepared) && prepared.source == s.seal
    requires ticket.cut <= |st.log| && prepared.snapshot == StateAt(st.log, ticket.cut)
    requires PreparesTables(s.seal, s.base, prepared.snapshot, prepared.successor, ticket.attempt)
    ensures SealOk(st.log, prepared.successor)
  {
    hide StoreOk, Numbered, SealsOk, CutsRise, LogOk, WalOk, StateAt, PreparesTables, SealHolds, NextIsOurs, Partition,
      Constructible;
    StoreParts(st);
    LogFolds(st);
    OwnSealHolds(st, rq, pid, s);
    SealLegality.PreparationIsLegal(s.seal, s.base, prepared.snapshot, prepared.successor, ticket.attempt);
    StateAtIsFold(st.log, ticket.cut);
    PathsGrow(st.log, s.seal.replay.Cut(), ticket.cut);
    PreparationHolds(s.seal, s.base, prepared.snapshot, prepared.successor, ticket.attempt);
  }

  function Proposed(s: WriterState, ticket: CheckpointTicket, prepared: PreparedCheckpoint): WriterState {
    s.(checkpoint := Some(Publishing(ticket, prepared)))
  }

  function Proposal(pid: nat, prepared: PreparedCheckpoint): SealRequest {
    SealRequest(pid, prepared.successor, ForCheckpoint)
  }

  lemma ProposalIsOk(st: Store, rq: Requests, pid: nat, s: WriterState, ticket: CheckpointTicket,
                     prepared: PreparedCheckpoint)
    requires Authority(st, rq, pid, s) && CheckpointOk(s) && SealOk(st.log, prepared.successor)
    requires s.checkpoint.Some? && s.checkpoint.value.ticket == ticket
    requires DescribesCheckpoint(ticket, prepared) && prepared.source == s.seal
    ensures SealRequestOk(st, Proposal(pid, prepared))
  {
    hide SealOk;
  }

  lemma ProposalKeepsMachine(st: Store, rq: Requests, pid: nat, s: WriterState, ticket: CheckpointTicket,
                             prepared: PreparedCheckpoint)
    requires MachineOk(st, rq, pid, s) && SealOk(st.log, prepared.successor)
    requires s.checkpoint.Some? && !s.checkpoint.value.Publishing? && s.checkpoint.value.ticket == ticket
    requires prepared.snapshot == StateAt(st.log, ticket.cut)
    ensures MachineOk(st, rq.(seals := rq.seals + {Proposal(pid, prepared)}), pid, Proposed(s, ticket, prepared))
  {
    hide SealOk, StateAt, Partition;
  }

  lemma ProposalCarries(st: Store, s: WriterState, ticket: CheckpointTicket, prepared: PreparedCheckpoint,
                        effects: map<EffectKey, WriterEffect>)
    requires Carries(st, s, effects)
    ensures var effect := PublishAuthority(ticket, prepared.successor);
      Carries(st, Proposed(s, ticket, prepared), (effects - {PreparationKey(ticket)})[effect.Key() := effect])
  {
    hide StateAt, Partition;
  }

  lemma ProposalPartLegal(st: Store, rq: Requests, pid: nat, s: WriterState, t: Tables, ticket: CheckpointTicket,
                          prepared: PreparedCheckpoint)
    requires StoreOk(st) && RequestsOk(st, rq) && MachineOk(st, rq, pid, s) && Carries(st, s, t.effects)
    requires CheckpointOk(s)
    requires s.checkpoint.Some? && s.checkpoint.value.Preparing? && s.checkpoint.value.ticket == ticket
    requires DescribesCheckpoint(ticket, prepared) && prepared.source == s.seal
    requires ticket.cut <= |st.log| && prepared.snapshot == StateAt(st.log, ticket.cut)
    requires PreparesTables(s.seal, s.base, prepared.snapshot, prepared.successor, ticket.attempt)
    ensures PartLegal(st, rq, pid, PickUp(t, CheckpointPrepared(ticket, Prepared(prepared))),
                      CompletePreparation(s, ticket, Prepared(prepared)))
  {
    hide StoreOk, RequestsOk, MachineOk, Carries, CheckpointOk, DescribesCheckpoint, PreparesTables, SealOk,
      SealRequestOk, StateAt, Authority, Footing, CheckpointTrue, Proposed, OnlyBy, Execute, Issue;
    var picked := PickUp(t, CheckpointPrepared(ticket, Prepared(prepared)));
    var output := Effect(PublishAuthority(ticket, prepared.successor));
    PreparedIsOk(st, rq, pid, s, ticket, prepared);
    assert Authority(st, rq, pid, s) by { MachineParts(st, rq, pid, s); }
    ProposalIsOk(st, rq, pid, s, ticket, prepared);
    MoreSealRequests(st, rq, Proposal(pid, prepared));
    ProposalKeepsMachine(st, rq, pid, s, ticket, prepared);
    ProposalCarries(st, s, ticket, prepared, t.effects);
    IssueSingle(rq, pid, output);
    ExecuteSingle(picked, output);
    assert CompletePreparation(s, ticket, Prepared(prepared)) == Stepped(Proposed(s, ticket, prepared), [output],
                                                                         None) by {
      ProposalIsTheStep(s, ticket, prepared);
    }
  }

  lemma ProposalIsTheStep(s: WriterState, ticket: CheckpointTicket, prepared: PreparedCheckpoint)
    requires s.checkpoint.Some? && s.checkpoint.value.Preparing?
    ensures CompletePreparation(s, ticket, Prepared(prepared)) ==
      Stepped(Proposed(s, ticket, prepared), [Effect(PublishAuthority(ticket, prepared.successor))], None)
  {
  }

  lemma MachineParts(st: Store, rq: Requests, pid: nat, s: WriterState)
    requires MachineOk(st, rq, pid, s)
    ensures Authority(st, rq, pid, s) && Footing(st, rq, s) && CheckpointTrue(st, s)
  {
    hide Authority, Footing, CheckpointTrue;
  }

  lemma DropPartLegal(st: Store, rq: Requests, pid: nat, s: WriterState, t: Tables, ticket: CheckpointTicket,
                      outcome: PreparationOutcome)
    requires RequestsOk(st, rq) && MachineOk(st, rq, pid, s) && Carries(st, s, t.effects)
    requires Faithful(s, CheckpointPrepared(ticket, outcome))
    requires s.checkpoint.value.Cancelling? || outcome.Abandoned?
    ensures PartLegal(st, rq, pid, PickUp(t, CheckpointPrepared(ticket, outcome)),
                      CompletePreparation(s, ticket, outcome))
  {
    hide RequestsOk, MachineOk, Carries, PartLegal, DescribesCheckpoint;
    var picked := PickUp(t, CheckpointPrepared(ticket, outcome));
    SilentPartLegal(st, rq, pid, s, t, picked, CompletePreparation(s, ticket, outcome));
  }

  // ------------------------------------------------ a checkpoint is installed

  /** The writer's own Seal request won, so its successor is published. */
  lemma InstalledAuthority(st: Store, rq: Requests, pid: nat, s: WriterState, after: WriterState)
    requires Numbered(st) && Authority(st, rq, pid, s) && CheckpointOk(s)
    requires s.checkpoint.Some? && s.checkpoint.value.Publishing?
    requires AuthoredBy(st, s.checkpoint.value.prepared.successor.generation, pid)
    requires after.claim == s.claim && after.seal == s.checkpoint.value.prepared.successor && after.checkpoint.None?
    ensures Authority(st, rq, pid, after)
    ensures after.seal.generation !in rq.collectors
  {
    var g := after.seal.generation;
    assert g == s.seal.generation + 1;
    assert st.seals[g] == after.seal;
    assert forall k: nat :: AuthoredBy(st, k, pid) && k > s.seal.generation ==> st.seals[k].generation == g == k;
    hide Numbered, CheckpointOk;
    forall r | r in rq.seals && r.pid == pid ensures r.purpose.ForGenesis? {
      assert r != SealRequest(pid, after.seal, ForCheckpoint);
    }
  }

  lemma InstalledFooting(st: Store, rq: Requests, pid: nat, s: WriterState, after: WriterState)
    requires Footing(st, rq, s) && CheckpointTrue(st, s) && CheckpointOk(s)
    requires s.checkpoint.Some? && s.checkpoint.value.Publishing?
    requires after.claim == s.claim && after.seal == s.checkpoint.value.prepared.successor
    requires after.base == s.checkpoint.value.prepared.snapshot
    requires after.durable == s.durable && after.durableBatch == s.durableBatch && after.flight == s.flight
    ensures Footing(st, rq, after)
  {
    hide StateAt, Partition, SealHolds;
  }

  lemma StartKeepsPassed(st: Store, rq: Requests, k: nat, cut: nat, j: nat, b: nat)
    requires k !in rq.collectors && Passed(st, rq, j, b)
    ensures Passed(st, Collecting(rq, k, cut), j, b)
  {
  }

  lemma CollectorStarts(st: Store, rq: Requests, k: nat)
    requires CutsRise(st) && CollectorsOk(st, rq) && k !in rq.collectors && k >= 2 && k in st.seals && k - 1 in st.seals
    ensures CollectorsOk(st, Collecting(rq, k, st.seals[k - 1].replay.Cut()))
  {
    assert st.seals[k - 1].replay.Cut() <= st.seals[k].replay.Cut();
    hide Intact, Deletable, Passed, CutsRise;
    var cut := st.seals[k - 1].replay.Cut();
    var more := Collecting(rq, k, cut);
    forall b | 1 <= b <= |st.log| && (!Intact(st, b) || b in more.deletes)
      ensures exists j :: Passed(st, more, j, b)
    {
      var j: nat :| Passed(st, rq, j, b);
      StartKeepsPassed(st, rq, k, cut, j, b);
    }
  }

  function Collecting(rq: Requests, k: nat, cut: nat): Requests { rq.(collectors := rq.collectors[k := cut]) }

  lemma CollectorRequested(st: Store, rq: Requests, pid: nat, k: nat)
    requires CutsRise(st) && RequestsOk(st, rq) && k !in rq.collectors && k >= 2 && k in st.seals && k - 1 in st.seals
    requires AuthoredBy(st, k, pid)
    ensures var left := Collecting(rq, k, st.seals[k - 1].replay.Cut());
      RequestsOk(st, left) && OnlyBy(st, rq, left, Some(pid))
  {
    hide CutsRise, SealRequestOk, WalRequestOk, CollectorsOk;
    CollectorStarts(st, rq, k);
  }

  lemma CollectorKeepsMachine(st: Store, rq: Requests, pid: nat, s: WriterState, cut: nat)
    requires MachineOk(st, rq, pid, s)
    ensures MachineOk(st, Collecting(rq, s.seal.generation, cut), pid, s)
  {
    hide StateAt, Partition, SealOk;
  }

  lemma InstalledCarries(st: Store, s: WriterState, after: WriterState, ticket: CheckpointTicket,
                         effects: map<EffectKey, WriterEffect>, next: map<EffectKey, WriterEffect>)
    requires Carries(st, s, effects) && after.claim == s.claim && after.flight == s.flight && after.checkpoint.None?
    requires s.flight.Some? ==> KeepsKey(effects, next, WalKey(s.flight.value.batch))
    ensures Carries(st, after, next)
  {
    hide StateAt, Partition;
  }

  lemma InstallKeepsMachine(st: Store, rq: Requests, pid: nat, s: WriterState, after: WriterState)
    requires Numbered(st) && MachineOk(st, rq, pid, s) && CheckpointOk(s)
    requires s.checkpoint.Some? && s.checkpoint.value.Publishing?
    requires AuthoredBy(st, s.checkpoint.value.prepared.successor.generation, pid)
    requires after.claim == s.claim && after.seal == s.checkpoint.value.prepared.successor && after.checkpoint.None?
    requires after.base == s.checkpoint.value.prepared.snapshot
    requires after.durable == s.durable && after.durableBatch == s.durableBatch && after.flight == s.flight
    ensures MachineOk(st, rq, pid, after) && after.seal.generation !in rq.collectors
  {
    hide Numbered, Authority, Footing, CheckpointOk;
    InstalledAuthority(st, rq, pid, s, after);
    InstalledFooting(st, rq, pid, s, after);
  }

  lemma InstallSilentLegal(st: Store, rq: Requests, pid: nat, s: WriterState, t: Tables, ticket: CheckpointTicket)
    requires Numbered(st) && RequestsOk(st, rq) && MachineOk(st, rq, pid, s) && Carries(st, s, t.effects)
    requires CheckpointOk(s)
    requires s.checkpoint.Some? && s.checkpoint.value.Publishing? && s.checkpoint.value.ticket == ticket
    requires AuthoredBy(st, s.checkpoint.value.prepared.successor.generation, pid)
    requires !(s.ingressOpen && s.collector.None?)
    ensures PartLegal(st, rq, pid, PickUp(t, SealPublished(ticket, Ok(Authored))),
                      CompletePublication(s, ticket, Ok(Authored)))
  {
    hide Numbered, RequestsOk, MachineOk, Carries, CheckpointOk, OnlyBy, Execute, Issue, AuthoredBy;
    var picked := PickUp(t, SealPublished(ticket, Ok(Authored)));
    var step := CompletePublication(s, ticket, Ok(Authored));
    InstallKeepsMachine(st, rq, pid, s, step.state);
    ActionsIssueNothing(rq, pid, picked, step.outputs);
    InstalledCarries(st, s, step.state, ticket, t.effects, picked.effects);
    OnlyBySame(st, rq, Some(pid));
  }

  lemma CollectIssued(rq: Requests, pid: nat, t: Tables, view: Forest, collection: CollectionInput)
    ensures var outputs := [Action(PublishView(view)), Effect(Collect(collection))];
      && Issue(rq, pid, outputs) == Collecting(rq, collection.successor.generation, collection.source.replay.Cut())
      && Execute(t, outputs).effects == t.effects[CollectionKey(collection.cut) := Collect(collection)]
  {
    var outputs := [Action(PublishView(view)), Effect(Collect(collection))];
    assert outputs[1..] == [outputs[1]];
    IssueSingle(rq, pid, outputs[1]);
    ExecutePair(t, outputs[0], outputs[1]);
  }

  lemma InstallCollectLegal(st: Store, rq: Requests, pid: nat, s: WriterState, t: Tables, ticket: CheckpointTicket)
    requires Numbered(st) && CutsRise(st) && RequestsOk(st, rq) && MachineOk(st, rq, pid, s)
    requires Carries(st, s, t.effects)
    requires CheckpointOk(s) && s.checkpoint.Some? && s.checkpoint.value.Publishing?
    requires s.checkpoint.value.ticket == ticket
    requires AuthoredBy(st, s.checkpoint.value.prepared.successor.generation, pid)
    requires s.ingressOpen && s.collector.None?
    ensures PartLegal(st, rq, pid, PickUp(t, SealPublished(ticket, Ok(Authored))),
                      CompletePublication(s, ticket, Ok(Authored)))
  {
    hide Numbered, CutsRise, RequestsOk, MachineOk, Carries, CheckpointOk, OnlyBy, Execute, Issue, AuthoredBy,
      Collecting, Authority, Footing, CheckpointTrue;
    var picked := PickUp(t, SealPublished(ticket, Ok(Authored)));
    var step := CompletePublication(s, ticket, Ok(Authored));
    var prepared := s.checkpoint.value.prepared;
    var k := prepared.successor.generation;
    InstallKeepsMachine(st, rq, pid, s, step.state);
    PublishedPair(st, rq, pid, s);
    CollectorRequested(st, rq, pid, k);
    CollectorKeepsMachine(st, rq, pid, step.state, s.seal.replay.Cut());
    CollectIssued(rq, pid, picked, s.durable.forest,
                  CollectionInput(prepared.successor.replay.Cut(), prepared.source, prepared.successor));
    InstalledCarries(st, s, step.state, ticket, t.effects, Execute(picked, step.outputs).effects);
  }

  /** The Seal a writer stands on and the one it has just published. */
  lemma PublishedPair(st: Store, rq: Requests, pid: nat, s: WriterState)
    requires Numbered(st) && MachineOk(st, rq, pid, s) && CheckpointOk(s)
    requires s.checkpoint.Some? && s.checkpoint.value.Publishing?
    requires AuthoredBy(st, s.checkpoint.value.prepared.successor.generation, pid)
    ensures var k := s.checkpoint.value.prepared.successor.generation;
      k >= 2 && k in st.seals && k - 1 in st.seals && st.seals[k - 1] == s.seal == s.checkpoint.value.prepared.source
  {
    hide Numbered, Footing, CheckpointTrue;
  }

  lemma PublicationPartLegal(st: Store, rq: Requests, pid: nat, s: WriterState, t: Tables, ticket: CheckpointTicket)
    requires StoreOk(st) && RequestsOk(st, rq) && MachineOk(st, rq, pid, s) && Carries(st, s, t.effects) && Mid(s)
    requires s.checkpoint.Some? && s.checkpoint.value.Publishing? && s.checkpoint.value.ticket == ticket
    requires AuthoredBy(st, s.checkpoint.value.prepared.successor.generation, pid)
    ensures PartLegal(st, rq, pid, PickUp(t, SealPublished(ticket, Ok(Authored))),
                      CompletePublication(s, ticket, Ok(Authored)))
  {
    hide StoreOk, Numbered, SealsOk, CutsRise, LogOk, WalOk, RequestsOk, MachineOk, Carries, Mid, CheckpointOk,
      PartLegal, AuthoredBy, Coordinates, Roomy, Bounded, AdmittedIsFold, FlightIsFold;
    StoreParts(st);
    MidParts(s);
    if s.ingressOpen && s.collector.None? {
      InstallCollectLegal(st, rq, pid, s, t, ticket);
    } else {
      InstallSilentLegal(st, rq, pid, s, t, ticket);
    }
  }

  // --------------------------------------------------------- a RUN takes off

  function Flown(s: WriterState, now: nat): WriterState
    requires s.flight.None?
  {
    DrainPending(s, now).state
  }

  lemma OwnPartition(st: Store, rq: Requests, pid: nat, s: WriterState)
    requires Numbered(st) && Authority(st, rq, pid, s)
    ensures s.seal.partition == Partition(st) && GENESIS_GENERATION in st.seals && s.claim <= Head(st)
    ensures AuthoredBy(st, s.claim, pid)
  {
  }

  lemma RoomIsMeasured(st: Store, rq: Requests, pid: nat, s: WriterState, batch: nat)
    requires Numbered(st) && CutsRise(st) && Authority(st, rq, pid, s)
    requires RunLeavesTakeoverRoom(s.seal.replay.Batch(), batch)
    ensures batch + 1 <= NewestCut(st) + WAL_SUFFIX_COORDINATES_MAX
  {
    NewestIsNumbered(st);
    hide NewestCut, Numbered, CutsRise;
    assert s.seal.replay.Cut() <= NewestCut(st);
  }

  /** A drained barrier becomes a RUN right behind the writer's last object. */
  lemma TakeoffSpot(st: Store, rq: Requests, s: WriterState)
    requires Footing(st, rq, s) && Coordinates(s) && AdmittedIsFold(s) && s.flight.None?
    requires Facts(s.pending.commands) != []
    ensures RunSpot(st.log, WalObject(Partition(st), s.nextBatch, s.claim, Run(Facts(s.pending.commands))))
  {
    hide Facts, FoldFacts, StateAt, Partition;
  }

  lemma TakeoffRequest(st: Store, rq: Requests, pid: nat, s: WriterState)
    requires Numbered(st) && CutsRise(st) && Authority(st, rq, pid, s) && Footing(st, rq, s)
    requires Coordinates(s) && AdmittedIsFold(s) && Roomy(s) && Bounded(s.pending) && s.flight.None?
    requires Facts(s.pending.commands) != []
    ensures WalRequestOk(st, FlightRun(s, s.nextBatch, Facts(s.pending.commands)))
    ensures FlightRun(s, s.nextBatch, Facts(s.pending.commands)) ==
      WalObject(Partition(st), s.nextBatch, s.claim, Run(Facts(s.pending.commands)))
  {
    hide Facts, Numbered, CutsRise, Authority, Footing, Coordinates, AdmittedIsFold, Bounded, NewestCut, RunSpot,
      RunLeavesTakeoverRoom;
    HasFactsExactly(s.pending);
    OwnPartition(st, rq, pid, s);
    ClaimPositive(st, rq, pid, s);
    RoomIsMeasured(st, rq, pid, s, s.nextBatch);
    TakeoffSpot(st, rq, s);
  }

  lemma ClaimPositive(st: Store, rq: Requests, pid: nat, s: WriterState)
    requires Authority(st, rq, pid, s)
    ensures s.claim >= 2
  {
  }

  lemma MoreRuns(st: Store, rq: Requests, pid: nat, run: WalObject)
    requires RequestsOk(st, rq) && WalRequestOk(st, run) && run.body.Run? && AuthoredBy(st, run.owner, pid)
    requires forall e :: e in rq.wals && e.owner == run.owner ==> !e.body.Run?
    ensures RequestsOk(st, rq.(wals := rq.wals + {run}))
    ensures OnlyBy(st, rq, rq.(wals := rq.wals + {run}), Some(pid))
  {
    hide SealRequestOk, WalRequestOk, CollectorsOk;
    var more := rq.(wals := rq.wals + {run});
    assert CollectorsOk(st, more) by { CollectorsAlone(st, rq, more); }
  }

  lemma TakeoffKeepsMachine(st: Store, rq: Requests, pid: nat, s: WriterState, now: nat, run: WalObject)
    requires MachineOk(st, rq, pid, s) && Coordinates(s) && s.flight.None? && Facts(s.pending.commands) != []
    requires run == WalObject(Partition(st), s.nextBatch, s.claim, Run(Facts(s.pending.commands)))
    ensures MachineOk(st, rq.(wals := rq.wals + {run}), pid, Flown(s, now))
  {
    hide Facts, Replies, StateAt, Partition, SealOk;
  }

  lemma TakeoffCarries(st: Store, s: WriterState, now: nat, run: WalObject, effects: map<EffectKey, WriterEffect>)
    requires Carries(st, s, effects) && s.flight.None? && Facts(s.pending.commands) != []
    requires run == WalObject(Partition(st), s.nextBatch, s.claim, Run(Facts(s.pending.commands)))
    ensures Carries(st, Flown(s, now), effects[WalKey(run.batch) := EstablishWal(run)])
  {
    hide Facts, Replies, StateAt, Partition;
  }

  lemma NoRunPending(st: Store, rq: Requests, s: WriterState)
    requires Footing(st, rq, s) && s.flight.None?
    ensures forall e :: e in rq.wals && e.owner == s.claim ==> !e.body.Run?
  {
  }

  lemma TakeoffPartLegal(st: Store, rq: Requests, pid: nat, s: WriterState, t: Tables, now: nat)
    requires StoreOk(st) && RequestsOk(st, rq) && MachineOk(st, rq, pid, s) && Carries(st, s, t.effects) && Mid(s)
    requires s.flight.None? && Facts(s.pending.commands) != []
    ensures PartLegal(st, rq, pid, t, Stepped(Flown(s, now), [DrainPending(s, now).output], None))
  {
    hide StoreOk, Numbered, SealsOk, CutsRise, LogOk, WalOk, RequestsOk, MachineOk, Carries, Mid, CheckpointOk,
      OnlyBy, Execute, Issue, Coordinates, Roomy, Bounded, AdmittedIsFold, FlightIsFold, Authority, Footing,
      CheckpointTrue, Facts, Replies, WalRequestOk, Flown, Partition, AuthoredBy;
    StoreParts(st);
    MidParts(s);
    MachineParts(st, rq, pid, s);
    var run := FlightRun(s, s.nextBatch, Facts(s.pending.commands));
    TakeoffRequest(st, rq, pid, s);
    OwnPartition(st, rq, pid, s);
    NoRunPending(st, rq, s);
    MoreRuns(st, rq, pid, run);
    TakeoffKeepsMachine(st, rq, pid, s, now, run);
    TakeoffCarries(st, s, now, run, t.effects);
    IssueSingle(rq, pid, DrainPending(s, now).output);
    ExecuteSingle(t, DrainPending(s, now).output);
  }

  lemma FlushPartLegal(st: Store, rq: Requests, pid: nat, s: WriterState, t: Tables, now: nat)
    requires StoreOk(st) && RequestsOk(st, rq) && MachineOk(st, rq, pid, s) && Carries(st, s, t.effects) && Mid(s)
    ensures PartLegal(st, rq, pid, t, ScheduleFlush(s, now))
  {
    hide StoreOk, RequestsOk, MachineOk, Carries, Mid, PartLegal, Facts, Replies, MustDrain;
    if s.flight.None? && s.pending.commands != [] && MustDrain(s, now) && Facts(s.pending.commands) != [] {
      TakeoffPartLegal(st, rq, pid, s, t, now);
    } else {
      SilentPartLegal(st, rq, pid, s, t, t, ScheduleFlush(s, now));
    }
  }

  // ---------------------------------------------------- a checkpoint begins

  lemma BeginKeepsMachine(st: Store, rq: Requests, pid: nat, s: WriterState)
    requires MachineOk(st, rq, pid, s) && s.checkpoint.None?
    ensures MachineOk(st, rq, pid, TakeCheckpoint(s))
  {
    hide StateAt, SealOk, Partition;
  }

  lemma BeginCarries(st: Store, rq: Requests, s: WriterState, effects: map<EffectKey, WriterEffect>)
    requires Carries(st, s, effects) && Footing(st, rq, s) && s.checkpoint.None?
    ensures var effect := PrepareCheckpoint(CheckpointInput(NextTicket(s), s.seal, s.base, s.durable.forest));
      Carries(st, TakeCheckpoint(s), effects[effect.Key() := effect])
  {
    hide StateAt, Partition, NextIsOurs;
  }

  lemma BeginPartLegal(st: Store, rq: Requests, pid: nat, s: WriterState, t: Tables)
    requires RequestsOk(st, rq) && MachineOk(st, rq, pid, s) && Carries(st, s, t.effects) && s.checkpoint.None?
    ensures PartLegal(st, rq, pid, t, Stepped(TakeCheckpoint(s),
      [Effect(PrepareCheckpoint(CheckpointInput(NextTicket(s), s.seal, s.base, s.durable.forest)))], None))
  {
    hide RequestsOk, MachineOk, Carries, OnlyBy, Execute, Issue, Authority, Footing, CheckpointTrue, TakeCheckpoint,
      NextTicket;
    var output := Effect(PrepareCheckpoint(CheckpointInput(NextTicket(s), s.seal, s.base, s.durable.forest)));
    MachineParts(st, rq, pid, s);
    BeginKeepsMachine(st, rq, pid, s);
    BeginCarries(st, rq, s, t.effects);
    IssueSingle(rq, pid, output);
    ExecuteSingle(t, output);
    OnlyBySame(st, rq, Some(pid));
  }

  lemma CheckpointPartLegal(st: Store, rq: Requests, pid: nat, s: WriterState, t: Tables)
    requires RequestsOk(st, rq) && MachineOk(st, rq, pid, s) && Carries(st, s, t.effects)
    ensures PartLegal(st, rq, pid, t, ScheduleCheckpoint(s))
  {
    hide RequestsOk, MachineOk, Carries, PartLegal, TakeCheckpoint, NextTicket;
    if s.ingressOpen && CheckpointDue(s) {
      BeginPartLegal(st, rq, pid, s, t);
    } else {
      SilentPartLegal(st, rq, pid, s, t, t, ScheduleCheckpoint(s));
    }
  }
}
