/** Whole turns: a bootstrap's answer, a writer's event, and any step at all. */
module WorldTurn {
  import opened Common
  import opened Forests
  import opened Logs
  import opened Suffix
  import opened Checkpoints
  import opened WriterSpec
  import opened WriterInvariant
  import opened Nodes
  import opened NodeTheorems
  import opened Stores
  import opened Worlds
  import opened WorldInvariant
  import opened WorldBystander
  import opened WorldWriter

  // ------------------------------------------------------------ a writer's event

  /** The evidence behind an event, read off the effect it completes. */
  lemma DurableEvidence(st: Store, pid: nat, n: Node, batch: nat)
    requires Matches(n.machine, n.tables) && Carries(st, n.machine, n.tables.effects)
    requires Deliverable(n, WalEstablished(batch, Ok(Durable)))
    requires WriterAnswers(st, pid, n, WalEstablished(batch, Ok(Durable)))
    ensures n.machine.flight.Some? && n.machine.flight.value.batch == batch && WasCreated(st, Candidate(st, n.machine))
  {
    DeliverableIsFaithful(n, WalEstablished(batch, Ok(Durable)));
    hide StateAt, Partition, WasCreated, EffectsMatch, MarkersMatch;
  }

  lemma AuthorityEvidence(st: Store, pid: nat, n: Node, ticket: CheckpointTicket)
    requires Matches(n.machine, n.tables) && Carries(st, n.machine, n.tables.effects)
    requires Deliverable(n, SealPublished(ticket, Ok(Authored)))
    requires WriterAnswers(st, pid, n, SealPublished(ticket, Ok(Authored)))
    ensures n.machine.checkpoint.Some? && n.machine.checkpoint.value.Publishing?
    ensures n.machine.checkpoint.value.ticket == ticket
    ensures AuthoredBy(st, n.machine.checkpoint.value.prepared.successor.generation, pid)
  {
    DeliverableIsFaithful(n, SealPublished(ticket, Ok(Authored)));
    hide StateAt, Partition, EffectsMatch, MarkersMatch;
  }

  lemma PreparationEvidence(st: Store, pid: nat, n: Node, ticket: CheckpointTicket, prepared: PreparedCheckpoint)
    requires Matches(n.machine, n.tables) && Carries(st, n.machine, n.tables.effects)
    requires Deliverable(n, CheckpointPrepared(ticket, Prepared(prepared)))
    requires WriterAnswers(st, pid, n, CheckpointPrepared(ticket, Prepared(prepared)))
    ensures var s := n.machine;
      && s.checkpoint.Some? && !s.checkpoint.value.Publishing? && s.checkpoint.value.ticket == ticket
      && DescribesCheckpoint(ticket, prepared) && prepared.source == s.seal
      && ticket.cut <= |st.log| && prepared.snapshot == StateAt(st.log, ticket.cut)
      && PreparesTables(s.seal, s.base, prepared.snapshot, prepared.successor, ticket.attempt)
  {
    DeliverableIsFaithful(n, CheckpointPrepared(ticket, Prepared(prepared)));
    hide StateAt, Partition, EffectsMatch, MarkersMatch, PreparesTables, DescribesCheckpoint;
  }

  lemma PreparationPartLegal(st: Store, rq: Requests, pid: nat, n: Node, ticket: CheckpointTicket,
                             outcome: PreparationOutcome)
    requires Faithful(n.machine, CheckpointPrepared(ticket, outcome))
    requires CompletePreparation(n.machine, ticket, outcome).exit.None?
    requires Deliverable(n, CheckpointPrepared(ticket, outcome))
    requires WriterAnswers(st, pid, n, CheckpointPrepared(ticket, outcome))
    requires StoreOk(st) && RequestsOk(st, rq) && RunningOk(st, rq, pid, n)
    ensures PartLegal(st, rq, pid, PickUp(n.tables, CheckpointPrepared(ticket, outcome)),
                      CompletePreparation(n.machine, ticket, outcome))
  {
    hide StoreOk, RequestsOk, MachineOk, Carries, Inv, Matches, PartLegal, Deliverable, WriterAnswers,
      DescribesCheckpoint, Mid, Coordinates, Roomy, Bounded, AdmittedIsFold, FlightIsFold, CheckpointOk,
      PreparesTables, StateAt;
    if n.machine.checkpoint.value.Cancelling? || outcome.Abandoned? {
      DropPartLegal(st, rq, pid, n.machine, n.tables, ticket, outcome);
    } else {
      PreparationEvidence(st, pid, n, ticket, outcome.prepared);
      InvIsMid(n.machine);
      MidParts(n.machine);
      ProposalPartLegal(st, rq, pid, n.machine, n.tables, ticket, outcome.prepared);
    }
  }

  lemma InvIsMid(s: WriterState)
    requires Inv(s)
    ensures Mid(s)
  {
    hide Mid, Settled;
  }

  lemma ApplyPartLegal(st: Store, rq: Requests, pid: nat, n: Node, event: WriterEvent)
    requires Faithful(n.machine, event) && ApplyEvent(n.machine, event).exit.None?
    requires Deliverable(n, event) && WriterAnswers(st, pid, n, event)
    requires StoreOk(st) && RequestsOk(st, rq) && RunningOk(st, rq, pid, n)
    ensures PartLegal(st, rq, pid, PickUp(n.tables, event), ApplyEvent(n.machine, event))
  {
    hide StoreOk, RequestsOk, MachineOk, Carries, Inv, Matches, PartLegal, Deliverable, WriterAnswers, Faithful, Mid,
      WasCreated, AuthoredBy, CompletePreparation;
    match event
    case WalEstablished(batch, wal) =>
      assert wal == Ok(Durable);
      DurableEvidence(st, pid, n, batch);
      InvIsMid(n.machine);
      DurablePartLegal(st, rq, pid, n.machine, n.tables, batch);
    case CheckpointPrepared(ticket, outcome) =>
      PreparationPartLegal(st, rq, pid, n, ticket, outcome);
    case SealPublished(ticket, publication) =>
      assert publication == Ok(Authored);
      AuthorityEvidence(st, pid, n, ticket);
      InvIsMid(n.machine);
      PublicationPartLegal(st, rq, pid, n.machine, n.tables, ticket);
    case _ => QuietPartLegal(st, rq, pid, n.machine, n.tables, event);
  }

  lemma PartParts(st: Store, rq: Requests, pid: nat, t: Tables, step: Stepped)
    requires PartLegal(st, rq, pid, t, step)
    ensures var left := Issue(rq, pid, step.outputs);
      && RequestsOk(st, left) && OnlyBy(st, rq, left, Some(pid)) && MachineOk(st, left, pid, step.state)
      && Carries(st, step.state, Execute(t, step.outputs).effects)
  {
    hide RequestsOk, OnlyBy, MachineOk, Carries, Issue, Execute;
  }

  /** One legal part after another is a legal whole. */
  lemma PartsCompose(st: Store, rq: Requests, pid: nat, t: Tables, first: Stepped, second: Stepped)
    requires PartLegal(st, rq, pid, t, first)
    requires PartLegal(st, Issue(rq, pid, first.outputs), pid, Execute(t, first.outputs), second)
    ensures PartLegal(st, rq, pid, t, Stepped(second.state, first.outputs + second.outputs, second.exit))
  {
    hide RequestsOk, OnlyBy, MachineOk, Carries, Issue, Execute;
    IssueConcat(rq, pid, first.outputs, second.outputs);
    ExecuteConcat(t, first.outputs, second.outputs);
    OnlyByTwice(st, rq, Issue(rq, pid, first.outputs),
                Issue(Issue(rq, pid, first.outputs), pid, second.outputs), Some(pid));
  }

  lemma SchedulePartLegal(st: Store, rq: Requests, pid: nat, s: WriterState, t: Tables, now: nat)
    requires StoreOk(st) && RequestsOk(st, rq) && MachineOk(st, rq, pid, s) && Carries(st, s, t.effects) && Mid(s)
    ensures PartLegal(st, rq, pid, t, Schedule(s, now))
  {
    hide StoreOk, RequestsOk, MachineOk, Carries, Mid, PartLegal, ScheduleFlush, ScheduleCheckpoint, Issue, Execute,
      OnlyBy;
    var flushed := ScheduleFlush(s, now);
    FlushPartLegal(st, rq, pid, s, t, now);
    PartParts(st, rq, pid, t, flushed);
    CheckpointPartLegal(st, Issue(rq, pid, flushed.outputs), pid, flushed.state, Execute(t, flushed.outputs));
    PartsCompose(st, rq, pid, t, flushed, ScheduleCheckpoint(flushed.state));
  }

  lemma HandlePartLegal(st: Store, rq: Requests, pid: nat, n: Node, now: nat, event: WriterEvent)
    requires Faithful(n.machine, event) && ApplyEvent(n.machine, event).exit.None?
    requires Deliverable(n, event) && WriterAnswers(st, pid, n, event)
    requires StoreOk(st) && RequestsOk(st, rq) && RunningOk(st, rq, pid, n)
    ensures PartLegal(st, rq, pid, PickUp(n.tables, event), Handle(n.machine, now, event))
  {
    hide StoreOk, RequestsOk, MachineOk, Carries, Inv, Mid, Matches, PartLegal, Deliverable, WriterAnswers, Faithful,
      ApplyEvent, Schedule, Issue, Execute, OnlyBy, PickUp;
    var applied, picked := ApplyEvent(n.machine, event), PickUp(n.tables, event);
    ApplyPartLegal(st, rq, pid, n, event);
    InvIsMid(n.machine);
    ApplyKeepsMid(n.machine, event);
    PartParts(st, rq, pid, picked, applied);
    SchedulePartLegal(st, Issue(rq, pid, applied.outputs), pid, applied.state, Execute(picked, applied.outputs), now);
    PartsCompose(st, rq, pid, picked, applied, Schedule(applied.state, now));
  }

  // ------------------------------------------------------------- what is told

  lemma DurableStateIsRecorded(st: Store, reply: Completion, d: nat)
    requires LogOk(st) && 1 <= d <= |st.log| && Reports(reply, StateAt(st.log, d))
    ensures exists n: nat :: RecordedAt(st.log, reply, d, n)
  {
    hide Chain, FoldLog, StateAt, Reports, FoldFacts, Belongs;
    var facts := BodyFacts(st.log[d - 1].body);
    StateAtNext(st.log, d - 1);
    assert facts[..|facts|] == facts;
    assert RecordedAt(st.log, reply, d, |facts|);
  }

  /** If the durable batch moved onto the flight's coordinate, the flight itself
      is what stands there: a FENCE would carry another owner. */
  lemma FlightIsInLog(st: Store, rq: Requests, left: Requests, s: WriterState, after: WriterState)
    requires LogOk(st) && Footing(st, rq, s) && Footing(st, left, after) && Coordinates(s)
    requires s.flight.Some? && after.durableBatch == s.flight.value.batch && after.claim == s.claim
    ensures s.durableBatch < |st.log| && st.log[s.durableBatch] == Candidate(st, s)
  {
    var d := s.durableBatch;
    assert Continues(st.log[..d], st.log[d]);
    hide Chain, FoldLog, StateAt, Partition, Belongs;
    assert st.log[..d][d - 1] == st.log[d - 1];
  }

  lemma KeptIsRecorded(st: Store, rq: Requests, s: WriterState, reply: Completion)
    requires Footing(st, rq, s) && Coordinates(s) && s.flight.Some?
    requires s.durableBatch < |st.log| && st.log[s.durableBatch] == Candidate(st, s)
    requires Kept(reply, s.durable.forest, s.flight.value.batch, s.flight.value.facts)
    ensures exists n: nat :: RecordedAt(st.log, reply, s.flight.value.batch, n)
  {
    hide StateAt, Partition, ReportsAt, NextIsOurs;
    var n: nat :| n <= |s.flight.value.facts|
      && ReportsAt(reply, s.durable.forest, s.flight.value.batch, s.flight.value.facts[..n]);
    assert RecordedAt(st.log, reply, s.flight.value.batch, n);
  }

  lemma BackedIsRecorded(st: Store, rq: Requests, left: Requests, s: WriterState, after: WriterState, reply: Completion)
    requires LogOk(st) && Footing(st, rq, s) && Footing(st, left, after) && Coordinates(s) && after.claim == s.claim
    requires Backed(reply, s, after)
    ensures Recorded(st.log, reply)
    ensures !reply.answer.Refused? ==> exists n: nat :: RecordedAt(st.log, reply, after.durableBatch, n)
  {
    hide LogOk, StateAt, NextIsOurs, Reports, Kept, Partition, RecordedAt;
    if reply.answer.Refused? {
    } else if Reports(reply, after.durable.forest) {
      DurableStateIsRecorded(st, reply, after.durableBatch);
    } else {
      FlightIsInLog(st, rq, left, s, after);
      KeptIsRecorded(st, rq, s, reply);
    }
  }

  lemma ClaimStays(s: WriterState, now: nat, event: WriterEvent)
    requires Faithful(s, event)
    ensures Handle(s, now, event).state.claim == s.claim
  {
    hide AdmitCommand, HardFull, RunLeavesTakeoverRoom, MustDrain, Facts, Replies, DescribesCheckpoint;
    ApplyKeepsClaim(s, event);
    hide ApplyEvent, Faithful;
  }

  lemma ApplyKeepsClaim(s: WriterState, event: WriterEvent)
    requires Faithful(s, event)
    ensures ApplyEvent(s, event).state.claim == s.claim
  {
    hide AdmitCommand, HardFull, RunLeavesTakeoverRoom, DescribesCheckpoint;
  }

  lemma RepliesAreRecorded(st: Store, rq: Requests, pid: nat, n: Node, now: nat, event: WriterEvent, i: nat)
    requires Faithful(n.machine, event) && ApplyEvent(n.machine, event).exit.None?
    requires Deliverable(n, event) && WriterAnswers(st, pid, n, event)
    requires StoreOk(st) && RequestsOk(st, rq) && RunningOk(st, rq, pid, n)
    requires i < |Sent(Handle(n.machine, now, event).outputs)|
    ensures var reply := Sent(Handle(n.machine, now, event).outputs)[i];
      && Recorded(st.log, reply)
      && (!reply.answer.Refused? ==>
           exists m: nat :: RecordedAt(st.log, reply, Handle(n.machine, now, event).state.durableBatch, m))
  {
    hide StoreOk, RequestsOk, MachineOk, Carries, Inv, Mid, Matches, PartLegal, Deliverable, WriterAnswers, Faithful,
      Handle, ApplyEvent, Issue, Execute, OnlyBy, PickUp, Sent, Backed, Footing, Authority, CheckpointTrue,
      Coordinates, Roomy, Bounded, AdmittedIsFold, FlightIsFold, CheckpointOk, Numbered, SealsOk, CutsRise, LogOk,
      WalOk, Recorded, RecordedAt;
    var step := Handle(n.machine, now, event);
    HandlePartLegal(st, rq, pid, n, now, event);
    PartParts(st, rq, pid, PickUp(n.tables, event), step);
    MachineParts(st, rq, pid, n.machine);
    MachineParts(st, Issue(rq, pid, step.outputs), pid, step.state);
    StoreParts(st);
    InvIsMid(n.machine);
    MidParts(n.machine);
    ClaimStays(n.machine, now, event);
    HandleBacked(n.machine, now, event);
    BackedIsRecorded(st, rq, Issue(rq, pid, step.outputs), n.machine, step.state, Sent(step.outputs)[i]);
  }

  /** A whole turn of a live writer: the machine accepts the event, its requests
      are legal and its own, every success it tells is in the log, and unless
      it stops it is running legally again. */
  lemma TurnLegal(st: Store, rq: Requests, pid: nat, n: Node, now: nat, event: WriterEvent)
    requires Deliverable(n, event) && WriterAnswers(st, pid, n, event)
    requires StoreOk(st) && RequestsOk(st, rq) && RunningOk(st, rq, pid, n)
    ensures Faithful(n.machine, event)
    ensures var outputs := Handle(n.machine, now, event).outputs;
      var left := Issue(rq, pid, outputs);
      && RequestsOk(st, left) && OnlyBy(st, rq, left, Some(pid))
      && (forall i :: 0 <= i < |Sent(outputs)| ==> Recorded(st.log, Sent(outputs)[i]))
      && (Turn(n, now, event).1.None? ==> RunningOk(st, left, pid, Turn(n, now, event).0))
  {
    hide StoreOk, RequestsOk, MachineOk, Carries, NodeInv, PartLegal, Deliverable, WriterAnswers, Faithful,
      ApplyEvent, Schedule, OnlyBy, PickUp, Recorded;
    TurnKeepsInv(n, now, event);
    ApplyShape(n.machine, event);
    if ApplyEvent(n.machine, event).exit.Some? {
      OnlyBySame(st, rq, Some(pid));
    } else {
      HandlePartLegal(st, rq, pid, n, now, event);
      forall i | 0 <= i < |Sent(Handle(n.machine, now, event).outputs)|
        ensures Recorded(st.log, Sent(Handle(n.machine, now, event).outputs)[i])
      {
        RepliesAreRecorded(st, rq, pid, n, now, event, i);
      }
      hide Handle, Issue, Execute, Sent;
      PartParts(st, rq, pid, PickUp(n.tables, event), Handle(n.machine, now, event));
    }
  }
}
