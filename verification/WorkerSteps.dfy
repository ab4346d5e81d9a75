/** What each ledger transaction does to an episode's trace. */
module WorkerSteps {
  import opened Records
  import opened Slots
  import opened LedgerSpec
  import opened LedgerInvariant
  import opened LedgerSafety
  import RecordOnce
  import opened WorkerSpec
  import opened WorkerReplay

  lemma SettledIsCompleted(episode: Episode, inputs: Artifacts, st: State, responses: seq<Exchange>, k: nat, op: Operation)
    requires UniqueIds(st.operations) && k < |responses| && Settled(episode, inputs, st, responses, k)
    requires op in st.operations && op.Id() == TurnId(episode, NextTurn(episode, responses[..k]).value)
    ensures op.completion == Some(responses[k].done)
  {
    var turn := NextTurn(episode, responses[..k]).value;
    var other :| other in st.operations && Attempts(episode, inputs, st, turn, other) && other.completion == Some(responses[k].done);
    AttemptHasTurnId(episode, inputs, st, turn, other);
  }

  /** A turn already answered has a completed operation, so only the next one is open. */
  lemma OpenIsFrontier(episode: Episode, inputs: Artifacts, st: State, responses: seq<Exchange>, op: Operation)
    requires UniqueIds(st.operations) && Traced(episode, inputs, st, responses)
    requires op in st.operations && op.completion.None? && IsSlot(episode.prefix, op.Id())
    ensures Frontier(episode, inputs, st, responses, op)
  {
    assert OnTrajectory(episode, inputs, st, responses, op);
    if k :| 0 <= k < |responses| && NextTurn(episode, responses[..k]).Some?
            && op.Id() == TurnId(episode, NextTurn(episode, responses[..k]).value) {
      SettledIsCompleted(episode, inputs, st, responses, k, op);
    }
  }

  /** The next turn has no outcome on the ledger yet. */
  lemma NextIsOpen(episode: Episode, inputs: Artifacts, st: State, responses: seq<Exchange>, op: Operation)
    requires Traced(episode, inputs, st, responses) && NextTurn(episode, responses).Some?
    requires op in st.operations && op.Id() == TurnId(episode, NextTurn(episode, responses).value)
    ensures op.completion.None?
  {
    assert IsSlot(episode.prefix, op.Id());
    if op.completion.Some? {
      var k :| 0 <= k < |responses| && NextTurn(episode, responses[..k]).Some?
               && op.Id() == TurnId(episode, NextTurn(episode, responses[..k]).value);
      assert responses[..|responses|] == responses;
      TurnsDiffer(episode, responses, k, |responses|);
    }
  }

  lemma InputStepTraced(episode: Episode, inputs: Artifacts, st: State, responses: seq<Exchange>, session: string, turn: Turn)
    requires Traced(episode, inputs, st, responses)
    ensures var later := RecordOnce.Step(st, session, InputOrigin(episode, inputs, turn), InputRaw(turn)).st;
      AddsFresh(episode, st, later) && Traced(episode, inputs, later, responses)
  {
    var later := RecordOnce.Step(st, session, InputOrigin(episode, inputs, turn), InputRaw(turn)).st;
    RecordOnce.StepExtends(st, session, InputOrigin(episode, inputs, turn), InputRaw(turn));
    RecordIdsDiffer(episode.prefix, turn.kind, turn.index);
    assert AddsFresh(episode, st, later);
    TraceStays(episode, inputs, st, later, responses);
  }

  lemma ReserveStepTraced(episode: Episode, inputs: Artifacts, st: State, responses: seq<Exchange>, session: string,
                          row: nat, reservation: Amounts)
    requires Traced(episode, inputs, st, responses) && NextTurn(episode, responses).Some?
    requires RecordOnce.IsRecord(st, row, InputOrigin(episode, inputs, NextTurn(episode, responses).value),
                                 InputRaw(NextTurn(episode, responses).value))
    requires Reservation(episode, NextTurn(episode, responses).value, st.project.allowances) == Some(reservation)
    ensures var turn := NextTurn(episode, responses).value;
      var request := TurnRequest(episode, st.project, inputs, turn, st.observations[row]);
      var step := Reserve(st, session, request, reservation, episode.scope);
      && Traced(episode, inputs, step.st, responses)
      && (step.out.Ok? ==> step.out.value in step.st.operations && step.out.value.request == request
                           && step.out.value.completion.None?)
  {
    var turn := NextTurn(episode, responses).value;
    var request := TurnRequest(episode, st.project, inputs, turn, st.observations[row]);
    var step := Reserve(st, session, request, reservation, episode.scope);
    if step.st != st {
      var op := step.out.value;
      assert RecordOnce.IsRecord(step.st, row, InputOrigin(episode, inputs, turn), InputRaw(turn));
      assert Attempts(episode, inputs, step.st, turn, op);
      SlotIsNoRecord(episode.prefix, turn.kind, turn.index);
      TraceStays(episode, inputs, st, step.st, responses);
    } else if step.out.Ok? {
      NextIsOpen(episode, inputs, st, responses, step.out.value);
    }
  }

  /** Replacing an open operation by its dispatched form leaves the trace as it is. */
  lemma DispatchTraced(episode: Episode, inputs: Artifacts, st: State, later: State, responses: seq<Exchange>, row: nat, sent: Operation)
    requires UniqueIds(st.operations) && Traced(episode, inputs, st, responses)
    requires row < |st.operations| && st.operations[row].completion.None?
    requires sent == st.operations[row].(dispatch := sent.dispatch)
    requires later.project == st.project && later.observations == st.observations
    requires later.operations == st.operations[row := sent]
    ensures Traced(episode, inputs, later, responses)
  {
    var op := st.operations[row];
    if IsSlot(episode.prefix, op.Id()) {
      OpenIsFrontier(episode, inputs, st, responses, op);
      AttemptStays(episode, inputs, st, later, NextTurn(episode, responses).value, op);
      assert Attempts(episode, inputs, later, NextTurn(episode, responses).value, sent);
    }
    forall other | other in st.operations && other.completion.Some?
      ensures other in later.operations
    {
      var i :| 0 <= i < |st.operations| && st.operations[i] == other;
      assert later.operations[i] == other;
    }
    TraceStays(episode, inputs, st, later, responses);
  }

  lemma BeginStepTraced(episode: Episode, inputs: Artifacts, st: State, responses: seq<Exchange>, session: string, request: Request)
    requires UniqueIds(st.operations) && Traced(episode, inputs, st, responses)
    ensures Traced(episode, inputs, Begin(st, session, request).st, responses)
  {
    var later := Begin(st, session, request).st;
    if later != st {
      var row := Find(st.operations, request.origin.operationId).value;
      DispatchTraced(episode, inputs, st, later, responses, row, later.operations[row]);
    }
  }

  /** The trace once this request has this outcome. */
  function After(episode: Episode, responses: seq<Exchange>, id: OpId, done: Completion): seq<Exchange> {
    var next := NextTurn(episode, responses);
    if next.Some? && id == TurnId(episode, next.value) then responses + [Unshown(done)] else responses
  }

  lemma SettleTraced(episode: Episode, inputs: Artifacts, st: State, later: State, responses: seq<Exchange>, row: nat, done: Completion)
    requires UniqueIds(st.operations) && Traced(episode, inputs, st, responses)
    requires row < |st.operations| && st.operations[row].completion.None?
    requires later.project == st.project && later.observations == st.observations + [done.observation]
    requires done.observation.origin.operationId == st.operations[row].Id()
    requires later.operations == st.operations[row := st.operations[row].(completion := Some(done))]
    ensures Traced(episode, inputs, later, After(episode, responses, st.operations[row].Id(), done))
  {
    var op := st.operations[row];
    assert AddsFresh(episode, st, later);
    assert later.operations[row] in later.operations;
    forall other | other in st.operations && other.completion.Some?
      ensures other in later.operations
    {
      var i :| 0 <= i < |st.operations| && st.operations[i] == other;
      assert later.operations[i] == other;
    }
    if IsSlot(episode.prefix, op.Id()) {
      OpenIsFrontier(episode, inputs, st, responses, op);
      AttemptHasTurnId(episode, inputs, st, NextTurn(episode, responses).value, op);
      TraceGrows(episode, inputs, st, later, responses, op, done);
    } else {
      TraceStays(episode, inputs, st, later, responses);
    }
  }

  /** Settling any operation, of this episode or not, keeps the trace or adds to it. */
  lemma CompleteStepTraced(episode: Episode, inputs: Artifacts, st: State, responses: seq<Exchange>, session: string,
                           request: Request, result: Result, raw: Artifacts)
    requires UniqueIds(st.operations) && Traced(episode, inputs, st, responses)
    ensures var step := Complete(st, session, request, result, raw);
      Traced(episode, inputs, step.st,
             if step.st != st then After(episode, responses, request.origin.operationId, step.out.value) else responses)
  {
    var step := Complete(st, session, request, result, raw);
    if step.st != st {
      var row := Find(st.operations, request.origin.operationId).value;
      SettleTraced(episode, inputs, st, step.st, responses, row, step.out.value);
    }
  }

  lemma SettledAttempt(episode: Episode, inputs: Artifacts, st: State, responses: seq<Exchange>, k: nat)
    returns (row: nat, op: Operation)
    requires Traced(episode, inputs, st, responses) && k < |responses|
    ensures NextTurn(episode, responses[..k]).Some?
    ensures var turn := NextTurn(episode, responses[..k]).value;
      && RecordOnce.IsRecord(st, row, InputOrigin(episode, inputs, turn), InputRaw(turn))
      && op in st.operations && op.completion == Some(responses[k].done) && op.scope == episode.scope
      && op.request == TurnRequest(episode, st.project, inputs, turn, st.observations[row])
      && Reservation(episode, turn, st.project.allowances) == Some(op.reservation)
  {
    assert Settled(episode, inputs, st, responses, k);
    var turn := NextTurn(episode, responses[..k]).value;
    op :| op in st.operations && Attempts(episode, inputs, st, turn, op) && op.completion == Some(responses[k].done);
    row :| RecordOnce.IsRecord(st, row, InputOrigin(episode, inputs, turn), InputRaw(turn))
           && op.request == TurnRequest(episode, st.project, inputs, turn, st.observations[row]);
  }

  /** Recording the payload of an answered turn again changes nothing. */
  lemma InputRecordedAgain(episode: Episode, inputs: Artifacts, st: State, session: string, turn: Turn, row: nat)
    requires Inv(st) && RecordOnce.IsRecord(st, row, InputOrigin(episode, inputs, turn), InputRaw(turn))
    requires forall op | op in st.operations :: !IsRecordId(episode.prefix, op.Id())
    ensures RecordOnce.Step(st, session, InputOrigin(episode, inputs, turn), InputRaw(turn)) == Step(st, Ok(st.observations[row]))
  {
    assert IsRecordId(episode.prefix, InputId(episode.prefix, turn.kind, turn.index));
    RecordOnce.StepAgain(st, session, InputOrigin(episode, inputs, turn), InputRaw(turn), row);
  }

  lemma ReservedAgain(st: State, session: string, op: Operation)
    requires Inv(st) && op in st.operations && session in st.sessions
    ensures Reserve(st, session, op.request, op.reservation, op.scope) == Step(st, Ok(op))
  {
    assert OperationOk(st, op);
    var row := Find(st.operations, op.Id()).value;
    assert st.operations[row] == op;
  }
}
