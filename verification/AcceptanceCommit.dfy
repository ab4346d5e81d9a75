/** Committing a decision under its own identity: reserve, dispatch and settle. */
module AcceptanceCommit {
  import opened Records
  import Spec = LedgerSpec
  import opened LedgerInvariant
  import opened LedgerSafety

  /** Reserve, dispatch and settle a decision under its own stable identity. */
  ghost function CommitStep(st: Spec.State, session: string, scope: string, request: Request, raw: Artifacts, elapsed: nat)
    : Spec.Step<Completion>
  {
    if !Spec.ScopeKnown(st, scope) then Spec.Step(st, Err(InvalidInput))
    else if !Spec.BudgetOpen(st, scope) then Spec.Step(st, Err(BudgetExceeded))
    else
      var reserved := Spec.Reserve(st, session, request, map[], scope);
      match reserved.out
      case Err(error) => Spec.Step(reserved.st, Err(error))
      case Ok(op) =>
        if op.completion.Some? then
          var done := op.completion.value;
          if done.result.outcome == Succeeded && done.observation.artifacts == raw then Spec.Step(reserved.st, Ok(done))
          else Spec.Step(reserved.st, Err(Conflict))
        else
          var begun := Spec.Begin(reserved.st, session, request);
          match begun.out
          case Err(error) => Spec.Step(begun.st, Err(error))
          case Ok(false) => Spec.Step(begun.st, Err(UnknownOutcome))
          case Ok(true) => Spec.Complete(begun.st, session, request, Result(Succeeded, map[], elapsed), raw)
  }

  /** The state keeps the invariant and grows. */
  ghost predicate Grows(st: Spec.State, later: Spec.State) {
    Inv(later) && Extends(st, later)
  }

  ghost predicate Recorded(st: Spec.State, request: Request, done: Completion) {
    exists op | op in st.operations :: op.request == request && op.completion == Some(done)
  }

  lemma ReserveEffect(st: Spec.State, session: string, scope: string, request: Request)
    requires Inv(st)
    ensures var step := Spec.Reserve(st, session, request, map[], scope);
      && Grows(st, step.st)
      && (forall op | op in st.operations :: op in step.st.operations)
      && step.st.observations == st.observations
      && (step.out.Ok? ==>
            && step.out.value in step.st.operations && step.out.value.request == request
            && step.out.value.scope == scope)
  {
    ReserveKeeps(st, session, request, map[], scope);
    NextExtends(st, Spec.ReserveEvent(session, request, map[], scope));
  }

  lemma BeginEffect(st: Spec.State, session: string, request: Request)
    requires Inv(st)
    ensures Grows(st, Spec.Begin(st, session, request).st)
    ensures Spec.Begin(st, session, request).st.observations == st.observations
  {
    BeginKeeps(st, session, request);
    NextExtends(st, Spec.BeginEvent(session, request));
  }

  lemma CompleteEffect(st: Spec.State, session: string, request: Request, result: Result, raw: Artifacts)
    requires Inv(st)
    ensures var step := Spec.Complete(st, session, request, result, raw);
      && Grows(st, step.st)
      && (step.out.Ok? ==>
            && step.out.value.observation.artifacts == raw && step.out.value.result == result
            && Recorded(step.st, request, step.out.value))
  {
    CompleteKeeps(st, session, request, result, raw);
    NextExtends(st, Spec.CompleteEvent(session, request, result, raw));
    var step := Spec.Complete(st, session, request, result, raw);
    if step.out.Ok? {
      var row := Spec.Find(st.operations, request.origin.operationId).value;
      assert step.st.operations[row] in step.st.operations;
    }
  }

  lemma GrowsTransitive(a: Spec.State, b: Spec.State, c: Spec.State)
    requires Grows(a, b) && Grows(b, c)
    ensures Grows(a, c)
  {
    ExtendsTransitive(a, b, c);
  }

  /** While a scope is blocked, its pending operations are not dispatched. */
  lemma BlockedBegin(st: Spec.State, session: string, request: Request, op: Operation, other: Operation)
    requires UniqueIds(st.operations) && op in st.operations && op.request == request && op.completion.None?
    requires other in st.operations && other.Unknown() && Spec.In(other, op.scope)
    ensures Spec.Begin(st, session, request).out != Ok(true)
  {
  }

  lemma NotBegun(st: Spec.State, session: string, scope: string, request: Request, raw: Artifacts, elapsed: nat)
    requires Spec.ScopeKnown(st, scope) && Spec.BudgetOpen(st, scope)
    requires var reserved := Spec.Reserve(st, session, request, map[], scope);
      reserved.out.Ok? ==>
        reserved.out.value.completion.None? && Spec.Begin(reserved.st, session, request).out != Ok(true)
    ensures var reserved := Spec.Reserve(st, session, request, map[], scope);
      var step := CommitStep(st, session, scope, request, raw, elapsed);
      && step.out.Err?
      && step.st == if reserved.out.Ok? then Spec.Begin(reserved.st, session, request).st else reserved.st
  {
  }

  /** A decision never recorded before is not begun while its scope, or root, holds an
      unknown outcome, nor after a breach there or beyond the project's allowance. */
  lemma BlockedScopeCommitsNothingNew(st: Spec.State, session: string, scope: string, request: Request, raw: Artifacts, elapsed: nat)
    requires Inv(st)
    requires !Spec.BudgetOpen(st, scope)
      || exists other | other in st.operations :: other.Unknown() && Spec.In(other, scope)
    requires forall done :: !Recorded(st, request, done)
    ensures CommitStep(st, session, scope, request, raw, elapsed).out.Err?
    ensures CommitStep(st, session, scope, request, raw, elapsed).st.observations == st.observations
  {
    if Spec.ScopeKnown(st, scope) && Spec.BudgetOpen(st, scope) {
      var reserved := Spec.Reserve(st, session, request, map[], scope);
      ReserveEffect(st, session, scope, request);
      BeginEffect(reserved.st, session, request);
      if reserved.out.Ok? {
        ReservedIsBlocked(st, session, scope, request);
      }
      NotBegun(st, session, scope, request, raw, elapsed);
    }
  }

  lemma ReservedIsBlocked(st: Spec.State, session: string, scope: string, request: Request)
    requires Inv(st) && Spec.Reserve(st, session, request, map[], scope).out.Ok?
    requires exists other | other in st.operations :: other.Unknown() && Spec.In(other, scope)
    requires forall done :: !Recorded(st, request, done)
    ensures var reserved := Spec.Reserve(st, session, request, map[], scope);
      reserved.out.value.completion.None? && Spec.Begin(reserved.st, session, request).out != Ok(true)
  {
    var reserved := Spec.Reserve(st, session, request, map[], scope);
    ReserveEffect(st, session, scope, request);
    forall op | op in st.operations && op.request == request
      ensures op.completion.None?
    {
      assert op.completion.Some? ==> Recorded(st, request, op.completion.value);
    }
    ReservedAfresh(st, session, scope, request);
    var other :| other in st.operations && other.Unknown() && Spec.In(other, scope);
    BlockedBegin(reserved.st, session, request, reserved.out.value, other);
  }

  lemma ReservedAfresh(st: Spec.State, session: string, scope: string, request: Request)
    requires Spec.Reserve(st, session, request, map[], scope).out.Ok?
    requires forall op | op in st.operations && op.request == request :: op.completion.None?
    ensures Spec.Reserve(st, session, request, map[], scope).out.value.completion.None?
  {
  }

  /** What a committed decision is: settled as succeeded, holding exactly its body. */
  lemma CommitRecords(st: Spec.State, session: string, scope: string, request: Request, raw: Artifacts, elapsed: nat)
    requires Inv(st) && CommitStep(st, session, scope, request, raw, elapsed).out.Ok?
    ensures var step := CommitStep(st, session, scope, request, raw, elapsed);
      && Grows(st, step.st)
      && step.out.value.observation.artifacts == raw && step.out.value.result.outcome == Succeeded
      && Recorded(step.st, request, step.out.value)
  {
    var reserved := Spec.Reserve(st, session, request, map[], scope);
    ReserveEffect(st, session, scope, request);
    if reserved.out.value.completion.None? {
      var begun := Spec.Begin(reserved.st, session, request);
      BeginEffect(reserved.st, session, request);
      var result := Result(Succeeded, map[], elapsed);
      CompleteEffect(begun.st, session, request, result, raw);
      GrowsTransitive(st, reserved.st, begun.st);
      GrowsTransitive(st, begun.st, Spec.Complete(begun.st, session, request, result, raw).st);
    }
  }

  /** Nothing was changed but the operation of this request, and nothing was settled but as
      succeeded with these bytes. */
  ghost predicate SettlesOnly(st: Spec.State, later: Spec.State, request: Request, raw: Artifacts) {
    && Grows(st, later)
    && (forall op | op in later.operations :: op in st.operations || op.request == request)
    && (forall op | op in later.operations && op.completion.Some? ::
          op in st.operations
          || (op.request == request && op.completion.value.result.outcome == Succeeded
              && op.completion.value.observation.artifacts == raw))
    && (forall o | o in later.observations ::
          o in st.observations || (o.origin == request.origin && o.artifacts == raw))
  }

  lemma SettlesNothing(st: Spec.State, request: Request, raw: Artifacts)
    requires Inv(st)
    ensures SettlesOnly(st, st, request, raw)
  {
  }

  lemma ReserveSettles(st: Spec.State, session: string, scope: string, request: Request, raw: Artifacts)
    requires Inv(st)
    ensures SettlesOnly(st, Spec.Reserve(st, session, request, map[], scope).st, request, raw)
  {
    ReserveEffect(st, session, scope, request);
    ReservePending(st, session, scope, request);
  }

  lemma ReservePending(st: Spec.State, session: string, scope: string, request: Request)
    ensures forall op | op in Spec.Reserve(st, session, request, map[], scope).st.operations ::
      op in st.operations || (op.request == request && op.completion.None?)
  {
  }

  lemma BeginSettles(st: Spec.State, session: string, request: Request, raw: Artifacts)
    requires Inv(st)
    ensures SettlesOnly(st, Spec.Begin(st, session, request).st, request, raw)
  {
    BeginEffect(st, session, request);
    var later := Spec.Begin(st, session, request).st;
    forall op | op in later.operations && op.completion.Some?
      ensures op in st.operations
    {
      var k :| 0 <= k < |later.operations| && later.operations[k] == op;
      assert st.operations[k] in st.operations;
    }
  }

  lemma CompleteSettles(st: Spec.State, session: string, request: Request, elapsed: nat, raw: Artifacts)
    requires Inv(st)
    ensures SettlesOnly(st, Spec.Complete(st, session, request, Result(Succeeded, map[], elapsed), raw).st, request, raw)
  {
    var result := Result(Succeeded, map[], elapsed);
    var step := Spec.Complete(st, session, request, result, raw);
    CompleteEffect(st, session, request, result, raw);
    forall op | op in step.st.operations && op.completion.Some? && op !in st.operations
      ensures op.request == request && op.completion.value.result.outcome == Succeeded
      ensures op.completion.value.observation.artifacts == raw
    {
      var k :| 0 <= k < |step.st.operations| && step.st.operations[k] == op;
      assert st.operations[k] in st.operations;
    }
  }

  lemma SettlesTransitive(a: Spec.State, b: Spec.State, c: Spec.State, request: Request, raw: Artifacts)
    requires SettlesOnly(a, b, request, raw) && SettlesOnly(b, c, request, raw)
    ensures SettlesOnly(a, c, request, raw)
  {
    GrowsTransitive(a, b, c);
  }

  // ---- When a decision is committed ----

  ghost predicate ScopeBlocked(st: Spec.State, scope: string) {
    exists other | other in st.operations :: other.Unknown() && Spec.In(other, scope)
  }

  /** Whatever is under the decision's ID is this decision: not begun, or settled with
      these bytes. */
  ghost predicate Unclaimed(st: Spec.State, scope: string, request: Request, raw: Artifacts) {
    forall op | op in st.operations && op.Id() == request.origin.operationId ::
      && op.request == request && op.reservation == map[] && op.scope == scope && !op.Unknown()
      && (op.completion.Some? ==>
            op.completion.value.result.outcome == Succeeded && op.completion.value.observation.artifacts == raw)
  }

  ghost predicate AlreadySettled(st: Spec.State, request: Request) {
    exists op | op in st.operations :: op.Id() == request.origin.operationId && op.completion.Some?
  }

  /** The scope is known, nothing blocks it, and the decision cites what the ledger holds
      under an ID that is its own. */
  ghost predicate Committable(st: Spec.State, session: string, scope: string, request: Request, raw: Artifacts) {
    && raw != map[] && NamesOk(raw) && session in st.sessions
    && Spec.ScopeKnown(st, scope) && Spec.BudgetOpen(st, scope)
    && request.context == st.project && Spec.OriginMatches(st, request.origin)
    && Unclaimed(st, scope, request, raw)
    && (ScopeBlocked(st, scope) ==> AlreadySettled(st, request))
  }

  lemma OnlyOperation(st: Spec.State, row: nat, op: Operation)
    requires UniqueIds(st.operations) && row < |st.operations| && op in st.operations && op.Id() == st.operations[row].Id()
    ensures op == st.operations[row]
  {
  }

  /** An empty reservation changes no figure. */
  lemma EmptyReservation(st: Spec.State, op: Operation, scope: string)
    requires op.reservation == map[] && op.completion.None?
    requires Spec.BudgetOpen(st, scope)
    ensures Spec.BudgetOpen(st.(operations := st.operations + [op]), scope)
  {
    var later := st.(operations := st.operations + [op]);
    forall unit
      ensures Spec.Available(later, None, unit) == Spec.Available(st, None, unit)
    {
      TotalAppend(Spec.Spent, st.operations, op, None, unit);
      TotalAppend(Spec.Reserved, st.operations, op, None, unit);
    }
  }

  /** A pending decision is dispatched and settled exactly when nothing blocks its scope. */
  lemma PendingCommits(st: Spec.State, session: string, request: Request, row: nat, raw: Artifacts, elapsed: nat)
    requires UniqueIds(st.operations) && session in st.sessions && row < |st.operations|
    requires request.context == st.project && Spec.OriginMatches(st, request.origin)
    requires var op := st.operations[row];
      op.request == request && op.reservation == map[] && op.Pending() && Spec.BudgetOpen(st, op.scope)
    ensures var begun := Spec.Begin(st, session, request);
      var step := Spec.Complete(begun.st, session, request, Result(Succeeded, map[], elapsed), raw);
      && (begun.out == Ok(true) <==> !ScopeBlocked(st, st.operations[row].scope))
      && (begun.out == Ok(true) ==> (step.out.Ok? <==> raw != map[] && NamesOk(raw)))
  {
    assert Spec.Has(st.operations, request.origin.operationId);
    assert Spec.Find(st.operations, request.origin.operationId) == Some(row);
    var begun := Spec.Begin(st, session, request);
    if begun.out == Ok(true) {
      assert begun.st.operations[row].request == request;
      assert Spec.Has(begun.st.operations, request.origin.operationId);
      assert Spec.Find(begun.st.operations, request.origin.operationId) == Some(row);
    }
  }

  /** A decision is committed exactly when it can be. */
  lemma CommitSucceeds(st: Spec.State, session: string, scope: string, request: Request, raw: Artifacts, elapsed: nat)
    requires Inv(st)
    ensures CommitStep(st, session, scope, request, raw, elapsed).out.Ok? <==> Committable(st, session, scope, request, raw)
  {
    if session in st.sessions && Spec.ScopeKnown(st, scope) && Spec.BudgetOpen(st, scope)
      && request.context == st.project && Spec.OriginMatches(st, request.origin)
    {
      if Spec.Has(st.operations, request.origin.operationId) {
        OldCommits(st, session, scope, request, raw, elapsed);
      } else {
        NewCommits(st, session, scope, request, raw, elapsed);
      }
    }
  }

  lemma NewCommits(st: Spec.State, session: string, scope: string, request: Request, raw: Artifacts, elapsed: nat)
    requires Inv(st) && session in st.sessions && Spec.ScopeKnown(st, scope) && Spec.BudgetOpen(st, scope)
    requires request.context == st.project && Spec.OriginMatches(st, request.origin)
    requires !Spec.Has(st.operations, request.origin.operationId)
    ensures CommitStep(st, session, scope, request, raw, elapsed).out.Ok? <==> Committable(st, session, scope, request, raw)
  {
    var op := Operation(request, session, map[], None, None, scope);
    var later := st.(operations := st.operations + [op]);
    assert Spec.Reserve(st, session, request, map[], scope) == Spec.Step(later, Ok(op));
    EmptyReservation(st, op, scope);
    assert later.operations[|st.operations|] == op;
    assert ScopeBlocked(later, scope) <==> ScopeBlocked(st, scope);
    PendingCommits(later, session, request, |st.operations|, raw, elapsed);
  }

  lemma OldCommits(st: Spec.State, session: string, scope: string, request: Request, raw: Artifacts, elapsed: nat)
    requires Inv(st) && session in st.sessions && Spec.ScopeKnown(st, scope) && Spec.BudgetOpen(st, scope)
    requires request.context == st.project && Spec.OriginMatches(st, request.origin)
    requires Spec.Has(st.operations, request.origin.operationId)
    ensures CommitStep(st, session, scope, request, raw, elapsed).out.Ok? <==> Committable(st, session, scope, request, raw)
  {
    var row := Spec.Find(st.operations, request.origin.operationId).value;
    var op := st.operations[row];
    UnclaimedIs(st, scope, request, raw, row);
    ReservedAgain(st, session, scope, request, row);
    if op.request == request && op.reservation == map[] && op.scope == scope {
      if op.Pending() {
        PendingCommits(st, session, request, row, raw, elapsed);
      } else if op.completion.Some? {
        SettledIsNamed(st, op);
      }
    }
  }

  /** Reserving what is there already finds it, or conflicts. */
  lemma ReservedAgain(st: Spec.State, session: string, scope: string, request: Request, row: nat)
    requires session in st.sessions && Spec.ScopeKnown(st, scope)
    requires request.context == st.project && Spec.OriginMatches(st, request.origin)
    requires Spec.Find(st.operations, request.origin.operationId) == Some(row)
    ensures var op := st.operations[row];
      Spec.Reserve(st, session, request, map[], scope)
      == Spec.Step(st, if op.request == request && op.reservation == map[] && op.scope == scope then Ok(op) else Err(Conflict))
  {
  }

  /** What is under the ID is one operation. */
  lemma UnclaimedIs(st: Spec.State, scope: string, request: Request, raw: Artifacts, row: nat)
    requires UniqueIds(st.operations) && row < |st.operations| && st.operations[row].Id() == request.origin.operationId
    ensures var op := st.operations[row];
      && (AlreadySettled(st, request) <==> op.completion.Some?)
      && (Unclaimed(st, scope, request, raw) <==>
            && op.request == request && op.reservation == map[] && op.scope == scope && !op.Unknown()
            && (op.completion.Some? ==>
                  op.completion.value.result.outcome == Succeeded && op.completion.value.observation.artifacts == raw))
  {
    var op := st.operations[row];
    assert op in st.operations;
    forall other | other in st.operations && other.Id() == request.origin.operationId
      ensures other == op
    {
      OnlyOperation(st, row, other);
    }
  }

  lemma SettledIsNamed(st: Spec.State, op: Operation)
    requires Inv(st) && op in st.operations && op.completion.Some?
    ensures op.completion.value.observation.artifacts != map[] && NamesOk(op.completion.value.observation.artifacts)
  {
    assert OperationOk(st, op);
    assert ObservationOk(st, op.completion.value.observation.sequence - 1);
  }
}
