/** The invariant every committed ledger state satisfies. */
module LedgerInvariant {
  import opened Records
  import opened Names
  import opened LedgerSpec

  ghost predicate UniqueIds(operations: seq<Operation>) {
    forall i, j | 0 <= i < j < |operations| :: operations[i].Id() != operations[j].Id()
  }

  /** The scope with the unit it counts; `None` is the whole project. */
  ghost predicate WithinLimit(st: State, scope: Option<string>, unit: string)
    requires scope.Some? ==> ScopeKnown(st, scope.value)
  {
    Total(Committed, st.operations, scope, unit) <= Limit(st, scope, unit)
  }

  /** What was admitted never exceeds a limit, for the project and every scope. */
  ghost predicate Admitted(st: State) {
    && (forall unit :: WithinLimit(st, None, unit))
    && (forall scope, unit | ScopeKnown(st, scope) :: WithinLimit(st, Some(scope), unit))
  }

  ghost predicate OperationOk(st: State, op: Operation) {
    && op.request.context == st.project
    && ScopeKnown(st, op.scope)
    && op.session in st.sessions
    && op.reservation.Keys <= st.project.allowances.Keys
    && OriginMatches(st, op.request.origin)
    && (op.dispatch.Some? ==> op.dispatch.value.at < st.clock && op.dispatch.value.session in st.sessions)
    && (op.completion.Some? ==> op.dispatch.Some? && CompletionOk(st, op))
  }

  ghost predicate CompletionOk(st: State, op: Operation)
    requires op.completion.Some?
  {
    var done := op.completion.value;
    && 0 < done.observation.sequence <= |st.observations|
    && st.observations[done.observation.sequence - 1] == done.observation
    && done.observation.origin == op.request.origin
    && done.observation.supersedes == None
    && op.reservation.Keys <= done.result.usage.Keys
    && done.breaches == Breaches(op.reservation, done.result)
  }

  ghost predicate ObservationOk(st: State, i: nat)
    requires i < |st.observations|
  {
    var observation := st.observations[i];
    && observation.sequence == i + 1
    && observation.session in st.sessions
    && observation.artifacts != map[] && NamesOk(observation.artifacts)
    && (observation.supersedes.Some? ==> 0 < observation.supersedes.value <= i)
    && OriginMatches(st.(observations := st.observations[..i]), observation.origin)
  }

  /** Each completion settles its own observation. */
  ghost predicate DistinctCompletions(operations: seq<Operation>) {
    forall i, j | 0 <= i < j < |operations| && operations[i].completion.Some? && operations[j].completion.Some? ::
      operations[i].completion.value.observation.sequence != operations[j].completion.value.observation.sequence
  }

  /** An unknown operation saw neither its scope nor root blocked when dispatched. */
  ghost predicate Discipline(operations: seq<Operation>) {
    forall i, j | 0 <= i < |operations| && 0 <= j < |operations| && i != j
                  && operations[i].Unknown() && operations[j].Unknown() && In(operations[i], operations[j].scope) ::
      operations[i].dispatch.value.at > operations[j].dispatch.value.at
  }

  ghost predicate Inv(st: State) {
    && ROOT !in st.scopes
    && (forall scope | scope in st.scopes :: st.scopes[scope].Keys <= st.project.allowances.Keys)
    && UniqueIds(st.operations)
    && (forall op | op in st.operations :: OperationOk(st, op))
    && (forall i | 0 <= i < |st.observations| :: ObservationOk(st, i))
    && DistinctCompletions(st.operations)
    && Discipline(st.operations)
    && Admitted(st)
  }

  // ---- Figures under the three ways a transaction changes the operations ----

  lemma TotalAppend(figure: Figure, operations: seq<Operation>, op: Operation, scope: Option<string>, unit: string)
    ensures Total(figure, operations + [op], scope, unit)
         == Total(figure, operations, scope, unit) + if Counts(op, scope) then Amount(figure, op, unit) else 0
  {
    assert (operations + [op])[..|operations|] == operations;
  }

  lemma {:induction false} TotalUpdate(figure: Figure, operations: seq<Operation>, row: nat, op: Operation, scope: Option<string>, unit: string)
    requires row < |operations| && op.scope == operations[row].scope
    ensures Total(figure, operations[row := op], scope, unit)
         == Total(figure, operations, scope, unit)
          + (if Counts(op, scope) then Amount(figure, op, unit) else 0)
          - (if Counts(op, scope) then Amount(figure, operations[row], unit) else 0)
  {
    var n := |operations| - 1;
    var changed := operations[row := op];
    if row == n {
      assert changed[..n] == operations[..n];
    } else {
      assert changed[..n] == operations[..n][row := op];
      TotalUpdate(figure, operations[..n], row, op, scope, unit);
    }
  }

  /** Spending and reservations are what was admitted plus what was overused. */
  lemma {:induction false} CommittedPlusOveruse(operations: seq<Operation>, scope: Option<string>, unit: string)
    ensures Total(Spent, operations, scope, unit) + Total(Reserved, operations, scope, unit)
         == Total(Committed, operations, scope, unit) + Total(Overuse, operations, scope, unit)
  {
    if operations != [] {
      CommittedPlusOveruse(operations[..|operations| - 1], scope, unit);
    }
  }

  /** A scope's share of a figure is at most the project's. */
  lemma {:induction false} ScopeShare(figure: Figure, operations: seq<Operation>, scope: Option<string>, unit: string)
    ensures Total(figure, operations, scope, unit) <= Total(figure, operations, None, unit)
  {
    if operations != [] {
      ScopeShare(figure, operations[..|operations| - 1], scope, unit);
    }
  }

  lemma {:induction false} UnusedScope(figure: Figure, operations: seq<Operation>, scope: string, unit: string)
    requires forall op | op in operations :: op.scope != scope
    ensures Total(figure, operations, Some(scope), unit) == 0
  {
    if operations != [] {
      UnusedScope(figure, operations[..|operations| - 1], scope, unit);
    }
  }

  /** Evidence found by name stays found, and stays the same, as captures are added. */
  lemma ResolveGrows(st: State, later: State, name: string)
    requires later.project == st.project && st.observations <= later.observations
    requires Resolve(st, name).Some?
    ensures Resolve(later, name) == Resolve(st, name)
  {
  }

  lemma OriginGrows(st: State, later: State, origin: Origin)
    requires later.project == st.project && st.observations <= later.observations
    requires OriginMatches(st, origin)
    ensures OriginMatches(later, origin)
  {
    forall name | name in origin.inputs
      ensures Resolve(later, name) == Some(origin.inputs[name])
    {
      ResolveGrows(st, later, name);
    }
  }

  // ---- Preservation ----

  /** A transaction that leaves the operations alone and only adds elsewhere. */
  lemma KeptOperations(st: State, later: State)
    requires Inv(st)
    requires later.project == st.project && later.operations == st.operations && later.clock >= st.clock
    requires st.sessions <= later.sessions && st.observations <= later.observations
    requires st.scopes.Keys <= later.scopes.Keys
    ensures forall op | op in later.operations :: OperationOk(later, op)
  {
    forall op | op in later.operations
      ensures OperationOk(later, op)
    {
      assert OperationOk(st, op);
      OriginGrows(st, later, op.request.origin);
    }
  }

  lemma KeptObservations(st: State, later: State)
    requires Inv(st)
    requires later.project == st.project && st.sessions <= later.sessions
    requires st.observations <= later.observations
    ensures forall i | 0 <= i < |st.observations| :: ObservationOk(later, i)
  {
    forall i | 0 <= i < |st.observations|
      ensures ObservationOk(later, i)
    {
      assert ObservationOk(st, i);
      assert later.observations[..i] == st.observations[..i];
      OriginGrows(st.(observations := st.observations[..i]), later.(observations := later.observations[..i]),
                  st.observations[i].origin);
    }
  }

  lemma KeptLimits(st: State, later: State)
    requires Inv(st)
    requires later.project == st.project && later.operations == st.operations
    requires forall scope | scope in st.scopes :: scope in later.scopes && later.scopes[scope] == st.scopes[scope]
    ensures Admitted(later)
  {
    forall unit
      ensures WithinLimit(later, None, unit)
    {
      assert WithinLimit(st, None, unit);
    }
    forall scope, unit | ScopeKnown(later, scope)
      ensures WithinLimit(later, Some(scope), unit)
    {
      if ScopeKnown(st, scope) {
        assert WithinLimit(st, Some(scope), unit);
      } else {
        forall op | op in st.operations
          ensures op.scope != scope
        {
          assert OperationOk(st, op);
        }
        UnusedScope(Committed, st.operations, scope, unit);
      }
    }
  }

  lemma StartSessionKeeps(st: State, id: string)
    requires Inv(st)
    ensures Inv(StartSession(st, id).st)
  {
    var later := StartSession(st, id).st;
    KeptOperations(st, later);
    KeptObservations(st, later);
    KeptLimits(st, later);
  }

  lemma OpenScopeKeeps(st: State, session: string, scope: string, caps: Amounts)
    requires Inv(st)
    ensures Inv(OpenScope(st, session, scope, caps).st)
  {
    var later := OpenScope(st, session, scope, caps).st;
    KeptOperations(st, later);
    KeptObservations(st, later);
    KeptLimits(st, later);
  }

  lemma CaptureOk(st: State, session: string, origin: Origin, raw: Artifacts, supersedes: Option<nat>, later: State)
    requires Inv(st)
    requires raw != map[] && NamesOk(raw) && session in st.sessions && OriginMatches(st, origin)
    requires supersedes.Some? ==> 0 < supersedes.value <= |st.observations|
    requires later.project == st.project && later.sessions == st.sessions
    requires later.observations == st.observations + [Capture(st, session, origin, raw, supersedes)]
    ensures forall i | 0 <= i < |later.observations| :: ObservationOk(later, i)
  {
    KeptObservations(st, later);
    var n := |st.observations|;
    assert later.observations[..n] == st.observations;
    OriginGrows(st, later.(observations := later.observations[..n]), origin);
    assert ObservationOk(later, n);
  }

  lemma RecordKeeps(st: State, session: string, origin: Origin, raw: Artifacts, supersedes: Option<nat>)
    requires Inv(st)
    ensures Inv(Record(st, session, origin, raw, supersedes).st)
  {
    var step := Record(st, session, origin, raw, supersedes);
    if step.out.Ok? {
      CaptureOk(st, session, origin, raw, supersedes, step.st);
      KeptOperations(st, step.st);
      KeptLimits(st, step.st);
    }
  }

  lemma ReserveKeeps(st: State, session: string, request: Request, reservation: Amounts, scope: string)
    requires Inv(st)
    ensures Inv(Reserve(st, session, request, reservation, scope).st)
  {
    var later := Reserve(st, session, request, reservation, scope).st;
    if later != st {
      var op := Operation(request, session, reservation, None, None, scope);
      assert later.operations == st.operations + [op];
      forall other | other in later.operations
        ensures OperationOk(later, other)
      {
        assert other == op || OperationOk(st, other);
      }
      KeptObservations(st, later);
      ReserveAdmits(st, op, later);
    }
  }

  lemma ReserveAdmits(st: State, op: Operation, later: State)
    requires Inv(st) && later == st.(operations := st.operations + [op]) && op.Pending() && ScopeKnown(st, op.scope)
    requires op.reservation.Keys <= st.project.allowances.Keys
    requires Affords(st, None, op.reservation) && (op.scope != ROOT ==> Affords(st, Some(op.scope), op.reservation))
    ensures Admitted(later)
  {
    forall unit
      ensures WithinLimit(later, None, unit)
    {
      assert WithinLimit(st, None, unit);
      TotalAppend(Committed, st.operations, op, None, unit);
      CommittedPlusOveruse(st.operations, None, unit);
    }
    forall scope, unit | ScopeKnown(later, scope)
      ensures WithinLimit(later, Some(scope), unit)
    {
      assert WithinLimit(st, Some(scope), unit);
      TotalAppend(Committed, st.operations, op, Some(scope), unit);
      CommittedPlusOveruse(st.operations, Some(scope), unit);
      CommittedPlusOveruse(st.operations, None, unit);
      ScopeShare(Committed, st.operations, Some(scope), unit);
    }
  }

  /** Replacing one operation by a later phase of itself admits nothing new. */
  lemma UpdateAdmits(st: State, row: nat, op: Operation, later: State)
    requires Inv(st) && row < |st.operations|
    requires op.scope == st.operations[row].scope && op.reservation == st.operations[row].reservation
    requires st.operations[row].completion.None?
    requires later.project == st.project && later.scopes == st.scopes
    requires later.operations == st.operations[row := op]
    ensures Admitted(later)
  {
    forall unit
      ensures WithinLimit(later, None, unit)
    {
      assert WithinLimit(st, None, unit);
      TotalUpdate(Committed, st.operations, row, op, None, unit);
    }
    forall scope, unit | ScopeKnown(later, scope)
      ensures WithinLimit(later, Some(scope), unit)
    {
      assert WithinLimit(st, Some(scope), unit);
      TotalUpdate(Committed, st.operations, row, op, Some(scope), unit);
    }
  }

  lemma BeginKeeps(st: State, session: string, request: Request)
    requires Inv(st)
    ensures Inv(Begin(st, session, request).st)
  {
    var later := Begin(st, session, request).st;
    if later != st {
      var row := Find(st.operations, request.origin.operationId).value;
      var op := st.operations[row];
      assert OperationOk(st, op);
      var sent := op.(dispatch := Some(Dispatch(session, st.clock)));
      assert later.operations == st.operations[row := sent];
      forall other | other in later.operations
        ensures OperationOk(later, other)
      {
        assert other == sent || OperationOk(st, other);
      }
      KeptObservations(st, later);
      UpdateAdmits(st, row, sent, later);
      BeginDiscipline(st, row, sent, later);
    }
  }

  lemma BeginDiscipline(st: State, row: nat, sent: Operation, later: State)
    requires Inv(st) && row < |st.operations| && st.operations[row].Pending()
    requires sent.scope == st.operations[row].scope && sent.Unknown() && sent.dispatch.value.at == st.clock
    requires forall other | other in st.operations :: !(other.Unknown() && In(other, sent.scope))
    requires later.operations == st.operations[row := sent]
    ensures Discipline(later.operations)
  {
    forall i, j | 0 <= i < |later.operations| && 0 <= j < |later.operations| && i != j
                  && later.operations[i].Unknown() && later.operations[j].Unknown()
                  && In(later.operations[i], later.operations[j].scope)
      ensures later.operations[i].dispatch.value.at > later.operations[j].dispatch.value.at
    {
      if i != row && j != row {
        assert st.operations[i].Unknown() && st.operations[j].Unknown();
      } else if i == row {
        assert OperationOk(st, st.operations[j]);
      }
    }
  }

  lemma CompleteKeeps(st: State, session: string, request: Request, result: Result, raw: Artifacts)
    requires Inv(st)
    ensures Inv(Complete(st, session, request, result, raw).st)
  {
    var later := Complete(st, session, request, result, raw).st;
    if later != st {
      var row := Find(st.operations, request.origin.operationId).value;
      var op := st.operations[row];
      assert OperationOk(st, op);
      var capture := Capture(st, session, request.origin, raw, None);
      var settled := op.(completion := Some(Completion(capture, result, Breaches(op.reservation, result))));
      assert later.operations == st.operations[row := settled];
      CaptureOk(st, session, request.origin, raw, None, later);
      forall other | other in later.operations
        ensures OperationOk(later, other)
      {
        if other != settled {
          assert OperationOk(st, other);
        }
        OriginGrows(st, later, other.request.origin);
      }
      assert DistinctCompletions(later.operations) by {
        forall i | 0 <= i < |st.operations| && st.operations[i].completion.Some?
          ensures st.operations[i].completion.value.observation.sequence <= |st.observations|
        {
          assert OperationOk(st, st.operations[i]);
        }
      }
      UpdateAdmits(st, row, settled, later);
    }
  }

  lemma NextKeeps(st: State, event: Event)
    requires Inv(st)
    ensures Inv(Next(st, event))
  {
    match event
    case StartSessionEvent(id) => StartSessionKeeps(st, id);
    case OpenScopeEvent(session, scope, caps) => OpenScopeKeeps(st, session, scope, caps);
    case RecordEvent(session, origin, raw, supersedes) => RecordKeeps(st, session, origin, raw, supersedes);
    case ReserveEvent(session, request, reservation, scope) => ReserveKeeps(st, session, request, reservation, scope);
    case BeginEvent(session, request) => BeginKeeps(st, session, request);
    case CompleteEvent(session, request, result, raw) => CompleteKeeps(st, session, request, result, raw);
  }

  /** Every state any run of transactions can reach satisfies the invariant. */
  lemma {:induction false} Reachable(project: Project, events: seq<Event>)
    ensures Inv(Run(Init(project), events)) && Run(Init(project), events).project == project
  {
    if events == [] {
      var st := Init(project);
      assert Run(st, events) == st;
      assert forall unit :: WithinLimit(st, None, unit);
    } else {
      Reachable(project, events[..|events| - 1]);
      NextKeeps(Run(Init(project), events[..|events| - 1]), events[|events| - 1]);
    }
  }
}
