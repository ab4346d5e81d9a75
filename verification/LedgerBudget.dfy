/** What the transactions decide, said of the recorded operations, scopes and allowances
    alone: when a reservation is refused, and when a dispatch is. */
module LedgerBudget {
  import opened Records
  import opened LedgerSpec
  import opened LedgerInvariant

  /** What a completed operation used of a unit. */
  function Used(op: Operation, unit: string): nat {
    if op.completion.Some? then Get(op.completion.value.result.usage, unit) else 0
  }

  /** What an operation still holds of a unit: its reservation, until it completes. */
  function Held(op: Operation, unit: string): nat {
    if op.completion.Some? then 0 else Get(op.reservation, unit)
  }

  /** What a completed operation used of a unit beyond its reservation. */
  function Excess(op: Operation, unit: string): nat {
    if Used(op, unit) > Get(op.reservation, unit) && op.completion.Some? then Used(op, unit) - Get(op.reservation, unit) else 0
  }

  predicate Within(op: Operation, scope: Option<string>) {
    scope == None || scope == Some(op.scope)
  }

  function Uses(operations: seq<Operation>, scope: Option<string>, unit: string): nat {
    if operations == [] then 0
    else (if Within(operations[0], scope) then Used(operations[0], unit) else 0) + Uses(operations[1..], scope, unit)
  }

  function Holdings(operations: seq<Operation>, scope: Option<string>, unit: string): nat {
    if operations == [] then 0
    else (if Within(operations[0], scope) then Held(operations[0], unit) else 0) + Holdings(operations[1..], scope, unit)
  }

  function Excesses(operations: seq<Operation>, scope: Option<string>, unit: string): nat {
    if operations == [] then 0
    else (if Within(operations[0], scope) then Excess(operations[0], unit) else 0) + Excesses(operations[1..], scope, unit)
  }

  /** What counts against a limit: usage once completed, the reservation until then. */
  function Charges(operations: seq<Operation>, scope: Option<string>, unit: string): nat {
    Uses(operations, scope, unit) + Holdings(operations, scope, unit)
  }

  lemma {:induction false} UsesAppend(operations: seq<Operation>, op: Operation, scope: Option<string>, unit: string)
    ensures Uses(operations + [op], scope, unit)
         == Uses(operations, scope, unit) + if Within(op, scope) then Used(op, unit) else 0
  {
    if operations == [] {
      assert ([op])[1..] == [];
      assert [] + [op] == [op];
    } else {
      assert (operations + [op])[1..] == operations[1..] + [op];
      UsesAppend(operations[1..], op, scope, unit);
    }
  }

  lemma {:induction false} HoldingsAppend(operations: seq<Operation>, op: Operation, scope: Option<string>, unit: string)
    ensures Holdings(operations + [op], scope, unit)
         == Holdings(operations, scope, unit) + if Within(op, scope) then Held(op, unit) else 0
  {
    if operations == [] {
      assert ([op])[1..] == [];
      assert [] + [op] == [op];
    } else {
      assert (operations + [op])[1..] == operations[1..] + [op];
      HoldingsAppend(operations[1..], op, scope, unit);
    }
  }

  lemma {:induction false} ExcessesAppend(operations: seq<Operation>, op: Operation, scope: Option<string>, unit: string)
    ensures Excesses(operations + [op], scope, unit)
         == Excesses(operations, scope, unit) + if Within(op, scope) then Excess(op, unit) else 0
  {
    if operations == [] {
      assert ([op])[1..] == [];
      assert [] + [op] == [op];
    } else {
      assert (operations + [op])[1..] == operations[1..] + [op];
      ExcessesAppend(operations[1..], op, scope, unit);
    }
  }

  /** The accounting's figures are these sums. */
  lemma {:induction false} FiguresAre(operations: seq<Operation>, scope: Option<string>, unit: string)
    ensures Total(Spent, operations, scope, unit) == Uses(operations, scope, unit)
    ensures Total(Reserved, operations, scope, unit) == Holdings(operations, scope, unit)
    ensures Total(Overuse, operations, scope, unit) == Excesses(operations, scope, unit)
  {
    if operations != [] {
      var init, last := operations[..|operations| - 1], operations[|operations| - 1];
      assert operations == init + [last];
      FiguresAre(init, scope, unit);
      UsesAppend(init, last, scope, unit);
      HoldingsAppend(init, last, scope, unit);
      ExcessesAppend(init, last, scope, unit);
    }
  }

  /** A completed operation that used a unit beyond its reservation, or without one. */
  ghost predicate Overran(op: Operation) {
    op.completion.Some? && exists unit | unit in op.completion.value.result.usage ::
      unit !in op.reservation || op.completion.value.result.usage[unit] > op.reservation[unit]
  }

  lemma OverranIsBreached(st: State, op: Operation)
    requires OperationOk(st, op)
    ensures Overran(op) <==> Breached(op)
  {
    if op.completion.Some? {
      var done := op.completion.value;
      if Overran(op) {
        var unit :| unit in done.result.usage && (unit !in op.reservation || done.result.usage[unit] > op.reservation[unit]);
        assert unit in done.breaches;
      }
      if done.breaches != {} {
        var unit :| unit in done.breaches;
        assert Overran(op);
      }
    }
  }

  /** No work is admitted in the scope: an operation of it or of root overran, or some
      unit is charged beyond the project's allowance. */
  ghost predicate Closed(st: State, scope: string) {
    || (exists op | op in st.operations :: Overran(op) && (op.scope == scope || op.scope == ROOT))
    || (exists unit :: Charges(st.operations, None, unit) > Get(st.project.allowances, unit))
  }

  /** A reservation that cannot be admitted: the scope is closed, the project has not
      enough of some unit left, or the scope's cap has not. */
  ghost predicate Short(st: State, scope: string, reservation: Amounts) {
    || Closed(st, scope)
    || (exists unit | unit in reservation ::
          Charges(st.operations, None, unit) + reservation[unit] > Get(st.project.allowances, unit))
    || (scope in st.scopes && exists unit | unit in reservation && unit in st.scopes[scope] ::
          Charges(st.operations, Some(scope), unit) + reservation[unit] > st.scopes[scope][unit])
  }

  lemma ClosedIsBudget(st: State, scope: string)
    requires Inv(st)
    ensures BudgetOpen(st, scope) <==> !Closed(st, scope)
  {
    forall op | op in st.operations
      ensures Overran(op) <==> Breached(op)
    {
      assert OperationOk(st, op);
      OverranIsBreached(st, op);
    }
    forall unit
      ensures Available(st, None, unit) == Get(st.project.allowances, unit) - Charges(st.operations, None, unit)
    {
      FiguresAre(st.operations, None, unit);
    }
    if Closed(st, scope) {
      if op :| op in st.operations && Overran(op) && (op.scope == scope || op.scope == ROOT) {
        assert Breached(op) && In(op, scope);
      } else {
        var unit :| Charges(st.operations, None, unit) > Get(st.project.allowances, unit);
        assert Available(st, None, unit) < 0;
      }
    } else {
      forall op | op in st.operations
        ensures !(Breached(op) && In(op, scope))
      {
        assert Overran(op) <==> Breached(op);
      }
      forall unit
        ensures Available(st, None, unit) >= 0
      {
        assert Charges(st.operations, None, unit) <= Get(st.project.allowances, unit);
      }
    }
  }

  lemma ScopeCharge(st: State, scope: string, unit: string)
    ensures Charges(st.operations, Some(scope), unit) <= Charges(st.operations, None, unit)
  {
    FiguresAre(st.operations, None, unit);
    FiguresAre(st.operations, Some(scope), unit);
    ScopeShare(Spent, st.operations, Some(scope), unit);
    ScopeShare(Reserved, st.operations, Some(scope), unit);
  }

  lemma ShortIsUnaffordable(st: State, scope: string, reservation: Amounts)
    requires Inv(st) && ScopeKnown(st, scope) && reservation.Keys <= st.project.allowances.Keys
    ensures Short(st, scope, reservation)
       <==> !(BudgetOpen(st, scope) && Affords(st, None, reservation)
              && (scope != ROOT ==> Affords(st, Some(scope), reservation)))
  {
    ClosedIsBudget(st, scope);
    forall unit | unit in reservation
      ensures Available(st, None, unit) == Get(st.project.allowances, unit) - Charges(st.operations, None, unit)
      ensures Charges(st.operations, Some(scope), unit) <= Charges(st.operations, None, unit)
      ensures scope in st.scopes && unit in st.scopes[scope] ==>
        Available(st, Some(scope), unit) == st.scopes[scope][unit] - Charges(st.operations, Some(scope), unit)
      ensures scope in st.scopes && unit !in st.scopes[scope] ==>
        Available(st, Some(scope), unit) == Get(st.project.allowances, unit) - Charges(st.operations, Some(scope), unit)
    {
      FiguresAre(st.operations, None, unit);
      FiguresAre(st.operations, Some(scope), unit);
      ScopeCharge(st, scope, unit);
    }
  }

  /** The request is known to nobody yet and cites evidence of this project. */
  ghost predicate NewRequest(st: State, request: Request) {
    request.context == st.project && !Has(st.operations, request.origin.operationId) && OriginMatches(st, request.origin)
  }

  /** The request has a row, and cites evidence of this project. */
  ghost predicate KnownRequest(st: State, request: Request, row: nat) {
    row < |st.operations| && st.operations[row].request == request
    && request.context == st.project && OriginMatches(st, request.origin)
  }

  /** The request has an operation without an outcome. */
  ghost predicate IsOpen(st: State, request: Request) {
    exists row: nat :: KnownRequest(st, request, row) && st.operations[row].completion.None?
  }

  /** Its operation is dispatched, and has no outcome. */
  ghost predicate IsSent(st: State, request: Request) {
    exists row: nat ::
      KnownRequest(st, request, row) && st.operations[row].dispatch.Some? && st.operations[row].completion.None?
  }

  lemma KnownIsFound(st: State, request: Request, row: nat)
    requires Inv(st) && KnownRequest(st, request, row)
    ensures Lookup(st, request) == Ok(Some(row))
  {
    assert st.operations[row].Id() == request.origin.operationId;
  }

  lemma FoundIsKnown(st: State, request: Request)
    requires Lookup(st, request).Ok? && Lookup(st, request).value.Some?
    ensures KnownRequest(st, request, Lookup(st, request).value.value)
  {
  }

  /** What a reservation may be made with: an open session, a known scope and units
      the project has an allowance for. */
  predicate Reservable(st: State, session: string, reservation: Amounts, scope: string) {
    session in st.sessions && (scope == ROOT || scope in st.scopes) && reservation.Keys <= st.project.allowances.Keys
  }

  /** The reservation is in the scope's books: with it no unit it names is charged
      beyond the project's allowance or beyond the scope's cap. */
  ghost predicate Fits(st: State, scope: string, reservation: Amounts) {
    && (forall unit :: Charges(st.operations, None, unit) <= Get(st.project.allowances, unit))
    && (forall unit | unit in reservation && scope in st.scopes && unit in st.scopes[scope] ::
          Charges(st.operations, Some(scope), unit) <= st.scopes[scope][unit])
  }

  /** A new request is reserved exactly when the reservation is not short, refused for
      the budget exactly when it is, and a known one answers its own row. */
  lemma ReserveDecides(st: State, session: string, request: Request, reservation: Amounts, scope: string)
    requires Inv(st)
    ensures var step := Reserve(st, session, request, reservation, scope);
      && (step.out == Err(BudgetExceeded) <==>
            NewRequest(st, request) && Reservable(st, session, reservation, scope) && Short(st, scope, reservation))
      && (step.out.Ok? && step.st != st <==>
            NewRequest(st, request) && Reservable(st, session, reservation, scope) && !Short(st, scope, reservation))
      && (step.st != st ==>
            && step.out == Ok(Operation(request, session, reservation, None, None, scope))
            && step.st == st.(operations := st.operations + [step.out.value]))
      && (step.out.Ok? && step.st == st ==> exists row: nat ::
            && KnownRequest(st, request, row)
            && step.out.value == st.operations[row] && step.out.value.reservation == reservation
            && step.out.value.scope == scope)
  {
    if Reservable(st, session, reservation, scope) {
      ShortIsUnaffordable(st, scope, reservation);
    }
    var step := Reserve(st, session, request, reservation, scope);
    if step.out.Ok? && Has(st.operations, request.origin.operationId) {
      FoundIsKnown(st, request);
      assert KnownRequest(st, request, Lookup(st, request).value.value);
    }
    assert |(st.operations + [Operation(request, session, reservation, None, None, scope)])| > |st.operations|;
  }

  /** A reservation that was admitted fits. */
  lemma ReservedFits(st: State, session: string, request: Request, reservation: Amounts, scope: string)
    requires Inv(st) && Reserve(st, session, request, reservation, scope).st != st
    ensures Fits(Reserve(st, session, request, reservation, scope).st, scope, reservation)
  {
    ReserveDecides(st, session, request, reservation, scope);
    var later := Reserve(st, session, request, reservation, scope).st;
    var op := Operation(request, session, reservation, None, None, scope);
    forall unit
      ensures Charges(later.operations, None, unit) == Charges(st.operations, None, unit) + Get(reservation, unit)
      ensures Charges(later.operations, Some(scope), unit) == Charges(st.operations, Some(scope), unit) + Get(reservation, unit)
      ensures Charges(st.operations, None, unit) <= Get(st.project.allowances, unit)
    {
      UsesAppend(st.operations, op, None, unit);
      HoldingsAppend(st.operations, op, None, unit);
      UsesAppend(st.operations, op, Some(scope), unit);
      HoldingsAppend(st.operations, op, Some(scope), unit);
    }
  }

  /** An operation of unknown outcome in the scope or in root. */
  ghost predicate Awaits(st: State, scope: string) {
    exists op | op in st.operations ::
      op.dispatch.Some? && op.completion.None? && (op.scope == scope || op.scope == ROOT)
  }

  /** A pending operation whose scope neither awaits an outcome nor is closed. */
  ghost predicate Dispatchable(st: State, session: string, request: Request, row: nat) {
    && session in st.sessions && KnownRequest(st, request, row)
    && st.operations[row].dispatch.None? && st.operations[row].completion.None?
    && !Awaits(st, st.operations[row].scope) && !Closed(st, st.operations[row].scope)
  }

  /** The dispatch marker set on one operation, and nothing else. */
  function Marked(st: State, session: string, row: nat): State
    requires row < |st.operations|
  {
    st.(operations := st.operations[row := st.operations[row].(dispatch := Some(Dispatch(session, st.clock)))],
        clock := st.clock + 1)
  }

  lemma BeginAt(st: State, session: string, request: Request, row: nat)
    requires Inv(st) && KnownRequest(st, request, row)
    ensures var step := Begin(st, session, request);
      if Dispatchable(st, session, request, row) then step == Step(Marked(st, session, row), Ok(true))
      else step.st == st && step.out != Ok(true)
           && (step.out == Ok(false) ==> !st.operations[row].Pending())
  {
    var scope := st.operations[row].scope;
    KnownIsFound(st, request, row);
    ClosedIsBudget(st, scope);
    assert Awaits(st, scope) <==> exists other | other in st.operations :: other.Unknown() && In(other, scope);
  }

  /** A dispatch marker is set exactly for a dispatchable operation, and nothing else
      changes. */
  lemma BeginDecides(st: State, session: string, request: Request)
    requires Inv(st)
    ensures forall row: nat | Dispatchable(st, session, request, row) ::
      Begin(st, session, request) == Step(Marked(st, session, row), Ok(true))
    ensures (forall row: nat :: !Dispatchable(st, session, request, row)) ==>
      Begin(st, session, request).st == st && Begin(st, session, request).out != Ok(true)
  {
    forall row: nat | Dispatchable(st, session, request, row)
      ensures Begin(st, session, request) == Step(Marked(st, session, row), Ok(true))
    {
      BeginAt(st, session, request, row);
    }
    if Lookup(st, request).Ok? && Lookup(st, request).value.Some? {
      FoundIsKnown(st, request);
      BeginAt(st, session, request, Lookup(st, request).value.value);
    }
  }

  /** A scope opens exactly in a known session, under a proper name, with caps in units of
      the project, unless it is open with others; opening it again changes nothing. */
  lemma OpenScopeDecides(st: State, session: string, scope: string, caps: Amounts)
    ensures var step, proper := OpenScope(st, session, scope, caps),
                session in st.sessions && ScopeName(scope) && forall unit | unit in caps :: unit in st.project.allowances;
      && (step.out.Ok? <==> proper && (scope in st.scopes ==> st.scopes[scope] == caps))
      && (step.out == Err(Conflict) <==> proper && scope in st.scopes && st.scopes[scope] != caps)
      && step.st == if step.out.Ok? then st.(scopes := st.scopes[scope := caps]) else st
  {
    if scope in st.scopes && st.scopes[scope] == caps {
      assert st.scopes[scope := caps] == st.scopes;
    }
  }

  /** Output is captured exactly in a known session, when it is named, not empty and cites
      what is there; the capture is the next one, and holds exactly what was given. */
  lemma RecordDecides(st: State, session: string, origin: Origin, raw: Artifacts, supersedes: Option<nat>)
    requires Inv(st)
    ensures var step := Record(st, session, origin, raw, supersedes);
      && (step.out.Ok? <==>
            && session in st.sessions && OriginMatches(st, origin)
            && (exists name :: name in raw) && (forall name | name in raw :: !Blank(name))
            && (supersedes.Some? ==> exists o | o in st.observations :: o.sequence == supersedes.value))
      && (step.out.Ok? ==>
            && step.out.value == Observation(|st.observations| + 1, session, origin, raw, supersedes)
            && step.st == st.(observations := st.observations + [step.out.value]))
      && (step.out.Err? ==> step.st == st)
  {
    assert raw == map[] <==> !exists name :: name in raw;
    if supersedes.Some? {
      if o :| o in st.observations && o.sequence == supersedes.value {
        var k :| 0 <= k < |st.observations| && st.observations[k] == o;
        assert ObservationOk(st, k);
      }
      if 0 < supersedes.value <= |st.observations| {
        assert ObservationOk(st, supersedes.value - 1);
        assert st.observations[supersedes.value - 1] in st.observations;
      }
    }
  }

  /** An ID that another request has, or a request of another project, conflicts with every
      transaction and changes nothing. */
  lemma OtherConflicts(st: State, session: string, request: Request, other: Operation)
    requires Inv(st) && session in st.sessions
    requires request.context != st.project
             || (other in st.operations && other.Id() == request.origin.operationId && other.request != request)
    ensures forall reservation, scope | ScopeKnown(st, scope) ::
      Reserve(st, session, request, reservation, scope) == Step(st, Err(Conflict))
    ensures Begin(st, session, request) == Step(st, Err(Conflict))
    ensures forall result, raw | raw != map[] && NamesOk(raw) ::
      Complete(st, session, request, result, raw) == Step(st, Err(Conflict))
  {
    if request.context == st.project {
      var k :| 0 <= k < |st.operations| && st.operations[k] == other;
      assert Find(st.operations, request.origin.operationId) == Some(k);
    }
  }

  /** What can be recorded as the outcome of an operation: some output, under names, and
      usage of at least every unit it reserved. */
  predicate Acceptable(op: Operation, result: Result, raw: Artifacts) {
    raw != map[] && NamesOk(raw) && op.reservation.Keys <= result.usage.Keys
  }

  /** A dispatched operation without an outcome gets exactly the one given, if that can be
      recorded, and nothing else changes. */
  lemma CompleteDecides(st: State, session: string, request: Request, result: Result, raw: Artifacts, row: nat)
    requires Inv(st) && session in st.sessions && KnownRequest(st, request, row)
    requires st.operations[row].dispatch.Some? && st.operations[row].completion.None?
    ensures var step := Complete(st, session, request, result, raw);
      if !Acceptable(st.operations[row], result, raw) then step == Step(st, Err(InvalidInput))
      else
        && step.out.Ok? && step.out.value.result == result && step.out.value.observation.artifacts == raw
        && step.out.value.observation.origin == request.origin
        && step.st == st.(observations := st.observations + [step.out.value.observation],
                          operations := st.operations[row := st.operations[row].(completion := Some(step.out.value))])
  {
    KnownIsFound(st, request, row);
  }
}
