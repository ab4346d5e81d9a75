/** What each ledger transaction does, as a function of the committed state.

    Every transaction either commits its whole change or none of it, so a crash is
    the absence of a step: it loses nothing committed. */
module LedgerSpec {
  import opened Records
  import opened Names

  const ROOT: string := "root"

  datatype State = State(
    project: Project,
    sessions: set<string>,
    scopes: map<string, Amounts>,
    operations: seq<Operation>,
    observations: seq<Observation>,
    clock: nat)

  function Init(project: Project): State {
    State(project, {}, map[], [], [], 0)
  }

  // ---- Evidence ----

  /** The artifact an input name stands for: a snapshot, else a committed capture. */
  function Resolve(st: State, name: string): Option<ArtifactRef> {
    if name in st.project.snapshots then Some(st.project.snapshots[name])
    else
      match ParseName(name)
      case None => None
      case Some((sequence, channel)) =>
        if 0 < sequence <= |st.observations| && channel in st.observations[sequence - 1].artifacts
        then Some(st.observations[sequence - 1].artifacts[channel])
        else None
  }

  predicate OriginMatches(st: State, origin: Origin) {
    forall name | name in origin.inputs :: Resolve(st, name) == Some(origin.inputs[name])
  }

  // ---- Operations ----

  predicate Has(operations: seq<Operation>, id: OpId) {
    exists i | 0 <= i < |operations| :: operations[i].Id() == id
  }

  /** The row holding an operation ID. */
  ghost function Find(operations: seq<Operation>, id: OpId): (row: Option<nat>)
    ensures row.None? <==> !Has(operations, id)
    ensures row.Some? ==> row.value < |operations| && operations[row.value].Id() == id
  {
    if Has(operations, id) then
      var i :| 0 <= i < |operations| && operations[i].Id() == id;
      Some(i)
    else None
  }

  /** Match exact identity before returning reusable work. */
  ghost function Lookup(st: State, request: Request): Outcomes<Option<nat>> {
    if request.context != st.project then Err(Conflict)
    else
      var row := Find(st.operations, request.origin.operationId);
      if row.Some? && st.operations[row.value].request != request then Err(Conflict)
      else if !OriginMatches(st, request.origin) then Err(InvalidInput)
      else Ok(row)
  }

  // ---- Accounting ----

  datatype Figure = Spent | Reserved | Overuse | Committed

  function Min(a: nat, b: nat): nat {
    if a < b then a else b
  }

  /** What one operation adds to a figure. `Overuse` is the usage beyond the
      reservation, and `Committed` is what was admitted and not given back. */
  function Amount(figure: Figure, op: Operation, unit: string): nat {
    var held := Get(op.reservation, unit);
    match op.completion
    case None =>
      if figure.Reserved? || figure.Committed? then held else 0
    case Some(completion) =>
      var used := Get(completion.result.usage, unit);
      match figure
      case Spent => used
      case Reserved => 0
      case Overuse => used - Min(used, held)
      case Committed => Min(used, held)
  }

  predicate Counts(op: Operation, scope: Option<string>) {
    scope.None? || op.scope == scope.value
  }

  /** A figure over the whole project, or over one scope's own operations. */
  function Total(figure: Figure, operations: seq<Operation>, scope: Option<string>, unit: string): nat {
    if operations == [] then 0
    else
      var last := operations[|operations| - 1];
      Total(figure, operations[..|operations| - 1], scope, unit)
      + if Counts(last, scope) then Amount(figure, last, unit) else 0
  }

  predicate ScopeKnown(st: State, scope: string) {
    scope == ROOT || scope in st.scopes
  }

  /** A scope's limit is its cap, or the project allowance when it has none. */
  function Limit(st: State, scope: Option<string>, unit: string): nat
    requires scope.Some? ==> ScopeKnown(st, scope.value)
  {
    if unit !in st.project.allowances then 0
    else if scope.Some? && scope.value != ROOT && unit in st.scopes[scope.value] then
      st.scopes[scope.value][unit]
    else st.project.allowances[unit]
  }

  function Available(st: State, scope: Option<string>, unit: string): int
    requires scope.Some? ==> ScopeKnown(st, scope.value)
  {
    Limit(st, scope, unit)
    - Total(Spent, st.operations, scope, unit)
    - Total(Reserved, st.operations, scope, unit)
  }

  predicate In(op: Operation, scope: string) {
    op.scope == scope || op.scope == ROOT
  }

  predicate Breached(op: Operation) {
    op.completion.Some? && op.completion.value.breaches != {}
  }

  ghost predicate BudgetOpen(st: State, scope: string) {
    && (forall op | op in st.operations :: !(Breached(op) && In(op, scope)))
    && (forall unit :: Available(st, None, unit) >= 0)
  }

  predicate Affords(st: State, scope: Option<string>, reservation: Amounts)
    requires scope.Some? ==> ScopeKnown(st, scope.value)
  {
    forall unit | unit in reservation :: reservation[unit] <= Available(st, scope, unit)
  }

  function Breaches(reservation: Amounts, result: Result): set<string> {
    set unit | unit in result.usage
             && (unit !in reservation || result.usage[unit] > reservation[unit])
  }

  // ---- Transactions ----

  datatype Step<+T> = Step(st: State, out: Outcomes<T>)

  predicate Alphanumeric(c: char) {
    'a' <= c <= 'z' || 'A' <= c <= 'Z' || IsDigit(c)
  }

  predicate ScopeName(name: string) {
    && 1 <= |name| <= 201 && name != ROOT
    && Alphanumeric(name[0])
    && forall c | c in name[1..] :: Alphanumeric(c) || c in "_.:/-"
  }

  function StartSession(st: State, id: string): Step<string> {
    if id in st.sessions then Step(st, Err(InvalidInput))
    else Step(st.(sessions := st.sessions + {id}), Ok(id))
  }

  function OpenScope(st: State, session: string, scope: string, caps: Amounts): Step<()> {
    if !ScopeName(scope) || !(caps.Keys <= st.project.allowances.Keys) || session !in st.sessions then
      Step(st, Err(InvalidInput))
    else if scope in st.scopes then
      Step(st, if st.scopes[scope] == caps then Ok(()) else Err(Conflict))
    else Step(st.(scopes := st.scopes[scope := caps]), Ok(()))
  }

  function Capture(st: State, session: string, origin: Origin, raw: Artifacts, supersedes: Option<nat>): Observation {
    Observation(|st.observations| + 1, session, origin, raw, supersedes)
  }

  function Record(st: State, session: string, origin: Origin, raw: Artifacts, supersedes: Option<nat>): Step<Observation> {
    if raw == map[] || !NamesOk(raw) || session !in st.sessions
      || (supersedes.Some? && !(0 < supersedes.value <= |st.observations|))
      || !OriginMatches(st, origin)
    then Step(st, Err(InvalidInput))
    else
      var capture := Capture(st, session, origin, raw, supersedes);
      Step(st.(observations := st.observations + [capture]), Ok(capture))
  }

  ghost function Reserve(st: State, session: string, request: Request, reservation: Amounts, scope: string): Step<Operation> {
    if session !in st.sessions || !ScopeKnown(st, scope) then Step(st, Err(InvalidInput))
    else
      match Lookup(st, request)
      case Err(error) => Step(st, Err(error))
      case Ok(Some(row)) =>
        var existing := st.operations[row];
        if existing.reservation != reservation || existing.scope != scope then Step(st, Err(Conflict))
        else Step(st, Ok(existing))
      case Ok(None) =>
        if !(reservation.Keys <= st.project.allowances.Keys) then Step(st, Err(InvalidInput))
        else if !BudgetOpen(st, scope) || !Affords(st, None, reservation)
             || (scope != ROOT && !Affords(st, Some(scope), reservation)) then
          Step(st, Err(BudgetExceeded))
        else
          var op := Operation(request, session, reservation, None, None, scope);
          Step(st.(operations := st.operations + [op]), Ok(op))
  }

  /** Commit the dispatch marker. Only a true result permits execution. */
  ghost function Begin(st: State, session: string, request: Request): Step<bool> {
    if session !in st.sessions then Step(st, Err(InvalidInput))
    else
      match Lookup(st, request)
      case Err(error) => Step(st, Err(error))
      case Ok(None) => Step(st, Err(InvalidInput))
      case Ok(Some(row)) =>
        var op := st.operations[row];
        if !op.Pending() then Step(st, Ok(false))
        else if exists other | other in st.operations :: other.Unknown() && In(other, op.scope) then
          Step(st, Err(UnknownOutcome))
        else if !BudgetOpen(st, op.scope) then Step(st, Err(BudgetExceeded))
        else
          var sent := op.(dispatch := Some(Dispatch(session, st.clock)));
          Step(st.(operations := st.operations[row := sent], clock := st.clock + 1), Ok(true))
  }

  /** Capture evidence and settle usage together; never dispatch or retry. */
  ghost function Complete(st: State, session: string, request: Request, result: Result, raw: Artifacts): Step<Completion> {
    if raw == map[] || !NamesOk(raw) || session !in st.sessions then Step(st, Err(InvalidInput))
    else
      match Lookup(st, request)
      case Err(error) => Step(st, Err(error))
      case Ok(None) => Step(st, Err(InvalidInput))
      case Ok(Some(row)) =>
        var op := st.operations[row];
        if op.Pending() then Step(st, Err(InvalidInput))
        else if op.completion.Some? then
          var done := op.completion.value;
          if done.result != result || done.observation.artifacts != raw then Step(st, Err(Conflict))
          else Step(st, Ok(done))
        else if !(op.reservation.Keys <= result.usage.Keys) then Step(st, Err(InvalidInput))
        else
          var capture := Capture(st, session, request.origin, raw, None);
          var done := Completion(capture, result, Breaches(op.reservation, result));
          Step(st.(observations := st.observations + [capture],
                   operations := st.operations[row := op.(completion := Some(done))]),
               Ok(done))
  }

  // ---- Runs ----

  datatype Event =
    | StartSessionEvent(id: string)
    | OpenScopeEvent(session: string, scope: string, caps: Amounts)
    | RecordEvent(session: string, origin: Origin, raw: Artifacts, supersedes: Option<nat>)
    | ReserveEvent(session: string, request: Request, reservation: Amounts, scope: string)
    | BeginEvent(session: string, request: Request)
    | CompleteEvent(session: string, request: Request, result: Result, raw: Artifacts)

  ghost function Next(st: State, event: Event): State {
    match event
    case StartSessionEvent(id) => StartSession(st, id).st
    case OpenScopeEvent(session, scope, caps) => OpenScope(st, session, scope, caps).st
    case RecordEvent(session, origin, raw, supersedes) => Record(st, session, origin, raw, supersedes).st
    case ReserveEvent(session, request, reservation, scope) => Reserve(st, session, request, reservation, scope).st
    case BeginEvent(session, request) => Begin(st, session, request).st
    case CompleteEvent(session, request, result, raw) => Complete(st, session, request, result, raw).st
  }

  /** The state after a run of transactions, by any sessions, crashed or not. */
  ghost function Run(st: State, events: seq<Event>): State {
    if events == [] then st
    else Next(Run(st, events[..|events| - 1]), events[|events| - 1])
  }
}
