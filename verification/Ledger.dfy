/** The ledger as the host uses it: an object whose methods update its tables in place. */
module LedgerStore {
  import opened Records
  import opened Names
  import Spec = LedgerSpec
  import opened LedgerInvariant
  import opened LedgerBudget
  import opened LedgerSafety

  datatype Balance = Balance(limit: nat, spent: nat, reserved: nat) {
    function Available(): int {
      limit - spent - reserved
    }
  }

  /** The units some counted completed operation used. */
  ghost function UsedUnits(operations: seq<Operation>, scope: Option<string>): set<string> {
    if operations == [] then {}
    else
      var last := operations[|operations| - 1];
      UsedUnits(operations[..|operations| - 1], scope)
      + if Spec.Counts(last, scope) && last.completion.Some? then last.completion.value.result.usage.Keys else {}
  }

  lemma {:induction false} UnusedUnit(operations: seq<Operation>, scope: Option<string>, unit: string)
    requires unit !in UsedUnits(operations, scope)
    ensures Spec.Total(Spec.Spent, operations, scope, unit) == 0
  {
    if operations != [] {
      UnusedUnit(operations[..|operations| - 1], scope, unit);
    }
  }

  lemma {:induction false} UnreservableUnit(st: Spec.State, operations: seq<Operation>, scope: Option<string>, unit: string)
    requires unit !in st.project.allowances
    requires forall op | op in operations :: OperationOk(st, op)
    ensures Spec.Total(Spec.Reserved, operations, scope, unit) == 0
  {
    if operations != [] {
      assert OperationOk(st, operations[|operations| - 1]);
      UnreservableUnit(st, operations[..|operations| - 1], scope, unit);
    }
  }

  lemma UsedOne(operations: seq<Operation>, op: Operation, scope: Option<string>)
    ensures UsedUnits(operations + [op], scope)
         == UsedUnits(operations, scope)
          + if Spec.Counts(op, scope) && op.completion.Some? then op.completion.value.result.usage.Keys else {}
  {
    assert (operations + [op])[..|operations|] == operations;
  }

  /** `totals` holds one figure of the operations, unit by unit. */
  ghost predicate Holds(totals: Amounts, figure: Spec.Figure, operations: seq<Operation>, scope: Option<string>) {
    forall unit :: Get(totals, unit) == Spec.Total(figure, operations, scope, unit)
  }

  ghost predicate AddsUp(sums: Amounts, totals: Amounts, amounts: Amounts) {
    forall unit :: Get(sums, unit) == Get(totals, unit) + Get(amounts, unit)
  }

  /** One turn of the accounting loop, whatever the operation's phase. */
  lemma AccountOne(figure: Spec.Figure, operations: seq<Operation>, op: Operation, scope: Option<string>,
                   totals: Amounts, sums: Amounts)
    requires figure.Spent? || figure.Reserved?
    requires Holds(totals, figure, operations, scope)
    requires var counted := Spec.Counts(op, scope);
      if counted && figure.Spent? && op.completion.Some? then AddsUp(sums, totals, op.completion.value.result.usage)
      else if counted && figure.Reserved? && op.completion.None? then AddsUp(sums, totals, op.reservation)
      else sums == totals
    ensures Holds(sums, figure, operations + [op], scope)
  {
    forall unit
      ensures Get(sums, unit) == Spec.Total(figure, operations + [op], scope, unit)
    {
      TotalAppend(figure, operations, op, scope, unit);
      assert Get(totals, unit) == Spec.Total(figure, operations, scope, unit);
    }
  }

  /** Add one dictionary of amounts into another, unit by unit. */
  method AddAmounts(totals: Amounts, amounts: Amounts) returns (sums: Amounts)
    ensures sums.Keys == totals.Keys + amounts.Keys
    ensures AddsUp(sums, totals, amounts)
  {
    sums := totals;
    var units := amounts.Keys;
    while units != {}
      invariant units <= amounts.Keys
      invariant forall unit :: unit in sums <==> unit in totals || (unit in amounts && unit !in units)
      invariant forall unit | unit in sums ::
        sums[unit] == Get(totals, unit) + if unit in units then 0 else Get(amounts, unit)
      decreases units
    {
      var unit :| unit in units;
      sums := sums[unit := Get(sums, unit) + amounts[unit]];
      units := units - {unit};
    }
  }

  /** One turn of the accounting loop, over the operations counted so far. */
  method CountOne(ghost counted: seq<Operation>, op: Operation, scope: Option<string>, spent: Amounts, reserved: Amounts)
    returns (newSpent: Amounts, newReserved: Amounts)
    requires Holds(spent, Spec.Spent, counted, scope) && Holds(reserved, Spec.Reserved, counted, scope)
    ensures Holds(newSpent, Spec.Spent, counted + [op], scope)
    ensures Holds(newReserved, Spec.Reserved, counted + [op], scope)
    ensures newSpent.Keys == spent.Keys
      + if Spec.Counts(op, scope) && op.completion.Some? then op.completion.value.result.usage.Keys else {}
    ensures newReserved.Keys == reserved.Keys
      + if Spec.Counts(op, scope) && op.completion.None? then op.reservation.Keys else {}
  {
    newSpent, newReserved := spent, reserved;
    if scope.None? || op.scope == scope.value {
      if op.completion.None? {
        newReserved := AddAmounts(reserved, op.reservation);
      } else {
        newSpent := AddAmounts(spent, op.completion.value.result.usage);
      }
    }
    AccountOne(Spec.Spent, counted, op, scope, spent, newSpent);
    AccountOne(Spec.Reserved, counted, op, scope, reserved, newReserved);
  }

  class Ledger {
    const project: Project
    /** Whether the process that has the ledger open may die between any two steps. */
    const mortal: bool
    var sessions: set<string>
    var scopes: map<string, Amounts>
    var operations: seq<Operation>
    var observations: seq<Observation>
    var clock: nat

    ghost function View(): Spec.State
      reads this
    {
      Spec.State(project, sessions, scopes, operations, observations, clock)
    }

    ghost predicate Valid()
      reads this
    {
      Inv(View())
    }

    constructor (project: Project, mortal: bool)
      ensures Valid() && View() == Spec.Init(project) && this.mortal == mortal
    {
      this.project, this.mortal := project, mortal;
      sessions, scopes, operations, observations, clock := {}, map[], [], [], 0;
      new;
      Reachable(project, []);
    }

    method StartSession(id: string) returns (out: Outcomes<string>)
      requires Valid()
      modifies this
      ensures Valid()
      ensures View() == Spec.StartSession(old(View()), id).st && out == Spec.StartSession(old(View()), id).out
    {
      StartSessionKeeps(View(), id);
      if id in sessions {
        return Err(InvalidInput);
      }
      sessions := sessions + {id};
      out := Ok(id);
    }

    method OpenScope(session: string, scope: string, caps: Amounts) returns (out: Outcomes<()>)
      requires Valid()
      modifies this
      ensures Valid()
      ensures View() == Spec.OpenScope(old(View()), session, scope, caps).st
      ensures out == Spec.OpenScope(old(View()), session, scope, caps).out
    {
      OpenScopeKeeps(View(), session, scope, caps);
      if !Spec.ScopeName(scope) || !(caps.Keys <= project.allowances.Keys) || session !in sessions {
        return Err(InvalidInput);
      }
      if scope in scopes {
        return if scopes[scope] != caps then Err(Conflict) else Ok(());
      }
      scopes := scopes[scope := caps];
      out := Ok(());
    }

    /** Whether each input is a matching snapshot or committed capture. */
    method CheckOrigin(origin: Origin) returns (matches: bool)
      ensures matches == Spec.OriginMatches(View(), origin)
    {
      var names := origin.inputs.Keys;
      while names != {}
        invariant names <= origin.inputs.Keys
        invariant forall name | name in origin.inputs && name !in names ::
          Spec.Resolve(View(), name) == Some(origin.inputs[name])
        decreases names
      {
        var name :| name in names;
        var expected: Option<ArtifactRef> := None;
        if name in project.snapshots {
          expected := Some(project.snapshots[name]);
        } else {
          var parsed := ParseName(name);
          if parsed.Some? {
            var (sequence, channel) := parsed.value;
            if 0 < sequence <= |observations| && channel in observations[sequence - 1].artifacts {
              expected := Some(observations[sequence - 1].artifacts[channel]);
            }
          }
        }
        if expected != Some(origin.inputs[name]) {
          return false;
        }
        names := names - {name};
      }
      return true;
    }

    method Record(session: string, origin: Origin, raw: Artifacts, supersedes: Option<nat>)
      returns (out: Outcomes<Observation>)
      requires Valid()
      modifies this
      ensures Valid()
      ensures View() == Spec.Record(old(View()), session, origin, raw, supersedes).st
      ensures out == Spec.Record(old(View()), session, origin, raw, supersedes).out
    {
      RecordKeeps(View(), session, origin, raw, supersedes);
      if raw == map[] || !NamesOk(raw) || session !in sessions {
        return Err(InvalidInput);
      }
      if supersedes.Some? && !(0 < supersedes.value <= |observations|) {
        return Err(InvalidInput);
      }
      var matches := CheckOrigin(origin);
      if !matches {
        return Err(InvalidInput);
      }
      var capture := Observation(|observations| + 1, session, origin, raw, supersedes);
      observations := observations + [capture];
      out := Ok(capture);
    }

    method FindRow(id: OpId) returns (row: Option<nat>)
      requires Valid()
      ensures row == Spec.Find(operations, id)
    {
      for i := 0 to |operations|
        invariant forall k | 0 <= k < i :: operations[k].Id() != id
      {
        if operations[i].Id() == id {
          return Some(i);
        }
      }
      return None;
    }

    method LookupRow(request: Request) returns (out: Outcomes<Option<nat>>)
      requires Valid()
      ensures out == Spec.Lookup(View(), request)
    {
      if request.context != project {
        return Err(Conflict);
      }
      var row := FindRow(request.origin.operationId);
      if row.Some? && operations[row.value].request != request {
        return Err(Conflict);
      }
      var matches := CheckOrigin(request.origin);
      out := if matches then Ok(row) else Err(InvalidInput);
    }

    /** The accounting loop: open reservations and settled usage, unit by unit. */
    method Totals(scope: Option<string>) returns (spent: Amounts, reserved: Amounts)
      requires forall op | op in operations :: op.reservation.Keys <= project.allowances.Keys
      ensures spent.Keys == project.allowances.Keys + UsedUnits(operations, scope)
      ensures reserved.Keys == project.allowances.Keys
      ensures Holds(spent, Spec.Spent, operations, scope)
      ensures Holds(reserved, Spec.Reserved, operations, scope)
    {
      spent := map unit | unit in project.allowances :: 0;
      reserved := spent;
      assert operations[..0] == [];
      for i := 0 to |operations|
        invariant spent.Keys == project.allowances.Keys + UsedUnits(operations[..i], scope)
        invariant reserved.Keys == project.allowances.Keys
        invariant Holds(spent, Spec.Spent, operations[..i], scope)
        invariant Holds(reserved, Spec.Reserved, operations[..i], scope)
      {
        assert operations[..i + 1] == operations[..i] + [operations[i]];
        UsedOne(operations[..i], operations[i], scope);
        spent, reserved := CountOne(operations[..i], operations[i], scope, spent, reserved);
      }
      assert operations[..|operations|] == operations;
    }

    /** Project totals, or one scope's balance against its caps: every allowed unit and
        every unit some counted operation used. */
    method Accounting(scope: Option<string>) returns (balances: map<string, Balance>)
      requires Valid() && (scope.Some? ==> Spec.ScopeKnown(View(), scope.value))
      ensures balances.Keys == project.allowances.Keys + UsedUnits(operations, scope)
      ensures forall unit | unit in balances ::
        && balances[unit].limit ==
             (if scope.Some? && scope.value in scopes && unit in scopes[scope.value] then scopes[scope.value][unit]
              else Get(project.allowances, unit))
        && balances[unit].spent == Uses(operations, scope, unit)
        && balances[unit].reserved == Holdings(operations, scope, unit)
    {
      var caps: Amounts := map[];
      if scope.Some? && scope.value != Spec.ROOT {
        caps := scopes[scope.value];
      }
      var limits: Amounts := map unit | unit in project.allowances ::
        if unit in caps then caps[unit] else project.allowances[unit];
      assert forall op | op in operations :: OperationOk(View(), op);
      var spent, reserved := Totals(scope);
      balances := map unit | unit in spent ::
        Balance(Get(limits, unit), spent[unit], Get(reserved, unit));
      forall unit | unit in spent
        ensures spent[unit] == Uses(operations, scope, unit) && Get(reserved, unit) == Holdings(operations, scope, unit)
      {
        FiguresAre(operations, scope, unit);
        assert spent[unit] == Get(spent, unit);
      }
    }

    /** Whether neither a breach in this scope or root, nor the project total, blocks. */
    method CheckBudget(scope: string) returns (open: bool)
      requires Valid()
      ensures open == Spec.BudgetOpen(View(), scope)
    {
      for i := 0 to |operations|
        invariant forall k | 0 <= k < i :: !(Spec.Breached(operations[k]) && Spec.In(operations[k], scope))
      {
        if Spec.Breached(operations[i]) && Spec.In(operations[i], scope) {
          assert operations[i] in operations;
          return false;
        }
      }
      var balances := Accounting(None);
      forall unit
        ensures Spec.Total(Spec.Spent, operations, None, unit) == Uses(operations, None, unit)
        ensures Spec.Total(Spec.Reserved, operations, None, unit) == Holdings(operations, None, unit)
      {
        FiguresAre(operations, None, unit);
      }
      open := forall unit | unit in balances :: balances[unit].Available() >= 0;
      if open {
        forall unit
          ensures Spec.Available(View(), None, unit) >= 0
        {
          if unit !in balances {
            UnusedUnit(operations, None, unit);
            UnreservableUnit(View(), operations, None, unit);
          }
        }
      } else {
        var unit :| unit in balances && balances[unit].Available() < 0;
        assert Spec.Available(View(), None, unit) < 0;
      }
    }

    method Affords(scope: Option<string>, reservation: Amounts) returns (affords: bool)
      requires Valid() && (scope.Some? ==> Spec.ScopeKnown(View(), scope.value))
      requires reservation.Keys <= project.allowances.Keys
      ensures affords == Spec.Affords(View(), scope, reservation)
    {
      var balances := Accounting(scope);
      forall unit
        ensures Spec.Total(Spec.Spent, operations, scope, unit) == Uses(operations, scope, unit)
        ensures Spec.Total(Spec.Reserved, operations, scope, unit) == Holdings(operations, scope, unit)
      {
        FiguresAre(operations, scope, unit);
      }
      affords := forall unit | unit in reservation :: reservation[unit] <= balances[unit].Available();
      if !affords {
        var unit :| unit in reservation && reservation[unit] > balances[unit].Available();
        assert reservation[unit] > Spec.Available(View(), scope, unit);
      }
    }

    /** Unknown operations that block dispatch in this scope: its own and root's. */
    method Unresolved(scope: string) returns (out: Outcomes<seq<Operation>>)
      requires Valid()
      ensures out.Err? <==> !Spec.ScopeKnown(View(), scope)
      ensures out.Ok? ==> forall op :: op in out.value <==> op in operations && op.Unknown() && Spec.In(op, scope)
    {
      if scope != Spec.ROOT && scope !in scopes {
        return Err(InvalidInput);
      }
      var found: seq<Operation> := [];
      for i := 0 to |operations|
        invariant forall op :: op in found <==> op in operations[..i] && op.Unknown() && Spec.In(op, scope)
      {
        if operations[i].Unknown() && Spec.In(operations[i], scope) {
          found := found + [operations[i]];
        }
        assert operations[..i + 1] == operations[..i] + [operations[i]];
      }
      out := Ok(found);
    }

    /** Reserve once. Repeated requests return existing state without dispatch. */
    method Reserve(session: string, request: Request, reservation: Amounts, scope: string)
      returns (out: Outcomes<Operation>)
      requires Valid()
      modifies this
      ensures Valid()
      ensures View() == Spec.Reserve(old(View()), session, request, reservation, scope).st
      ensures out == Spec.Reserve(old(View()), session, request, reservation, scope).out
      ensures out == Err(BudgetExceeded) ==> Short(old(View()), scope, reservation)
      ensures View() != old(View()) ==>
        !Short(old(View()), scope, reservation) && Fits(View(), scope, reservation)
    {
      ReserveKeeps(View(), session, request, reservation, scope);
      ReserveDecides(View(), session, request, reservation, scope);
      if Spec.Reserve(View(), session, request, reservation, scope).st != View() {
        ReservedFits(View(), session, request, reservation, scope);
      }
      if session !in sessions || (scope != Spec.ROOT && scope !in scopes) {
        return Err(InvalidInput);
      }
      var found := LookupRow(request);
      if found.Err? {
        return Err(found.error);
      }
      if found.value.Some? {
        var existing := operations[found.value.value];
        if existing.reservation != reservation || existing.scope != scope {
          return Err(Conflict);
        }
        return Ok(existing);
      }
      if !(reservation.Keys <= project.allowances.Keys) {
        return Err(InvalidInput);
      }
      var open := CheckBudget(scope);
      if !open {
        return Err(BudgetExceeded);
      }
      var affords := Affords(None, reservation);
      if affords && scope != Spec.ROOT {
        affords := Affords(Some(scope), reservation);
      }
      if !affords {
        return Err(BudgetExceeded);
      }
      var op := Operation(request, session, reservation, None, None, scope);
      operations := operations + [op];
      out := Ok(op);
    }

    /** Commit the dispatch marker. Only a true result permits execution. */
    method Begin(session: string, request: Request) returns (out: Outcomes<bool>)
      requires Valid()
      modifies this
      ensures Valid()
      ensures View() == Spec.Begin(old(View()), session, request).st && out == Spec.Begin(old(View()), session, request).out
      ensures out == Ok(true) <==> exists row: nat :: Dispatchable(old(View()), session, request, row)
    {
      BeginKeeps(View(), session, request);
      BeginDecides(View(), session, request);
      if session !in sessions {
        return Err(InvalidInput);
      }
      var found := LookupRow(request);
      if found.Err? {
        return Err(found.error);
      }
      if found.value.None? {
        return Err(InvalidInput);
      }
      var row := found.value.value;
      var op := operations[row];
      if !op.Pending() {
        return Ok(false);
      }
      for i := 0 to |operations|
        invariant forall k | 0 <= k < i :: !(operations[k].Unknown() && Spec.In(operations[k], op.scope))
      {
        if operations[i].Unknown() && Spec.In(operations[i], op.scope) {
          assert operations[i] in operations;
          return Err(UnknownOutcome);
        }
      }
      var open := CheckBudget(op.scope);
      if !open {
        return Err(BudgetExceeded);
      }
      operations := operations[row := op.(dispatch := Some(Dispatch(session, clock)))];
      clock := clock + 1;
      out := Ok(true);
    }

    /** Atomically capture evidence and settle usage; never dispatch or retry. */
    method Complete(session: string, request: Request, result: Result, raw: Artifacts)
      returns (out: Outcomes<Completion>)
      requires Valid()
      modifies this
      ensures Valid()
      ensures View() == Spec.Complete(old(View()), session, request, result, raw).st
      ensures out == Spec.Complete(old(View()), session, request, result, raw).out
      ensures out.Ok? ==> out.value.result == result && out.value.observation.artifacts == raw
    {
      CompleteKeeps(View(), session, request, result, raw);
      if raw == map[] || !NamesOk(raw) || session !in sessions {
        return Err(InvalidInput);
      }
      var found := LookupRow(request);
      if found.Err? {
        return Err(found.error);
      }
      if found.value.None? || operations[found.value.value].Pending() {
        return Err(InvalidInput);
      }
      var row := found.value.value;
      var op := operations[row];
      if op.completion.Some? {
        var done := op.completion.value;
        if done.result != result || done.observation.artifacts != raw {
          return Err(Conflict);
        }
        return Ok(done);
      }
      if !(op.reservation.Keys <= result.usage.Keys) {
        return Err(InvalidInput);
      }
      var capture := Observation(|observations| + 1, session, request.origin, raw, None);
      var done := Completion(capture, result, Spec.Breaches(op.reservation, result));
      observations := observations + [capture];
      operations := operations[row := op.(completion := Some(done))];
      out := Ok(done);
    }

    /** One transaction of any host. */
    method Apply(event: Spec.Event)
      requires Valid()
      modifies this
      ensures Valid() && View() == Spec.Next(old(View()), event)
    {
      match event {
        case StartSessionEvent(id) => var session := StartSession(id);
        case OpenScopeEvent(session, scope, caps) => var opening := OpenScope(session, scope, caps);
        case RecordEvent(session, origin, raw, supersedes) => var capture := Record(session, origin, raw, supersedes);
        case ReserveEvent(session, request, reservation, scope) => var reserved := Reserve(session, request, reservation, scope);
        case BeginEvent(session, request) => var begun := Begin(session, request);
        case CompleteEvent(session, request, result, raw) => var done := Complete(session, request, result, raw);
      }
    }
  }
}
