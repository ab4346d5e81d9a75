/** What the ledger promises over whole runs: any number of sessions, crashes and
    resumes, in any order. */
module LedgerSafety {
  import opened Records
  import opened Names
  import opened LedgerSpec
  import opened LedgerInvariant
  import opened LedgerBudget

  // ---- Budgets ----

  /** The event opened the scope with the caps, or found it open with the same ones. */
  ghost predicate Opens(project: Project, events: seq<Event>, k: nat, scope: string, caps: Amounts)
    requires k < |events|
  {
    events[k].OpenScopeEvent? && events[k].scope == scope && events[k].caps == caps
    && OpenScope(Run(Init(project), events[..k]), events[k].session, scope, caps).out == Ok(())
  }

  /** A scope is in force with exactly the caps it was opened with: the first opening
      fixes them, and no later one of other caps succeeds. */
  lemma ScopesAreOpened(project: Project, events: seq<Event>, scope: string, caps: Amounts)
    ensures scope in Run(Init(project), events).scopes && Run(Init(project), events).scopes[scope] == caps
       <==> exists k | 0 <= k < |events| :: Opens(project, events, k, scope, caps)
  {
    if k :| 0 <= k < |events| && Opens(project, events, k, scope, caps) {
      RunPrefix(Init(project), events, k);
      RunExtends(Init(project), events, k + 1);
    }
    if scope in Run(Init(project), events).scopes && Run(Init(project), events).scopes[scope] == caps {
      OpenedBy(project, events, scope);
    }
  }

  lemma {:induction false} OpenedBy(project: Project, events: seq<Event>, scope: string)
    requires scope in Run(Init(project), events).scopes
    ensures exists k | 0 <= k < |events| :: Opens(project, events, k, scope, Run(Init(project), events).scopes[scope])
  {
    var n := |events| - 1;
    var init := events[..n];
    var before := Run(Init(project), init);
    if scope in before.scopes {
      OpenedBy(project, init, scope);
      NextExtends(before, events[n]);
      var k :| 0 <= k < |init| && Opens(project, init, k, scope, before.scopes[scope]);
      assert init[..k] == events[..k];
      assert Opens(project, events, k, scope, before.scopes[scope]);
    } else {
      assert Opens(project, events, n, scope, Run(Init(project), events).scopes[scope]);
    }
  }

  /** In every reachable state, what a unit is charged with exceeds the project's
      allowance, and a scope's cap, by no more than completed operations used beyond
      their reservations; a unit with no allowance is charged with nothing else. */
  lemma BudgetBound(project: Project, events: seq<Event>, unit: string)
    ensures var st := Run(Init(project), events);
      && Charges(st.operations, None, unit) <= Get(project.allowances, unit) + Excesses(st.operations, None, unit)
      && (forall scope | scope in st.scopes && unit in st.scopes[scope] ::
            Charges(st.operations, Some(scope), unit) <= st.scopes[scope][unit] + Excesses(st.operations, Some(scope), unit))
      && (forall scope | scope == ROOT || scope in st.scopes ::
            Charges(st.operations, Some(scope), unit) <= Get(project.allowances, unit) + Excesses(st.operations, Some(scope), unit))
  {
    var st := Run(Init(project), events);
    Reachable(project, events);
    CommittedPlusOveruse(st.operations, None, unit);
    FiguresAre(st.operations, None, unit);
    assert WithinLimit(st, None, unit);
    forall scope | ScopeKnown(st, scope)
      ensures WithinLimit(st, Some(scope), unit)
      ensures Charges(st.operations, Some(scope), unit)
           == Total(Committed, st.operations, Some(scope), unit) + Excesses(st.operations, Some(scope), unit)
      ensures Total(Committed, st.operations, Some(scope), unit) <= Total(Committed, st.operations, None, unit)
    {
      CommittedPlusOveruse(st.operations, Some(scope), unit);
      FiguresAre(st.operations, Some(scope), unit);
      ScopeShare(Committed, st.operations, Some(scope), unit);
    }
  }

  lemma {:induction false} NoExcess(operations: seq<Operation>, scope: Option<string>, unit: string)
    requires forall op | op in operations && Within(op, scope) :: !Overran(op)
    ensures Excesses(operations, scope, unit) == 0
  {
    if operations != [] {
      assert operations[0] in operations;
      NoExcess(operations[1..], scope, unit);
    }
  }

  /** With no breach recorded for its operations, the project stays within its
      allowances and a scope within its caps. */
  lemma NoBreachNoExcess(project: Project, events: seq<Event>, scope: Option<string>, unit: string)
    requires forall op | op in Run(Init(project), events).operations && Within(op, scope) && op.completion.Some? ::
      op.completion.value.breaches == {}
    ensures var st := Run(Init(project), events);
      match scope
      case None => Charges(st.operations, None, unit) <= Get(project.allowances, unit)
      case Some(name) => name in st.scopes && unit in st.scopes[name] ==>
        Charges(st.operations, Some(name), unit) <= st.scopes[name][unit]
  {
    var st := Run(Init(project), events);
    Reachable(project, events);
    forall op | op in st.operations && Within(op, scope)
      ensures !Overran(op)
    {
      assert OperationOk(st, op);
      OverranIsBreached(st, op);
    }
    NoExcess(st.operations, scope, unit);
    BudgetBound(project, events, unit);
  }

  /** Charging an unknown operation its full reservation moves the same amount from
      reserved to spent, in every scope and unit, and records no breach. */
  lemma FullChargeConserves(st: State, session: string, request: Request, result: Result, raw: Artifacts,
                            scope: Option<string>, unit: string)
    requires Inv(st) && Complete(st, session, request, result, raw).out.Ok?
    requires var row := Find(st.operations, request.origin.operationId);
      row.Some? && st.operations[row.value].Unknown() && result.usage == st.operations[row.value].reservation
    ensures var step := Complete(st, session, request, result, raw);
      && step.out.value.breaches == {}
      && Charges(step.st.operations, scope, unit) == Charges(st.operations, scope, unit)
      && Excesses(step.st.operations, scope, unit) == Excesses(st.operations, scope, unit)
  {
    var row := Find(st.operations, request.origin.operationId).value;
    var later := Complete(st, session, request, result, raw).st;
    var settled := later.operations[row];
    TotalUpdate(Spent, st.operations, row, settled, scope, unit);
    TotalUpdate(Reserved, st.operations, row, settled, scope, unit);
    TotalUpdate(Overuse, st.operations, row, settled, scope, unit);
    FiguresAre(st.operations, scope, unit);
    FiguresAre(later.operations, scope, unit);
  }

  // ---- Conservation across scopes ----

  function SumOverScopes(figure: Figure, operations: seq<Operation>, names: seq<string>, unit: string): nat {
    if names == [] then 0
    else
      SumOverScopes(figure, operations, names[..|names| - 1], unit)
      + Total(figure, operations, Some(names[|names| - 1]), unit)
  }

  ghost predicate Distinct<T(!new)>(items: seq<T>) {
    forall i, j | 0 <= i < j < |items| :: items[i] != items[j]
  }

  /** `names` lists root and every opened scope, each once, in any order. */
  ghost predicate Enumerates(names: seq<string>, st: State) {
    Distinct(names) && forall name :: name in names <==> ScopeKnown(st, name)
  }

  lemma {:induction false} SumWithOneMore(figure: Figure, operations: seq<Operation>, op: Operation, names: seq<string>, unit: string)
    requires Distinct(names)
    ensures SumOverScopes(figure, operations + [op], names, unit)
         == SumOverScopes(figure, operations, names, unit) + if op.scope in names then Amount(figure, op, unit) else 0
  {
    if names != [] {
      var init := names[..|names| - 1];
      assert names == init + [names[|names| - 1]];
      SumWithOneMore(figure, operations, op, init, unit);
      TotalAppend(figure, operations, op, Some(names[|names| - 1]), unit);
    }
  }

  lemma {:induction false} SumOverNothing(figure: Figure, names: seq<string>, unit: string)
    ensures SumOverScopes(figure, [], names, unit) == 0
  {
    if names != [] {
      SumOverNothing(figure, names[..|names| - 1], unit);
    }
  }

  lemma {:induction false} ScopesSumToProject(figure: Figure, operations: seq<Operation>, names: seq<string>, unit: string)
    requires Distinct(names) && forall op | op in operations :: op.scope in names
    ensures SumOverScopes(figure, operations, names, unit) == Total(figure, operations, None, unit)
  {
    if operations == [] {
      SumOverNothing(figure, names, unit);
    } else {
      var init, last := operations[..|operations| - 1], operations[|operations| - 1];
      assert operations == init + [last];
      ScopesSumToProject(figure, init, names, unit);
      SumWithOneMore(figure, init, last, names, unit);
    }
  }

  /** What the project spent and reserved is what its scopes did, unit by unit, also
      for units outside the allowances. */
  lemma Conservation(project: Project, events: seq<Event>, names: seq<string>, figure: Figure, unit: string)
    requires Enumerates(names, Run(Init(project), events))
    ensures var operations := Run(Init(project), events).operations;
      SumOverScopes(figure, operations, names, unit) == Total(figure, operations, None, unit)
  {
    var st := Run(Init(project), events);
    Reachable(project, events);
    forall op | op in st.operations
      ensures op.scope in names
    {
      assert OperationOk(st, op);
    }
    ScopesSumToProject(figure, st.operations, names, unit);
  }

  // ---- Lifecycle ----

  /** A later phase of the same operation: identity fixed, markers never lost. */
  predicate Advances(before: Operation, after: Operation) {
    && after.request == before.request
    && after.session == before.session
    && after.reservation == before.reservation
    && after.scope == before.scope
    && (before.dispatch.Some? ==> after.dispatch == before.dispatch)
    && (before.completion.Some? ==> after.completion == before.completion)
    && before.Phase() <= after.Phase()
  }

  ghost predicate Extends(before: State, after: State) {
    && after.project == before.project
    && before.sessions <= after.sessions
    && (forall scope | scope in before.scopes :: scope in after.scopes && after.scopes[scope] == before.scopes[scope])
    && before.observations <= after.observations
    && |before.operations| <= |after.operations|
    && (forall i | 0 <= i < |before.operations| :: Advances(before.operations[i], after.operations[i]))
  }

  lemma ExtendsTransitive(a: State, b: State, c: State)
    requires Extends(a, b) && Extends(b, c)
    ensures Extends(a, c)
  {
    forall i | 0 <= i < |a.operations|
      ensures Advances(a.operations[i], c.operations[i])
    {
      assert Advances(a.operations[i], b.operations[i]) && Advances(b.operations[i], c.operations[i]);
    }
  }

  lemma ReserveExtends(st: State, session: string, request: Request, reservation: Amounts, scope: string)
    ensures Extends(st, Reserve(st, session, request, reservation, scope).st)
  {
  }

  lemma BeginExtends(st: State, session: string, request: Request)
    ensures Extends(st, Begin(st, session, request).st)
  {
  }

  lemma CompleteExtends(st: State, session: string, request: Request, result: Result, raw: Artifacts)
    ensures Extends(st, Complete(st, session, request, result, raw).st)
  {
  }

  lemma NextExtends(st: State, event: Event)
    ensures Extends(st, Next(st, event))
  {
    match event
    case ReserveEvent(session, request, reservation, scope) => ReserveExtends(st, session, request, reservation, scope);
    case BeginEvent(session, request) => BeginExtends(st, session, request);
    case CompleteEvent(session, request, result, raw) => CompleteExtends(st, session, request, result, raw);
    case _ =>
  }

  lemma {:induction false} RunExtends(st: State, events: seq<Event>, k: nat)
    requires k <= |events|
    ensures Extends(Run(st, events[..k]), Run(st, events))
  {
    if k == |events| {
      assert events[..k] == events;
    } else {
      var init := events[..|events| - 1];
      RunExtends(st, init, k);
      assert init[..k] == events[..k];
      NextExtends(Run(st, init), events[|events| - 1]);
      ExtendsTransitive(Run(st, events[..k]), Run(st, init), Run(st, events));
    }
  }

  /** At this point of a run, the event grants permission to execute the operation. */
  ghost predicate Dispatches(st: State, event: Event, id: OpId) {
    event.BeginEvent? && event.request.origin.operationId == id
    && Begin(st, event.session, event.request).out == Ok(true)
  }

  lemma {:induction false} RunPrefix(st: State, events: seq<Event>, k: nat)
    requires k < |events|
    ensures Run(st, events[..k + 1]) == Next(Run(st, events[..k]), events[k])
  {
    assert events[..k + 1][..k] == events[..k];
  }

  /** Across all sessions of a run, an operation is dispatched at most once. */
  lemma DispatchedOnce(project: Project, events: seq<Event>, i: nat, j: nat, id: OpId)
    requires i < |events| && j < |events|
    requires Dispatches(Run(Init(project), events[..i]), events[i], id)
    requires Dispatches(Run(Init(project), events[..j]), events[j], id)
    ensures i == j
  {
    if i < j {
      DispatchedBefore(project, events, i, j, id);
    } else if j < i {
      DispatchedBefore(project, events, j, i, id);
    }
  }

  lemma DispatchedBefore(project: Project, events: seq<Event>, i: nat, j: nat, id: OpId)
    requires i < j < |events|
    requires Dispatches(Run(Init(project), events[..i]), events[i], id)
    ensures !Dispatches(Run(Init(project), events[..j]), events[j], id)
  {
    var at := Run(Init(project), events[..i]);
    var sent := Run(Init(project), events[..i + 1]);
    var later := Run(Init(project), events[..j]);
    RunPrefix(Init(project), events, i);
    assert events[..j][..i + 1] == events[..i + 1];
    RunExtends(Init(project), events[..j], i + 1);
    Reachable(project, events[..j]);
    NotAgain(at, sent, later, events[i], events[j], id);
  }

  lemma NotAgain(at: State, sent: State, later: State, event: Event, again: Event, id: OpId)
    requires Dispatches(at, event, id) && sent == Next(at, event)
    requires Extends(sent, later) && UniqueIds(later.operations)
    ensures !Dispatches(later, again, id)
  {
    var row := Find(at.operations, id).value;
    assert Advances(sent.operations[row], later.operations[row]);
    assert later.operations[row].Id() == id;
  }

  /** Completed operations name distinct captures, each with the operation's own
      origin, and record exactly the units used beyond or outside the reservation. */
  lemma CompletionsAreCaptures(project: Project, events: seq<Event>, i: nat, j: nat)
    requires var st := Run(Init(project), events);
      i < |st.operations| && j < |st.operations|
      && st.operations[i].completion.Some? && st.operations[j].completion.Some?
    ensures var st := Run(Init(project), events);
      var done, other := st.operations[i].completion.value, st.operations[j].completion.value;
      && 0 < done.observation.sequence <= |st.observations|
      && st.observations[done.observation.sequence - 1] == done.observation
      && done.observation.origin == st.operations[i].request.origin
      && (forall unit :: unit in done.breaches <==>
            unit in done.result.usage
            && (unit !in st.operations[i].reservation || done.result.usage[unit] > st.operations[i].reservation[unit]))
      && (done.observation.sequence == other.observation.sequence ==> i == j)
  {
    Reachable(project, events);
    var st := Run(Init(project), events);
    assert OperationOk(st, st.operations[i]);
  }

  // ---- Unknown outcomes ----

  /** A scope holds at most one unknown operation; when a run scope and root both
      hold one, root's was dispatched later. */
  lemma UnknownDiscipline(project: Project, events: seq<Event>, i: nat, j: nat)
    requires var operations := Run(Init(project), events).operations;
      i < |operations| && j < |operations| && operations[i].Unknown() && operations[j].Unknown()
    ensures var operations := Run(Init(project), events).operations;
      && (operations[i].scope == operations[j].scope ==> i == j)
      && (operations[i].scope == ROOT != operations[j].scope ==>
            operations[i].dispatch.value.at > operations[j].dispatch.value.at)
  {
    Reachable(project, events);
  }

  /** While an operation stays unknown, nothing is dispatched in a scope it blocks. */
  lemma UnknownBlocks(st: State, events: seq<Event>, row: nat, event: Event, id: OpId)
    requires row < |st.operations| && st.operations[row].Unknown()
    requires row < |Run(st, events).operations| && Run(st, events).operations[row].Unknown()
    requires Dispatches(Run(st, events), event, id)
    ensures var operations := Run(st, events).operations;
      var target := Find(operations, id).value;
      st.operations[row].scope != ROOT && st.operations[row].scope != operations[target].scope
  {
    var now := Run(st, events);
    RunExtends(st, events, 0);
    assert Run(st, events[..0]) == st;
    assert now.operations[row] in now.operations;
    assert Advances(st.operations[row], now.operations[row]);
  }

  // ---- Provenance ----

  /** Observation `n` takes an input from an earlier capture `m`. */
  ghost predicate Cites(st: State, n: nat, m: nat)
    requires 0 < n <= |st.observations|
  {
    exists name | name in st.observations[n - 1].origin.inputs ::
      name !in st.project.snapshots && ParseName(name).Some? && ParseName(name).value.0 == m
  }

  /** Every input is a project snapshot, or the exact channel of an earlier capture
      named by that capture's printed evidence name. */
  lemma InputsAreEarlier(project: Project, events: seq<Event>, n: nat, name: string)
    requires var st := Run(Init(project), events);
      0 < n <= |st.observations| && name in st.observations[n - 1].origin.inputs
    ensures var st := Run(Init(project), events);
      var artifact := st.observations[n - 1].origin.inputs[name];
      if name in st.project.snapshots then st.project.snapshots[name] == artifact
      else exists m, channel | 0 < m < n && channel in st.observations[m - 1].artifacts ::
             name == EvidenceName(m, channel) && st.observations[m - 1].artifacts[channel] == artifact
  {
    var st := Run(Init(project), events);
    Reachable(project, events);
    assert ObservationOk(st, n - 1);
    var before := st.(observations := st.observations[..n - 1]);
    assert Resolve(before, name) == Some(st.observations[n - 1].origin.inputs[name]);
    if name !in st.project.snapshots {
      PrintParsedName(name);
      var (m, channel) := ParseName(name).value;
      assert 0 < m < n && channel in st.observations[m - 1].artifacts;
    }
  }

  /** Operations cite committed evidence too, earlier than their own result. */
  lemma OperationInputsAreEarlier(project: Project, events: seq<Event>, i: nat, name: string)
    requires var st := Run(Init(project), events);
      i < |st.operations| && name in st.operations[i].request.origin.inputs && name !in st.project.snapshots
    ensures var st := Run(Init(project), events);
      var op := st.operations[i];
      var bound := if op.completion.Some? then op.completion.value.observation.sequence else |st.observations| + 1;
      exists m, channel | 0 < m < bound && m <= |st.observations| && channel in st.observations[m - 1].artifacts ::
        name == EvidenceName(m, channel) && st.observations[m - 1].artifacts[channel] == op.request.origin.inputs[name]
  {
    var st := Run(Init(project), events);
    Reachable(project, events);
    var op := st.operations[i];
    assert OperationOk(st, op);
    if op.completion.Some? {
      InputsAreEarlier(project, events, op.completion.value.observation.sequence, name);
    } else {
      assert Resolve(st, name) == Some(op.request.origin.inputs[name]);
      PrintParsedName(name);
      var (m, channel) := ParseName(name).value;
      assert m <= |st.observations| && channel in st.observations[m - 1].artifacts;
    }
  }

  /** A chain of citations descends strictly, so it is finite, and where it can go no
      further every input is a project snapshot. */
  lemma {:induction false} ChainsDescend(project: Project, events: seq<Event>, chain: seq<nat>)
    requires var st := Run(Init(project), events);
      && chain != []
      && (forall k | 0 <= k < |chain| :: 0 < chain[k] <= |st.observations|)
      && (forall k | 0 <= k < |chain| - 1 :: Cites(st, chain[k], chain[k + 1]))
    ensures |chain| <= chain[0]
    ensures forall k | 0 <= k < |chain| - 1 :: chain[k + 1] < chain[k]
    ensures var st := Run(Init(project), events);
      var last := chain[|chain| - 1];
      (forall m :: !Cites(st, last, m)) ==>
        forall name | name in st.observations[last - 1].origin.inputs ::
          name in st.project.snapshots && st.project.snapshots[name] == st.observations[last - 1].origin.inputs[name]
  {
    var st := Run(Init(project), events);
    if |chain| == 1 {
      var n := chain[0];
      forall name | name in st.observations[n - 1].origin.inputs && (forall m :: !Cites(st, n, m))
        ensures name in st.project.snapshots && st.project.snapshots[name] == st.observations[n - 1].origin.inputs[name]
      {
        InputsAreEarlier(project, events, n, name);
        if name !in st.project.snapshots {
          var m, channel :| 0 < m < n && channel in st.observations[m - 1].artifacts && name == EvidenceName(m, channel);
          Reachable(project, events);
          assert ObservationOk(st, m - 1);
          ParsePrintedName(m, channel);
          assert Cites(st, n, m);
        }
      }
    } else {
      var rest := chain[1..];
      forall k | 0 <= k < |rest| - 1
        ensures Cites(st, rest[k], rest[k + 1])
      {
        assert Cites(st, chain[k + 1], chain[k + 2]);
      }
      ChainsDescend(project, events, rest);
      CitationDescends(project, events, chain[0], chain[1]);
      forall k | 0 <= k < |chain| - 1
        ensures chain[k + 1] < chain[k]
      {
        if k > 0 {
          assert rest[k] < rest[k - 1];
        }
      }
    }
  }

  lemma CitationDescends(project: Project, events: seq<Event>, n: nat, m: nat)
    requires 0 < n <= |Run(Init(project), events).observations| && Cites(Run(Init(project), events), n, m)
    ensures 0 < m < n
  {
    var st := Run(Init(project), events);
    var name :| name in st.observations[n - 1].origin.inputs
                && name !in st.project.snapshots && ParseName(name).Some? && ParseName(name).value.0 == m;
    InputsAreEarlier(project, events, n, name);
    var k, channel :| 0 < k < n && channel in st.observations[k - 1].artifacts && name == EvidenceName(k, channel);
    Reachable(project, events);
    assert ObservationOk(st, k - 1);
    ParsePrintedName(k, channel);
  }
}
