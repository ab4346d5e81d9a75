/** The host object that handles one batch, item by item. */
module OperationsHost {
  import opened Records
  import Spec = LedgerSpec
  import opened LedgerInvariant
  import opened LedgerBudget
  import opened LedgerSafety
  import opened LedgerStore
  import opened Calls
  import opened Evidences
  import Ordering
  import opened RecordOnce
  import opened Batches
  import opened OperationsSpec
  import opened OperationsReplay
  import opened OperationsSteps
  import opened OperationsRules
  import opened Touching

  /** Trusted domain code: any result, or an exception. What was executed and what it gave
      back outlive every crash. */
  class Executor {
    ghost var calls: seq<OpId>
    ghost var log: Executions

    method Execute(id: OpId, name: string, arguments: Json, files: map<string, Blob>) returns (produced: Option<Produced>)
      modifies this
      ensures calls == old(calls) + [id]
      ensures log == old(log)[id := Execution(name, arguments, files, produced)]
    {
      produced := *;
      calls := calls + [id];
      log := log[id := Execution(name, arguments, files, produced)];
    }
  }

  datatype Reaction = Showing(result: ItemResult) | Unsettled | Died

  /** How handling a batch ended: with every item shown, at an item that is not settled,
      or with the host's death. */
  datatype Ending = Whole | Partial | Dead

  function React(result: Option<ItemResult>): Reaction {
    if result.Some? then Showing(result.value) else Unsettled
  }

  /** Handles the batch printed by one tool attempt of one episode. */
  class Requests {
    const ledger: Ledger
    const executor: Executor
    const session: string
    const batch: Batch
    const offer: Offer
    const index: nat

    constructor (ledger: Ledger, executor: Executor, session: string, batch: Batch, offer: Offer, index: nat)
      ensures this.ledger == ledger && this.executor == executor && this.session == session && this.batch == batch
      ensures this.offer == offer && this.index == index
    {
      this.ledger, this.executor, this.session, this.batch := ledger, executor, session, batch;
      this.offer, this.index := offer, index;
    }

    ghost predicate Live()
      reads ledger, executor
    {
      && ledger.Valid() && session in ledger.sessions
      && BatchOk(ledger.View(), batch) && Called(executor.calls, ledger.View())
    }

    /** Capture an item's arguments, key and input names; once placed, they are there. */
    method Capture(i: nat, plan: Plan) returns (out: Outcomes<Observation>)
      requires Live() && Runs(batch, i) && plan == PlanOf(batch, i)
      modifies ledger
      ensures Live() && Touches(old(ledger.View()), ledger.View(), IdsAt(batch, i))
      ensures AddsPart(old(ledger.View()), ledger.View(), batch, i, Input) && ledger.scopes == old(ledger.scopes)
      ensures Placed(old(ledger.View()), batch, i) ==> out.Ok? && ledger.View() == old(ledger.View())
      ensures out.Ok? ==> InputIs(ledger.View(), batch, i, out.value)
      ensures out.Err? ==> InputIsTaken(ledger.View(), batch, i)
    {
      ghost var st := ledger.View();
      var origin, raw := InputOrigin(batch, i), InputRaw(plan);
      StepAddsPart(st, session, batch, i, Input, origin, raw);
      StepKeeps(st, session, origin, raw);
      PartIsOfItem(batch, i, Input);
      StepTouches(st, session, origin, raw, IdsAt(batch, i));
      StepEffect(st, session, origin, raw);
      CaptureOrTaken(st, session, batch, i);
      if Placed(st, batch, i) {
        PlacedInputIsThere(st, session, batch, i);
      }
      out := RecordOnce.Record(ledger, session, origin, raw);
      InputStepKeeps(st, ledger.View(), batch, i);
      StepExtends(st, session, origin, raw);
      CalledStays(executor.calls, st, ledger.View());
      if out.Ok? {
        OnlyCapture(ledger.View(), out.value.sequence - 1, origin, raw);
      }
    }

    /** The item's exact request, and its operation if it has one. */
    method Find(i: nat, plan: Plan, capture: Observation) returns (request: Request, out: Outcomes<Option<Operation>>)
      requires Live() && Runs(batch, i) && plan == PlanOf(batch, i) && InputIs(ledger.View(), batch, i, capture)
      ensures request == ItemRequest(batch, ledger.project, i, plan, capture)
      ensures Placed(ledger.View(), batch, i) ==> out.Ok?
      ensures out.Ok? ==> Ready(ledger.View(), batch, i, capture)
      ensures out.Err? ==> CitesMissing(ledger.View(), batch, i)
      ensures out.Ok? && out.value.Some? ==>
        && out.value.value in ledger.operations && out.value.value.Id() == ItemId(batch.base, i)
        && out.value.value.request == request
      ensures out == Ok(None) ==> !Spec.Has(ledger.operations, ItemId(batch.base, i))
    {
      request := ItemRequest(batch, ledger.project, i, plan, capture);
      if Placed(ledger.View(), batch, i) {
        PlacedIsFound(ledger.View(), batch, i, capture);
      }
      LookupOrMissing(ledger.View(), batch, i, capture);
      var looked := ledger.LookupRow(request);
      if looked.Err? {
        return request, Err(looked.error);
      }
      out := Ok(if looked.value.Some? then Some(ledger.operations[looked.value.value]) else None);
    }

    /** What the record says of an item, when it has a disposition. */
    method Replay(i: nat, plan: Plan, existing: Option<Operation>) returns (found: Option<Reaction>)
      requires Live() && Runs(batch, i) && plan == PlanOf(batch, i)
      requires existing.Some? ==> existing.value in ledger.operations && existing.value.Id() == ItemId(batch.base, i)
      requires existing.None? ==> !Spec.Has(ledger.operations, ItemId(batch.base, i))
      ensures found.None? <==> !Decided(ledger.View(), batch, i)
      ensures found.Some? ==> found.value == React(ResultOf(ledger.View(), batch, i))
    {
      assert ItemOk(ledger.View(), batch, i);
      if existing.Some? && existing.value.completion.Some? {
        CompletionIs(ledger.View(), existing.value);
        return Some(React(Seen(plan.name, existing.value.completion.value, None)));
      }
      OnlyCompletedHere(ledger.View(), existing, ItemId(batch.base, i));
      var reuse := FirstRecord(ledger.observations, PartId(batch.base, i, Reuse));
      if reuse.Some? {
        var source := ReuseSource(ledger.observations[reuse.value].artifacts).value;
        var row := ledger.FindRow(source);
        CompletionIs(ledger.View(), ledger.operations[row.value]);
        return Some(React(Seen(plan.name, ledger.operations[row.value].completion.value, Some(source))));
      }
      var refusal := FirstRecord(ledger.observations, PartId(batch.base, i, Refusal));
      if refusal.Some? {
        return Some(Showing(ItemResult(ledger.observations[refusal.value].artifacts[REFUSED].value, map[])));
      }
      return None;
    }

    /** Record something of an item that keeps the batch in order. */
    method RecordPart(ghost i: nat, origin: Origin, raw: Artifacts) returns (out: Outcomes<Observation>)
      requires Live() && origin.operationId in IdsAt(batch, i)
      requires BatchOk(RecordOnce.Step(ledger.View(), session, origin, raw).st, batch)
      modifies ledger
      ensures Live() && Touches(old(ledger.View()), ledger.View(), IdsAt(batch, i))
      ensures ledger.View() == RecordOnce.Step(old(ledger.View()), session, origin, raw).st
      ensures out == RecordOnce.Step(old(ledger.View()), session, origin, raw).out
    {
      ghost var st := ledger.View();
      StepTouches(st, session, origin, raw, IdsAt(batch, i));
      StepKeeps(st, session, origin, raw);
      out := RecordOnce.Record(ledger, session, origin, raw);
      CalledStays(executor.calls, st, ledger.View());
    }

    /** Record that the budget refuses this item, when it does. */
    method Refuse(i: nat, plan: Plan, ghost capture: Observation, reason: string) returns (out: Reaction)
      requires Live() && Undecided(ledger.View(), batch, i, capture) && plan == PlanOf(batch, i)
      requires if NoneRefused(ledger.View(), batch, i) then
                 reason == "budget exhausted" && Short(ledger.View(), ScopeFor(batch, plan), Asked(plan))
               else reason == "budget exhausted by an earlier item"
      modifies ledger
      ensures Live() && Touches(old(ledger.View()), ledger.View(), IdsAt(batch, i))
      ensures ByRule(old(ledger.View()), old(ledger.View()), ledger.View(), batch, i, executor.log, offer.size)
      ensures ledger.operations == old(ledger.operations)
      ensures out.Showing? && Shows(ledger.View(), batch, i, out.result)
    {
      ghost var st := ledger.View();
      var shown := RefusalShown(plan, reason);
      var origin, raw := RefusalOrigin(batch, i, plan), RefusalRaw(shown);
      RefusalStep(st, session, batch, i, capture, reason);
      PartIsOfItem(batch, i, Refusal);
      var refused := RecordPart(i, origin, raw);
      RefusalNews(st, ledger.View(), batch, i, executor.log, offer.size);
      out := Showing(ItemResult(shown, map[]));
    }

    /** The first operation on the ledger whose measured result the key may reuse. */
    method FindReusable(key: ArtifactRef) returns (found: Option<Operation>)
      ensures found.Some? ==>
        exists k | 0 <= k < |ledger.operations| ::
          && ledger.operations[k] == found.value && Reusable(found.value, key)
          && forall j | 0 <= j < k :: !Reusable(ledger.operations[j], key)
      ensures found.None? ==> forall op | op in ledger.operations :: !Reusable(op, key)
    {
      for k := 0 to |ledger.operations|
        invariant forall j | 0 <= j < k :: !Reusable(ledger.operations[j], key)
      {
        var op := ledger.operations[k];
        var cited := FindCited(op.request.origin.inputs, KEY);
        if op.request.origin.kind == OPERATION && cited == Some(key) && op.completion.Some?
          && op.completion.value.result.outcome != InfrastructureFailure
          && UNMEASURED !in op.completion.value.observation.artifacts {
          return Some(op);
        }
      }
      return None;
    }

    /** Reuse the first earlier measured result for the same key, if there is one. */
    method TryReuse(i: nat, plan: Plan, capture: Observation) returns (out: Option<Reaction>)
      requires Live() && Undecided(ledger.View(), batch, i, capture) && plan == PlanOf(batch, i)
      requires NoneRefused(ledger.View(), batch, i) && plan.declared.reusable
      modifies ledger
      ensures Live() && Touches(old(ledger.View()), ledger.View(), IdsAt(batch, i))
      ensures out.None? ==> ledger.View() == old(ledger.View()) && NoneReusable(ledger.View(), KeyBlob(plan))
      ensures out.Some? ==>
        ByRule(old(ledger.View()), old(ledger.View()), ledger.View(), batch, i, executor.log, offer.size)
      ensures ledger.operations == old(ledger.operations)
      ensures out.Some? && out.value.Showing? ==> Shows(ledger.View(), batch, i, out.value.result)
      ensures out == Some(Unsettled) ==> Hindered(ledger.View(), batch, i)
      ensures out.Some? ==> !out.value.Died?
    {
      var source := FindReusable(KeyBlob(plan));
      if source.None? {
        return None;
      }
      var reaction := RecordReuse(i, plan, capture, source.value);
      out := Some(reaction);
    }

    method RecordReuse(i: nat, plan: Plan, capture: Observation, source: Operation) returns (out: Reaction)
      requires Live() && Undecided(ledger.View(), batch, i, capture) && plan == PlanOf(batch, i)
      requires NoneRefused(ledger.View(), batch, i) && plan.declared.reusable
      requires source in ledger.operations && Reusable(source, KeyBlob(plan))
      requires FirstReusable(ledger.View(), KeyBlob(plan), source.Id())
      modifies ledger
      ensures Live() && Touches(old(ledger.View()), ledger.View(), IdsAt(batch, i))
      ensures ByRule(old(ledger.View()), old(ledger.View()), ledger.View(), batch, i, executor.log, offer.size)
      ensures ledger.operations == old(ledger.operations)
      ensures out.Showing? ==> Shows(ledger.View(), batch, i, out.result)
      ensures out.Unsettled? ==> Hindered(ledger.View(), batch, i)
      ensures !out.Died?
    {
      ghost var st := ledger.View();
      var origin, raw := ReuseOrigin(batch, i, plan, capture), ReuseRaw(source.Id());
      ReuseIsByRule(st, session, batch, i, capture, source, executor.log, offer.size);
      PartIsOfItem(batch, i, Reuse);
      var reused := RecordPart(i, origin, raw);
      out := if reused.Err? then Unsettled else React(Seen(plan.name, source.completion.value, Some(source.Id())));
    }

    /** Reserve an item's declared units in its scope, or in root when it is shared. */
    method Reserve(i: nat, plan: Plan, ghost capture: Observation, request: Request) returns (out: Outcomes<Operation>)
      requires Live() && Undecided(ledger.View(), batch, i, capture) && plan == PlanOf(batch, i)
      requires NoneRefused(ledger.View(), batch, i) && request == ItemRequest(batch, ledger.project, i, plan, capture)
      modifies ledger
      ensures Live() && Touches(old(ledger.View()), ledger.View(), IdsAt(batch, i))
      ensures out.Err? ==> ledger.View() == old(ledger.View())
      ensures out == Err(BudgetExceeded) ==> Short(ledger.View(), ScopeFor(batch, plan), Asked(plan))
      ensures out.Err? && out != Err(BudgetExceeded) ==> AsksBadly(ledger.View(), batch, i)
      ensures out.Ok? ==>
        && !Short(old(ledger.View()), ScopeFor(batch, plan), Asked(plan))
        && out.value == Operation(request, session, Asked(plan), None, None, ScopeFor(batch, plan))
        && ledger.View() == old(ledger.View()).(operations := old(ledger.operations) + [out.value])
    {
      var reservation := plan.declared.reservation(plan.arguments);
      if reservation == map[] || !(reservation.Keys <= plan.declared.units) {
        return Err(InvalidInput);
      }
      var scope := if plan.declared.shared then Spec.ROOT else batch.scope;
      ghost var st := ledger.View();
      ReserveStep(st, session, batch, i, capture, reservation, scope);
      ItemIsOfItem(batch, i);
      ReserveTouches(st, session, request, reservation, scope, IdsAt(batch, i));
      ReserveDecides(st, session, request, reservation, scope);
      out := ledger.Reserve(session, request, reservation, scope);
      CalledStays(executor.calls, st, ledger.View());
    }

    /** Dispatch a reserved item and record its result. An exception, or a crash, leaves its
        outcome unknown. */
    method Execute(i: nat, plan: Plan, request: Request) returns (out: Reaction)
      requires Live() && Runs(batch, i) && plan == PlanOf(batch, i) && request.origin.operationId == ItemId(batch.base, i)
      requires IsOpen(ledger.View(), request)
      modifies ledger, executor
      ensures Live() && Touches(old(ledger.View()), ledger.View(), IdsAt(batch, i))
      ensures Phased(old(ledger.View()), ledger.View(), batch, i) && KeepsLog(old(executor.log), executor.log, ItemId(batch.base, i))
      ensures SettledByRule(old(ledger.View()), ledger.View(), batch, i, executor.log, offer.size)
      ensures !out.Died? ==> ExecutedByRule(old(ledger.View()), ledger.View(), batch, i, executor.log)
      ensures out.Died? ==> ledger.mortal
      ensures out.Showing? ==> Shows(ledger.View(), batch, i, out.result)
      ensures out.Unsettled? ==> Hindered(ledger.View(), batch, i)
    {
      ghost var st := ledger.View();
      OpenIsUnsettled(st, request);
      var begun := Begin(i, request);
      if !begun {
        return Unsettled;
      }
      if {
        case ledger.mortal => return Reaction.Died;
        case true =>
      }
      ghost var sent := ledger.View();
      out := RunAndSettle(i, plan, request);
      TouchesTransitive(st, sent, ledger.View(), IdsAt(batch, i));
      PhasedTransitive(st, sent, ledger.View(), batch, i);
    }

    /** Run the item's code and record what it gives back. */
    method RunAndSettle(i: nat, plan: Plan, request: Request) returns (out: Reaction)
      requires Live() && Runs(batch, i) && plan == PlanOf(batch, i) && request.origin.operationId == ItemId(batch.base, i)
      requires IsSent(ledger.View(), request) && Called(executor.calls + [ItemId(batch.base, i)], ledger.View())
      modifies ledger, executor
      ensures Live() && Touches(old(ledger.View()), ledger.View(), IdsAt(batch, i))
      ensures Phased(old(ledger.View()), ledger.View(), batch, i) && KeepsLog(old(executor.log), executor.log, ItemId(batch.base, i))
      ensures SettledByRule(old(ledger.View()), ledger.View(), batch, i, executor.log, offer.size)
      ensures !out.Died? ==> RanByRule(ledger.View(), batch, i, executor.log)
      ensures out.Died? ==> ledger.mortal
      ensures out.Showing? ==> Shows(ledger.View(), batch, i, out.result)
      ensures out.Unsettled? ==> Hindered(ledger.View(), batch, i)
    {
      ghost var st := ledger.View();
      TouchesNothing(st, IdsAt(batch, i));
      var produced := executor.Execute(request.origin.operationId, plan.name, plan.arguments, FilesGiven(plan));
      if produced.None? {
        SentIsHeldUp(st, batch, i, request);
        return Unsettled;
      }
      if {
        case ledger.mortal => return Reaction.Died;
        case true =>
      }
      out := RecordProduced(i, plan, request, produced.value);
    }

    /** Record what the item's code gave back. */
    method RecordProduced(i: nat, plan: Plan, request: Request, produced: Produced) returns (out: Reaction)
      requires Live() && Runs(batch, i) && plan == PlanOf(batch, i) && request.origin.operationId == ItemId(batch.base, i)
      requires IsSent(ledger.View(), request) && ItemId(batch.base, i) in executor.log
      requires executor.log[ItemId(batch.base, i)] == Execution(plan.name, plan.arguments, FilesGiven(plan), Some(produced))
      modifies ledger
      ensures Live() && Touches(old(ledger.View()), ledger.View(), IdsAt(batch, i))
      ensures Phased(old(ledger.View()), ledger.View(), batch, i)
      ensures SettledByRule(old(ledger.View()), ledger.View(), batch, i, executor.log, offer.size)
      ensures RanByRule(ledger.View(), batch, i, executor.log) && !out.Died?
      ensures out.Showing? ==> Shows(ledger.View(), batch, i, out.result)
      ensures out.Unsettled? ==> Hindered(ledger.View(), batch, i)
    {
      var oversized := offer.size(produced.shown) > SHOWN_LIMIT;
      var result := Result(SettledOutcome(produced, oversized), produced.usage, produced.elapsed);
      out := Settle(i, plan, request, result, EvidenceOf(produced, oversized));
      ProducedIsRecorded(ledger.View(), batch, i, executor.log, produced, oversized, result, request, offer.size);
    }

    method Begin(i: nat, request: Request) returns (begun: bool)
      requires Live() && Runs(batch, i) && request.origin.operationId == ItemId(batch.base, i)
      requires IsOpen(ledger.View(), request)
      modifies ledger
      ensures Live() && Touches(old(ledger.View()), ledger.View(), IdsAt(batch, i))
      ensures Phased(old(ledger.View()), ledger.View(), batch, i)
      ensures begun ==> IsSent(ledger.View(), request) && Called(executor.calls + [ItemId(batch.base, i)], ledger.View())
      ensures !begun ==> ledger.View() == old(ledger.View()) && IsHeldUp(ledger.View(), batch, i)
    {
      ghost var st := ledger.View();
      BeginPhases(st, session, request);
      ItemIsOfItem(batch, i);
      BeginTouches(st, session, request, IdsAt(batch, i));
      BeginOrHeld(st, session, batch, i, request);
      var out := ledger.Begin(session, request);
      PhasesKeep(st, ledger.View(), batch);
      PhasesRows(st, ledger.View(), batch, i);
      CalledStays(executor.calls, st, ledger.View());
      begun := out == Ok(true);
      if begun {
        GrantIsFresh(executor.calls, st, session, request);
      }
    }

    /** Record the result of an item that was dispatched. */
    method Settle(i: nat, plan: Plan, request: Request, result: Result, raw: Artifacts) returns (out: Reaction)
      requires Live() && Runs(batch, i) && plan == PlanOf(batch, i) && request.origin.operationId == ItemId(batch.base, i)
      requires IsSent(ledger.View(), request)
      modifies ledger
      ensures Live() && Touches(old(ledger.View()), ledger.View(), IdsAt(batch, i))
      ensures Phased(old(ledger.View()), ledger.View(), batch, i)
      ensures SettledAs(ledger.View(), batch, i, result, raw) || RefusedResult(ledger.View(), batch, i, request, result, raw)
      ensures !out.Died? && (out.Showing? ==> Shows(ledger.View(), batch, i, out.result))
      ensures out.Unsettled? ==> Hindered(ledger.View(), batch, i)
    {
      ghost var st := ledger.View();
      SettleStep(st, session, batch, i, request, result, raw);
      SettleOrRefuse(st, session, batch, i, request, result, raw);
      ItemIsOfItem(batch, i);
      CompleteTouches(st, session, request, result, raw, IdsAt(batch, i));
      CompletePhases(st, session, request, result, raw);
      var done := ledger.Complete(session, request, result, raw);
      PhasesRows(st, ledger.View(), batch, i);
      CalledStays(executor.calls, st, ledger.View());
      if done.Err? {
        return Unsettled;
      }
      out := React(Seen(plan.name, done.value, None));
    }

    /** An item without a disposition and without an operation: refuse it, reuse a result,
        or reserve and execute it. */
    method Start(i: nat, plan: Plan, capture: Observation, request: Request, refused: bool) returns (out: Reaction)
      requires Live() && Undecided(ledger.View(), batch, i, capture) && plan == PlanOf(batch, i)
      requires refused == !NoneRefused(ledger.View(), batch, i) && request == ItemRequest(batch, ledger.project, i, plan, capture)
      modifies ledger, executor
      ensures Live() && Touches(old(ledger.View()), ledger.View(), IdsAt(batch, i))
      ensures ByRule(old(ledger.View()), old(ledger.View()), ledger.View(), batch, i, executor.log, offer.size)
      ensures KeepsLog(old(executor.log), executor.log, ItemId(batch.base, i))
      ensures !out.Died? ==> ExecutedByRule(old(ledger.View()), ledger.View(), batch, i, executor.log)
      ensures out.Died? ==> ledger.mortal
      ensures out.Showing? ==> Shows(ledger.View(), batch, i, out.result)
      ensures out.Unsettled? ==> Hindered(ledger.View(), batch, i)
    {
      if refused {
        out := Refuse(i, plan, capture, "budget exhausted by an earlier item");
        return;
      }
      if plan.declared.reusable {
        var reused := TryReuse(i, plan, capture);
        if reused.Some? {
          return reused.value;
        }
      }
      out := ReserveAndExecute(i, plan, capture, request);
    }

    method ReserveAndExecute(i: nat, plan: Plan, ghost capture: Observation, request: Request) returns (out: Reaction)
      requires Live() && Undecided(ledger.View(), batch, i, capture) && plan == PlanOf(batch, i)
      requires NoneRefused(ledger.View(), batch, i) && request == ItemRequest(batch, ledger.project, i, plan, capture)
      requires plan.declared.reusable ==> NoneReusable(ledger.View(), KeyBlob(plan))
      modifies ledger, executor
      ensures Live() && Touches(old(ledger.View()), ledger.View(), IdsAt(batch, i))
      ensures ByRule(old(ledger.View()), old(ledger.View()), ledger.View(), batch, i, executor.log, offer.size)
      ensures KeepsLog(old(executor.log), executor.log, ItemId(batch.base, i))
      ensures !out.Died? ==> ExecutedByRule(old(ledger.View()), ledger.View(), batch, i, executor.log)
      ensures out.Died? ==> ledger.mortal
      ensures out.Showing? ==> Shows(ledger.View(), batch, i, out.result)
      ensures out.Unsettled? ==> Hindered(ledger.View(), batch, i)
    {
      ghost var st, log := ledger.View(), executor.log;
      var reserved := Reserve(i, plan, capture, request);
      if reserved == Err(BudgetExceeded) {
        out := Refuse(i, plan, capture, "budget exhausted");
        return;
      }
      NoNews(st, batch, i, log, offer.size);
      if reserved.Err? {
        return Unsettled;
      }
      ReservedNews(st, ledger.View(), batch, i, request, reserved.value, log, offer.size);
      if {
        case ledger.mortal => return Reaction.Died;
        case true =>
      }
      out := ExecuteOpen(i, plan, request, st, log);
    }

    /** Execute an item that is open, after what came by the rules before. */
    method ExecuteOpen(i: nat, plan: Plan, request: Request, ghost st: Spec.State, ghost log: Executions) returns (out: Reaction)
      requires Live() && Runs(batch, i) && plan == PlanOf(batch, i) && request.origin.operationId == ItemId(batch.base, i)
      requires IsOpen(ledger.View(), request) && KeepsLog(log, executor.log, ItemId(batch.base, i))
      requires Touches(st, ledger.View(), IdsAt(batch, i)) && ByRule(st, st, ledger.View(), batch, i, log, offer.size)
      requires IsDispatched(ledger.View(), ItemId(batch.base, i)) ==> IsDispatched(st, ItemId(batch.base, i))
      modifies ledger, executor
      ensures Live() && Touches(st, ledger.View(), IdsAt(batch, i))
      ensures ByRule(st, st, ledger.View(), batch, i, executor.log, offer.size)
      ensures KeepsLog(log, executor.log, ItemId(batch.base, i))
      ensures !out.Died? ==> ExecutedByRule(st, ledger.View(), batch, i, executor.log)
      ensures out.Died? ==> ledger.mortal
      ensures out.Showing? ==> Shows(ledger.View(), batch, i, out.result)
      ensures out.Unsettled? ==> Hindered(ledger.View(), batch, i)
    {
      ghost var held := ledger.View();
      OpenIsUnsettled(held, request);
      out := Execute(i, plan, request);
      TouchesTransitive(st, held, ledger.View(), IdsAt(batch, i));
      PhaseNews(st, held, ledger.View(), batch, i, log, executor.log, offer.size);
    }

    /** Look up what the record says of an item whose input is captured. */
    method Consult(i: nat, plan: Plan, capture: Observation) returns (found: Option<Reaction>, request: Request, reserved: bool)
      requires Live() && Runs(batch, i) && plan == PlanOf(batch, i) && InputIs(ledger.View(), batch, i, capture)
      ensures found.Some? && found.value.Showing? ==> Shows(ledger.View(), batch, i, found.value.result)
      ensures found == Some(Unsettled) ==> Hindered(ledger.View(), batch, i)
      ensures found.Some? ==> !found.value.Died?
      ensures Decided(ledger.View(), batch, i) ==> found == Some(React(ResultOf(ledger.View(), batch, i)))
      ensures request == ItemRequest(batch, ledger.project, i, plan, capture)
      ensures found.None? ==> !Decided(ledger.View(), batch, i) && Ready(ledger.View(), batch, i, capture)
      ensures found.None? ==>
        if reserved then IsOpen(ledger.View(), request) else !Spec.Has(ledger.operations, ItemId(batch.base, i))
    {
      var existing;
      DecidedIsPlaced(ledger.View(), batch, i);
      request, existing := Find(i, plan, capture);
      if existing.Err? {
        return Some(Unsettled), request, false;
      }
      found := Replay(i, plan, existing.value);
      reserved := existing.value.Some?;
      if found.None? && reserved {
        UndecidedIsOpen(ledger.View(), batch, i, capture, existing.value.value);
      }
    }

    /** Go on with an item that has no disposition yet. */
    method Continue(i: nat, plan: Plan, capture: Observation, request: Request, reserved: bool, refused: bool) returns (out: Reaction)
      requires Live() && Runs(batch, i) && plan == PlanOf(batch, i) && Ready(ledger.View(), batch, i, capture)
      requires AllDecided(ledger.View(), batch, i) && refused == !NoneRefused(ledger.View(), batch, i)
      requires !Decided(ledger.View(), batch, i)
      requires if reserved then IsOpen(ledger.View(), request) else !Spec.Has(ledger.operations, ItemId(batch.base, i))
      requires request == ItemRequest(batch, ledger.project, i, plan, capture)
      modifies ledger, executor
      ensures Live() && Touches(old(ledger.View()), ledger.View(), IdsAt(batch, i))
      ensures ByRule(old(ledger.View()), old(ledger.View()), ledger.View(), batch, i, executor.log, offer.size)
      ensures KeepsLog(old(executor.log), executor.log, ItemId(batch.base, i))
      ensures !out.Died? ==> ExecutedByRule(old(ledger.View()), ledger.View(), batch, i, executor.log)
      ensures out.Died? ==> ledger.mortal
      ensures out.Showing? ==> Shows(ledger.View(), batch, i, out.result)
      ensures out.Unsettled? ==> Hindered(ledger.View(), batch, i)
    {
      if reserved {
        ghost var st, log := ledger.View(), executor.log;
        NoNews(st, batch, i, log, offer.size);
        TouchesNothing(st, IdsAt(batch, i));
        out := ExecuteOpen(i, plan, request, st, log);
      } else {
        out := Start(i, plan, capture, request, refused);
      }
    }

    /** One item, new or handled before: whatever is new of it afterwards is by the rules,
        what was dispatched was executed, and it stops its batch only where it is hindered.
        The host may die between any two steps. */
    method Item(i: nat, plan: Plan, refused: bool) returns (out: Reaction)
      requires Live() && Runs(batch, i) && plan == PlanOf(batch, i)
      requires AllDecided(ledger.View(), batch, i) && refused == !NoneRefused(ledger.View(), batch, i)
      modifies ledger, executor
      ensures Live() && Touches(old(ledger.View()), ledger.View(), IdsAt(batch, i))
      ensures ByRule(old(ledger.View()), old(ledger.View()), ledger.View(), batch, i, executor.log, offer.size)
      ensures KeepsLog(old(executor.log), executor.log, ItemId(batch.base, i))
      ensures !out.Died? ==> ExecutedByRule(old(ledger.View()), ledger.View(), batch, i, executor.log)
      ensures out.Died? ==> ledger.mortal
      ensures out.Showing? ==> Shows(ledger.View(), batch, i, out.result)
      ensures out.Unsettled? ==> Hindered(ledger.View(), batch, i)
      ensures Decided(old(ledger.View()), batch, i) ==>
        && ledger.View() == old(ledger.View()) && executor.calls == old(executor.calls)
        && (out == Reaction.Died || out == React(ResultOf(ledger.View(), batch, i)))
    {
      ghost var st, log := ledger.View(), executor.log;
      DecidedIsPlaced(st, batch, i);
      var capture := Capture(i, plan);
      ghost var ready := ledger.View();
      NoNews(ready, batch, i, log, offer.size);
      AfterCapture(st, ready, ready, batch, i, log, offer.size);
      if capture.Err? {
        return Unsettled;
      }
      if {
        case ledger.mortal => return Reaction.Died;
        case true =>
      }
      EarlierStay(st, ledger.View(), batch, i);
      var found, request, reserved := Consult(i, plan, capture.value);
      if found.Some? {
        return found.value;
      }
      out := Continue(i, plan, capture.value, request, reserved, refused);
      TouchesTransitive(st, ready, ledger.View(), IdsAt(batch, i));
      AfterCapture(st, ready, ledger.View(), batch, i, executor.log, offer.size);
    }

    /** One item more of the batch, also when it asks for nothing the host offers. */
    method NextItem(i: nat, refused: bool, ghost results: seq<ItemResult>, ghost known: Option<ItemResult>) returns (out: Reaction)
      requires Live() && i == |results| < |batch.items| && Handled(ledger.View(), batch, results, refused)
      requires known.Some? ==> ShowsItem(ledger.View(), batch, i, known.value)
      modifies ledger, executor
      ensures Live() && Touches(old(ledger.View()), ledger.View(), IdsAt(batch, i))
      ensures Handled(ledger.View(), batch, results, refused)
      ensures KeepsLog(old(executor.log), executor.log, ItemId(batch.base, i))
      ensures Runs(batch, i) ==>
        && ByRule(old(ledger.View()), old(ledger.View()), ledger.View(), batch, i, executor.log, offer.size)
        && (!out.Died? ==> ExecutedByRule(old(ledger.View()), ledger.View(), batch, i, executor.log))
      ensures out.Showing? ==> ShowsItem(ledger.View(), batch, i, out.result)
      ensures out.Unsettled? ==> Runs(batch, i) && Hindered(ledger.View(), batch, i)
      ensures out.Died? ==> ledger.mortal
      ensures known.Some? ==>
        && ledger.View() == old(ledger.View()) && executor.calls == old(executor.calls)
        && (out == Reaction.Died || out == Showing(known.value))
    {
      var plan := PlanOf(batch, i);
      TouchesNothing(ledger.View(), IdsAt(batch, i));
      if plan.Invalid? {
        return Showing(ItemResult(plan.shown, map[]));
      }
      ghost var st := ledger.View();
      out := Item(i, plan, refused);
      HandledStays(st, ledger.View(), batch, results, refused);
    }

    /** The whole batch, in order. Once it ends, every item shows its recorded disposition.
        Whatever is new of any item is by the rules, and a batch that stops before its end
        stops at an item that is hindered. A batch that shows `known` already is shown
        again, adding and executing nothing, unless the host dies. */
    method Handle(ghost known: Option<seq<ItemResult>>)
      returns (display: Display, ended: Ending, ghost results: seq<ItemResult>, ghost refused: bool)
      requires Live() && (known.Some? ==> FullyShown(ledger.View(), batch, known.value))
      modifies ledger, executor
      ensures Live() && Touches(old(ledger.View()), ledger.View(), IdsOf(batch))
      ensures Handled(ledger.View(), batch, results, refused)
      ensures AllRuled(old(ledger.View()), ledger.View(), batch, executor.log, offer.size)
      ensures !ended.Dead? ==> AllExecuted(old(ledger.View()), ledger.View(), batch, executor.log)
      ensures ended.Dead? ==> ledger.mortal
      ensures display == Displayed(offer, index, results)
      ensures ended.Whole? ==> |results| == |batch.items|
      ensures ended.Partial? ==> Runs(batch, |results|) && Hindered(ledger.View(), batch, |results|)
      ensures known.Some? ==>
        && ledger.View() == old(ledger.View()) && executor.calls == old(executor.calls)
        && !ended.Partial? && (ended.Whole? ==> results == known.value)
    {
      display, results, refused := Display([], [], 0), [], false;
      var exhausted := false;
      ghost var st := ledger.View();
      TouchesNothing(st, IdsOf(batch));
      NothingRuled(st, batch, executor.log, offer.size);
      while |display.results| < |batch.items|
        invariant Live() && Touches(st, ledger.View(), IdsOf(batch))
        invariant refused == exhausted && Handled(ledger.View(), batch, results, exhausted)
        invariant display == Displayed(offer, index, results)
        invariant AllRuled(st, ledger.View(), batch, executor.log, offer.size) && AllOff(st, ledger.View(), batch, |results|)
        invariant AllExecuted(st, ledger.View(), batch, executor.log)
        invariant known.Some? ==> ledger.View() == st && executor.calls == old(executor.calls) && results <= known.value
      {
        ghost var before, log := ledger.View(), executor.log;
        var i := |display.results|;
        var reaction := NextItem(i, exhausted, results, if known.Some? then Some(known.value[i]) else None);
        OneMoreTouched(st, before, ledger.View(), batch, i);
        OneMoreRuled(st, before, ledger.View(), batch, i, log, executor.log, offer.size);
        if !reaction.Died? {
          OneMoreExecuted(st, before, ledger.View(), batch, i, log, executor.log);
        }
        if !reaction.Showing? {
          return display, if reaction.Died? then Dead else Partial, results, refused;
        }
        var refusal := FirstRecord(ledger.observations, PartId(batch.base, i, Refusal));
        OneMoreHandled(ledger.View(), batch, results, exhausted, reaction.result);
        OneMoreDisplayed(offer, index, results, reaction.result);
        OneMoreKnown(known, results, reaction.result);
        display := Show(offer, index, display, reaction.result);
        results := results + [reaction.result];
        exhausted := exhausted || refusal.Some?;
        refused := exhausted;
      }
      ended := Whole;
    }
  }

  lemma OneMoreKnown(known: Option<seq<ItemResult>>, results: seq<ItemResult>, result: ItemResult)
    requires known.Some? ==> results <= known.value && |results| < |known.value| && result == known.value[|results|]
    ensures known.Some? ==> results + [result] <= known.value
  {
  }

  /** Every item is decided, and these are what they show. */
  ghost predicate FullyShown(st: Spec.State, batch: Batch, results: seq<ItemResult>)
    requires BatchOk(st, batch)
  {
    |results| == |batch.items| && AllDecided(st, batch, |batch.items|) && ShowsAll(st, batch, results)
  }

  /** The first items of the batch are decided and shown. */
  ghost predicate Handled(st: Spec.State, batch: Batch, results: seq<ItemResult>, refused: bool)
    requires BatchOk(st, batch)
  {
    && |results| <= |batch.items|
    && AllDecided(st, batch, |results|)
    && refused == !NoneRefused(st, batch, |results|)
    && ShowsAll(st, batch, results)
  }

  ghost predicate ShowsAll(st: Spec.State, batch: Batch, results: seq<ItemResult>)
    requires BatchOk(st, batch) && |results| <= |batch.items|
  {
    forall i | 0 <= i < |results| :: ShowsItem(st, batch, i, results[i])
  }

  lemma OneMoreShown(st: Spec.State, batch: Batch, results: seq<ItemResult>, result: ItemResult)
    requires BatchOk(st, batch) && |results| < |batch.items| && ShowsAll(st, batch, results)
    requires ShowsItem(st, batch, |results|, result)
    ensures ShowsAll(st, batch, results + [result])
  {
    var longer := results + [result];
    forall i | 0 <= i < |longer|
      ensures ShowsItem(st, batch, i, longer[i])
    {
      assert longer[i] == if i < |results| then results[i] else result;
      assert i < |results| ==> ShowsItem(st, batch, i, results[i]);
    }
  }

  lemma OneMoreHandled(st: Spec.State, batch: Batch, results: seq<ItemResult>, refused: bool, result: ItemResult)
    requires BatchOk(st, batch) && Handled(st, batch, results, refused) && |results| < |batch.items|
    requires ShowsItem(st, batch, |results|, result)
    ensures Handled(st, batch, results + [result], refused || Recorded(st, batch, |results|, Refusal))
  {
    OneFurther(st, batch, |results|);
    OneMoreShown(st, batch, results, result);
  }

  lemma OneMoreDisplayed(offer: Offer, index: nat, results: seq<ItemResult>, result: ItemResult)
    ensures Displayed(offer, index, results + [result]) == NextDisplay(offer, index, Displayed(offer, index, results), result)
  {
    assert (results + [result])[..|results|] == results;
  }

  lemma OneFurther(st: Spec.State, batch: Batch, i: nat)
    requires AllDecided(st, batch, i) && (Runs(batch, i) ==> Decided(st, batch, i))
    ensures AllDecided(st, batch, i + 1)
    ensures NoneRefused(st, batch, i + 1) == (NoneRefused(st, batch, i) && !Recorded(st, batch, i, Refusal))
  {
  }

  lemma HandledStays(st: Spec.State, later: Spec.State, batch: Batch, results: seq<ItemResult>, refused: bool)
    requires UniqueIds(later.operations) && Extends(st, later) && BatchOk(st, batch) && BatchOk(later, batch)
    requires Handled(st, batch, results, refused)
    ensures Handled(later, batch, results, refused)
  {
    EarlierStay(st, later, batch, |results|);
    forall i | 0 <= i < |results|
      ensures ShowsItem(later, batch, i, results[i])
    {
      ShownStays(st, later, batch, i, results[i]);
    }
  }

  /** What an item shows: its recorded disposition, or the error its text deserves. */
  ghost predicate ShowsItem(st: Spec.State, batch: Batch, i: nat, result: ItemResult)
    requires BatchOk(st, batch) && i < |batch.items|
  {
    if Runs(batch, i) then Shows(st, batch, i, result)
    else result == ItemResult(PlanOf(batch, i).shown, map[])
  }

  lemma ShownStays(st: Spec.State, later: Spec.State, batch: Batch, i: nat, result: ItemResult)
    requires UniqueIds(later.operations) && Extends(st, later) && BatchOk(st, batch) && BatchOk(later, batch)
    requires i < |batch.items| && ShowsItem(st, batch, i, result)
    ensures ShowsItem(later, batch, i, result)
  {
    if Runs(batch, i) {
      ResultStays(st, later, batch, i);
    }
  }

  /** Decided items stay decided, and which of them were refused stays the same. */
  lemma EarlierStay(st: Spec.State, later: Spec.State, batch: Batch, i: nat)
    requires BatchOk(st, batch) && BatchOk(later, batch) && Extends(st, later) && i <= |batch.items|
    requires AllDecided(st, batch, i)
    ensures AllDecided(later, batch, i)
    ensures NoneRefused(later, batch, i) == NoneRefused(st, batch, i)
  {
    forall m | 0 <= m < i
      ensures Runs(batch, m) ==> Decided(later, batch, m)
      ensures Recorded(later, batch, m, Refusal) == Recorded(st, batch, m, Refusal)
    {
      DecidedStays(st, later, batch, m);
    }
  }

  lemma DecidedStays(st: Spec.State, later: Spec.State, batch: Batch, m: nat)
    requires ItemOk(st, batch, m) && ItemOk(later, batch, m) && Extends(st, later)
    requires Runs(batch, m) ==> Decided(st, batch, m)
    ensures Runs(batch, m) ==> Decided(later, batch, m)
    ensures Recorded(later, batch, m, Refusal) == Recorded(st, batch, m, Refusal)
  {
    if Recorded(st, batch, m, Refusal) {
      FirstRecordStays(st.observations, later.observations, PartId(batch.base, m, Refusal));
    } else if Runs(batch, m) {
      if Completed(st, ItemId(batch.base, m)) {
        CompletedStays(st, later, ItemId(batch.base, m));
        assert Spec.Has(later.operations, ItemId(batch.base, m));
      } else {
        FirstRecordStays(st.observations, later.observations, PartId(batch.base, m, Reuse));
      }
    }
  }

  function RefusalRaw(shown: Json): Artifacts {
    map[REFUSED := Encode(shown)]
  }

  /** Record the refusal of an undecided item: afterwards it shows just that. */
  lemma RefusalStep(st: Spec.State, session: string, batch: Batch, i: nat, capture: Observation, reason: string)
    requires Inv(st) && session in st.sessions && BatchOk(st, batch) && Undecided(st, batch, i, capture)
    ensures var plan := PlanOf(batch, i);
      var shown := RefusalShown(plan, reason);
      var step := RecordOnce.Step(st, session, RefusalOrigin(batch, i, plan), RefusalRaw(shown));
      && step.out.Ok? && BatchOk(step.st, batch) && AddsPart(st, step.st, batch, i, Refusal)
      && Recorded(step.st, batch, i, Refusal) && SaysRefused(step.st, batch, i, reason)
      && Shows(step.st, batch, i, ItemResult(shown, map[]))
  {
    var shown := RefusalShown(PlanOf(batch, i), reason);
    var origin, raw := RefusalOrigin(batch, i, PlanOf(batch, i)), RefusalRaw(shown);
    var step := RecordOnce.Step(st, session, origin, raw);
    StepAddsPart(st, session, batch, i, Refusal, origin, raw);
    StepEffect(st, session, origin, raw);
    RefusalIsRecorded(st, session, batch, i, capture, shown);
    var row := step.out.value.sequence - 1;
    OnlyCapture(step.st, row, origin, raw);
    RefusalKeeps(st, step.st, batch, i, capture);
    RefusalShows(step.st, batch, i, row);
  }

  lemma RefusalIsRecorded(st: Spec.State, session: string, batch: Batch, i: nat, capture: Observation, shown: Json)
    requires session in st.sessions && BatchOk(st, batch) && Undecided(st, batch, i, capture)
    ensures RecordOnce.Step(st, session, RefusalOrigin(batch, i, PlanOf(batch, i)), RefusalRaw(shown)).out.Ok?
  {
    PartIsNoOperation(st, batch, i, Refusal);
    assert REFUSED in RefusalRaw(shown) && REFUSED[0] in REFUSED;
    RecordsOrFinds(st, session, RefusalOrigin(batch, i, PlanOf(batch, i)), RefusalRaw(shown));
  }

  lemma PartIsNoOperation(st: Spec.State, batch: Batch, i: nat, part: Part)
    requires forall op | op in st.operations :: !IsPart(batch.base, op.Id())
    ensures !Spec.Has(st.operations, PartId(batch.base, i, part))
  {
    assert IsPart(batch.base, PartId(batch.base, i, part));
    NoOperation(st, PartId(batch.base, i, part));
  }

  /** Record that an undecided item reuses a result completed before. */
  lemma ReuseStep(st: Spec.State, session: string, batch: Batch, i: nat, capture: Observation, source: Operation)
    requires Inv(st) && BatchOk(st, batch) && Undecided(st, batch, i, capture) && NoneRefused(st, batch, i)
    requires source in st.operations && Reusable(source, KeyBlob(PlanOf(batch, i)))
    ensures var plan := PlanOf(batch, i);
      var step := RecordOnce.Step(st, session, ReuseOrigin(batch, i, plan, capture), ReuseRaw(source.Id()));
      && BatchOk(step.st, batch)
      && (step.out.Ok? ==>
            && Decided(step.st, batch, i)
            && ResultOf(step.st, batch, i) == Seen(plan.name, source.completion.value, Some(source.Id())))
  {
    var plan := PlanOf(batch, i);
    var origin, raw := ReuseOrigin(batch, i, plan, capture), ReuseRaw(source.Id());
    var step := RecordOnce.Step(st, session, origin, raw);
    StepAddsPart(st, session, batch, i, Reuse, origin, raw);
    StepEffect(st, session, origin, raw);
    if step.out.Ok? {
      var row := step.out.value.sequence - 1;
      OnlyCapture(step.st, row, origin, raw);
      SourcePrecedes(st, step.st, row, source, KeyBlob(plan));
      ReuseKeeps(st, step.st, batch, i, capture);
      ReuseShows(step.st, batch, i, row, source);
    }
  }

  /** Recording the reuse the rules choose: it is recorded unless it cites what is not
      there, and then shows the source's result, if the source has one to show. */
  lemma ReuseIsByRule(st: Spec.State, session: string, batch: Batch, i: nat, capture: Observation, source: Operation,
                      log: Executions, size: Json -> nat)
    requires Inv(st) && session in st.sessions && BatchOk(st, batch) && Undecided(st, batch, i, capture)
    requires NoneRefused(st, batch, i) && PlanOf(batch, i).declared.reusable
    requires source in st.operations && Reusable(source, KeyBlob(PlanOf(batch, i)))
    requires FirstReusable(st, KeyBlob(PlanOf(batch, i)), source.Id())
    ensures var plan := PlanOf(batch, i);
      var step := RecordOnce.Step(st, session, ReuseOrigin(batch, i, plan, capture), ReuseRaw(source.Id()));
      && BatchOk(step.st, batch) && step.st.operations == st.operations
      && ByRule(st, st, step.st, batch, i, log, size)
      && (step.out.Err? ==> Hindered(step.st, batch, i))
      && (step.out.Ok? ==> ShowsOrHinders(step.st, batch, i, Seen(plan.name, source.completion.value, Some(source.Id()))))
  {
    ReuseStep(st, session, batch, i, capture, source);
    ReuseOrMissing(st, session, batch, i, capture, source.Id());
    ReuseIsAsGiven(st, session, batch, i, capture, source.Id());
    ReuseNews(st, RecordOnce.Step(st, session, ReuseOrigin(batch, i, PlanOf(batch, i), capture), ReuseRaw(source.Id())).st,
              batch, i, source.Id(), log, size);
  }

  /** The item shows this, or is hindered where there is nothing to show. */
  ghost predicate ShowsOrHinders(st: Spec.State, batch: Batch, i: nat, seen: Option<ItemResult>)
    requires Runs(batch, i) && BatchOk(st, batch)
  {
    match seen
    case Some(result) => Shows(st, batch, i, result)
    case None => Hindered(st, batch, i)
  }

  lemma SourcePrecedes(st: Spec.State, later: Spec.State, row: nat, source: Operation, key: ArtifactRef)
    requires Inv(st) && source in st.operations && Reusable(source, key) && source in later.operations
    requires |st.observations| <= row < |later.observations|
    requires later.observations[row].artifacts == ReuseRaw(source.Id())
    ensures ReuseOk(later, row, key)
  {
    assert OperationOk(st, source);
  }

  lemma ReuseShows(st: Spec.State, batch: Batch, i: nat, row: nat, source: Operation)
    requires UniqueIds(st.operations) && Runs(batch, i) && ItemOk(st, batch, i) && Row(st, batch, i, Reuse) == Some(row)
    requires st.observations[row].artifacts == ReuseRaw(source.Id())
    requires source in st.operations && source.completion.Some?
    ensures ResultOf(st, batch, i) == Seen(PlanOf(batch, i).name, source.completion.value, Some(source.Id()))
  {
    CompletionIs(st, source);
    NotCompleted(st, ItemId(batch.base, i));
  }

  lemma ReserveStep(st: Spec.State, session: string, batch: Batch, i: nat, capture: Observation, reservation: Amounts, scope: string)
    requires Inv(st) && BatchOk(st, batch) && Undecided(st, batch, i, capture) && NoneRefused(st, batch, i)
    ensures var step := Spec.Reserve(st, session, ItemRequest(batch, st.project, i, PlanOf(batch, i), capture), reservation, scope);
      && BatchOk(step.st, batch) && Extends(st, step.st) && step.st.sessions == st.sessions
      && (step.out.Err? ==> step.st == st)
  {
    var request := ItemRequest(batch, st.project, i, PlanOf(batch, i), capture);
    var step := Spec.Reserve(st, session, request, reservation, scope);
    if step.st != st {
      ReservationKeeps(st, step.st, batch, i, capture, step.out.value);
    }
  }

  lemma BeginPhases(st: Spec.State, session: string, request: Request)
    ensures var later := Spec.Begin(st, session, request).st;
      && Extends(st, later) && |later.operations| == |st.operations|
      && later.observations == st.observations && later.sessions == st.sessions
  {
    NextExtends(st, Spec.BeginEvent(session, request));
  }

  lemma CompletePhases(st: Spec.State, session: string, request: Request, result: Result, raw: Artifacts)
    ensures var step := Spec.Complete(st, session, request, result, raw);
      && Extends(st, step.st) && |step.st.operations| == |st.operations| && step.st.sessions == st.sessions
      && (forall k | |st.observations| <= k < |step.st.observations| ::
            Spec.Has(st.operations, step.st.observations[k].origin.operationId))
      && (step.out.Ok? ==> exists op | op in step.st.operations ::
            op.Id() == request.origin.operationId && op.completion == Some(step.out.value))
  {
    NextExtends(st, Spec.CompleteEvent(session, request, result, raw));
    var step := Spec.Complete(st, session, request, result, raw);
    if step.out.Ok? {
      var row := Spec.Find(st.operations, request.origin.operationId).value;
      assert step.st.operations[row] in step.st.operations;
    }
  }

  lemma SettleStep(st: Spec.State, session: string, batch: Batch, i: nat, request: Request, result: Result, raw: Artifacts)
    requires Inv(st) && BatchOk(st, batch) && Runs(batch, i) && request.origin.operationId == ItemId(batch.base, i)
    ensures var step := Spec.Complete(st, session, request, result, raw);
      && BatchOk(step.st, batch) && Extends(st, step.st) && step.st.sessions == st.sessions
      && (step.out.Ok? ==>
            && Decided(step.st, batch, i)
            && ResultOf(step.st, batch, i) == Seen(PlanOf(batch, i).name, step.out.value, None))
  {
    var step := Spec.Complete(st, session, request, result, raw);
    CompletePhases(st, session, request, result, raw);
    PhasesKeep(st, step.st, batch);
    if step.out.Ok? {
      CompleteKeeps(st, session, request, result, raw);
      CompletionShows(step.st, batch, i, step.out.value);
    }
  }

  lemma CompletionShows(st: Spec.State, batch: Batch, i: nat, done: Completion)
    requires UniqueIds(st.operations) && Runs(batch, i) && ItemOk(st, batch, i)
    requires exists op | op in st.operations :: op.Id() == ItemId(batch.base, i) && op.completion == Some(done)
    ensures Decided(st, batch, i) && ResultOf(st, batch, i) == Seen(PlanOf(batch, i).name, done, None)
  {
    var op :| op in st.operations && op.Id() == ItemId(batch.base, i) && op.completion == Some(done);
    CompletionIs(st, op);
  }

  /** The cited artifact of a channel, in name order. */
  method FindCited(inputs: Artifacts, channel: string) returns (found: Option<ArtifactRef>)
    ensures found == CitedChannel(inputs, channel)
  {
    Ordering.RankInjective();
    var names := Matching(inputs, channel);
    if names == {} {
      return None;
    }
    var best := Ordering.FindLeast(names);
    Ordering.LeastIsOne(best, Ordering.Least(names, Ordering.Rank), names, Ordering.Rank);
    found := Some(inputs[best]);
  }

  /** The first item of the batch without a disposition, not reserved yet. */
  ghost predicate Undecided(st: Spec.State, batch: Batch, i: nat, capture: Observation) {
    && Runs(batch, i) && Ready(st, batch, i, capture) && AllDecided(st, batch, i)
    && !Decided(st, batch, i) && !Spec.Has(st.operations, ItemId(batch.base, i))
  }

  ghost predicate Shows(st: Spec.State, batch: Batch, i: nat, result: ItemResult)
    requires Runs(batch, i) && ItemOk(st, batch, i)
  {
    Decided(st, batch, i) && ResultOf(st, batch, i) == Some(result)
  }

  lemma RefusalShows(st: Spec.State, batch: Batch, i: nat, row: nat)
    requires Runs(batch, i) && ItemOk(st, batch, i) && Row(st, batch, i, Refusal) == Some(row)
    ensures ResultOf(st, batch, i) == Some(ItemResult(st.observations[row].artifacts[REFUSED].value, map[]))
  {
    NotCompleted(st, ItemId(batch.base, i));
  }

  lemma CompletionIs(st: Spec.State, op: Operation)
    requires UniqueIds(st.operations) && op in st.operations && op.completion.Some?
    ensures Completed(st, op.Id()) && CompletionOf(st, op.Id()) == op.completion.value
  {
    var other :| other in st.operations && other.Id() == op.Id() && other.completion == Some(CompletionOf(st, op.Id()));
    assert other == op;
  }

  lemma OnlyCompletedHere(st: Spec.State, existing: Option<Operation>, id: OpId)
    requires UniqueIds(st.operations)
    requires existing.Some? ==>
      existing.value in st.operations && existing.value.Id() == id && existing.value.completion.None?
    requires existing.None? ==> !Spec.Has(st.operations, id)
    ensures !Completed(st, id)
  {
    if existing.None? {
      NotCompleted(st, id);
    }
  }

  lemma OnlyCapture(st: Spec.State, row: nat, origin: Origin, raw: Artifacts)
    requires IsRecord(st, row, origin, raw)
    ensures FirstRecord(st.observations, origin.operationId) == Some(row)
  {
    assert st.observations[row] in st.observations;
  }

  /** Looking up an item's request finds its operation, or cites what is not there. */
  lemma LookupOrMissing(st: Spec.State, batch: Batch, i: nat, capture: Observation)
    requires Inv(st) && BatchOk(st, batch) && Runs(batch, i) && InputIs(st, batch, i, capture)
    ensures var looked := Spec.Lookup(st, ItemRequest(batch, st.project, i, PlanOf(batch, i), capture));
      if looked.Err? then CitesMissing(st, batch, i)
      else looked.value.Some? ==>
        st.operations[looked.value.value].request == ItemRequest(batch, st.project, i, PlanOf(batch, i), capture)
  {
    if Placed(st, batch, i) {
      PlacedIsFound(st, batch, i, capture);
    } else {
      RequestOrMissing(st, batch, i, capture);
    }
  }

  /** The reuse of an undecided item is recorded, or cites what is not there. */
  lemma ReuseOrMissing(st: Spec.State, session: string, batch: Batch, i: nat, capture: Observation, source: OpId)
    requires Inv(st) && session in st.sessions && BatchOk(st, batch) && Undecided(st, batch, i, capture)
    ensures var step := RecordOnce.Step(st, session, ReuseOrigin(batch, i, PlanOf(batch, i), capture), ReuseRaw(source));
      step.out.Err? ==> step.st == st && CitesMissing(st, batch, i)
  {
    var origin, raw := ReuseOrigin(batch, i, PlanOf(batch, i), capture), ReuseRaw(source);
    StepEffect(st, session, origin, raw);
    ReuseCitedOrMissing(st, batch, i, capture);
    if Spec.OriginMatches(st, origin) {
      PartIsNoOperation(st, batch, i, Reuse);
      assert REUSE in raw && REUSE[0] in REUSE;
      RecordsOrFinds(st, session, origin, raw);
    }
  }

  /** The reuse recorded is the one given. */
  lemma ReuseIsAsGiven(st: Spec.State, session: string, batch: Batch, i: nat, capture: Observation, source: OpId)
    requires Inv(st) && Runs(batch, i) && HasInput(capture) && !Recorded(st, batch, i, Reuse)
    ensures var step := RecordOnce.Step(st, session, ReuseOrigin(batch, i, PlanOf(batch, i), capture), ReuseRaw(source));
      && AddsPart(st, step.st, batch, i, Reuse)
      && (Recorded(step.st, batch, i, Reuse) ==>
            step.st.observations[Row(step.st, batch, i, Reuse).value].artifacts == ReuseRaw(source))
  {
    var origin, raw := ReuseOrigin(batch, i, PlanOf(batch, i), capture), ReuseRaw(source);
    StepAddsPart(st, session, batch, i, Reuse, origin, raw);
    StepEffect(st, session, origin, raw);
    var step := RecordOnce.Step(st, session, origin, raw);
    if step.out.Ok? {
      OnlyCapture(step.st, step.out.value.sequence - 1, origin, raw);
    }
  }

  /** An undecided item with an operation has one without an outcome. */
  lemma UndecidedIsOpen(st: Spec.State, batch: Batch, i: nat, capture: Observation, op: Operation)
    requires Runs(batch, i) && Ready(st, batch, i, capture) && !Decided(st, batch, i)
    requires op in st.operations && op.Id() == ItemId(batch.base, i)
    requires op.request == ItemRequest(batch, st.project, i, PlanOf(batch, i), capture)
    ensures IsOpen(st, op.request)
  {
    var row :| 0 <= row < |st.operations| && st.operations[row] == op;
    assert KnownRequest(st, op.request, row);
  }

  /** Looking up an item with a disposition, or reserved, never conflicts. */
  lemma PlacedIsFound(st: Spec.State, batch: Batch, i: nat, capture: Observation)
    requires Inv(st) && BatchOk(st, batch) && Runs(batch, i) && Placed(st, batch, i) && InputIs(st, batch, i, capture)
    ensures Spec.Lookup(st, ItemRequest(batch, st.project, i, PlanOf(batch, i), capture)).Ok?
  {
    assert ItemOk(st, batch, i);
    var ready :| Ready(st, batch, i, ready)
                 && forall op | op in st.operations && op.Id() == ItemId(batch.base, i) ::
                      op.request == ItemRequest(batch, st.project, i, PlanOf(batch, i), ready);
    assert ready == capture;
    var row := Spec.Find(st.operations, ItemId(batch.base, i));
    assert row.Some? ==> st.operations[row.value] in st.operations;
  }

  lemma DecidedIsPlaced(st: Spec.State, batch: Batch, i: nat)
    ensures Decided(st, batch, i) ==> Placed(st, batch, i)
  {
    if Completed(st, ItemId(batch.base, i)) {
      var op :| op in st.operations && op.Id() == ItemId(batch.base, i);
      assert Spec.Has(st.operations, ItemId(batch.base, i));
    }
  }

  lemma PlacedInputIsThere(st: Spec.State, session: string, batch: Batch, i: nat)
    requires Inv(st) && BatchOk(st, batch) && Runs(batch, i) && Placed(st, batch, i)
    ensures var step := RecordOnce.Step(st, session, InputOrigin(batch, i), InputRaw(PlanOf(batch, i)));
      step.st == st && step.out.Ok?
  {
    assert ItemOk(st, batch, i);
    var capture :| Ready(st, batch, i, capture);
    assert IsPart(batch.base, PartId(batch.base, i, Input));
    StepAgain(st, session, InputOrigin(batch, i), InputRaw(PlanOf(batch, i)), Row(st, batch, i, Input).value);
  }
}
