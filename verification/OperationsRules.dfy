/** When an item of a batch is refused, reused, reserved or settled, said of the ledger
    before and after. */
module OperationsRules {
  import opened Records
  import opened LedgerSpec
  import opened LedgerInvariant
  import opened LedgerBudget
  import opened LedgerSafety
  import opened Evidences
  import opened RecordOnce
  import opened Touching
  import opened OperationsSpec
  import opened OperationsReplay
  import opened OperationsSteps

  /** One execution of domain code: what it was given, and what it gave back unless it
      raised. */
  datatype Execution = Execution(name: string, arguments: Json, files: map<string, Blob>, produced: Option<Produced>)

  type Executions = map<OpId, Execution>

  // ---- One item ----

  /** Every ID the host uses for one item. */
  ghost function IdsAt(batch: Batch, i: nat): iset<OpId> {
    iset id | IsOfItem(batch, i, id)
  }

  ghost predicate IsOfItem(batch: Batch, i: nat, id: OpId) {
    id == ItemId(batch.base, i) || exists part :: id == PartId(batch.base, i, part)
  }

  lemma ItemIdsAreBatchIds(batch: Batch, i: nat)
    requires i < |batch.items|
    ensures IdsAt(batch, i) <= IdsOf(batch)
  {
    forall id | id in IdsAt(batch, i)
      ensures id in IdsOf(batch)
    {
      if id == ItemId(batch.base, i) {
        assert IsItemOf(batch, id);
      } else {
        var part :| id == PartId(batch.base, i, part);
        assert IsPart(batch.base, id);
      }
    }
  }

  function ScopeFor(batch: Batch, plan: Plan): string
    requires plan.Run?
  {
    if plan.declared.shared then ROOT else batch.scope
  }

  function Asked(plan: Plan): Amounts
    requires plan.Run?
  {
    plan.declared.reservation(plan.arguments)
  }

  /** The first operation whose measured result the key may reuse. */
  ghost predicate FirstReusable(st: State, key: ArtifactRef, source: OpId) {
    exists k | 0 <= k < |st.operations| ::
      && st.operations[k].Id() == source && Reusable(st.operations[k], key)
      && forall j | 0 <= j < k :: !Reusable(st.operations[j], key)
  }

  ghost predicate NoneReusable(st: State, key: ArtifactRef) {
    forall op | op in st.operations :: !Reusable(op, key)
  }

  // ---- What is new of an item ----

  /** The record says that the item was refused, and why. */
  ghost predicate SaysRefused(st: State, batch: Batch, i: nat, reason: string)
    requires Runs(batch, i) && Recorded(st, batch, i, Refusal)
  {
    st.observations[Row(st, batch, i, Refusal).value].artifacts
    == map["refused.json" := Encode(Obj(map["status" := Str("refused"),
                                            "operation" := Str(PlanOf(batch, i).name),
                                            "error" := Str(reason)]))]
  }

  /** A new refusal: an earlier item was refused, or the budget falls short. */
  ghost predicate RefusedByRule(st: State, at: State, now: State, batch: Batch, i: nat)
    requires Runs(batch, i)
  {
    !Recorded(st, batch, i, Refusal) && Recorded(now, batch, i, Refusal) ==>
      && AllDecided(at, batch, i)
      && if NoneRefused(at, batch, i) then
           Short(at, ScopeFor(batch, PlanOf(batch, i)), Asked(PlanOf(batch, i)))
           && SaysRefused(now, batch, i, "budget exhausted")
         else SaysRefused(now, batch, i, "budget exhausted by an earlier item")
  }

  /** A new reuse: the operation may be reused, nothing earlier was refused, and the source
      is the first operation whose result the key may reuse. */
  ghost predicate ReusedByRule(st: State, at: State, now: State, batch: Batch, i: nat)
    requires Runs(batch, i)
  {
    !Recorded(st, batch, i, Reuse) && Recorded(now, batch, i, Reuse) ==>
      && AllDecided(at, batch, i) && NoneRefused(at, batch, i)
      && PlanOf(batch, i).declared.reusable
      && var source := ReuseSource(now.observations[Row(now, batch, i, Reuse).value].artifacts);
      && source.Some? && FirstReusable(at, KeyBlob(PlanOf(batch, i)), source.value)
  }

  /** The operation holds what the item's declaration asks for, in the scope it belongs to. */
  ghost predicate HoldsAsked(st: State, batch: Batch, i: nat)
    requires Runs(batch, i)
  {
    exists op | op in st.operations ::
      op.Id() == ItemId(batch.base, i) && op.reservation == Asked(PlanOf(batch, i))
      && op.scope == ScopeFor(batch, PlanOf(batch, i))
  }

  /** A new operation: nothing earlier was refused, there is nothing it may reuse, and the
      budget does not fall short of what it asks for. */
  ghost predicate ReservedByRule(st: State, at: State, now: State, batch: Batch, i: nat)
    requires Runs(batch, i)
  {
    !Has(st.operations, ItemId(batch.base, i)) && Has(now.operations, ItemId(batch.base, i)) ==>
      && AllDecided(at, batch, i) && NoneRefused(at, batch, i)
      && (PlanOf(batch, i).declared.reusable ==> NoneReusable(at, KeyBlob(PlanOf(batch, i))))
      && !Short(at, ScopeFor(batch, PlanOf(batch, i)), Asked(PlanOf(batch, i)))
      && HoldsAsked(now, batch, i)
  }

  /** The item's code ran with its own arguments and files. */
  predicate RanAsAsked(execution: Execution, plan: Plan)
    requires plan.Run?
  {
    && execution.name == plan.name && execution.arguments == plan.arguments
    && execution.files.Keys == Files(plan.declared.inputs).Keys
    && forall name | name in execution.files :: execution.files[name] == Files(plan.declared.inputs)[name].artifact
  }

  /** The completion records what the code gave back: its usage, its outcome and shown
      value unless that is too large, its files, and its raw output beside them. */
  ghost predicate RecordsProduced(done: Completion, produced: Produced, oversized: bool) {
    && done.result.usage == produced.usage && done.result.elapsed == produced.elapsed
    && done.result.outcome ==
         (if oversized then InfrastructureFailure
          else match produced.outcome
               case Failed(_) => Failed(1)
               case outcome => outcome)
    && var artifacts := done.observation.artifacts;
    && (forall name :: name in artifacts <==>
          name == "shown.json" || name in produced.raw || IsFileOf(produced, name)
          || (oversized && name == "oversized-shown.json"))
    && (forall name | name in produced.files :: artifacts["files/" + name] == produced.files[name])
    && (!IsFileOf(produced, "shown.json") ==>
          artifacts["shown.json"] == Encode(if oversized then Null else produced.shown))
    && (oversized && !IsFileOf(produced, "oversized-shown.json") ==>
          artifacts["oversized-shown.json"] == Encode(produced.shown))
    && (forall name | name in produced.raw && !IsFileOf(produced, name) && name != "shown.json"
                      && !(oversized && name == "oversized-shown.json") ::
          artifacts[name] == produced.raw[name])
  }

  predicate IsFileOf(produced: Produced, channel: string) {
    exists name | name in produced.files :: channel == "files/" + name
  }

  /** A new result: the item's code ran under its ID and gave it back. */
  ghost predicate SettledByRule(st: State, now: State, batch: Batch, i: nat, log: Executions, size: Json -> nat)
    requires Runs(batch, i)
  {
    !Completed(st, ItemId(batch.base, i)) && Completed(now, ItemId(batch.base, i)) ==>
      var id := ItemId(batch.base, i);
      && id in log && RanAsAsked(log[id], PlanOf(batch, i)) && log[id].produced.Some?
      && var produced := log[id].produced.value;
      && exists op | op in now.operations :: op.Id() == id && op.completion.Some?
           && RecordsProduced(op.completion.value, produced, size(produced.shown) > 64 * 1024)
  }

  ghost predicate IsDispatched(st: State, id: OpId) {
    exists op | op in st.operations :: op.Id() == id && op.dispatch.Some?
  }

  /** The item's code ran with its own arguments and files, and its result is recorded
      unless it raised, left out a unit it had reserved, or named its output badly. */
  ghost predicate RanByRule(now: State, batch: Batch, i: nat, log: Executions)
    requires Runs(batch, i)
  {
    var id := ItemId(batch.base, i);
    && id in log && RanAsAsked(log[id], PlanOf(batch, i))
    && (Completed(now, id) || log[id].produced.None? || !NamesOk(log[id].produced.value.raw)
        || LeavesOut(now, id, log[id].produced.value.usage))
  }

  ghost predicate LeavesOut(st: State, id: OpId, usage: Amounts) {
    exists op | op in st.operations :: op.Id() == id && !(op.reservation.Keys <= usage.Keys)
  }

  /** What was newly dispatched ran. */
  ghost predicate ExecutedByRule(st: State, now: State, batch: Batch, i: nat, log: Executions)
    requires Runs(batch, i)
  {
    !IsDispatched(st, ItemId(batch.base, i)) && IsDispatched(now, ItemId(batch.base, i)) ==> RanByRule(now, batch, i, log)
  }

  /** Everything new of the item is by these rules, the ledger being at `at` when it was
      decided. */
  ghost predicate ByRule(st: State, at: State, now: State, batch: Batch, i: nat, log: Executions, size: Json -> nat)
    requires Runs(batch, i)
  {
    && RefusedByRule(st, at, now, batch, i) && ReusedByRule(st, at, now, batch, i)
    && ReservedByRule(st, at, now, batch, i) && SettledByRule(st, now, batch, i, log, size)
  }

  ghost predicate Ruled(st: State, now: State, batch: Batch, i: nat, log: Executions, size: Json -> nat)
    requires Runs(batch, i)
  {
    exists at :: Extends(st, at) && Extends(at, now) && ByRule(st, at, now, batch, i, log, size)
  }

  ghost predicate AllRuled(st: State, now: State, batch: Batch, log: Executions, size: Json -> nat) {
    forall i | 0 <= i < |batch.items| && Runs(batch, i) :: Ruled(st, now, batch, i, log, size)
  }

  ghost predicate AllExecuted(st: State, now: State, batch: Batch, log: Executions) {
    forall i | 0 <= i < |batch.items| && Runs(batch, i) :: ExecutedByRule(st, now, batch, i, log)
  }

  /** Nothing else was executed. */
  ghost predicate KeepsLog(log: Executions, more: Executions, id: OpId) {
    forall other | other in log && other != id :: other in more && more[other] == log[other]
  }

  // ---- What keeps the rules ----

  /** The raw evidence of a result records what was produced. */
  lemma EvidenceRecords(done: Completion, produced: Produced, oversized: bool)
    requires done.result == Result(SettledOutcome(produced, oversized), produced.usage, produced.elapsed)
    requires done.observation.artifacts == EvidenceOf(produced, oversized)
    ensures RecordsProduced(done, produced, oversized)
  {
    var artifacts, channels := done.observation.artifacts, FileChannels(produced.files);
    forall channel
      ensures channel in channels <==> IsFileOf(produced, channel)
    {
      FileChannel(produced, channel);
    }
    forall name | name in produced.files
      ensures artifacts["files/" + name] == produced.files[name]
    {
      FileChannel(produced, "files/" + name);
      assert ("files/" + name)[|FILES|..] == name;
    }
  }

  lemma FileChannel(produced: Produced, channel: string)
    ensures channel in FileChannels(produced.files) <==> IsFileOf(produced, channel)
    ensures channel in FileChannels(produced.files) ==>
      |FILES| <= |channel| && channel[|FILES|..] in produced.files
      && FileChannels(produced.files)[channel] == produced.files[channel[|FILES|..]]
  {
    if IsFileOf(produced, channel) {
      var name :| name in produced.files && channel == "files/" + name;
      assert channel[|FILES|..] == name;
    }
  }

  /** Whatever changed has no ID of the item. */
  ghost predicate Off(st: State, later: State, batch: Batch, i: nat) {
    && Extends(st, later)
    && (forall k, part | |st.observations| <= k < |later.observations| ::
          later.observations[k].origin.operationId != PartId(batch.base, i, part))
    && (forall k | 0 <= k < |later.operations| ::
          (k < |st.operations| && later.operations[k] == st.operations[k])
          || later.operations[k].Id() != ItemId(batch.base, i))
  }

  lemma OtherItemIsOff(st: State, later: State, batch: Batch, i: nat, j: nat)
    requires Touches(st, later, IdsAt(batch, j)) && i != j
    ensures Off(st, later, batch, i)
  {
    forall id | id in IdsAt(batch, j)
      ensures id != ItemId(batch.base, i) && forall part :: id != PartId(batch.base, i, part)
    {
      OtherItemsId(batch, i, j, id);
    }
    forall k | 0 <= k < |later.operations|
      ensures (k < |st.operations| && later.operations[k] == st.operations[k])
              || later.operations[k].Id() != ItemId(batch.base, i)
    {
      if k < |st.operations| {
        assert Advances(st.operations[k], later.operations[k]);
      }
    }
  }

  lemma OtherItemsId(batch: Batch, i: nat, j: nat, id: OpId)
    requires i != j && id in IdsAt(batch, j)
    ensures id != ItemId(batch.base, i) && forall part :: id != PartId(batch.base, i, part)
  {
    ItemsDiffer(batch.base, i, j);
    ItemIsNoPart(batch.base, i);
    ItemIsNoPart(batch.base, j);
    forall part
      ensures id != PartId(batch.base, i, part)
    {
      assert IsPart(batch.base, PartId(batch.base, i, part));
      if id != ItemId(batch.base, j) {
        var other :| id == PartId(batch.base, j, other);
        PartsDiffer(batch.base, i, part, j, other);
      }
    }
    if id != ItemId(batch.base, j) {
      assert IsPart(batch.base, id);
    }
  }

  lemma OffTransitive(a: State, b: State, c: State, batch: Batch, i: nat)
    requires Off(a, b, batch, i) && Off(b, c, batch, i)
    ensures Off(a, c, batch, i)
  {
    ExtendsTransitive(a, b, c);
    forall k, part | |a.observations| <= k < |c.observations|
      ensures c.observations[k].origin.operationId != PartId(batch.base, i, part)
    {
      if k < |b.observations| {
        assert c.observations[k] == b.observations[k];
      }
    }
  }

  /** What is off an item leaves its records and its operation as they are. */
  lemma OffStays(st: State, later: State, batch: Batch, i: nat)
    requires Off(st, later, batch, i)
    ensures forall part :: Row(later, batch, i, part) == Row(st, batch, i, part)
    ensures Has(later.operations, ItemId(batch.base, i)) == Has(st.operations, ItemId(batch.base, i))
    ensures Completed(later, ItemId(batch.base, i)) == Completed(st, ItemId(batch.base, i))
  {
    var id := ItemId(batch.base, i);
    assert Quiet(st, later, batch, i);
    forall part
      ensures Row(later, batch, i, part) == Row(st, batch, i, part)
    {
      RowStays(st, later, batch, i, part);
    }
    HasStays(st, later, batch, i);
    if Completed(st, id) {
      CompletedStays(st, later, id);
    }
    if Completed(later, id) {
      var op :| op in later.operations && op.Id() == id && op.completion.Some?;
      var k :| 0 <= k < |later.operations| && later.operations[k] == op;
      assert op in st.operations;
    }
  }

  /** What is off an item keeps what is new of it by the rules. */
  lemma OffStaysRuled(st: State, now: State, later: State, batch: Batch, i: nat, log: Executions, more: Executions,
                      size: Json -> nat)
    requires Runs(batch, i) && Extends(st, now) && Ruled(st, now, batch, i, log, size) && Off(now, later, batch, i)
    requires ItemId(batch.base, i) in log ==>
      ItemId(batch.base, i) in more && more[ItemId(batch.base, i)] == log[ItemId(batch.base, i)]
    ensures Ruled(st, later, batch, i, more, size)
  {
    var at :| Extends(st, at) && Extends(at, now) && ByRule(st, at, now, batch, i, log, size);
    ExtendsTransitive(at, now, later);
    OffStays(now, later, batch, i);
    HoldsAskedStays(now, later, batch, i);
    SettledStays(st, now, later, batch, i, log, more, size);
    assert ByRule(st, at, later, batch, i, more, size);
  }

  lemma HoldsAskedStays(st: State, later: State, batch: Batch, i: nat)
    requires Runs(batch, i) && Extends(st, later)
    ensures HoldsAsked(st, batch, i) ==> HoldsAsked(later, batch, i)
  {
    if HoldsAsked(st, batch, i) {
      var op :| op in st.operations && op.Id() == ItemId(batch.base, i) && op.reservation == Asked(PlanOf(batch, i))
                && op.scope == ScopeFor(batch, PlanOf(batch, i));
      var after := PhaseAfter(st, later, op);
    }
  }

  lemma SettledStays(st: State, now: State, later: State, batch: Batch, i: nat, log: Executions, more: Executions,
                     size: Json -> nat)
    requires Runs(batch, i) && Extends(now, later) && SettledByRule(st, now, batch, i, log, size)
    requires Completed(later, ItemId(batch.base, i)) ==> Completed(now, ItemId(batch.base, i))
    requires ItemId(batch.base, i) in log ==>
      ItemId(batch.base, i) in more && more[ItemId(batch.base, i)] == log[ItemId(batch.base, i)]
    ensures SettledByRule(st, later, batch, i, more, size)
  {
    var id := ItemId(batch.base, i);
    if !Completed(st, id) && Completed(later, id) {
      var produced := log[id].produced.value;
      var op :| op in now.operations && op.Id() == id && op.completion.Some?
                && RecordsProduced(op.completion.value, produced, size(produced.shown) > 64 * 1024);
      var after := PhaseAfter(now, later, op);
    }
  }

  ghost predicate AllOff(st: State, now: State, batch: Batch, n: nat) {
    forall i | n <= i < |batch.items| :: Off(st, now, batch, i)
  }

  lemma NothingIsOff(st: State, batch: Batch, i: nat)
    ensures Off(st, st, batch, i)
  {
  }

  /** Before anything happened all is by the rules. */
  lemma NothingRuled(st: State, batch: Batch, log: Executions, size: Json -> nat)
    ensures AllRuled(st, st, batch, log, size) && AllExecuted(st, st, batch, log) && AllOff(st, st, batch, 0)
  {
    forall i | 0 <= i < |batch.items|
      ensures Off(st, st, batch, i)
      ensures Runs(batch, i) ==> Ruled(st, st, batch, i, log, size)
    {
      NothingIsOff(st, batch, i);
      if Runs(batch, i) {
        NoNews(st, batch, i, log, size);
        assert Ruled(st, st, batch, i, log, size);
      }
    }
  }

  /** What is new of an item that had been left alone is new since then. */
  lemma OffThenRuled(st: State, before: State, now: State, batch: Batch, i: nat, log: Executions, size: Json -> nat)
    requires Runs(batch, i) && Off(st, before, batch, i) && Extends(before, now)
    requires ByRule(before, before, now, batch, i, log, size)
    ensures Ruled(st, now, batch, i, log, size)
  {
    OffStays(st, before, batch, i);
    assert ByRule(st, before, now, batch, i, log, size);
  }

  /** One more item was handled. */
  lemma OneMoreRuled(st: State, before: State, now: State, batch: Batch, j: nat, log: Executions, more: Executions, size: Json -> nat)
    requires j < |batch.items| && Extends(st, before) && Touches(before, now, IdsAt(batch, j))
    requires AllRuled(st, before, batch, log, size) && AllOff(st, before, batch, j)
    requires KeepsLog(log, more, ItemId(batch.base, j))
    requires Runs(batch, j) ==> ByRule(before, before, now, batch, j, more, size)
    ensures AllRuled(st, now, batch, more, size) && AllOff(st, now, batch, j + 1)
  {
    forall i | 0 <= i < |batch.items| && Runs(batch, i)
      ensures Ruled(st, now, batch, i, more, size)
    {
      if i == j {
        OffThenRuled(st, before, now, batch, i, more, size);
      } else {
        OtherItemIsOff(before, now, batch, i, j);
        ItemsDiffer(batch.base, i, j);
        OffStaysRuled(st, before, now, batch, i, log, more, size);
      }
    }
    forall i | j + 1 <= i < |batch.items|
      ensures Off(st, now, batch, i)
    {
      OtherItemIsOff(before, now, batch, i, j);
      OffTransitive(st, before, now, batch, i);
    }
  }

  lemma OffStaysExecuted(st: State, now: State, later: State, batch: Batch, i: nat, log: Executions, more: Executions)
    requires Runs(batch, i) && ExecutedByRule(st, now, batch, i, log) && Off(now, later, batch, i)
    requires ItemId(batch.base, i) in log ==>
      ItemId(batch.base, i) in more && more[ItemId(batch.base, i)] == log[ItemId(batch.base, i)]
    ensures ExecutedByRule(st, later, batch, i, more)
  {
    var id := ItemId(batch.base, i);
    OffStays(now, later, batch, i);
    if !IsDispatched(st, id) && IsDispatched(later, id) {
      var op :| op in later.operations && op.Id() == id && op.dispatch.Some?;
      assert op in now.operations;
      if log[id].produced.Some? {
        LeavesOutStays(now, later, id, log[id].produced.value.usage);
      }
    }
  }

  lemma LeavesOutStays(st: State, later: State, id: OpId, usage: Amounts)
    requires Extends(st, later)
    ensures LeavesOut(st, id, usage) ==> LeavesOut(later, id, usage)
  {
    if LeavesOut(st, id, usage) {
      var op :| op in st.operations && op.Id() == id && !(op.reservation.Keys <= usage.Keys);
      var after := PhaseAfter(st, later, op);
    }
  }

  lemma OffThenExecuted(st: State, before: State, now: State, batch: Batch, i: nat, log: Executions)
    requires Runs(batch, i) && Off(st, before, batch, i) && ExecutedByRule(before, now, batch, i, log)
    ensures ExecutedByRule(st, now, batch, i, log)
  {
    var id := ItemId(batch.base, i);
    if IsDispatched(before, id) {
      var op :| op in before.operations && op.Id() == id && op.dispatch.Some?;
      assert op in st.operations;
    }
  }

  lemma OneMoreExecuted(st: State, before: State, now: State, batch: Batch, j: nat, log: Executions, more: Executions)
    requires j < |batch.items| && Touches(before, now, IdsAt(batch, j))
    requires AllExecuted(st, before, batch, log) && AllOff(st, before, batch, j)
    requires KeepsLog(log, more, ItemId(batch.base, j))
    requires Runs(batch, j) ==> ExecutedByRule(before, now, batch, j, more)
    ensures AllExecuted(st, now, batch, more)
  {
    forall i | 0 <= i < |batch.items| && Runs(batch, i)
      ensures ExecutedByRule(st, now, batch, i, more)
    {
      if i == j {
        OffThenExecuted(st, before, now, batch, i, more);
      } else {
        OtherItemIsOff(before, now, batch, i, j);
        ItemsDiffer(batch.base, i, j);
        OffStaysExecuted(st, before, now, batch, i, log, more);
      }
    }
  }

  lemma OneMoreTouched(st: State, before: State, now: State, batch: Batch, j: nat)
    requires j < |batch.items| && Touches(st, before, IdsOf(batch)) && Touches(before, now, IdsAt(batch, j))
    ensures Touches(st, now, IdsOf(batch))
  {
    ItemIdsAreBatchIds(batch, j);
    TouchesWider(before, now, IdsAt(batch, j), IdsOf(batch));
    TouchesTransitive(st, before, now, IdsOf(batch));
  }

  lemma PartIsOfItem(batch: Batch, i: nat, part: Part)
    ensures PartId(batch.base, i, part) in IdsAt(batch, i)
  {
  }

  lemma ItemIsOfItem(batch: Batch, i: nat)
    ensures ItemId(batch.base, i) in IdsAt(batch, i)
  {
  }

  // ---- One step of an item ----

  lemma OtherRows(st: State, now: State, batch: Batch, i: nat, part: Part)
    requires AddsPart(st, now, batch, i, part)
    ensures forall other | other != part :: Row(now, batch, i, other) == Row(st, batch, i, other)
  {
    PartIsQuietElsewhere(st, now, batch, i, part);
  }

  /** Recording the refusal of an item that the rules refuse. */
  lemma RefusalNews(st: State, now: State, batch: Batch, i: nat, log: Executions, size: Json -> nat)
    requires Runs(batch, i) && AllDecided(st, batch, i) && AddsPart(st, now, batch, i, Refusal)
    requires NoneRefused(st, batch, i) ==> Short(st, ScopeFor(batch, PlanOf(batch, i)), Asked(PlanOf(batch, i)))
    requires Recorded(now, batch, i, Refusal) ==>
      SaysRefused(now, batch, i, if NoneRefused(st, batch, i) then "budget exhausted" else "budget exhausted by an earlier item")
    ensures ByRule(st, st, now, batch, i, log, size)
  {
    OtherRows(st, now, batch, i, Refusal);
  }

  /** Recording the reuse the rules choose. */
  lemma ReuseNews(st: State, now: State, batch: Batch, i: nat, source: OpId, log: Executions, size: Json -> nat)
    requires Runs(batch, i) && AllDecided(st, batch, i) && NoneRefused(st, batch, i)
    requires PlanOf(batch, i).declared.reusable && FirstReusable(st, KeyBlob(PlanOf(batch, i)), source)
    requires AddsPart(st, now, batch, i, Reuse)
    requires Recorded(now, batch, i, Reuse) ==>
      now.observations[Row(now, batch, i, Reuse).value].artifacts == ReuseRaw(source)
    ensures ByRule(st, st, now, batch, i, log, size)
  {
    OtherRows(st, now, batch, i, Reuse);
    assert ReuseSource(ReuseRaw(source)) == Some(source);
  }

  /** Reserving an item the budget can afford. */
  lemma ReservationNews(st: State, now: State, batch: Batch, i: nat, op: Operation, log: Executions, size: Json -> nat)
    requires Runs(batch, i) && AllDecided(st, batch, i) && NoneRefused(st, batch, i)
    requires PlanOf(batch, i).declared.reusable ==> NoneReusable(st, KeyBlob(PlanOf(batch, i)))
    requires !Short(st, ScopeFor(batch, PlanOf(batch, i)), Asked(PlanOf(batch, i)))
    requires now == st.(operations := st.operations + [op]) && op.Id() == ItemId(batch.base, i) && op.completion.None?
    requires op.reservation == Asked(PlanOf(batch, i)) && op.scope == ScopeFor(batch, PlanOf(batch, i))
    ensures ByRule(st, st, now, batch, i, log, size)
  {
    assert op in now.operations;
    OneMoreOpen(st, now, op, ItemId(batch.base, i));
  }

  /** Operations went on, and none of the item's records was added. */
  ghost predicate Phased(st: State, now: State, batch: Batch, i: nat) {
    && Extends(st, now) && |now.operations| == |st.operations|
    && forall part :: Row(now, batch, i, part) == Row(st, batch, i, part)
  }

  lemma PhasedTransitive(a: State, b: State, c: State, batch: Batch, i: nat)
    requires Phased(a, b, batch, i) && Phased(b, c, batch, i)
    ensures Phased(a, c, batch, i)
  {
    ExtendsTransitive(a, b, c);
  }

  lemma PhasesRows(st: State, now: State, batch: Batch, i: nat)
    requires Extends(st, now) && |now.operations| == |st.operations|
    requires forall op | op in st.operations :: !IsPart(batch.base, op.Id())
    requires forall k | |st.observations| <= k < |now.observations| ::
      Has(st.operations, now.observations[k].origin.operationId)
    ensures Phased(st, now, batch, i)
  {
    forall part
      ensures Row(now, batch, i, part) == Row(st, batch, i, part)
    {
      var id := PartId(batch.base, i, part);
      assert IsPart(batch.base, id);
      forall k | |st.observations| <= k < |now.observations|
        ensures now.observations[k].origin.operationId != id
      {
        var row :| 0 <= row < |st.operations| && st.operations[row].Id() == now.observations[k].origin.operationId;
        assert st.operations[row] in st.operations;
      }
      OtherRowStays(st, now, id);
    }
  }

  lemma PhasedHas(st: State, now: State, id: OpId)
    requires Extends(st, now) && |now.operations| == |st.operations|
    ensures Has(now.operations, id) == Has(st.operations, id)
  {
    forall k | 0 <= k < |st.operations|
      ensures now.operations[k].Id() == st.operations[k].Id()
    {
      assert Advances(st.operations[k], now.operations[k]);
    }
  }

  /** Settling an item by the rules after whatever came by the rules before. */
  lemma PhaseNews(st: State, mid: State, now: State, batch: Batch, i: nat, log: Executions, more: Executions, size: Json -> nat)
    requires Runs(batch, i) && ByRule(st, st, mid, batch, i, log, size) && Phased(mid, now, batch, i)
    requires !Completed(mid, ItemId(batch.base, i)) && SettledByRule(mid, now, batch, i, more, size)
    ensures ByRule(st, st, now, batch, i, more, size)
  {
    PhasedHas(mid, now, ItemId(batch.base, i));
    HoldsAskedStays(mid, now, batch, i);
  }

  lemma NoNews(st: State, batch: Batch, i: nat, log: Executions, size: Json -> nat)
    requires Runs(batch, i)
    ensures ByRule(st, st, st, batch, i, log, size)
  {
  }

  /** Capturing the input of an item is no news. */
  lemma AfterCapture(st: State, mid: State, now: State, batch: Batch, i: nat, log: Executions, size: Json -> nat)
    requires Runs(batch, i) && BatchOk(st, batch) && AddsPart(st, mid, batch, i, Input) && mid.scopes == st.scopes
    requires ByRule(mid, mid, now, batch, i, log, size)
    ensures ByRule(st, st, now, batch, i, log, size)
  {
    InputStepKeeps(st, mid, batch, i);
    forall m | 0 <= m < i
      ensures Decided(mid, batch, m) == Decided(st, batch, m)
    {
    }
    assert AllDecided(mid, batch, i) == AllDecided(st, batch, i);
    assert NoneRefused(mid, batch, i) == NoneRefused(st, batch, i);
    SameBooks(st, mid, ScopeFor(batch, PlanOf(batch, i)), Asked(PlanOf(batch, i)));
  }

  lemma SameBooks(st: State, later: State, scope: string, reservation: Amounts)
    requires later.project == st.project && later.operations == st.operations && later.scopes == st.scopes
    ensures Short(later, scope, reservation) == Short(st, scope, reservation)
    ensures Awaits(later, scope) == Awaits(st, scope) && Closed(later, scope) == Closed(st, scope)
  {
  }

  // ---- What can hinder an item ----

  /** The capture of an item's input, alone under its ID. */
  ghost predicate InputIs(st: State, batch: Batch, i: nat, capture: Observation)
    requires Runs(batch, i)
  {
    var row := Row(st, batch, i, Input);
    && row.Some? && IsRecord(st, row.value, InputOrigin(batch, i), InputRaw(PlanOf(batch, i)))
    && capture == st.observations[row.value]
  }

  /** The ID of the item's input names something else. */
  ghost predicate InputIsTaken(st: State, batch: Batch, i: nat)
    requires Runs(batch, i)
  {
    var row := Row(st, batch, i, Input);
    row.Some? && !IsRecord(st, row.value, InputOrigin(batch, i), InputRaw(PlanOf(batch, i)))
  }

  /** The item cites something the ledger does not hold. */
  ghost predicate CitesMissing(st: State, batch: Batch, i: nat)
    requires Runs(batch, i)
  {
    exists capture, e :: InputIs(st, batch, i, capture)
      && e in CitedEvidence(batch, PlanOf(batch, i), capture) && !OnLedger(st, e)
  }

  /** The item's declaration asks for nothing, or for units or a scope there are not. */
  predicate AsksBadly(st: State, batch: Batch, i: nat)
    requires Runs(batch, i)
  {
    var plan := PlanOf(batch, i);
    || Asked(plan) == map[] || !(Asked(plan).Keys <= plan.declared.units)
    || !(Asked(plan).Keys <= st.project.allowances.Keys)
    || !(ScopeFor(batch, plan) == ROOT || ScopeFor(batch, plan) in st.scopes)
  }

  /** The item's operation is reserved without a result: its outcome is unknown, or it may
      not be dispatched. */
  ghost predicate IsHeldUp(st: State, batch: Batch, i: nat) {
    exists op | op in st.operations :: op.Id() == ItemId(batch.base, i) && op.completion.None?
      && (op.dispatch.Some? || Awaits(st, op.scope) || Closed(st, op.scope))
  }

  /** The item has its disposition, but the record lacks what it should show. */
  ghost predicate ShowsNothing(st: State, batch: Batch, i: nat)
    requires Runs(batch, i)
  {
    Decided(st, batch, i) && ItemOk(st, batch, i) && ResultOf(st, batch, i).None?
  }

  /** Why an item stops its batch. */
  ghost predicate Hindered(st: State, batch: Batch, i: nat)
    requires Runs(batch, i)
  {
    || InputIsTaken(st, batch, i) || CitesMissing(st, batch, i) || AsksBadly(st, batch, i)
    || IsHeldUp(st, batch, i) || ShowsNothing(st, batch, i)
  }

  // ---- The transactions of an item ----

  /** The files the item's code may read. */
  function FilesGiven(plan: Plan): map<string, Blob>
    requires plan.Run?
  {
    var files := Files(plan.declared.inputs);
    map name | name in files :: files[name].artifact
  }

  lemma OpenIsUnsettled(st: State, request: Request)
    requires UniqueIds(st.operations) && IsOpen(st, request)
    ensures !Completed(st, request.origin.operationId)
  {
    var row: nat :| KnownRequest(st, request, row) && st.operations[row].completion.None?;
    forall op | op in st.operations && op.Id() == request.origin.operationId
      ensures op == st.operations[row]
    {
      var k :| 0 <= k < |st.operations| && st.operations[k] == op;
    }
  }

  lemma SentIsOpen(st: State, request: Request)
    requires IsSent(st, request)
    ensures IsOpen(st, request)
  {
  }

  lemma SentIsHeldUp(st: State, batch: Batch, i: nat, request: Request)
    requires IsSent(st, request) && request.origin.operationId == ItemId(batch.base, i)
    ensures IsHeldUp(st, batch, i)
  {
    var row: nat :|
      KnownRequest(st, request, row) && st.operations[row].dispatch.Some? && st.operations[row].completion.None?;
    assert st.operations[row] in st.operations && st.operations[row].Id() == ItemId(batch.base, i);
  }

  /** An open item is dispatched unless something holds it up. */
  lemma BeginOrHeld(st: State, session: string, batch: Batch, i: nat, request: Request)
    requires Inv(st) && session in st.sessions && IsOpen(st, request)
    requires request.origin.operationId == ItemId(batch.base, i)
    ensures var step := Begin(st, session, request);
      if step.out == Ok(true) then IsSent(step.st, request) else step.st == st && IsHeldUp(st, batch, i)
  {
    var row: nat :| KnownRequest(st, request, row) && st.operations[row].completion.None?;
    BeginAt(st, session, request, row);
    assert st.operations[row] in st.operations && st.operations[row].Id() == ItemId(batch.base, i);
    if Dispatchable(st, session, request, row) {
      assert KnownRequest(Marked(st, session, row), request, row) by {
        OriginGrows(st, Marked(st, session, row), request.origin);
      }
    }
  }

  /** The item got exactly this outcome. */
  ghost predicate SettledAs(st: State, batch: Batch, i: nat, result: Result, raw: Artifacts) {
    exists op | op in st.operations ::
      op.Id() == ItemId(batch.base, i) && op.completion.Some?
      && op.completion.value.result == result && op.completion.value.observation.artifacts == raw
  }

  /** The outcome cannot be recorded, and the item still has none. */
  ghost predicate RefusedResult(st: State, batch: Batch, i: nat, request: Request, result: Result, raw: Artifacts) {
    IsSent(st, request) && exists op | op in st.operations :: op.Id() == ItemId(batch.base, i) && !Acceptable(op, result, raw)
  }

  lemma SettleOrRefuse(st: State, session: string, batch: Batch, i: nat, request: Request, result: Result, raw: Artifacts)
    requires Inv(st) && session in st.sessions && IsSent(st, request)
    requires request.origin.operationId == ItemId(batch.base, i)
    ensures var step := Complete(st, session, request, result, raw);
      if step.out.Ok? then SettledAs(step.st, batch, i, result, raw)
      else step.st == st && RefusedResult(st, batch, i, request, result, raw)
  {
    var row: nat :|
      KnownRequest(st, request, row) && st.operations[row].dispatch.Some? && st.operations[row].completion.None?;
    CompleteDecides(st, session, request, result, raw, row);
    assert st.operations[row] in st.operations && st.operations[row].Id() == ItemId(batch.base, i);
    var step := Complete(st, session, request, result, raw);
    if step.out.Ok? {
      assert step.st.operations[row] in step.st.operations;
    }
  }

  lemma EvidenceIsNamed(produced: Produced, oversized: bool)
    ensures EvidenceOf(produced, oversized) != map[]
    ensures NamesOk(EvidenceOf(produced, oversized)) <== NamesOk(produced.raw)
  {
    var raw := EvidenceOf(produced, oversized);
    assert SHOWN in raw && 's' in SHOWN && 'o' in "oversized-shown.json";
    forall channel | channel in FileChannels(produced.files)
      ensures !Blank(channel)
    {
      FileChannel(produced, channel);
      var name :| name in produced.files && channel == "files/" + name;
      assert channel[0] == 'f' && channel[0] in channel;
    }
  }

  /** Whatever became of a result that was produced, it is by the rules. */
  lemma ProducedIsRecorded(st: State, batch: Batch, i: nat, log: Executions, produced: Produced, oversized: bool, result: Result,
                           request: Request, size: Json -> nat)
    requires Runs(batch, i) && UniqueIds(st.operations) && request.origin.operationId == ItemId(batch.base, i)
    requires ItemId(batch.base, i) in log && log[ItemId(batch.base, i)]
      == Execution(PlanOf(batch, i).name, PlanOf(batch, i).arguments, FilesGiven(PlanOf(batch, i)), Some(produced))
    requires oversized == (size(produced.shown) > 64 * 1024)
    requires result == Result(SettledOutcome(produced, oversized), produced.usage, produced.elapsed)
    requires SettledAs(st, batch, i, result, EvidenceOf(produced, oversized))
             || RefusedResult(st, batch, i, request, result, EvidenceOf(produced, oversized))
    ensures RanByRule(st, batch, i, log)
    ensures forall before :: SettledByRule(before, st, batch, i, log, size)
  {
    GivenIsAsked(PlanOf(batch, i), produced);
    if SettledAs(st, batch, i, result, EvidenceOf(produced, oversized)) {
      RecordedAsProduced(st, batch, i, produced, oversized, result);
    } else {
      SentIsOpen(st, request);
      OpenIsUnsettled(st, request);
      RefusedLeavesOut(st, batch, i, request, result, produced, oversized);
    }
  }

  lemma RecordedAsProduced(st: State, batch: Batch, i: nat, produced: Produced, oversized: bool, result: Result)
    requires result == Result(SettledOutcome(produced, oversized), produced.usage, produced.elapsed)
    requires SettledAs(st, batch, i, result, EvidenceOf(produced, oversized))
    ensures Completed(st, ItemId(batch.base, i))
    ensures exists op | op in st.operations ::
      op.Id() == ItemId(batch.base, i) && op.completion.Some? && RecordsProduced(op.completion.value, produced, oversized)
  {
    var op :| op in st.operations && op.Id() == ItemId(batch.base, i) && op.completion.Some?
              && op.completion.value.result == result
              && op.completion.value.observation.artifacts == EvidenceOf(produced, oversized);
    EvidenceRecords(op.completion.value, produced, oversized);
  }

  lemma GivenIsAsked(plan: Plan, produced: Produced)
    requires plan.Run?
    ensures RanAsAsked(Execution(plan.name, plan.arguments, FilesGiven(plan), Some(produced)), plan)
  {
  }

  lemma RefusedLeavesOut(st: State, batch: Batch, i: nat, request: Request, result: Result, produced: Produced, oversized: bool)
    requires RefusedResult(st, batch, i, request, result, EvidenceOf(produced, oversized)) && result.usage == produced.usage
    ensures !NamesOk(produced.raw) || LeavesOut(st, ItemId(batch.base, i), produced.usage)
  {
    EvidenceIsNamed(produced, oversized);
    var op :| op in st.operations && op.Id() == ItemId(batch.base, i)
              && !Acceptable(op, result, EvidenceOf(produced, oversized));
  }

  /** Reserving an item the budget can afford is by the rules. */
  lemma ReservedNews(st: State, now: State, batch: Batch, i: nat, request: Request, op: Operation, log: Executions,
                     size: Json -> nat)
    requires Runs(batch, i) && AllDecided(st, batch, i) && NoneRefused(st, batch, i) && OriginMatches(st, request.origin)
    requires PlanOf(batch, i).declared.reusable ==> NoneReusable(st, KeyBlob(PlanOf(batch, i)))
    requires !Short(st, ScopeFor(batch, PlanOf(batch, i)), Asked(PlanOf(batch, i)))
    requires now == st.(operations := st.operations + [op]) && request.context == st.project
    requires request.origin.operationId == ItemId(batch.base, i) && !Decided(st, batch, i)
    requires exists session :: op == Operation(request, session, Asked(PlanOf(batch, i)), None, None, ScopeFor(batch, PlanOf(batch, i)))
    ensures ByRule(st, st, now, batch, i, log, size) && IsOpen(now, request) && !Completed(now, ItemId(batch.base, i))
    ensures IsDispatched(now, ItemId(batch.base, i)) ==> IsDispatched(st, ItemId(batch.base, i))
  {
    ReservationNews(st, now, batch, i, op, log, size);
    OriginGrows(st, now, request.origin);
    assert KnownRequest(now, request, |st.operations|);
    OneMoreOpen(st, now, op, ItemId(batch.base, i));
  }

  lemma OneMoreOpen(st: State, now: State, op: Operation, id: OpId)
    requires now.operations == st.operations + [op] && op.completion.None?
    ensures Completed(now, id) ==> Completed(st, id)
  {
    if Completed(now, id) {
      var other :| other in now.operations && other.Id() == id && other.completion.Some?;
      assert other in st.operations;
    }
  }

  // ---- Where the ledger refuses ----

  /** The item's input is captured, or its ID is taken. */
  lemma CaptureOrTaken(st: State, session: string, batch: Batch, i: nat)
    requires Inv(st) && Runs(batch, i) && session in st.sessions
    requires forall op | op in st.operations :: !IsPart(batch.base, op.Id())
    ensures var step := InputStep(st, session, batch, i);
      step.out.Err? ==> step.st == st && InputIsTaken(st, batch, i)
  {
    var origin, raw := InputOrigin(batch, i), InputRaw(PlanOf(batch, i));
    assert IsPart(batch.base, origin.operationId);
    RecordOnce.StepEffect(st, session, origin, raw);
    if !InputIsTaken(st, batch, i) {
      InputNames(PlanOf(batch, i));
      NoOperation(st, origin.operationId);
      RecordsOrFinds(st, session, origin, raw);
    }
  }

  ghost function InputStep(st: State, session: string, batch: Batch, i: nat): LedgerSpec.Step<Observation>
    requires Runs(batch, i)
  {
    RecordOnce.Step(st, session, InputOrigin(batch, i), InputRaw(PlanOf(batch, i)))
  }

  lemma InputNames(plan: Plan)
    requires plan.Run?
    ensures InputRaw(plan) != map[] && NamesOk(InputRaw(plan))
  {
    assert ARGUMENTS in InputRaw(plan);
    assert ARGUMENTS[0] in ARGUMENTS && KEY[0] in KEY && INPUTS[0] in INPUTS;
  }

  lemma {:induction false} CitedName(cited: seq<Evidence>, name: string)
    requires name in Cite(cited)
    ensures exists e | e in cited :: e.name == name && e.artifact == Cite(cited)[name]
  {
    var last := cited[|cited| - 1];
    if name == last.name {
      assert last in cited;
    } else {
      CitedName(cited[..|cited| - 1], name);
      var e :| e in cited[..|cited| - 1] && e.name == name && e.artifact == Cite(cited[..|cited| - 1])[name];
      assert e in cited;
    }
  }

  /** Evidence that is all on the ledger can be cited. */
  lemma HeldIsCited(st: State, cited: seq<Evidence>)
    requires forall e | e in cited :: OnLedger(st, e)
    ensures forall name | name in Cite(cited) :: Resolve(st, name) == Some(Cite(cited)[name])
  {
    forall name | name in Cite(cited)
      ensures Resolve(st, name) == Some(Cite(cited)[name])
    {
      CitedName(cited, name);
    }
  }

  /** An item's request is found, or cites what the ledger does not hold. */
  lemma RequestOrMissing(st: State, batch: Batch, i: nat, capture: Observation)
    requires Runs(batch, i) && InputIs(st, batch, i, capture)
    ensures OriginMatches(st, ItemRequest(batch, st.project, i, PlanOf(batch, i), capture).origin) || CitesMissing(st, batch, i)
  {
    var cited := CitedEvidence(batch, PlanOf(batch, i), capture);
    if forall e | e in cited :: OnLedger(st, e) {
      HeldIsCited(st, cited);
    }
  }

  /** A reuse of the item is recorded, or cites what the ledger does not hold. */
  lemma ReuseCitedOrMissing(st: State, batch: Batch, i: nat, capture: Observation)
    requires Runs(batch, i) && InputIs(st, batch, i, capture)
    ensures OriginMatches(st, ReuseOrigin(batch, i, PlanOf(batch, i), capture)) || CitesMissing(st, batch, i)
  {
    var cited := CitedEvidence(batch, PlanOf(batch, i), capture);
    if forall e | e in cited :: OnLedger(st, e) {
      var own := [Captured(capture, KEY), batch.stdout];
      assert cited[0] == batch.stdout && cited[3] == Captured(capture, KEY);
      HeldIsCited(st, own);
    }
  }
}
