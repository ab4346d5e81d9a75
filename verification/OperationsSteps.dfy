/** The transactions of one batch item, and the order they keep. */
module OperationsSteps {
  import opened Records
  import opened LedgerSpec
  import opened LedgerInvariant
  import opened LedgerSafety
  import opened Evidences
  import opened RecordOnce
  import opened OperationsSpec
  import opened OperationsReplay

  /** No earlier item of the batch was refused. */
  ghost predicate NoneRefused(st: State, batch: Batch, i: nat) {
    forall m | 0 <= m < i :: !Recorded(st, batch, m, Refusal)
  }

  /** Every earlier item that runs has its disposition. */
  ghost predicate AllDecided(st: State, batch: Batch, i: nat) {
    forall m | 0 <= m < i && Runs(batch, m) :: Decided(st, batch, m)
  }

  ghost predicate QuietElsewhere(st: State, later: State, batch: Batch, i: nat) {
    forall j | 0 <= j < |batch.items| && j != i :: Quiet(st, later, batch, j)
  }

  /** A change to the first undecided item keeps the batch in order. */
  lemma OrderPlaces(st: State, later: State, batch: Batch, i: nat)
    requires InOrder(st, batch) && Runs(batch, i) && !Decided(st, batch, i) && AllDecided(st, batch, i)
    requires QuietElsewhere(st, later, batch, i)
    requires Ran(later, batch, i) ==> Ran(st, batch, i) || NoneRefused(st, batch, i)
    ensures InOrder(later, batch)
  {
    forall j | 0 <= j < |batch.items| && j != i
      ensures Placed(later, batch, j) == Placed(st, batch, j) && Ran(later, batch, j) == Ran(st, batch, j)
      ensures Recorded(later, batch, j, Refusal) == Recorded(st, batch, j, Refusal)
      ensures Decided(st, batch, j) ==> Decided(later, batch, j)
    {
      MarksStay(st, later, batch, j);
    }
  }

  lemma BatchPlaces(st: State, later: State, batch: Batch, i: nat)
    requires BatchOk(st, batch) && Runs(batch, i) && !Decided(st, batch, i) && AllDecided(st, batch, i)
    requires QuietElsewhere(st, later, batch, i) && ItemOk(later, batch, i)
    requires Ran(later, batch, i) ==> Ran(st, batch, i) || NoneRefused(st, batch, i)
    requires forall op | op in later.operations :: !IsPart(batch.base, op.Id())
    ensures BatchOk(later, batch)
  {
    forall j | 0 <= j < |batch.items| && j != i
      ensures ItemOk(later, batch, j)
    {
      ItemStays(st, later, batch, j);
    }
    OrderPlaces(st, later, batch, i);
  }

  // ---- Records ----

  /** One record of item `i` was added, or found. */
  ghost predicate AddsPart(st: State, later: State, batch: Batch, i: nat, part: Part) {
    && Extends(st, later) && later.operations == st.operations
    && (later.observations == st.observations
        || (|later.observations| == |st.observations| + 1
            && later.observations[|st.observations|].origin.operationId == PartId(batch.base, i, part)
            && Row(st, batch, i, part).None?))
  }

  lemma StepAddsPart(st: State, session: string, batch: Batch, i: nat, part: Part, origin: Origin, raw: Artifacts)
    requires origin.operationId == PartId(batch.base, i, part)
    ensures AddsPart(st, RecordOnce.Step(st, session, origin, raw).st, batch, i, part)
  {
    StepExtends(st, session, origin, raw);
  }

  lemma PartIsQuietElsewhere(st: State, later: State, batch: Batch, i: nat, part: Part)
    requires AddsPart(st, later, batch, i, part)
    ensures QuietElsewhere(st, later, batch, i)
    ensures forall other | other != part :: Row(later, batch, i, other) == Row(st, batch, i, other)
    ensures forall k, other | |st.observations| <= k < |later.observations| && other != part ::
      later.observations[k].origin.operationId != PartId(batch.base, i, other)
  {
    forall j: nat, other | j != i || other != part
      ensures forall k | |st.observations| <= k < |later.observations| ::
        later.observations[k].origin.operationId != PartId(batch.base, j, other)
    {
      PartsDiffer(batch.base, i, part, j, other);
    }
    forall other | other != part
      ensures Row(later, batch, i, other) == Row(st, batch, i, other)
    {
      OtherRowStays(st, later, PartId(batch.base, i, other));
    }
  }

  lemma OtherRowStays(st: State, later: State, id: OpId)
    requires st.observations <= later.observations
    requires forall k | |st.observations| <= k < |later.observations| :: later.observations[k].origin.operationId != id
    ensures FirstRecord(later.observations, id) == FirstRecord(st.observations, id)
  {
    if FirstRecord(st.observations, id).Some? {
      FirstRecordStays(st.observations, later.observations, id);
    } else {
      forall k | 0 <= k < |later.observations|
        ensures later.observations[k].origin.operationId != id
      {
        assert k < |st.observations| ==> st.observations[k] in st.observations;
      }
    }
  }

  /** Capturing the input of an item places nothing. */
  lemma InputStepKeeps(st: State, later: State, batch: Batch, i: nat)
    requires BatchOk(st, batch) && i < |batch.items| && AddsPart(st, later, batch, i, Input)
    ensures BatchOk(later, batch)
    ensures forall j | 0 <= j < |batch.items| ::
      && Placed(later, batch, j) == Placed(st, batch, j) && (Decided(st, batch, j) ==> Decided(later, batch, j))
      && Recorded(later, batch, j, Refusal) == Recorded(st, batch, j, Refusal)
      && Recorded(later, batch, j, Reuse) == Recorded(st, batch, j, Reuse)
  {
    PartIsQuietElsewhere(st, later, batch, i, Input);
    forall j | 0 <= j < |batch.items|
      ensures Placed(later, batch, j) == Placed(st, batch, j) && Ran(later, batch, j) == Ran(st, batch, j)
      ensures Recorded(later, batch, j, Refusal) == Recorded(st, batch, j, Refusal)
      ensures Recorded(later, batch, j, Reuse) == Recorded(st, batch, j, Reuse)
      ensures Decided(st, batch, j) ==> Decided(later, batch, j)
      ensures ItemOk(later, batch, j)
    {
      if j != i {
        MarksStay(st, later, batch, j);
        ItemStays(st, later, batch, j);
      } else {
        InputItemStays(st, later, batch, i);
      }
    }
  }

  lemma InputItemStays(st: State, later: State, batch: Batch, i: nat)
    requires ItemOk(st, batch, i) && AddsPart(st, later, batch, i, Input)
    requires Row(later, batch, i, Reuse) == Row(st, batch, i, Reuse)
    requires Row(later, batch, i, Refusal) == Row(st, batch, i, Refusal)
    ensures ItemOk(later, batch, i)
  {
    if Placed(st, batch, i) {
      assert later.observations == st.observations;
      assert Quiet(st, later, batch, i);
      ItemStays(st, later, batch, i);
    }
  }

  /** Recording a refusal of the first undecided item. */
  lemma RefusalKeeps(st: State, later: State, batch: Batch, i: nat, capture: Observation)
    requires BatchOk(st, batch) && Runs(batch, i) && !Decided(st, batch, i) && AllDecided(st, batch, i)
    requires !Has(st.operations, ItemId(batch.base, i)) && Ready(st, batch, i, capture)
    requires AddsPart(st, later, batch, i, Refusal) && Recorded(later, batch, i, Refusal)
    requires RefusedOk(later.observations[Row(later, batch, i, Refusal).value].artifacts)
    ensures BatchOk(later, batch)
  {
    PartIsQuietElsewhere(st, later, batch, i, Refusal);
    ReadyStays(st, later, batch, i, capture);
    assert !Ran(later, batch, i);
    assert ItemOk(later, batch, i);
    BatchPlaces(st, later, batch, i);
  }

  /** Recording a reuse of the first undecided item, when none before it was refused. */
  lemma ReuseKeeps(st: State, later: State, batch: Batch, i: nat, capture: Observation)
    requires BatchOk(st, batch) && Runs(batch, i) && !Decided(st, batch, i) && AllDecided(st, batch, i)
    requires NoneRefused(st, batch, i)
    requires !Has(st.operations, ItemId(batch.base, i)) && Ready(st, batch, i, capture)
    requires AddsPart(st, later, batch, i, Reuse) && Recorded(later, batch, i, Reuse)
    requires ReuseOk(later, Row(later, batch, i, Reuse).value, KeyBlob(PlanOf(batch, i)))
    ensures BatchOk(later, batch)
  {
    PartIsQuietElsewhere(st, later, batch, i, Reuse);
    ReadyStays(st, later, batch, i, capture);
    assert ItemOk(later, batch, i);
    BatchPlaces(st, later, batch, i);
  }

  // ---- Operations ----

  /** Reserving the operation of the first undecided item, when none before was refused. */
  lemma ReservationKeeps(st: State, later: State, batch: Batch, i: nat, capture: Observation, op: Operation)
    requires BatchOk(st, batch) && Runs(batch, i) && !Decided(st, batch, i) && AllDecided(st, batch, i)
    requires NoneRefused(st, batch, i)
    requires !Has(st.operations, ItemId(batch.base, i)) && Ready(st, batch, i, capture)
    requires later == st.(operations := st.operations + [op])
    requires op.request == ItemRequest(batch, st.project, i, PlanOf(batch, i), capture)
    ensures BatchOk(later, batch)
  {
    ItemIsNoPart(batch.base, i);
    forall j | 0 <= j < |batch.items| && j != i
      ensures Quiet(st, later, batch, j)
    {
      ItemsDiffer(batch.base, i, j);
    }
    forall other | other in later.operations && other.Id() == ItemId(batch.base, i)
      ensures other == op
    {
      NotThere(st, other, ItemId(batch.base, i));
    }
    assert Ready(later, batch, i, capture);
    assert ItemOk(later, batch, i);
    BatchPlaces(st, later, batch, i);
  }

  lemma NotThere(st: State, op: Operation, id: OpId)
    requires !Has(st.operations, id) && op.Id() == id
    ensures op !in st.operations
  {
  }

  /** Dispatching or settling operations that are already there. */
  lemma PhasesKeep(st: State, later: State, batch: Batch)
    requires BatchOk(st, batch) && Extends(st, later) && |later.operations| == |st.operations|
    requires forall k | |st.observations| <= k < |later.observations| ::
      Has(st.operations, later.observations[k].origin.operationId)
    ensures BatchOk(later, batch)
  {
    forall k, j: nat, part | |st.observations| <= k < |later.observations|
      ensures later.observations[k].origin.operationId != PartId(batch.base, j, part)
    {
      var row :| 0 <= row < |st.operations| && st.operations[row].Id() == later.observations[k].origin.operationId;
      assert st.operations[row] in st.operations;
      assert IsPart(batch.base, PartId(batch.base, j, part));
    }
    forall j | 0 <= j < |batch.items|
      ensures Quiet(st, later, batch, j)
    {
    }
    forall op | op in later.operations
      ensures !IsPart(batch.base, op.Id())
    {
      var before := PhaseBefore(st, later, op);
    }
    BatchStays(st, later, batch);
  }
}
