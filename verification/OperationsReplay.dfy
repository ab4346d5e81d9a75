/** Why a batch replays: what each transaction does to its recorded dispositions. */
module OperationsReplay {
  import opened Records
  import opened Names
  import opened LedgerSpec
  import opened LedgerInvariant
  import opened LedgerSafety
  import opened Evidences
  import opened RecordOnce
  import opened OperationsSpec

  // ---- IDs ----

  lemma ItemTextInjective(base: string, i: nat, j: nat)
    requires ItemText(base, i) == ItemText(base, j)
    ensures i == j
  {
    SameTail(base, Decimal(i + 1), Decimal(j + 1));
    DecimalInjective(i + 1, j + 1);
  }

  lemma LastOfPart(base: string, i: nat, part: Part)
    ensures var text := ItemText(base, i) + PartText(part);
      text[|text| - 1] == PartText(part)[|PartText(part)| - 1]
    ensures IsDigit(ItemText(base, i)[|ItemText(base, i)| - 1])
  {
    var digits := Decimal(i + 1);
    assert ItemText(base, i)[|ItemText(base, i)| - 1] == digits[|digits| - 1];
  }

  lemma PartsDiffer(base: string, i: nat, a: Part, j: nat, b: Part)
    requires i != j || a != b
    ensures PartId(base, i, a) != PartId(base, j, b)
  {
    LastOfPart(base, i, a);
    LastOfPart(base, j, b);
    if ItemText(base, i) + PartText(a) == ItemText(base, j) + PartText(b) {
      assert |PartText(Input)| == |PartText(Reuse)|;
      if a == b {
        var n := |ItemText(base, i)|;
        assert (ItemText(base, i) + PartText(a))[..n] == ItemText(base, i);
        assert (ItemText(base, j) + PartText(b))[..n] == ItemText(base, j);
        ItemTextInjective(base, i, j);
      }
    }
  }

  lemma ItemsDiffer(base: string, i: nat, j: nat)
    requires i != j
    ensures ItemId(base, i) != ItemId(base, j)
  {
    if ItemText(base, i) == ItemText(base, j) {
      ItemTextInjective(base, i, j);
    }
  }

  lemma ItemIsNoPart(base: string, i: nat)
    ensures !IsPart(base, ItemId(base, i))
  {
    forall j: nat, part: Part
      ensures ItemId(base, i) != PartId(base, j, part)
    {
      LastOfPart(base, i, part);
      LastOfPart(base, j, part);
    }
  }

  // ---- What stays ----

  /** The ledger grew, and nothing new on it is about item `i`. */
  ghost predicate Quiet(st: State, later: State, batch: Batch, i: nat) {
    && Extends(st, later)
    && (forall k, part | |st.observations| <= k < |later.observations| ::
          later.observations[k].origin.operationId != PartId(batch.base, i, part))
    && (forall k | |st.operations| <= k < |later.operations| :: later.operations[k].Id() != ItemId(batch.base, i))
  }

  lemma RowStays(st: State, later: State, batch: Batch, i: nat, part: Part)
    requires Quiet(st, later, batch, i)
    ensures Row(later, batch, i, part) == Row(st, batch, i, part)
  {
    var id := PartId(batch.base, i, part);
    if Row(st, batch, i, part).Some? {
      FirstRecordStays(st.observations, later.observations, id);
    } else {
      forall k | 0 <= k < |later.observations|
        ensures later.observations[k].origin.operationId != id
      {
        assert k < |st.observations| ==> st.observations[k] in st.observations;
      }
    }
  }

  /** An operation of a grown ledger is a later phase of one that was there, or new. */
  lemma PhaseBefore(st: State, later: State, op: Operation) returns (before: Operation)
    requires Extends(st, later) && op in later.operations
    requires forall k | |st.operations| <= k < |later.operations| :: later.operations[k].Id() != op.Id()
    ensures before in st.operations && Advances(before, op)
  {
    var k :| 0 <= k < |later.operations| && later.operations[k] == op;
    before := st.operations[k];
  }

  lemma PhaseAfter(st: State, later: State, op: Operation) returns (after: Operation)
    requires Extends(st, later) && op in st.operations
    ensures after in later.operations && Advances(op, after)
  {
    var k :| 0 <= k < |st.operations| && st.operations[k] == op;
    after := later.operations[k];
  }

  lemma HasStays(st: State, later: State, batch: Batch, i: nat)
    requires Quiet(st, later, batch, i)
    ensures Has(later.operations, ItemId(batch.base, i)) == Has(st.operations, ItemId(batch.base, i))
  {
    var id := ItemId(batch.base, i);
    if Has(st.operations, id) {
      var k :| 0 <= k < |st.operations| && st.operations[k].Id() == id;
      assert Advances(st.operations[k], later.operations[k]);
    }
  }

  lemma CompletedStays(st: State, later: State, id: OpId)
    requires Extends(st, later) && Completed(st, id)
    ensures Completed(later, id)
  {
    var op :| op in st.operations && op.Id() == id && op.completion.Some?;
    var after := PhaseAfter(st, later, op);
  }

  lemma ReusableStays(before: Operation, after: Operation, key: ArtifactRef)
    requires Reusable(before, key) && Advances(before, after)
    ensures Reusable(after, key)
  {
  }

  lemma ReuseOkStays(st: State, later: State, row: nat, key: ArtifactRef)
    requires Extends(st, later) && row < |st.observations| && ReuseOk(st, row, key)
    ensures ReuseOk(later, row, key)
  {
    var source := ReuseSource(st.observations[row].artifacts).value;
    var op :| op in st.operations && op.Id() == source && Reusable(op, key)
              && op.completion.value.observation.sequence <= row;
    var after := PhaseAfter(st, later, op);
    ReusableStays(op, after, key);
  }

  lemma IsRecordStays(st: State, later: State, row: nat, origin: Origin, raw: Artifacts)
    requires st.observations <= later.observations && IsRecord(st, row, origin, raw)
    requires forall k | |st.observations| <= k < |later.observations| ::
      later.observations[k].origin.operationId != origin.operationId
    ensures IsRecord(later, row, origin, raw)
  {
  }

  lemma ReadyStays(st: State, later: State, batch: Batch, i: nat, capture: Observation)
    requires Extends(st, later) && Runs(batch, i) && Ready(st, batch, i, capture)
    requires forall k | |st.observations| <= k < |later.observations| ::
      later.observations[k].origin.operationId != PartId(batch.base, i, Input)
    ensures Ready(later, batch, i, capture)
  {
    FirstRecordStays(st.observations, later.observations, PartId(batch.base, i, Input));
    IsRecordStays(st, later, Row(st, batch, i, Input).value, InputOrigin(batch, i), InputRaw(PlanOf(batch, i)));
    OriginGrows(st, later, ItemRequest(batch, st.project, i, PlanOf(batch, i), capture).origin);
  }

  /** What is placed or decided of an item stays so, and nothing is added. */
  lemma MarksStay(st: State, later: State, batch: Batch, i: nat)
    requires Quiet(st, later, batch, i)
    ensures Placed(later, batch, i) == Placed(st, batch, i)
    ensures Ran(later, batch, i) == Ran(st, batch, i)
    ensures forall part :: Recorded(later, batch, i, part) == Recorded(st, batch, i, part)
    ensures Decided(st, batch, i) ==> Decided(later, batch, i)
  {
    forall part
      ensures Row(later, batch, i, part) == Row(st, batch, i, part)
    {
      RowStays(st, later, batch, i, part);
    }
    HasStays(st, later, batch, i);
    if Completed(st, ItemId(batch.base, i)) {
      CompletedStays(st, later, ItemId(batch.base, i));
    }
  }

  lemma RequestsStay(st: State, later: State, batch: Batch, i: nat, capture: Observation)
    requires Quiet(st, later, batch, i) && Runs(batch, i) && Ready(st, batch, i, capture)
    requires forall op | op in st.operations && op.Id() == ItemId(batch.base, i) ::
      op.request == ItemRequest(batch, st.project, i, PlanOf(batch, i), capture)
    ensures forall op | op in later.operations && op.Id() == ItemId(batch.base, i) ::
      op.request == ItemRequest(batch, later.project, i, PlanOf(batch, i), capture)
  {
    forall op | op in later.operations && op.Id() == ItemId(batch.base, i)
      ensures op.request == ItemRequest(batch, later.project, i, PlanOf(batch, i), capture)
    {
      var before := PhaseBefore(st, later, op);
    }
  }

  lemma ItemStays(st: State, later: State, batch: Batch, i: nat)
    requires Quiet(st, later, batch, i) && ItemOk(st, batch, i)
    ensures ItemOk(later, batch, i)
  {
    MarksStay(st, later, batch, i);
    if Placed(st, batch, i) {
      var capture :| Ready(st, batch, i, capture)
                     && forall op | op in st.operations && op.Id() == ItemId(batch.base, i) ::
                          op.request == ItemRequest(batch, st.project, i, PlanOf(batch, i), capture);
      ReadyStays(st, later, batch, i, capture);
      RequestsStay(st, later, batch, i, capture);
      HasStays(st, later, batch, i);
      RowStays(st, later, batch, i, Reuse);
      RowStays(st, later, batch, i, Refusal);
      if Recorded(st, batch, i, Reuse) {
        ReuseOkStays(st, later, Row(st, batch, i, Reuse).value, KeyBlob(PlanOf(batch, i)));
      }
    }
  }

  lemma OrderStays(st: State, later: State, batch: Batch)
    requires InOrder(st, batch)
    requires forall i | 0 <= i < |batch.items| :: Quiet(st, later, batch, i)
    ensures InOrder(later, batch)
  {
    forall i | 0 <= i < |batch.items|
      ensures Placed(later, batch, i) == Placed(st, batch, i) && Ran(later, batch, i) == Ran(st, batch, i)
      ensures Recorded(later, batch, i, Refusal) == Recorded(st, batch, i, Refusal)
      ensures Decided(st, batch, i) ==> Decided(later, batch, i)
    {
      MarksStay(st, later, batch, i);
    }
  }

  /** Whatever else happens on the ledger, also to the items' own operations once they are
      reserved, a batch keeps the dispositions it has. */
  lemma BatchStays(st: State, later: State, batch: Batch)
    requires BatchOk(st, batch)
    requires forall i | 0 <= i < |batch.items| :: Quiet(st, later, batch, i)
    requires forall op | op in later.operations :: !IsPart(batch.base, op.Id())
    ensures BatchOk(later, batch)
  {
    forall i | 0 <= i < |batch.items|
      ensures ItemOk(later, batch, i)
    {
      ItemStays(st, later, batch, i);
    }
    OrderStays(st, later, batch);
  }

  lemma CompletionStays(st: State, later: State, id: OpId)
    requires UniqueIds(later.operations) && Extends(st, later) && Completed(st, id)
    ensures Completed(later, id) && CompletionOf(later, id) == CompletionOf(st, id)
  {
    var op :| op in st.operations && op.Id() == id && op.completion == Some(CompletionOf(st, id));
    var after := PhaseAfter(st, later, op);
    var other :| other in later.operations && other.Id() == id && other.completion == Some(CompletionOf(later, id));
    assert other == after;
  }

  lemma ReusedStays(st: State, later: State, batch: Batch, i: nat)
    requires UniqueIds(later.operations) && Extends(st, later)
    requires ItemOk(st, batch, i) && ItemOk(later, batch, i) && Recorded(st, batch, i, Reuse)
    ensures Recorded(later, batch, i, Reuse) && !Completed(later, ItemId(batch.base, i))
    ensures SourceOf(later, batch, i) == SourceOf(st, batch, i)
    ensures CompletionOf(later, SourceOf(st, batch, i)) == CompletionOf(st, SourceOf(st, batch, i))
  {
    FirstRecordStays(st.observations, later.observations, PartId(batch.base, i, Reuse));
    CompletionStays(st, later, SourceOf(st, batch, i));
    NotCompleted(later, ItemId(batch.base, i));
  }

  lemma RefusedStays(st: State, later: State, batch: Batch, i: nat)
    requires Extends(st, later) && ItemOk(later, batch, i) && Recorded(st, batch, i, Refusal)
    ensures Row(later, batch, i, Refusal) == Row(st, batch, i, Refusal)
    ensures !Completed(later, ItemId(batch.base, i)) && !Recorded(later, batch, i, Reuse)
  {
    FirstRecordStays(st.observations, later.observations, PartId(batch.base, i, Refusal));
    NotCompleted(later, ItemId(batch.base, i));
  }

  /** A recorded disposition is final: on every later ledger the item shows the same. */
  lemma ResultStays(st: State, later: State, batch: Batch, i: nat)
    requires UniqueIds(later.operations) && Extends(st, later)
    requires Runs(batch, i) && ItemOk(st, batch, i) && ItemOk(later, batch, i) && Decided(st, batch, i)
    ensures Decided(later, batch, i)
    ensures ResultOf(later, batch, i) == ResultOf(st, batch, i)
  {
    if Completed(st, ItemId(batch.base, i)) {
      CompletionStays(st, later, ItemId(batch.base, i));
    } else if Recorded(st, batch, i, Reuse) {
      ReusedStays(st, later, batch, i);
    } else {
      RefusedStays(st, later, batch, i);
    }
  }

  lemma NotCompleted(st: State, id: OpId)
    requires !Has(st.operations, id)
    ensures !Completed(st, id)
  {
  }
}
