/** How the batches an episode asks for stand on the ledger beside its trajectory. */
module WorkerBatches {
  import opened Records
  import opened Names
  import opened Slots
  import opened LedgerSpec
  import opened LedgerInvariant
  import opened LedgerSafety
  import opened Touching
  import opened Attested
  import opened Batches
  import opened OperationsSpec
  import opened OperationsReplay
  import opened OperationsSteps
  import Unstarted = OperationsSafety
  import opened OperationsHost
  import opened WorkerSpec
  import opened WorkerReplay
  import opened WorkerSteps

  // ---- IDs ----

  lemma Begins(base: string, rest: string)
    ensures base <= base + rest
  {
  }

  /** Every ID of a batch begins with the batch's base. */
  lemma BatchIdBegins(base: string, id: OpId)
    requires id in BatchIds(base)
    ensures id.Named? && base <= id.text
  {
    if IsPart(base, id) {
      var i: nat, part: Part :| id == PartId(base, i, part);
      Begins(base, Decimal(i + 1));
      Begins(ItemText(base, i), PartText(part));
    } else {
      var i: nat :| id == ItemId(base, i);
      Begins(base, Decimal(i + 1));
    }
  }

  /** The letter that tells a batch's IDs from those of the journal. */
  predicate Letter(prefix: string, id: OpId, letter: char) {
    id.Named? && |id.text| > |prefix| + 1 && id.text[|prefix| + 1] == letter
  }

  lemma BatchLetter(prefix: string, index: nat, id: OpId)
    requires id in BatchIds(BatchBase(prefix, index))
    ensures Letter(prefix, id, 'r')
  {
    var base := BatchBase(prefix, index);
    BatchIdBegins(base, id);
    assert base == prefix + ("/request/" + Decimal(index) + "/");
    assert base[|prefix| + 1] == 'r';
  }

  lemma JournalLetter(prefix: string, id: OpId)
    requires id in JournalIds(prefix)
    ensures !Letter(prefix, id, 'r')
  {
    if IsSlot(prefix, id) {
      var kind: Kind, i: nat :| id == SlotId(prefix, kind, i);
      assert SlotText(prefix, kind, i) + "" == SlotText(prefix, kind, i);
      SlotLetter(prefix, kind, i, "");
    } else if IsInput(prefix, id) {
      var kind: Kind, i: nat :| id == InputId(prefix, kind, i);
      SlotLetter(prefix, kind, i, "/request");
    } else if id == ReceiptId(prefix) {
      assert (prefix + "/finished")[|prefix| + 1] == 'f';
    }
  }

  lemma JournalIdIsApart(prefix: string, index: nat, id: OpId)
    requires id in JournalIds(prefix)
    ensures id !in BatchIds(BatchBase(prefix, index))
  {
    JournalLetter(prefix, id);
    if id in BatchIds(BatchBase(prefix, index)) {
      BatchLetter(prefix, index, id);
    }
  }

  lemma SlotLetter(prefix: string, kind: Kind, index: nat, rest: string)
    ensures var text := SlotText(prefix, kind, index) + rest;
      |text| > |prefix| + 1 && text[|prefix| + 1] == KindName(kind)[0] != 'r'
  {
    var name := KindName(kind);
    assert SlotText(prefix, kind, index) + rest == prefix + ("/" + name + "/" + Decimal(index) + rest);
  }

  /** The batches of different tool attempts have no ID in common. */
  lemma BatchesApart(prefix: string, m: nat, n: nat, id: OpId)
    requires id in BatchIds(BatchBase(prefix, m)) && id in BatchIds(BatchBase(prefix, n))
    ensures m == n
  {
    BatchIdBegins(BatchBase(prefix, m), id);
    BatchIdBegins(BatchBase(prefix, n), id);
    IndexInText(prefix, m, id.text);
    IndexInText(prefix, n, id.text);
    var head := prefix + "/request/";
    var rest := id.text[|head|..];
    assert rest[..DigitRun(rest)] == Decimal(m) == Decimal(n);
    DecimalInjective(m, n);
  }

  lemma IndexInText(prefix: string, index: nat, text: string)
    requires BatchBase(prefix, index) <= text
    ensures var head := prefix + "/request/";
      |head| <= |text| && var rest := text[|head|..]; rest[..DigitRun(rest)] == Decimal(index)
  {
    var head, base := prefix + "/request/", BatchBase(prefix, index);
    var tail := text[|base|..];
    assert text == base + tail && base == head + (Decimal(index) + "/");
    assert text[|head|..] == Decimal(index) + ("/" + tail);
    DigitRunOf(Decimal(index), "/" + tail);
  }

  /** No ID of a batch is an attempt's. */
  lemma BatchIdIsNoAttempt(prefix: string, index: nat, id: OpId)
    requires id in BatchIds(BatchBase(prefix, index))
    ensures !IsAttempt(id)
  {
    var base := BatchBase(prefix, index);
    if IsPart(base, id) {
      var i: nat, part: Part :| id == PartId(base, i, part);
      var text, tail := ItemText(base, i), PartText(part);
      assert (text + tail)[|text + tail| - 1] == tail[|tail| - 1] && !IsDigit(tail[|tail| - 1]);
      if IsAttempt(id) {
        AttemptEndsInDigit(text + tail);
      }
    } else {
      var i: nat :| id == ItemId(base, i);
      NumberIsNoAttempt(prefix + "/request/", index, i + 1);
      assert base + Decimal(i + 1) == prefix + "/request/" + Decimal(index) + "/" + Decimal(i + 1);
    }
  }

  /** Handling a batch settles no attempt. */
  lemma HandlingSettlesNoAttempt(prefix: string, index: nat, batch: Batch, st: State, later: State)
    requires batch.base == BatchBase(prefix, index) && Touches(st, later, IdsOf(batch))
    ensures SettlesNoAttempt(st, later)
  {
    forall op | op in later.operations && op.completion.Some? && IsAttempt(op.Id())
      ensures op in st.operations
    {
      if op.Id() in BatchIds(batch.base) {
        BatchIdIsNoAttempt(prefix, index, op.Id());
      }
      var i :| 0 <= i < |later.operations| && later.operations[i] == op;
      assert op.Id() !in IdsOf(batch);
      if i < |st.operations| {
        assert Advances(st.operations[i], later.operations[i]);
      }
    }
  }

  /** Every ID an episode's run uses before its receipt: attempts and batches. */
  ghost function WorkIds(prefix: string): iset<OpId> {
    iset id | id in AttemptIds(prefix) || InSomeBatch(prefix, id)
  }

  ghost predicate InSomeBatch(prefix: string, id: OpId) {
    exists t: nat :: id in BatchIds(BatchBase(prefix, t))
  }

  lemma AttemptIsWork(prefix: string)
    ensures AttemptIds(prefix) <= WorkIds(prefix)
  {
  }

  lemma BatchIsWork(prefix: string, index: nat, batch: Batch)
    requires batch.base == BatchBase(prefix, index)
    ensures IdsOf(batch) <= BatchIds(batch.base) <= WorkIds(prefix)
  {
    forall id | id in IdsOf(batch)
      ensures id in BatchIds(batch.base)
    {
      if !IsPart(batch.base, id) {
        var i: nat :| i < |batch.items| && id == ItemId(batch.base, i);
        assert IsItem(batch.base, id);
      }
    }
    forall id | id in BatchIds(batch.base)
      ensures id in WorkIds(prefix)
    {
      assert id in BatchIds(BatchBase(prefix, index));
    }
  }

  lemma ReceiptIsNoWork(prefix: string)
    ensures ReceiptId(prefix) !in WorkIds(prefix)
  {
    AttemptsAreNoReceipts(prefix);
    if InSomeBatch(prefix, ReceiptId(prefix)) {
      var t: nat :| ReceiptId(prefix) in BatchIds(BatchBase(prefix, t));
      assert IsRecordId(prefix, ReceiptId(prefix));
      JournalIdIsApart(prefix, t, ReceiptId(prefix));
    }
  }

  // ---- One batch ----

  /** Nothing of a batch is on the ledger. */
  ghost predicate Clear(st: State, base: string) {
    && (forall op | op in st.operations :: op.Id() !in BatchIds(base))
    && (forall o | o in st.observations :: o.origin.operationId !in BatchIds(base))
  }

  lemma ClearIsOk(st: State, batch: Batch)
    requires Clear(st, batch.base)
    ensures BatchOk(st, batch)
  {
    forall i: nat
      ensures !Has(st.operations, ItemId(batch.base, i))
    {
      assert IsItem(batch.base, ItemId(batch.base, i));
    }
    forall op | op in st.operations
      ensures !IsPart(batch.base, op.Id())
    {
      assert op.Id() !in BatchIds(batch.base);
    }
    Unstarted.UntouchedIsOk(st, batch);
  }

  /** The batch is as its host left it; once shown, it is decided and that is its display. */
  ghost predicate Held(st: State, offer: Offer, batch: Batch, index: nat, shown: Option<seq<Json>>) {
    && BatchOk(st, batch)
    && (shown.Some? ==>
          exists results :: FullyShown(st, batch, results) && shown.value == Displayed(offer, index, results).results)
  }

  lemma FullyShownOnce(st: State, batch: Batch, a: seq<ItemResult>, b: seq<ItemResult>)
    requires BatchOk(st, batch) && FullyShown(st, batch, a) && FullyShown(st, batch, b)
    ensures a == b
  {
    forall i | 0 <= i < |a|
      ensures a[i] == b[i]
    {
      assert ShowsItem(st, batch, i, a[i]) && ShowsItem(st, batch, i, b[i]);
    }
  }

  lemma HeldStays(st: State, later: State, offer: Offer, batch: Batch, index: nat, shown: Option<seq<Json>>)
    requires UniqueIds(later.operations) && Extends(st, later) && Held(st, offer, batch, index, shown) && BatchOk(later, batch)
    ensures Held(later, offer, batch, index, shown)
  {
    if shown.Some? {
      var results :| FullyShown(st, batch, results) && shown.value == Displayed(offer, index, results).results;
      EarlierStay(st, later, batch, |batch.items|);
      forall i | 0 <= i < |results|
        ensures ShowsItem(later, batch, i, results[i])
      {
        ShownStays(st, later, batch, i, results[i]);
      }
      assert FullyShown(later, batch, results);
    }
  }

  /** The ledger grew, and nothing new on it is under these IDs. */
  ghost predicate Spares(st: State, later: State, ids: iset<OpId>) {
    && Extends(st, later)
    && (forall k | |st.observations| <= k < |later.observations| :: later.observations[k].origin.operationId !in ids)
    && (forall k | |st.operations| <= k < |later.operations| :: later.operations[k].Id() !in ids)
  }

  lemma TouchesElsewhere(st: State, later: State, mine: iset<OpId>, ids: iset<OpId>)
    requires Touches(st, later, mine) && forall id | id in mine :: id !in ids
    ensures Spares(st, later, ids)
  {
  }

  lemma SparedBatchStays(st: State, later: State, batch: Batch)
    requires BatchOk(st, batch) && Spares(st, later, BatchIds(batch.base))
    ensures BatchOk(later, batch)
  {
    forall i | 0 <= i < |batch.items|
      ensures Quiet(st, later, batch, i)
    {
      SparedItem(st, later, batch, i);
    }
    forall op | op in later.operations
      ensures !IsPart(batch.base, op.Id())
    {
      var k :| 0 <= k < |later.operations| && later.operations[k] == op;
      if k < |st.operations| {
        assert Advances(st.operations[k], op) && st.operations[k] in st.operations;
      } else {
        assert op.Id() !in BatchIds(batch.base);
      }
    }
    BatchStays(st, later, batch);
  }

  lemma SparedItem(st: State, later: State, batch: Batch, i: nat)
    requires Spares(st, later, BatchIds(batch.base))
    ensures Quiet(st, later, batch, i)
  {
    assert IsItem(batch.base, ItemId(batch.base, i));
    forall part
      ensures PartId(batch.base, i, part) in BatchIds(batch.base)
    {
      assert IsPart(batch.base, PartId(batch.base, i, part));
    }
  }

  lemma SparedStaysClear(st: State, later: State, base: string)
    requires Clear(st, base) && Spares(st, later, BatchIds(base))
    ensures Clear(later, base)
  {
    forall op | op in later.operations
      ensures op.Id() !in BatchIds(base)
    {
      var k :| 0 <= k < |later.operations| && later.operations[k] == op;
      assert k < |st.operations| ==> Advances(st.operations[k], op) && st.operations[k] in st.operations;
    }
    forall o | o in later.observations
      ensures o.origin.operationId !in BatchIds(base)
    {
      var k :| 0 <= k < |later.observations| && later.observations[k] == o;
      assert k < |st.observations| ==> o in st.observations;
    }
  }

  // ---- All batches of an episode ----

  ghost predicate HeldAt(episode: Episode, st: State, responses: seq<Exchange>, k: int)
    requires 0 <= k < |responses|
  {
    var batch := BatchAt(episode, responses, k);
    batch.Some? ==>
      Held(st, episode.offer.value, batch.value, NextTurn(episode, responses[..k]).value.index, responses[k].shown)
  }

  /** How many of these exchanges were with a tool. */
  function Tools(episode: Episode, responses: seq<Exchange>): nat {
    |responses| - Queries(episode, responses)
  }

  /** Nothing of any batch after the n-th tool attempt is on the ledger. */
  ghost predicate ClearFrom(episode: Episode, st: State, n: nat) {
    forall t: nat | t > n :: Clear(st, BatchBase(episode.prefix, t))
  }

  /** The operation is an item of the batch of one of these exchanges. */
  ghost predicate OfBatch(episode: Episode, responses: seq<Exchange>, id: OpId) {
    exists k | 0 <= k < |responses| && BatchAt(episode, responses, k).Some? ::
      IsItemOf(BatchAt(episode, responses, k).value, id)
  }

  ghost predicate IsOwned(episode: Episode, responses: seq<Exchange>, id: OpId) {
    Under(episode.prefix, id) ==> IsSlot(episode.prefix, id) || OfBatch(episode, responses, id)
  }

  /** Every operation under the episode is one of its attempts or items. */
  ghost predicate Owned(episode: Episode, operations: seq<Operation>, responses: seq<Exchange>) {
    forall op | op in operations :: IsOwned(episode, responses, op.Id())
  }

  /** The ledger holds the batches of these exchanges, and nothing of any later one, and
      no other operation under the episode. */
  ghost predicate Batched(episode: Episode, st: State, responses: seq<Exchange>) {
    && (forall k | 0 <= k < |responses| :: HeldAt(episode, st, responses, k))
    && ClearFrom(episode, st, Tools(episode, responses))
    && Owned(episode, st.operations, responses)
  }

  lemma OwnedStays(episode: Episode, st: State, later: State, responses: seq<Exchange>)
    requires Owned(episode, st.operations, responses) && Extends(st, later)
    requires forall k | |st.operations| <= k < |later.operations| :: IsOwned(episode, responses, later.operations[k].Id())
    ensures Owned(episode, later.operations, responses)
  {
    forall op | op in later.operations
      ensures IsOwned(episode, responses, op.Id())
    {
      var k :| 0 <= k < |later.operations| && later.operations[k] == op;
      if k < |st.operations| {
        assert Advances(st.operations[k], op) && st.operations[k] in st.operations;
      }
    }
  }

  lemma OwnedGrows(episode: Episode, operations: seq<Operation>, responses: seq<Exchange>, longer: seq<Exchange>)
    requires Owned(episode, operations, responses) && |responses| <= |longer|
    requires forall k | 0 <= k < |responses| :: BatchAt(episode, longer, k) == BatchAt(episode, responses, k)
    ensures Owned(episode, operations, longer)
  {
    forall op | op in operations
      ensures IsOwned(episode, longer, op.Id())
    {
      assert IsOwned(episode, responses, op.Id());
      if OfBatch(episode, responses, op.Id()) {
        var k :| 0 <= k < |responses| && BatchAt(episode, responses, k).Some?
                 && IsItemOf(BatchAt(episode, responses, k).value, op.Id());
        assert BatchAt(episode, longer, k) == BatchAt(episode, responses, k);
      }
    }
  }

  lemma BatchHasIndex(episode: Episode, responses: seq<Exchange>, k: nat)
    requires k < |responses| && BatchAt(episode, responses, k).Some?
    ensures episode.offer.Some? && NextTurn(episode, responses[..k]).Some?
    ensures BatchAt(episode, responses, k).value.base
         == BatchBase(episode.prefix, NextTurn(episode, responses[..k]).value.index)
  {
  }

  lemma OneMoreTool(episode: Episode, responses: seq<Exchange>, k: nat)
    requires k < |responses| && NextTurn(episode, responses[..k]).Some?
    requires NextTurn(episode, responses[..k]).value.kind == Tool
    ensures NextTurn(episode, responses[..k]).value.index == Tools(episode, responses[..k]) + 1
    ensures Tools(episode, responses[..k + 1]) == Tools(episode, responses[..k]) + 1
  {
    assert responses[..k + 1][..k] == responses[..k];
  }

  lemma ToolsGrow(episode: Episode, responses: seq<Exchange>, k: nat)
    requires k <= |responses|
    ensures Tools(episode, responses[..k]) <= Tools(episode, responses)
  {
    assert responses[..|responses|] == responses;
    QueriesGrow(episode, responses, k, |responses|);
  }

  /** The index of a tool attempt counts those before it. */
  lemma ToolIndex(episode: Episode, responses: seq<Exchange>, k: nat)
    requires k < |responses| && BatchAt(episode, responses, k).Some?
    ensures NextTurn(episode, responses[..k]).value.index <= Tools(episode, responses)
  {
    OneMoreTool(episode, responses, k);
    ToolsGrow(episode, responses, k + 1);
  }

  lemma IndicesDiffer(episode: Episode, responses: seq<Exchange>, j: nat, k: nat)
    requires j < |responses| && k < |responses| && j != k
    requires BatchAt(episode, responses, j).Some? && BatchAt(episode, responses, k).Some?
    ensures NextTurn(episode, responses[..j]).value.index != NextTurn(episode, responses[..k]).value.index
  {
    if j < k {
      TurnsDiffer(episode, responses, j, k);
    } else {
      TurnsDiffer(episode, responses, k, j);
    }
  }

  lemma HeldAtStays(episode: Episode, st: State, later: State, responses: seq<Exchange>, k: nat)
    requires UniqueIds(later.operations) && Extends(st, later) && k < |responses| && HeldAt(episode, st, responses, k)
    requires BatchAt(episode, responses, k).Some? ==> BatchOk(later, BatchAt(episode, responses, k).value)
    ensures HeldAt(episode, later, responses, k)
  {
    var batch := BatchAt(episode, responses, k);
    if batch.Some? {
      HeldStays(st, later, episode.offer.value, batch.value, NextTurn(episode, responses[..k]).value.index, responses[k].shown);
    }
  }

  lemma ClearStays(episode: Episode, st: State, later: State, n: nat)
    requires ClearFrom(episode, st, n)
    requires forall t: nat | t > n :: Spares(st, later, BatchIds(BatchBase(episode.prefix, t)))
    ensures ClearFrom(episode, later, n)
  {
    forall t: nat | t > n
      ensures Clear(later, BatchBase(episode.prefix, t))
    {
      SparedStaysClear(st, later, BatchBase(episode.prefix, t));
    }
  }

  lemma SparedAtStays(episode: Episode, st: State, later: State, responses: seq<Exchange>, k: nat)
    requires UniqueIds(later.operations) && Extends(st, later) && k < |responses| && HeldAt(episode, st, responses, k)
    requires forall t: nat :: Spares(st, later, BatchIds(BatchBase(episode.prefix, t)))
    ensures HeldAt(episode, later, responses, k)
  {
    if BatchAt(episode, responses, k).Some? {
      BatchHasIndex(episode, responses, k);
      SparedBatchStays(st, later, BatchAt(episode, responses, k).value);
    }
    HeldAtStays(episode, st, later, responses, k);
  }

  /** Whatever happens outside the batches' IDs leaves the batches as they are. */
  lemma SparedStaysBatched(episode: Episode, st: State, later: State, responses: seq<Exchange>)
    requires UniqueIds(later.operations) && Extends(st, later) && Batched(episode, st, responses)
    requires forall t: nat :: Spares(st, later, BatchIds(BatchBase(episode.prefix, t)))
    requires forall k | |st.operations| <= k < |later.operations| :: IsOwned(episode, responses, later.operations[k].Id())
    ensures Batched(episode, later, responses)
  {
    forall k | 0 <= k < |responses|
      ensures HeldAt(episode, later, responses, k)
    {
      SparedAtStays(episode, st, later, responses, k);
    }
    OwnedStays(episode, st, later, responses);
    ClearStays(episode, st, later, Tools(episode, responses));
  }

  /** What an episode's journal does leaves its batches as they are. */
  lemma JournalStaysBatched(episode: Episode, st: State, later: State, responses: seq<Exchange>)
    requires UniqueIds(later.operations) && Touches(st, later, JournalIds(episode.prefix)) && Batched(episode, st, responses)
    requires forall op | op in later.operations :: !IsRecordId(episode.prefix, op.Id())
    ensures Batched(episode, later, responses)
  {
    forall t: nat
      ensures Spares(st, later, BatchIds(BatchBase(episode.prefix, t)))
    {
      forall id | id in JournalIds(episode.prefix)
        ensures id !in BatchIds(BatchBase(episode.prefix, t))
      {
        JournalIdIsApart(episode.prefix, t, id);
      }
      TouchesElsewhere(st, later, JournalIds(episode.prefix), BatchIds(BatchBase(episode.prefix, t)));
    }
    SparedStaysBatched(episode, st, later, responses);
  }

  lemma PhasesAtStay(episode: Episode, st: State, later: State, responses: seq<Exchange>, k: nat)
    requires UniqueIds(later.operations) && Extends(st, later) && |later.operations| == |st.operations|
    requires forall k | |st.observations| <= k < |later.observations| ::
      Has(st.operations, later.observations[k].origin.operationId)
    requires k < |responses| && HeldAt(episode, st, responses, k)
    ensures HeldAt(episode, later, responses, k)
  {
    if BatchAt(episode, responses, k).Some? {
      BatchHasIndex(episode, responses, k);
      PhasesKeep(st, later, BatchAt(episode, responses, k).value);
    }
    HeldAtStays(episode, st, later, responses, k);
  }

  /** Dispatching or settling operations that are there leaves the batches as they are. */
  lemma PhasesStayBatched(episode: Episode, st: State, later: State, responses: seq<Exchange>)
    requires UniqueIds(later.operations) && Extends(st, later) && |later.operations| == |st.operations|
    requires forall k | |st.observations| <= k < |later.observations| ::
      Has(st.operations, later.observations[k].origin.operationId)
    requires Batched(episode, st, responses)
    ensures Batched(episode, later, responses)
  {
    forall k | 0 <= k < |responses|
      ensures HeldAt(episode, later, responses, k)
    {
      PhasesAtStay(episode, st, later, responses, k);
    }
    OwnedStays(episode, st, later, responses);
    var n := Tools(episode, responses);
    forall t: nat | t > n
      ensures Spares(st, later, BatchIds(BatchBase(episode.prefix, t)))
    {
      PhasesSpare(st, later, BatchBase(episode.prefix, t));
    }
    ClearStays(episode, st, later, n);
  }

  lemma PhasesSpare(st: State, later: State, base: string)
    requires Extends(st, later) && |later.operations| == |st.operations| && Clear(st, base)
    requires forall k | |st.observations| <= k < |later.observations| ::
      Has(st.operations, later.observations[k].origin.operationId)
    ensures Spares(st, later, BatchIds(base))
  {
    forall k | |st.observations| <= k < |later.observations|
      ensures later.observations[k].origin.operationId !in BatchIds(base)
    {
      var row :| 0 <= row < |st.operations| && st.operations[row].Id() == later.observations[k].origin.operationId;
      assert st.operations[row] in st.operations;
    }
  }

  lemma HandlingAtStays(episode: Episode, st: State, later: State, responses: seq<Exchange>, k: nat, j: nat)
    requires UniqueIds(later.operations) && Extends(st, later) && j < |responses| && HeldAt(episode, st, responses, j)
    requires k < |responses| && BatchAt(episode, responses, k).Some?
    requires Touches(st, later, BatchIds(BatchAt(episode, responses, k).value.base))
    requires BatchOk(later, BatchAt(episode, responses, k).value)
    ensures HeldAt(episode, later, responses, j)
  {
    if j != k && BatchAt(episode, responses, j).Some? {
      BatchHasIndex(episode, responses, k);
      BatchHasIndex(episode, responses, j);
      IndicesDiffer(episode, responses, j, k);
      OtherBatchSpared(episode.prefix, st, later, NextTurn(episode, responses[..k]).value.index,
                       NextTurn(episode, responses[..j]).value.index);
      SparedBatchStays(st, later, BatchAt(episode, responses, j).value);
    }
    HeldAtStays(episode, st, later, responses, j);
  }

  lemma HandlingStaysClear(episode: Episode, st: State, later: State, responses: seq<Exchange>, k: nat)
    requires k < |responses| && BatchAt(episode, responses, k).Some?
    requires Touches(st, later, BatchIds(BatchAt(episode, responses, k).value.base))
    requires ClearFrom(episode, st, Tools(episode, responses))
    ensures ClearFrom(episode, later, Tools(episode, responses))
  {
    BatchHasIndex(episode, responses, k);
    var index, n := NextTurn(episode, responses[..k]).value.index, Tools(episode, responses);
    ToolIndex(episode, responses, k);
    forall t: nat | t > n
      ensures Spares(st, later, BatchIds(BatchBase(episode.prefix, t)))
    {
      OtherBatchSpared(episode.prefix, st, later, index, t);
    }
    ClearStays(episode, st, later, n);
  }

  lemma HandlingStaysOwned(episode: Episode, st: State, later: State, responses: seq<Exchange>, k: nat)
    requires Owned(episode, st.operations, responses) && k < |responses| && BatchAt(episode, responses, k).Some?
    requires Touches(st, later, IdsOf(BatchAt(episode, responses, k).value))
    requires BatchOk(later, BatchAt(episode, responses, k).value)
    ensures Owned(episode, later.operations, responses)
    ensures Touches(st, later, BatchIds(BatchAt(episode, responses, k).value.base))
  {
    var batch := BatchAt(episode, responses, k).value;
    BatchHasIndex(episode, responses, k);
    BatchIsWork(episode.prefix, NextTurn(episode, responses[..k]).value.index, batch);
    TouchesWider(st, later, IdsOf(batch), BatchIds(batch.base));
    forall j | |st.operations| <= j < |later.operations|
      ensures IsOwned(episode, responses, later.operations[j].Id())
    {
      assert later.operations[j] in later.operations;
      assert IsItemOf(batch, later.operations[j].Id());
    }
    OwnedStays(episode, st, later, responses);
  }

  /** Working on the batch of one exchange leaves the other batches as they are. */
  lemma HandlingStaysBatched(episode: Episode, st: State, later: State, responses: seq<Exchange>, k: nat)
    requires UniqueIds(later.operations) && Batched(episode, st, responses)
    requires k < |responses| && BatchAt(episode, responses, k).Some?
    requires Touches(st, later, IdsOf(BatchAt(episode, responses, k).value))
    requires BatchOk(later, BatchAt(episode, responses, k).value)
    ensures Batched(episode, later, responses)
  {
    HandlingStaysOwned(episode, st, later, responses, k);
    forall j | 0 <= j < |responses|
      ensures HeldAt(episode, later, responses, j)
    {
      HandlingAtStays(episode, st, later, responses, k, j);
    }
    HandlingStaysClear(episode, st, later, responses, k);
  }

  lemma OtherBatchSpared(prefix: string, st: State, later: State, m: nat, n: nat)
    requires Touches(st, later, BatchIds(BatchBase(prefix, m))) && m != n
    ensures Spares(st, later, BatchIds(BatchBase(prefix, n)))
  {
    forall id | id in BatchIds(BatchBase(prefix, m))
      ensures id !in BatchIds(BatchBase(prefix, n))
    {
      if id in BatchIds(BatchBase(prefix, n)) {
        BatchesApart(prefix, m, n, id);
      }
    }
    TouchesElsewhere(st, later, BatchIds(BatchBase(prefix, m)), BatchIds(BatchBase(prefix, n)));
  }

  // ---- Exchanges are added and shown ----

  /** The batch of a new exchange, if it asks for one, has not been started. */
  lemma AnswerStaysBatched(episode: Episode, st: State, responses: seq<Exchange>, done: Completion)
    requires Batched(episode, st, responses)
    ensures Batched(episode, st, responses + [Unshown(done)])
  {
    var longer, n := responses + [Unshown(done)], |responses|;
    assert longer[..n] == responses;
    forall k | 0 <= k < |longer|
      ensures HeldAt(episode, st, longer, k)
    {
      assert longer[..k] == responses[..k];
      if k < n {
        assert HeldAt(episode, st, responses, k);
      } else if BatchAt(episode, longer, k).Some? {
        BatchHasIndex(episode, longer, k);
        ClearIsOk(st, BatchAt(episode, longer, k).value);
      }
    }
    assert Tools(episode, longer) >= Tools(episode, responses);
    forall k | 0 <= k < n
      ensures BatchAt(episode, longer, k) == BatchAt(episode, responses, k)
    {
      assert longer[..k] == responses[..k];
    }
    OwnedGrows(episode, st.operations, responses, longer);
  }

  /** The exchanges once the last one's batch shows this. */
  function Fill(responses: seq<Exchange>, shown: seq<Json>): seq<Exchange>
    requires responses != []
  {
    responses[|responses| - 1 := responses[|responses| - 1].(shown := Some(shown))]
  }

  lemma SamePrefix(a: seq<Exchange>, b: seq<Exchange>, n: nat, k: nat)
    requires k <= n <= |a| && n <= |b| && a[..n] == b[..n]
    ensures a[..k] == b[..k]
    ensures k < n ==> a[k] == b[k]
  {
    assert a[..n][..k] == a[..k] && b[..n][..k] == b[..k];
    assert k < n ==> a[..n][k] == a[k] && b[..n][k] == b[k];
  }

  lemma SameQueries(episode: Episode, a: seq<Exchange>, b: seq<Exchange>)
    requires |a| == |b| > 0 && a[..|a| - 1] == b[..|b| - 1]
    ensures Tools(episode, a) == Tools(episode, b)
  {
  }

  lemma FillHolds(episode: Episode, st: State, responses: seq<Exchange>, filled: seq<Exchange>, k: nat)
    requires |filled| == |responses| && k < |responses| && filled[..|responses| - 1] == responses[..|responses| - 1]
    requires filled[k].done == responses[k].done
    requires HeldAt(episode, st, responses, k)
    requires k == |responses| - 1 && BatchAt(episode, responses, k).Some? ==>
      Held(st, episode.offer.value, BatchAt(episode, responses, k).value,
           NextTurn(episode, responses[..k]).value.index, filled[k].shown)
    ensures HeldAt(episode, st, filled, k)
  {
    SamePrefix(filled, responses, |responses| - 1, k);
  }

  lemma FilledStaysBatched(episode: Episode, st: State, responses: seq<Exchange>, filled: seq<Exchange>)
    requires responses != [] && Batched(episode, st, responses)
    requires |filled| == |responses| && filled[..|responses| - 1] == responses[..|responses| - 1]
    requires filled[|responses| - 1].done == responses[|responses| - 1].done
    requires HeldAt(episode, st, filled, |responses| - 1)
    ensures Batched(episode, st, filled)
  {
    forall k | 0 <= k < |responses|
      ensures HeldAt(episode, st, filled, k)
    {
      if k < |responses| - 1 {
        SamePrefix(filled, responses, |responses| - 1, k);
        FillHolds(episode, st, responses, filled, k);
      }
    }
    SameQueries(episode, filled, responses);
    FilledStaysOwned(episode, st.operations, responses, filled);
  }

  lemma FilledStaysOwned(episode: Episode, operations: seq<Operation>, responses: seq<Exchange>, filled: seq<Exchange>)
    requires responses != [] && Owned(episode, operations, responses)
    requires |filled| == |responses| && filled[..|responses| - 1] == responses[..|responses| - 1]
    requires filled[|responses| - 1].done == responses[|responses| - 1].done
    ensures Owned(episode, operations, filled)
  {
    forall k | 0 <= k < |responses|
      ensures BatchAt(episode, filled, k) == BatchAt(episode, responses, k)
    {
      SamePrefix(filled, responses, |responses| - 1, k);
    }
    OwnedGrows(episode, operations, responses, filled);
  }

  /** Showing the last exchange's batch in full. */
  lemma FillStaysBatched(episode: Episode, st: State, responses: seq<Exchange>, shown: seq<Json>)
    requires Batched(episode, st, responses) && Awaiting(episode, responses)
    requires var n := |responses| - 1;
      Held(st, episode.offer.value, BatchAt(episode, responses, n).value,
           NextTurn(episode, responses[..n]).value.index, Some(shown))
    ensures Batched(episode, st, Fill(responses, shown))
  {
    var n := |responses| - 1;
    var filled := Fill(responses, shown);
    assert filled[..n] == responses[..n];
    FillHolds(episode, st, responses, filled, n);
    FilledStaysBatched(episode, st, responses, filled);
  }

  lemma ShownIsHeld(st: State, offer: Offer, batch: Batch, index: nat, results: seq<ItemResult>)
    requires BatchOk(st, batch) && FullyShown(st, batch, results)
    ensures Held(st, offer, batch, index, Some(Displayed(offer, index, results).results))
  {
  }

  // ---- The trajectory beside the batches ----

  /** While its last exchange awaits a batch, the agent has not gone on. */
  lemma AwaitingHasNoReply(episode: Episode, responses: seq<Exchange>)
    requires Awaiting(episode, responses)
    ensures Replies(episode, responses).None?
  {
  }

  lemma AwaitedPrefix(episode: Episode, responses: seq<Exchange>, k: nat)
    requires k < |responses| && BatchAt(episode, responses, k).Some? && responses[k].shown.None?
    ensures Replies(episode, responses[..k + 1]).None?
  {
    var prefix := responses[..k + 1];
    SamePrefix(prefix, responses, k + 1, k);
    AwaitingHasNoReply(episode, prefix);
  }

  /** Showing the last exchange's batch keeps the trajectory. */
  lemma FillStaysTraced(episode: Episode, inputs: Artifacts, st: State, responses: seq<Exchange>, shown: seq<Json>)
    requires Traced(episode, inputs, st, responses) && Awaiting(episode, responses)
    ensures Traced(episode, inputs, st, Fill(responses, shown))
  {
    var n, filled := |responses| - 1, Fill(responses, shown);
    assert filled[..n] == responses[..n];
    AwaitingHasNoReply(episode, responses);
    forall k | 0 <= k < |responses|
      ensures Settled(episode, inputs, st, filled, k)
    {
      SamePrefix(filled, responses, n, k);
      assert Settled(episode, inputs, st, responses, k);
    }
    forall op | op in st.operations && IsSlot(episode.prefix, op.Id())
      ensures OnTrajectory(episode, inputs, st, filled, op)
    {
      var k :| 0 <= k < |responses| && NextTurn(episode, responses[..k]).Some?
               && op.Id() == TurnId(episode, NextTurn(episode, responses[..k]).value);
      SamePrefix(filled, responses, n, k);
    }
  }

  lemma BatchTouchesNoJournal(episode: Episode, st: State, later: State, index: nat)
    requires Touches(st, later, BatchIds(BatchBase(episode.prefix, index)))
    ensures AddsFresh(episode, st, later)
    ensures forall op | op in later.operations && op !in st.operations ::
      !IsRecordId(episode.prefix, op.Id()) && !IsSlot(episode.prefix, op.Id())
  {
    forall id | id in BatchIds(BatchBase(episode.prefix, index))
      ensures !IsRecordId(episode.prefix, id) && !IsSlot(episode.prefix, id)
    {
      if id in JournalIds(episode.prefix) {
        JournalIdIsApart(episode.prefix, index, id);
      }
    }
    forall op | op in later.operations && op !in st.operations
      ensures op.Id() in BatchIds(BatchBase(episode.prefix, index))
    {
      var k :| 0 <= k < |later.operations| && later.operations[k] == op;
      if k < |st.operations| {
        assert Advances(st.operations[k], op);
        assert op != st.operations[k];
      }
    }
  }

  lemma CompletedStay(st: State, later: State)
    requires Inv(st) && Extends(st, later)
    ensures forall op | op in st.operations && op.completion.Some? :: op in later.operations
  {
    forall op | op in st.operations && op.completion.Some?
      ensures op in later.operations
    {
      var k :| 0 <= k < |st.operations| && st.operations[k] == op;
      assert OperationOk(st, op) && Advances(op, later.operations[k]);
      assert later.operations[k] == op;
    }
  }

  /** Working on a batch keeps the trajectory. */
  lemma HandlingStaysTraced(episode: Episode, inputs: Artifacts, st: State, later: State, responses: seq<Exchange>, index: nat)
    requires Inv(st) && Traced(episode, inputs, st, responses) && Opened(episode, inputs, st)
    requires Touches(st, later, BatchIds(BatchBase(episode.prefix, index)))
    ensures Traced(episode, inputs, later, responses) && Opened(episode, inputs, later)
  {
    BatchTouchesNoJournal(episode, st, later, index);
    CompletedStay(st, later);
    OpenedStays(episode, inputs, st, later);
    TraceStays(episode, inputs, st, later, responses);
  }

  // ---- How exchanges grow ----

  /** The last of these exchanges is shown now, and others may follow it. */
  predicate FilledIn(responses: seq<Exchange>, later: seq<Exchange>) {
    && responses != [] && |responses| <= |later|
    && var n := |responses| - 1;
       && later[..n] == responses[..n] && later[n].done == responses[n].done
       && responses[n].shown.None? && later[n].shown.Some?
  }

  /** Exchanges are only added, and a batch that was awaited is shown, once. */
  ghost predicate Grew(episode: Episode, responses: seq<Exchange>, later: seq<Exchange>) {
    responses <= later || (Awaiting(episode, responses) && FilledIn(responses, later))
  }

  lemma PrefixOf(a: seq<Exchange>, b: seq<Exchange>, n: nat)
    requires n <= |a| && a <= b
    ensures b[..n] == a[..n]
    ensures n < |a| ==> b[n] == a[n]
  {
    assert b[..|a|] == a;
    SamePrefix(a, b, |a|, n);
  }

  lemma FilledThenAdded(a: seq<Exchange>, b: seq<Exchange>, c: seq<Exchange>)
    requires FilledIn(a, b) && b <= c
    ensures FilledIn(a, c)
  {
    PrefixOf(b, c, |a| - 1);
  }

  lemma AddedThenFilled(a: seq<Exchange>, b: seq<Exchange>, c: seq<Exchange>)
    requires a <= b && a != b && FilledIn(b, c)
    ensures a <= c
  {
    assert |a| <= |b| - 1;
    PrefixOf(a, b, |a|);
    SamePrefix(c, b, |b| - 1, |a|);
    assert c[..|a|] == a;
  }

  lemma FilledTwice(a: seq<Exchange>, b: seq<Exchange>, c: seq<Exchange>)
    requires FilledIn(a, b) && FilledIn(b, c)
    ensures FilledIn(a, c)
  {
    SamePrefix(c, b, |b| - 1, |a| - 1);
  }

  lemma GrewTransitive(episode: Episode, a: seq<Exchange>, b: seq<Exchange>, c: seq<Exchange>)
    requires Grew(episode, a, b) && Grew(episode, b, c)
    ensures Grew(episode, a, c)
  {
    if a <= b {
      if FilledIn(b, c) && a != b {
        AddedThenFilled(a, b, c);
      }
    } else if b <= c {
      FilledThenAdded(a, b, c);
    } else {
      FilledTwice(a, b, c);
    }
  }

  // ---- A complete run ----

  /** The exchanges are all answered and shown, and end the run. */
  ghost predicate Complete(episode: Episode, responses: seq<Exchange>) {
    ResultAfter(episode, responses).Some?
  }

  lemma {:induction false} RepliesOfPrefix(episode: Episode, responses: seq<Exchange>, k: nat)
    requires k <= |responses| && Replies(episode, responses).Some?
    ensures Replies(episode, responses[..k]).Some?
  {
    var n := |responses| - 1;
    if k <= n {
      RepliesOfPrefix(episode, responses[..n], k);
      assert responses[..n][..k] == responses[..k];
    } else {
      assert responses[..k] == responses;
    }
  }

  lemma CompleteIsShown(episode: Episode, responses: seq<Exchange>, k: nat)
    requires Complete(episode, responses) && k < |responses| && BatchAt(episode, responses, k).Some?
    ensures responses[k].shown.Some?
  {
    RepliesOfPrefix(episode, responses, k + 1);
    if responses[k].shown.None? {
      AwaitedPrefix(episode, responses, k);
    }
  }

  /** Every item of a batch that is shown and has an operation has its outcome. */
  lemma ShownItemIsDone(st: State, batch: Batch, results: seq<ItemResult>, op: Operation)
    requires UniqueIds(st.operations) && BatchOk(st, batch) && FullyShown(st, batch, results)
    requires op in st.operations && IsItemOf(batch, op.Id())
    ensures op.completion.Some?
  {
    var i: nat :| i < |batch.items| && op.Id() == ItemId(batch.base, i);
    assert Has(st.operations, ItemId(batch.base, i)) by {
      var k :| 0 <= k < |st.operations| && st.operations[k] == op;
    }
    assert ItemOk(st, batch, i) && Placed(st, batch, i);
    assert Completed(st, ItemId(batch.base, i));
    var other :| other in st.operations && other.Id() == op.Id() && other.completion.Some?;
    assert other == op;
  }

  /** In a complete run every attempt and every item has its outcome. */
  lemma CompleteIsDone(episode: Episode, inputs: Artifacts, st: State, responses: seq<Exchange>)
    requires UniqueIds(st.operations) && Traced(episode, inputs, st, responses) && Batched(episode, st, responses)
    requires Complete(episode, responses)
    ensures AttemptsDone(episode.prefix, st.operations)
  {
    forall op | op in st.operations && Under(episode.prefix, op.Id())
      ensures op.completion.Some?
    {
      assert IsOwned(episode, responses, op.Id());
      if IsSlot(episode.prefix, op.Id()) {
        if op.completion.None? {
          OpenIsFrontier(episode, inputs, st, responses, op);
        }
      } else {
        var k :| 0 <= k < |responses| && BatchAt(episode, responses, k).Some?
                 && IsItemOf(BatchAt(episode, responses, k).value, op.Id());
        ItemIsDone(episode, st, responses, k, op);
      }
    }
  }

  lemma ItemIsDone(episode: Episode, st: State, responses: seq<Exchange>, k: nat, op: Operation)
    requires UniqueIds(st.operations) && Batched(episode, st, responses) && Complete(episode, responses)
    requires k < |responses| && BatchAt(episode, responses, k).Some?
    requires op in st.operations && IsItemOf(BatchAt(episode, responses, k).value, op.Id())
    ensures op.completion.Some?
  {
    CompleteIsShown(episode, responses, k);
    assert HeldAt(episode, st, responses, k);
    var batch, index := BatchAt(episode, responses, k).value, NextTurn(episode, responses[..k]).value.index;
    var results :| FullyShown(st, batch, results)
                   && responses[k].shown.value == Displayed(episode.offer.value, index, results).results;
    ShownItemIsDone(st, batch, results, op);
  }
}
