/** The stable IDs of one episode: its attempt slots, their inputs, and its receipt. */
module Slots {
  import opened Records
  import opened Names

  datatype Kind = Model | Tool

  function KindName(kind: Kind): string {
    match kind
    case Model => "model"
    case Tool => "tool"
  }

  function SlotText(prefix: string, kind: Kind, index: nat): string {
    prefix + ("/" + KindName(kind) + "/" + Decimal(index))
  }

  function SlotId(prefix: string, kind: Kind, index: nat): OpId {
    Named(SlotText(prefix, kind, index))
  }

  function InputId(prefix: string, kind: Kind, index: nat): OpId {
    Named(SlotText(prefix, kind, index) + "/request")
  }

  function EpisodeId(prefix: string): OpId {
    Named(prefix)
  }

  function ReceiptId(prefix: string): OpId {
    Named(prefix + "/finished")
  }

  lemma SameHead(a: string, b: string, suffix: string)
    requires a + suffix == b + suffix
    ensures a == b
  {
    assert |a| == |b|;
    assert (a + suffix)[..|a|] == a && (b + suffix)[..|b|] == b;
  }

  lemma SlotTextInjective(prefix: string, a: Kind, i: nat, b: Kind, j: nat)
    requires SlotText(prefix, a, i) == SlotText(prefix, b, j)
    ensures a == b && i == j
  {
    var left, right := "/" + KindName(a) + "/", "/" + KindName(b) + "/";
    SameTail(prefix, left + Decimal(i), right + Decimal(j));
    assert (left + Decimal(i))[1] == left[1] && (right + Decimal(j))[1] == right[1];
    assert a == b;
    SameTail(left, Decimal(i), Decimal(j));
    DecimalInjective(i, j);
  }

  lemma SlotEndsInDigit(prefix: string, kind: Kind, index: nat)
    ensures var text := SlotText(prefix, kind, index);
      |text| > |prefix| && IsDigit(text[|text| - 1])
  {
    var text, digits := SlotText(prefix, kind, index), Decimal(index);
    assert text[|text| - 1] == digits[|digits| - 1];
  }

  /** Different slots have different IDs, and so do their inputs. */
  lemma SlotsDiffer(prefix: string, a: Kind, i: nat, b: Kind, j: nat)
    requires a != b || i != j
    ensures SlotId(prefix, a, i) != SlotId(prefix, b, j)
    ensures InputId(prefix, a, i) != InputId(prefix, b, j)
  {
    if SlotText(prefix, a, i) == SlotText(prefix, b, j) {
      SlotTextInjective(prefix, a, i, b, j);
    }
    if SlotText(prefix, a, i) + "/request" == SlotText(prefix, b, j) + "/request" {
      SameHead(SlotText(prefix, a, i), SlotText(prefix, b, j), "/request");
    }
  }

  ghost predicate IsSlot(prefix: string, id: OpId) {
    exists kind: Kind, index: nat :: id == SlotId(prefix, kind, index)
  }

  ghost predicate IsInput(prefix: string, id: OpId) {
    exists kind: Kind, index: nat :: id == InputId(prefix, kind, index)
  }

  /** The IDs an episode uses for captures that no operation may have. */
  ghost predicate IsRecordId(prefix: string, id: OpId) {
    id == EpisodeId(prefix) || id == ReceiptId(prefix) || IsInput(prefix, id)
  }

  /** The IDs of attempts and of their recorded payloads. */
  ghost function AttemptIds(prefix: string): iset<OpId> {
    iset id | IsSlot(prefix, id) || IsInput(prefix, id)
  }

  /** Every ID an episode's own journal uses. */
  ghost function JournalIds(prefix: string): iset<OpId> {
    iset id | IsSlot(prefix, id) || IsRecordId(prefix, id)
  }

  /** An ID below the episode's prefix. */
  predicate Under(prefix: string, id: OpId) {
    id.Named? && prefix + "/" <= id.text
  }

  lemma SlotIsNoRecord(prefix: string, kind: Kind, index: nat)
    ensures !IsRecordId(prefix, SlotId(prefix, kind, index))
  {
    var text := SlotText(prefix, kind, index);
    SlotEndsInDigit(prefix, kind, index);
    assert (prefix + "/finished")[|prefix + "/finished"| - 1] == 'd';
    forall k: Kind, i: nat
      ensures SlotId(prefix, kind, index) != InputId(prefix, k, i)
    {
      var other := SlotText(prefix, k, i) + "/request";
      assert other[|other| - 1] == 't';
    }
  }

  lemma RecordIdsDiffer(prefix: string, kind: Kind, index: nat)
    ensures InputId(prefix, kind, index) != EpisodeId(prefix)
    ensures InputId(prefix, kind, index) != ReceiptId(prefix)
    ensures EpisodeId(prefix) != ReceiptId(prefix)
  {
    SlotEndsInDigit(prefix, kind, index);
    var text := SlotText(prefix, kind, index) + "/request";
    assert text[|text| - 1] == 't';
    assert (prefix + "/finished")[|prefix + "/finished"| - 1] == 'd';
    assert |prefix + "/finished"| > |prefix|;
  }

  lemma AttemptsAreNoReceipts(prefix: string)
    ensures AttemptIds(prefix) <= JournalIds(prefix)
    ensures ReceiptId(prefix) !in AttemptIds(prefix)
  {
    forall id | id in AttemptIds(prefix)
      ensures id in JournalIds(prefix) && id != ReceiptId(prefix)
    {
      if IsSlot(prefix, id) {
        var kind: Kind, index: nat :| id == SlotId(prefix, kind, index);
        SlotIsNoRecord(prefix, kind, index);
      } else {
        var kind: Kind, index: nat :| id == InputId(prefix, kind, index);
        RecordIdsDiffer(prefix, kind, index);
      }
    }
  }
}
