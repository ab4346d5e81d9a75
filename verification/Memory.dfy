/** The memory a new run shows its worker. */
module MemorySnapshots {
  import opened Records
  import opened ClaimGraph

  const MEMORY_LIMIT: nat := 64 * 1024

  datatype MemoryEntry = MemoryEntry(
    run: string,
    task: string,
    submission: nat,
    source: string,
    items: seq<Json>,
    accepted: bool,
    applicability: Applicability,
    sequence: nat,
    evidence: Evidence,
    split: Option<string>)

  /** One shown item, with the entry it comes from. */
  datatype Fact = Fact(entry: MemoryEntry, body: Json)

  function RecordOf(fact: Fact): Json {
    Obj(map["tier" := Str(if fact.entry.source == "notes" then "promoted" else "verified"),
            "task" := Str(fact.entry.task),
            "run" := Str(fact.entry.run),
            "submission" := Int(fact.entry.submission),
            "source" := Str(fact.entry.source),
            "body" := fact.body])
  }

  // ---- Newest first ----

  predicate NewestFirst(entries: seq<MemoryEntry>) {
    forall i, j | 0 <= i < j < |entries| :: entries[i].sequence >= entries[j].sequence
  }

  /** The same entries, newest first; entries of equal age keep their order. */
  method SortNewest(entries: seq<MemoryEntry>) returns (sorted: seq<MemoryEntry>)
    ensures NewestFirst(sorted) && multiset(sorted) == multiset(entries)
  {
    sorted := [];
    for k := 0 to |entries|
      invariant NewestFirst(sorted) && multiset(sorted) == multiset(entries[..k])
    {
      sorted := InsertNewest(sorted, entries[k]);
      assert entries[..k + 1] == entries[..k] + [entries[k]];
    }
    assert entries[..|entries|] == entries;
  }

  lemma InsertedIsSorted(sorted: seq<MemoryEntry>, k: nat, entry: MemoryEntry)
    requires NewestFirst(sorted) && k <= |sorted|
    requires k > 0 ==> sorted[k - 1].sequence >= entry.sequence
    requires k < |sorted| ==> sorted[k].sequence <= entry.sequence
    ensures NewestFirst(sorted[..k] + [entry] + sorted[k..])
  {
    forall i | 0 <= i < |sorted|
      ensures if i < k then sorted[i].sequence >= entry.sequence else sorted[i].sequence <= entry.sequence
    {
    }
  }

  lemma InsertedIsThere(sorted: seq<MemoryEntry>, k: nat, entry: MemoryEntry)
    requires k <= |sorted|
    ensures multiset(sorted[..k] + [entry] + sorted[k..]) == multiset(sorted) + multiset{entry}
  {
    assert sorted == sorted[..k] + sorted[k..];
  }

  lemma SameMembers<T>(a: seq<T>, b: seq<T>)
    requires multiset(a) == multiset(b)
    ensures forall e :: e in a <==> e in b
  {
    forall e
      ensures e in a <==> e in b
    {
      assert e in a <==> e in multiset(a);
      assert e in b <==> e in multiset(b);
    }
  }

  method InsertNewest(sorted: seq<MemoryEntry>, entry: MemoryEntry) returns (more: seq<MemoryEntry>)
    requires NewestFirst(sorted)
    ensures NewestFirst(more) && multiset(more) == multiset(sorted) + multiset{entry}
  {
    var k := |sorted|;
    while k > 0 && sorted[k - 1].sequence < entry.sequence
      invariant 0 <= k <= |sorted| && (k < |sorted| ==> sorted[k].sequence < entry.sequence)
    {
      k := k - 1;
    }
    InsertedIsSorted(sorted, k, entry);
    InsertedIsThere(sorted, k, entry);
    more := sorted[..k] + [entry] + sorted[k..];
  }

  /** Only accepted, still applicable entries of the same split are shown. */
  predicate Eligible(entry: MemoryEntry, split: Option<string>) {
    entry.split == split && entry.accepted && entry.applicability == Current
  }

  function Facts(entry: MemoryEntry): seq<Fact> {
    seq(|entry.items|, k requires 0 <= k < |entry.items| => Fact(entry, entry.items[k]))
  }

  /** Everything that may be shown, in order. */
  function Candidates(entries: seq<MemoryEntry>, split: Option<string>): seq<Fact> {
    if entries == [] then []
    else
      var last := entries[|entries| - 1];
      Candidates(entries[..|entries| - 1], split) + if Eligible(last, split) then Facts(last) else []
  }

  function Size(shown: seq<Fact>, size: Json -> nat): nat {
    if shown == [] then 0 else Size(shown[..|shown| - 1], size) + size(RecordOf(shown[|shown| - 1]))
  }

  /** Keep each candidate that still fits; a smaller one later may fit where one did not. */
  function Fit(facts: seq<Fact>, size: Json -> nat): (shown: seq<Fact>)
    ensures Size(shown, size) <= MEMORY_LIMIT
    ensures |shown| <= |facts| && forall f | f in shown :: f in facts
  {
    if facts == [] then []
    else
      var last := facts[|facts| - 1];
      var earlier := Fit(facts[..|facts| - 1], size);
      if Size(earlier, size) + size(RecordOf(last)) > MEMORY_LIMIT then earlier
      else
        assert (earlier + [last])[..|earlier|] == earlier;
        earlier + [last]
  }

  /** Exactly the items of accepted, current entries of the split may be shown. */
  lemma {:induction false} CandidatesAre(entries: seq<MemoryEntry>, split: Option<string>, fact: Fact)
    ensures fact in Candidates(entries, split) <==>
      fact.entry in entries && Eligible(fact.entry, split) && fact.body in fact.entry.items
  {
    if entries != [] {
      var n := |entries| - 1;
      CandidatesAre(entries[..n], split, fact);
      assert entries == entries[..n] + [entries[n]];
      FactsAre(entries[n], fact);
    }
  }

  lemma FactsAre(entry: MemoryEntry, fact: Fact)
    ensures fact in Facts(entry) <==> fact.entry == entry && fact.body in entry.items
  {
    if fact.entry == entry && fact.body in entry.items {
      var k :| 0 <= k < |entry.items| && entry.items[k] == fact.body;
      assert Facts(entry)[k] == fact;
    }
  }

  /** Entries of other splits, or not accepted, make no difference to what is shown. */
  lemma {:induction false} OtherSplitsDoNotMatter(a: seq<MemoryEntry>, b: seq<MemoryEntry>, other: MemoryEntry, split: Option<string>)
    requires other.split != split || !other.accepted
    ensures Candidates(a + [other] + b, split) == Candidates(a + b, split)
  {
    if b == [] {
      assert a + [other] + b == a + [other] && a + b == a;
      assert (a + [other])[..|a|] == a;
    } else {
      var n := |b| - 1;
      OtherSplitsDoNotMatter(a, b[..n], other, split);
      assert (a + [other] + b)[..|a| + 1 + n] == a + [other] + b[..n];
      assert (a + b)[..|a| + n] == a + b[..n];
    }
  }

  datatype Withheld = Withheld(stale: nat, unknown: nat, overLimit: nat)

  /** Entries of this split that were accepted but no longer apply. */
  function Lapsed(entries: seq<MemoryEntry>, split: Option<string>, applicability: Applicability): nat {
    if entries == [] then 0
    else
      var last := entries[|entries| - 1];
      Lapsed(entries[..|entries| - 1], split, applicability)
      + if last.split == split && last.accepted && last.applicability == applicability then 1 else 0
  }

  lemma OneMoreFact(shown: seq<Fact>, fact: Fact, size: Json -> nat)
    ensures Size(shown + [fact], size) == Size(shown, size) + size(RecordOf(fact))
  {
    assert (shown + [fact])[..|shown|] == shown;
  }

  lemma OneMoreCandidate(facts: seq<Fact>, fact: Fact, size: Json -> nat)
    ensures var earlier := Fit(facts, size);
      Fit(facts + [fact], size)
      == if Size(earlier, size) + size(RecordOf(fact)) > MEMORY_LIMIT then earlier else earlier + [fact]
  {
    assert (facts + [fact])[..|facts|] == facts;
  }

  /** What is shown so far is the greedy fit of the candidates seen so far. */
  ghost predicate Fitted(seen: seq<Fact>, shown: seq<Fact>, total: nat, over: nat, size: Json -> nat) {
    shown == Fit(seen, size) && total == Size(shown, size) && |shown| + over == |seen|
  }

  method ShowItem(fact: Fact, ghost seen: seq<Fact>, shown: seq<Fact>, total: nat, over: nat, size: Json -> nat)
    returns (more: seq<Fact>, newTotal: nat, newOver: nat)
    requires Fitted(seen, shown, total, over, size)
    ensures Fitted(seen + [fact], more, newTotal, newOver, size)
  {
    var cost := size(RecordOf(fact));
    FitsNext(fact, seen, shown, total, over, size);
    if total + cost > MEMORY_LIMIT {
      return shown, total, over + 1;
    }
    return shown + [fact], total + cost, over;
  }

  lemma FitsNext(fact: Fact, seen: seq<Fact>, shown: seq<Fact>, total: nat, over: nat, size: Json -> nat)
    requires Fitted(seen, shown, total, over, size)
    ensures var cost := size(RecordOf(fact));
      if total + cost > MEMORY_LIMIT then Fitted(seen + [fact], shown, total, over + 1, size)
      else Fitted(seen + [fact], shown + [fact], total + cost, over, size)
  {
    OneMoreCandidate(seen, fact, size);
    OneMoreFact(shown, fact, size);
  }

  /** The items of one entry, one by one, while they fit. */
  method ShowEntry(entry: MemoryEntry, ghost seen: seq<Fact>, shown: seq<Fact>, total: nat, over: nat, size: Json -> nat)
    returns (more: seq<Fact>, newTotal: nat, newOver: nat)
    requires Fitted(seen, shown, total, over, size)
    ensures Fitted(seen + Facts(entry), more, newTotal, newOver, size)
  {
    more, newTotal, newOver := shown, total, over;
    ghost var upTo := seen;
    for k := 0 to |entry.items|
      invariant upTo == seen + Facts(entry)[..k]
      invariant Fitted(upTo, more, newTotal, newOver, size)
    {
      more, newTotal, newOver := ShowItem(Fact(entry, entry.items[k]), upTo, more, newTotal, newOver, size);
      upTo := upTo + [Fact(entry, entry.items[k])];
      assert Facts(entry)[..k + 1] == Facts(entry)[..k] + [Fact(entry, entry.items[k])];
    }
    assert Facts(entry)[..|entry.items|] == Facts(entry);
  }

  /** The memory file a new run shows: greedily filled from the run's own split, with a
      count of everything of that split it withholds. */
  method Snapshot(entries: seq<MemoryEntry>, split: Option<string>, size: Json -> nat)
    returns (shown: seq<Fact>, withheld: Withheld)
    ensures shown == Fit(Candidates(entries, split), size)
    ensures withheld.stale == Lapsed(entries, split, Outdated)
    ensures withheld.unknown == Lapsed(entries, split, Undetermined)
    ensures |shown| + withheld.overLimit == |Candidates(entries, split)|
  {
    shown := [];
    var stale, unknown, over, total := 0, 0, 0, 0;
    ghost var seen := [];
    for i := 0 to |entries|
      invariant Fitted(seen, shown, total, over, size) && Counts(entries[..i], split, seen, stale, unknown)
    {
      CountsNext(entries, split, i, seen, stale, unknown);
      var entry := entries[i];
      if entry.split == split && entry.accepted {
        if entry.applicability == Current {
          shown, total, over := ShowEntry(entry, seen, shown, total, over, size);
          seen := seen + Facts(entry);
        } else if entry.applicability == Outdated {
          stale := stale + 1;
        } else {
          unknown := unknown + 1;
        }
      }
    }
    assert entries[..|entries|] == entries;
    withheld := Withheld(stale, unknown, over);
  }

  /** What the first entries of a split come to. */
  ghost predicate Counts(entries: seq<MemoryEntry>, split: Option<string>, seen: seq<Fact>, stale: nat, unknown: nat) {
    && seen == Candidates(entries, split)
    && stale == Lapsed(entries, split, Outdated) && unknown == Lapsed(entries, split, Undetermined)
  }

  lemma CountsNext(entries: seq<MemoryEntry>, split: Option<string>, i: nat, seen: seq<Fact>, stale: nat, unknown: nat)
    requires i < |entries| && Counts(entries[..i], split, seen, stale, unknown)
    ensures var e := entries[i];
      if e.split != split || !e.accepted then Counts(entries[..i + 1], split, seen, stale, unknown)
      else if e.applicability == Current then Counts(entries[..i + 1], split, seen + Facts(e), stale, unknown)
      else if e.applicability == Outdated then Counts(entries[..i + 1], split, seen, stale + 1, unknown)
      else Counts(entries[..i + 1], split, seen, stale, unknown + 1)
  {
    assert entries[..i + 1][..i] == entries[..i];
  }
}
