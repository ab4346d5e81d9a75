/** What batches promise on every reachable ledger. */
module OperationsSafety {
  import opened Records
  import opened Names
  import opened LedgerSpec
  import opened LedgerInvariant
  import opened LedgerSafety
  import opened LedgerStore
  import opened Evidences
  import Ordering
  import opened RecordOnce
  import opened OperationsSpec
  import opened OperationsReplay
  import opened OperationsSteps

  // ---- Over whole runs ----

  /** Nothing of the batch is recorded yet. */
  ghost predicate Untouched(st: State, batch: Batch) {
    && (forall op | op in st.operations :: !IsPart(batch.base, op.Id()))
    && (forall i: nat :: !Has(st.operations, ItemId(batch.base, i)))
    && (forall k | 0 <= k < |st.observations| :: !IsPart(batch.base, st.observations[k].origin.operationId))
  }

  lemma UntouchedIsOk(st: State, batch: Batch)
    requires Untouched(st, batch)
    ensures BatchOk(st, batch)
  {
    forall i: nat, part: Part
      ensures !Recorded(st, batch, i, part)
    {
      assert IsPart(batch.base, PartId(batch.base, i, part));
    }
  }

  /** A transaction of anyone but this batch's own host: it records and reserves nothing
      under the batch's IDs. It may begin or settle what it likes. */
  ghost predicate Foreign(batch: Batch, event: Event) {
    match event
    case RecordEvent(_, origin, _, _) => !IsPart(batch.base, origin.operationId)
    case ReserveEvent(_, request, _, _) =>
      && !IsPart(batch.base, request.origin.operationId)
      && forall i: nat :: request.origin.operationId != ItemId(batch.base, i)
    case _ => true
  }

  lemma AddedKeepsBatch(st: State, later: State, batch: Batch)
    requires BatchOk(st, batch) && Extends(st, later) && st.operations <= later.operations
    requires forall k | |st.observations| <= k < |later.observations| ::
      !IsPart(batch.base, later.observations[k].origin.operationId)
    requires forall k | |st.operations| <= k < |later.operations| ::
      !IsPart(batch.base, later.operations[k].Id()) && forall i: nat :: later.operations[k].Id() != ItemId(batch.base, i)
    ensures BatchOk(later, batch)
  {
    forall k, i: nat, part | |st.observations| <= k < |later.observations|
      ensures later.observations[k].origin.operationId != PartId(batch.base, i, part)
    {
      assert IsPart(batch.base, PartId(batch.base, i, part));
    }
    forall i | 0 <= i < |batch.items|
      ensures Quiet(st, later, batch, i)
    {
    }
    BatchStays(st, later, batch);
  }

  lemma SettleKeepsBatch(st: State, batch: Batch, session: string, request: Request, result: Result, raw: Artifacts)
    requires BatchOk(st, batch)
    ensures BatchOk(Complete(st, session, request, result, raw).st, batch)
  {
    var later := Complete(st, session, request, result, raw).st;
    NextExtends(st, CompleteEvent(session, request, result, raw));
    if later != st {
      assert st.operations[Find(st.operations, request.origin.operationId).value].Id() == request.origin.operationId;
      PhasesKeep(st, later, batch);
    }
  }

  /** Whatever other hosts do between two runs, a batch keeps its order and dispositions. */
  lemma EventKeepsBatch(st: State, batch: Batch, event: Event)
    requires BatchOk(st, batch) && Foreign(batch, event)
    ensures BatchOk(Next(st, event), batch)
  {
    var later := Next(st, event);
    NextExtends(st, event);
    match event {
      case BeginEvent(session, request) => PhasesKeep(st, later, batch);
      case CompleteEvent(session, request, result, raw) => SettleKeepsBatch(st, batch, session, request, result, raw);
      case StartSessionEvent(_) => AddedKeepsBatch(st, later, batch);
      case OpenScopeEvent(_, _, _) => AddedKeepsBatch(st, later, batch);
      case RecordEvent(_, _, _, _) => AddedKeepsBatch(st, later, batch);
      case ReserveEvent(_, _, _, _) => AddedKeepsBatch(st, later, batch);
    }
  }

  // ---- The shape of a batch ----

  lemma {:induction false} FirstRefusal(st: State, batch: Batch, n: nat) returns (cut: nat)
    requires n <= |batch.items|
    ensures cut <= n && NoneRefused(st, batch, cut)
    ensures cut < n ==> Recorded(st, batch, cut, Refusal)
  {
    if n == 0 {
      cut := 0;
    } else {
      cut := FirstRefusal(st, batch, n - 1);
      if cut == n - 1 && !Recorded(st, batch, cut, Refusal) {
        cut := n;
      }
    }
  }

  /** A decided batch is executed, reused or erroneous items, then refused or erroneous
      ones: nothing is executed, reused or even reserved after a refusal. */
  lemma DecidedShape(st: State, batch: Batch) returns (cut: nat)
    requires BatchOk(st, batch) && AllDecided(st, batch, |batch.items|)
    ensures cut <= |batch.items|
    ensures forall i | 0 <= i < cut && Runs(batch, i) :: Ran(st, batch, i) && !Recorded(st, batch, i, Refusal)
    ensures forall i | cut <= i < |batch.items| && Runs(batch, i) :: Recorded(st, batch, i, Refusal) && !Ran(st, batch, i)
  {
    cut := FirstRefusal(st, batch, |batch.items|);
    forall i | 0 <= i < |batch.items| && Runs(batch, i)
      ensures i < cut ==> Ran(st, batch, i)
      ensures cut <= i ==> Recorded(st, batch, i, Refusal) && !Ran(st, batch, i)
    {
      DecidedRanOrRefused(st, batch, i);
    }
  }

  lemma DecidedRanOrRefused(st: State, batch: Batch, i: nat)
    requires ItemOk(st, batch, i) && Decided(st, batch, i)
    ensures Ran(st, batch, i) != Recorded(st, batch, i, Refusal)
  {
    if Completed(st, ItemId(batch.base, i)) {
      assert Has(st.operations, ItemId(batch.base, i));
    }
  }

  // ---- Reuse ----

  /** Equal keys are equal requests: name, version, arguments, and input contents. */
  lemma KeyDetermines(a: Plan, b: Plan)
    requires a.Run? && b.Run? && KeyBlob(a) == KeyBlob(b)
    ensures a.name == b.name && a.declared.version == b.declared.version && a.arguments == b.arguments
    ensures Files(a.declared.inputs).Keys == Files(b.declared.inputs).Keys
    ensures forall n | n in Files(a.declared.inputs) ::
      Files(a.declared.inputs)[n].artifact == Files(b.declared.inputs)[n].artifact
  {
    var x, y := KeyJson(a.name, a.declared, a.arguments).fields, KeyJson(b.name, b.declared, b.arguments).fields;
    assert x["operation"] == y["operation"] && x["version"] == y["version"] && x["arguments"] == y["arguments"];
    assert x["inputs"] == y["inputs"];
    var f, g := x["inputs"].fields, y["inputs"].fields;
    forall n | n in Files(a.declared.inputs)
      ensures n in Files(b.declared.inputs) && Files(a.declared.inputs)[n].artifact == Files(b.declared.inputs)[n].artifact
    {
      assert n in f && f[n] == g[n];
    }
    forall n | n in Files(b.declared.inputs)
      ensures n in Files(a.declared.inputs)
    {
      assert n in g && n in f;
    }
  }

  /** A recorded reuse names an operation that was really dispatched, ended by itself and
      was measured, before the reuse was recorded, and whose cited key is the item's. */
  lemma ReuseIsSound(st: State, batch: Batch, i: nat) returns (op: Operation)
    requires Inv(st) && BatchOk(st, batch) && i < |batch.items| && Recorded(st, batch, i, Reuse)
    ensures Runs(batch, i) && op in st.operations && op.Id() == SourceOf(st, batch, i)
    ensures op.dispatch.Some? && Reusable(op, KeyBlob(PlanOf(batch, i)))
    ensures op.completion.value.observation.sequence < st.observations[Row(st, batch, i, Reuse).value].sequence
  {
    assert ItemOk(st, batch, i);
    var row := Row(st, batch, i, Reuse).value;
    op :| op in st.operations && op.Id() == SourceOf(st, batch, i) && Reusable(op, KeyBlob(PlanOf(batch, i)))
          && op.completion.value.observation.sequence <= row;
    assert OperationOk(st, op) && ObservationOk(st, row);
  }

  // ---- Which key an operation cites ----

  lemma {:induction false} CiteKeys(cited: seq<Evidence>)
    ensures forall name :: name in Cite(cited) <==> exists k | 0 <= k < |cited| :: cited[k].name == name
    ensures forall name | name in Cite(cited) ::
      exists k | 0 <= k < |cited| :: cited[k].name == name && cited[k].artifact == Cite(cited)[name]
  {
    if cited != [] {
      var init, last := cited[..|cited| - 1], cited[|cited| - 1];
      CiteKeys(init);
      assert forall k | 0 <= k < |init| :: cited[k] == init[k];
      assert cited[|cited| - 1] == last;
      forall name | name in Cite(cited)
        ensures exists k | 0 <= k < |cited| :: cited[k].name == name && cited[k].artifact == Cite(cited)[name]
      {
        if name != last.name {
          assert name in Cite(init);
          var k :| 0 <= k < |init| && init[k].name == name && init[k].artifact == Cite(init)[name];
          assert cited[k].name == name;
        }
      }
    }
  }

  /** Names that end in the channel, apart from the item's own. */
  function OtherNames(inputs: Artifacts, own: string, channel: string): set<string> {
    Matching(inputs, channel) - {own}
  }

  /** What an operation is found to cite for a channel is its own artifact, exactly when no
      other input whose name ends in the channel sorts before it, unless that input holds
      the same bytes. */
  lemma OwnCitedExactly(inputs: Artifacts, own: string, channel: string)
    requires own in Matching(inputs, channel)
    ensures Ordering.Injective(Ordering.Rank)
    ensures CitedChannel(inputs, channel) == Some(inputs[own])
       <==> var others := OtherNames(inputs, own, channel);
            || others == {}
            || Ordering.Less(own, Ordering.Least(others, Ordering.Rank), Ordering.Rank)
            || inputs[Ordering.Least(others, Ordering.Rank)] == inputs[own]
  {
    Ordering.RankInjective();
    var names, others := Matching(inputs, channel), OtherNames(inputs, own, channel);
    if others == {} {
      assert names == {own};
    } else {
      var other := Ordering.Least(others, Ordering.Rank);
      Ordering.LessTotal(own, other, Ordering.Rank);
      if Ordering.Less(own, other, Ordering.Rank) {
        forall name | name in names && name != own
          ensures Ordering.Less(own, name, Ordering.Rank)
        {
          if name != other {
            Ordering.LessTransitive(own, other, name, Ordering.Rank);
          }
        }
        Ordering.LeastIsOne(own, Ordering.Least(names, Ordering.Rank), names, Ordering.Rank);
      } else {
        Ordering.LeastIsOne(other, Ordering.Least(names, Ordering.Rank), names, Ordering.Rank);
      }
    }
  }

  // ---- Which of its own captures an item is found to cite ----

  const OWN: seq<string> := [ARGUMENTS, INPUTS, KEY]

  predicate Flat(name: string) {
    '/' !in name
  }

  lemma OwnAreFlat(channel: string)
    requires channel in OWN
    ensures Flat(channel)
  {
  }

  lemma EndsWithItself(head: string, suffix: string)
    ensures EndsWith(head + suffix, suffix)
  {
    assert (head + suffix)[|head|..] == suffix;
  }

  lemma EndsInChannel(sequence: nat, channel: string)
    ensures EndsWith(EvidenceName(sequence, channel), "/" + channel)
  {
    EndsWithItself(OBSERVATION + Decimal(sequence), "/" + channel);
    assert EvidenceName(sequence, channel) == OBSERVATION + Decimal(sequence) + ("/" + channel);
  }

  lemma SlashAt(head: string, tail: string)
    ensures (head + ("/" + tail))[|head|] == '/'
    ensures forall k | 0 <= k < |tail| :: (head + ("/" + tail))[|head| + 1 + k] == tail[k]
  {
  }

  /** What follows the last slash. */
  lemma AfterLastSlash(x: string, a: string, y: string, b: string)
    requires Flat(a) && Flat(b) && x + ("/" + a) == y + ("/" + b)
    ensures a == b
  {
    SlashAt(x, a);
    SlashAt(y, b);
    var whole := x + ("/" + a);
    assert forall k | 0 <= k < |a| :: a[k] in a;
    assert forall k | 0 <= k < |b| :: b[k] in b;
    assert |x| <= |y|;
    assert |y| <= |x|;
    assert whole[|x| + 1..] == a && whole[|y| + 1..] == b;
  }

  lemma EndsElse(sequence: nat, a: string, b: string)
    requires Flat(a) && Flat(b) && a != b
    ensures !EndsWith(EvidenceName(sequence, a), "/" + b)
  {
    var name, head := EvidenceName(sequence, a), OBSERVATION + Decimal(sequence);
    assert name == head + ("/" + a);
    if EndsWith(name, "/" + b) {
      AfterLastSlash(head, a, name[..|name| - |b| - 1], b);
    }
  }

  /** The declared files of an operation whose names end in a channel of the host's own. */
  function DeclaredAs(plan: Plan, channel: string, own: string): set<string>
    requires plan.Run?
  {
    set k | 0 <= k < |plan.declared.inputs|
            && EndsWith(plan.declared.inputs[k].1.name, "/" + channel) && plan.declared.inputs[k].1.name != own ::
      plan.declared.inputs[k].1.name
  }

  /** No name stands for two artifacts, and the tool's output has a name of its own. */
  ghost predicate PlainlyCited(batch: Batch, plan: Plan, capture: Observation)
    requires plan.Run? && HasInput(capture)
  {
    && Consistent(Elements(CitedEvidence(batch, plan, capture)))
    && forall channel | channel in OWN :: !EndsWith(batch.stdout.name, "/" + channel)
  }

  /** What an item cites is on the ledger: its own capture, the output its tool attempt
      printed, and every declared file. */
  ghost predicate CitesLedger(st: State, batch: Batch, plan: Plan, capture: Observation)
    requires plan.Run?
  {
    && HasInput(capture) && 0 < capture.sequence <= |st.observations| && st.observations[capture.sequence - 1] == capture
    && (exists o | o in st.observations :: STDOUT in o.artifacts && batch.stdout == Captured(o, STDOUT))
    && forall k | 0 <= k < |plan.declared.inputs| :: OnLedger(st, plan.declared.inputs[k].1)
  }

  lemma OwnOnLedger(st: State, capture: Observation, channel: string)
    requires Inv(st) && PlainSnapshots(st.project) && channel in capture.artifacts
    requires 0 < capture.sequence <= |st.observations| && st.observations[capture.sequence - 1] == capture
    ensures OnLedger(st, Captured(capture, channel))
  {
    CaptureResolves(st, capture.sequence - 1, channel);
  }

  lemma StdoutOnLedger(st: State, stdout: Evidence)
    requires Inv(st) && PlainSnapshots(st.project)
    requires exists o | o in st.observations :: STDOUT in o.artifacts && stdout == Captured(o, STDOUT)
    ensures OnLedger(st, stdout) && forall channel | channel in OWN :: !EndsWith(stdout.name, "/" + channel)
  {
    var o :| o in st.observations && STDOUT in o.artifacts && stdout == Captured(o, STDOUT);
    var n :| 0 <= n < |st.observations| && st.observations[n] == o;
    CaptureResolves(st, n, STDOUT);
    forall channel | channel in OWN
      ensures !EndsWith(stdout.name, "/" + channel)
    {
      OwnAreFlat(channel);
      StdoutIsFlat(channel);
      EndsElse(o.sequence, STDOUT, channel);
    }
  }

  lemma CitedOnLedger(st: State, batch: Batch, plan: Plan, capture: Observation)
    requires Inv(st) && PlainSnapshots(st.project) && plan.Run? && CitesLedger(st, batch, plan, capture)
    ensures AllOnLedger(st, Elements(CitedEvidence(batch, plan, capture)))
  {
    StdoutOnLedger(st, batch.stdout);
    OwnOnLedger(st, capture, ARGUMENTS);
    OwnOnLedger(st, capture, INPUTS);
    OwnOnLedger(st, capture, KEY);
  }

  /** Then no name stands for two artifacts, and the output's is none of the host's own. */
  lemma LedgerIsPlain(st: State, batch: Batch, plan: Plan, capture: Observation)
    requires Inv(st) && PlainSnapshots(st.project) && plan.Run? && CitesLedger(st, batch, plan, capture)
    ensures PlainlyCited(batch, plan, capture)
  {
    StdoutOnLedger(st, batch.stdout);
    CitedOnLedger(st, batch, plan, capture);
    OnLedgerIsCitable(st, Elements(CitedEvidence(batch, plan, capture)));
  }

  lemma StdoutIsFlat(channel: string)
    requires channel in OWN
    ensures Flat(STDOUT) && STDOUT != channel
  {
    assert |STDOUT| == 6 && |ARGUMENTS| == 14 && |INPUTS| == 11 && |KEY| == 8;
  }

  lemma ItemNames(batch: Batch, plan: Plan, capture: Observation, channel: string)
    requires plan.Run? && HasInput(capture) && channel in OWN && PlainlyCited(batch, plan, capture)
    ensures var inputs, own := Cite(CitedEvidence(batch, plan, capture)), Captured(capture, channel).name;
      && own in Matching(inputs, channel) && inputs[own] == capture.artifacts[channel]
      && OtherNames(inputs, own, channel) == DeclaredAs(plan, channel, own)
      && forall k | 0 <= k < |plan.declared.inputs| ::
           plan.declared.inputs[k].1.name in inputs
           && inputs[plan.declared.inputs[k].1.name] == plan.declared.inputs[k].1.artifact
  {
    var cited := CitedEvidence(batch, plan, capture);
    EndsInChannel(capture.sequence, channel);
    OwnIsCited(batch, plan, capture, channel);
    forall k | 0 <= k < |plan.declared.inputs|
      ensures var e := plan.declared.inputs[k].1; e.name in Cite(cited) && Cite(cited)[e.name] == e.artifact
    {
      assert cited[k + 4] == plan.declared.inputs[k].1;
      CitedConsistently(cited, k + 4);
    }
    OthersEndElse(capture, channel);
    OthersAreDeclared(batch, plan, capture, channel);
  }

  lemma OwnIsCited(batch: Batch, plan: Plan, capture: Observation, channel: string)
    requires plan.Run? && HasInput(capture) && channel in OWN && PlainlyCited(batch, plan, capture)
    ensures var inputs, own := Cite(CitedEvidence(batch, plan, capture)), Captured(capture, channel).name;
      own in inputs && inputs[own] == capture.artifacts[channel]
  {
    var cited := CitedEvidence(batch, plan, capture);
    assert cited[1] == Captured(capture, ARGUMENTS) && cited[2] == Captured(capture, INPUTS) && cited[3] == Captured(capture, KEY);
    CitedConsistently(cited, 1);
    CitedConsistently(cited, 2);
    CitedConsistently(cited, 3);
  }

  lemma OthersEndElse(capture: Observation, channel: string)
    requires HasInput(capture) && channel in OWN
    ensures forall other | other in OWN && other != channel :: !EndsWith(Captured(capture, other).name, "/" + channel)
  {
    forall other | other in OWN && other != channel
      ensures !EndsWith(Captured(capture, other).name, "/" + channel)
    {
      OwnAreFlat(other);
      OwnAreFlat(channel);
      EndsElse(capture.sequence, other, channel);
    }
  }

  lemma CitedConsistently(cited: seq<Evidence>, k: nat)
    requires k < |cited| && Consistent(Elements(cited))
    ensures cited[k].name in Cite(cited) && Cite(cited)[cited[k].name] == cited[k].artifact
  {
    CiteKeys(cited);
    assert cited[k].name in Cite(cited);
    var j :| 0 <= j < |cited| && cited[j].name == cited[k].name && cited[j].artifact == Cite(cited)[cited[k].name];
    assert cited[j] in Elements(cited) && cited[k] in Elements(cited);
  }

  lemma OthersAreDeclared(batch: Batch, plan: Plan, capture: Observation, channel: string)
    requires plan.Run? && HasInput(capture) && channel in OWN && PlainlyCited(batch, plan, capture)
    requires forall other | other in OWN && other != channel ::
      !EndsWith(Captured(capture, other).name, "/" + channel)
    ensures OtherNames(Cite(CitedEvidence(batch, plan, capture)), Captured(capture, channel).name, channel)
         == DeclaredAs(plan, channel, Captured(capture, channel).name)
  {
    var own := Captured(capture, channel).name;
    forall name
      ensures name in OtherNames(Cite(CitedEvidence(batch, plan, capture)), own, channel) <==> name in DeclaredAs(plan, channel, own)
    {
      OtherIsDeclared(batch, plan, capture, channel, name);
    }
  }

  lemma OtherIsDeclared(batch: Batch, plan: Plan, capture: Observation, channel: string, name: string)
    requires plan.Run? && HasInput(capture) && channel in OWN && PlainlyCited(batch, plan, capture)
    requires forall other | other in OWN && other != channel ::
      !EndsWith(Captured(capture, other).name, "/" + channel)
    ensures var own := Captured(capture, channel).name;
      name in OtherNames(Cite(CitedEvidence(batch, plan, capture)), own, channel) <==> name in DeclaredAs(plan, channel, own)
  {
    var cited, own := CitedEvidence(batch, plan, capture), Captured(capture, channel).name;
    if name in OtherNames(Cite(cited), own, channel) {
      CiteKeys(cited);
      var k :| 0 <= k < |cited| && cited[k].name == name;
      OwnNameIsNone(batch, plan, capture, channel, k);
      assert plan.declared.inputs[k - 4].1.name == name;
    }
    if name in DeclaredAs(plan, channel, own) {
      DeclaredIsCited(batch, plan, capture, name);
    }
  }

  lemma DeclaredIsCited(batch: Batch, plan: Plan, capture: Observation, name: string)
    requires plan.Run? && HasInput(capture)
    requires exists k :: 0 <= k < |plan.declared.inputs| && plan.declared.inputs[k].1.name == name
    ensures name in Cite(CitedEvidence(batch, plan, capture))
  {
    var cited := CitedEvidence(batch, plan, capture);
    var k :| 0 <= k < |plan.declared.inputs| && plan.declared.inputs[k].1.name == name;
    CiteKeys(cited);
    assert cited[k + 4] == plan.declared.inputs[k].1;
  }

  lemma OwnNameIsNone(batch: Batch, plan: Plan, capture: Observation, channel: string, k: nat)
    requires plan.Run? && HasInput(capture) && channel in OWN && PlainlyCited(batch, plan, capture)
    requires forall other | other in OWN && other != channel ::
      !EndsWith(Captured(capture, other).name, "/" + channel)
    requires k < |CitedEvidence(batch, plan, capture)|
    requires var e := CitedEvidence(batch, plan, capture)[k];
      EndsWith(e.name, "/" + channel) && e.name != Captured(capture, channel).name
    ensures k >= 4
  {
    var cited := CitedEvidence(batch, plan, capture);
    assert cited[0] == batch.stdout && cited[1] == Captured(capture, ARGUMENTS);
    assert cited[2] == Captured(capture, INPUTS) && cited[3] == Captured(capture, KEY);
    assert ARGUMENTS == OWN[0] && INPUTS == OWN[1] && KEY == OWN[2];
  }

  /** No declared file whose name ends in the channel sorts before the item's own capture
      of it, unless it holds the same bytes. */
  ghost predicate OwnComesFirst(plan: Plan, capture: Observation, channel: string)
    requires plan.Run? && channel in capture.artifacts
  {
    Ordering.RankInjective();
    var own := Captured(capture, channel);
    var others := DeclaredAs(plan, channel, own.name);
    || others == {}
    || Ordering.Less(own.name, Ordering.Least(others, Ordering.Rank), Ordering.Rank)
    || exists k | 0 <= k < |plan.declared.inputs| ::
         plan.declared.inputs[k].1 == Evidence(Ordering.Least(others, Ordering.Rank), own.artifact)
  }

  /** What is found on an item's operation for a channel of the host's own is its own
      capture, exactly when no declared file named like it comes first. */
  lemma OwnChannelCited(batch: Batch, project: Project, i: nat, plan: Plan, capture: Observation, channel: string)
    requires plan.Run? && HasInput(capture) && channel in OWN && PlainlyCited(batch, plan, capture)
    ensures CitedChannel(ItemRequest(batch, project, i, plan, capture).origin.inputs, channel) == Some(capture.artifacts[channel])
       <==> OwnComesFirst(plan, capture, channel)
  {
    var inputs := ItemRequest(batch, project, i, plan, capture).origin.inputs;
    var own := Captured(capture, channel);
    ItemNames(batch, plan, capture, channel);
    OwnCitedExactly(inputs, own.name, channel);
    var others := DeclaredAs(plan, channel, own.name);
    if others != {} {
      var first := Ordering.Least(others, Ordering.Rank);
      var k :| 0 <= k < |plan.declared.inputs| && plan.declared.inputs[k].1.name == first;
      assert inputs[first] == plan.declared.inputs[k].1.artifact;
    }
  }

  lemma {:induction false} LessAfterPrefix(head: string, a: string, b: string)
    requires head <= a && head <= b && |head| < |a| && |head| < |b|
    requires Ordering.Rank(a[|head|]) < Ordering.Rank(b[|head|])
    ensures Ordering.Less(a, b, Ordering.Rank)
  {
    if head != "" {
      assert a[0] == head[0] == b[0];
      LessAfterPrefix(head[1..], a[1..], b[1..]);
    }
  }

  /** Both items ask for the same operation, version and arguments over the same contents. */
  predicate SameQuestion(a: Plan, b: Plan) {
    && a.Run? && b.Run? && a.name == b.name && a.declared.version == b.declared.version && a.arguments == b.arguments
    && Files(a.declared.inputs).Keys == Files(b.declared.inputs).Keys
    && forall n | n in Files(a.declared.inputs) ::
         Files(a.declared.inputs)[n].artifact == Files(b.declared.inputs)[n].artifact
  }

  lemma KeyIsQuestion(a: Plan, b: Plan)
    requires a.Run? && b.Run?
    ensures KeyBlob(a) == KeyBlob(b) <==> SameQuestion(a, b)
  {
    if KeyBlob(a) == KeyBlob(b) {
      KeyDetermines(a, b);
    }
    if SameQuestion(a, b) {
      var f, g := Files(a.declared.inputs), Files(b.declared.inputs);
      assert (map n | n in f :: Digest(f[n].artifact)) == (map n | n in g :: Digest(g[n].artifact));
    }
  }

  /** What an item reuses, when the source is an item's operation too, answers the same
      question exactly when the source's own key comes first among its inputs. */
  lemma ReuseAnswersTheSame(st: State, batch: Batch, i: nat, other: Batch, j: nat, capture: Observation)
    requires Inv(st) && BatchOk(st, batch) && BatchOk(st, other) && i < |batch.items| && j < |other.items|
    requires Recorded(st, batch, i, Reuse) && SourceOf(st, batch, i) == ItemId(other.base, j)
    requires PlainSnapshots(st.project) && Runs(other, j) && CitesLedger(st, other, PlanOf(other, j), capture)
    requires capture.artifacts == InputRaw(PlanOf(other, j))
    requires exists op | op in st.operations ::
      op.Id() == ItemId(other.base, j) && op.request == ItemRequest(other, st.project, j, PlanOf(other, j), capture)
    ensures Runs(batch, i)
    ensures SameQuestion(PlanOf(batch, i), PlanOf(other, j)) <==> OwnComesFirst(PlanOf(other, j), capture, KEY)
  {
    var op := ReuseIsSound(st, batch, i);
    LedgerIsPlain(st, other, PlanOf(other, j), capture);
    var source :| source in st.operations && source.Id() == ItemId(other.base, j)
                  && source.request == ItemRequest(other, st.project, j, PlanOf(other, j), capture);
    assert source == op;
    OwnChannelCited(other, st.project, j, PlanOf(other, j), capture, KEY);
    KeyIsQuestion(PlanOf(batch, i), PlanOf(other, j));
  }
}
