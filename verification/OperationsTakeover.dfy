/** An operation that is found by the key of another one, because a declared file of its own
    is named like the host's key and sorts before it. */
module OperationsTakeover {
  import opened Records
  import opened Names
  import opened LedgerSpec
  import opened LedgerInvariant
  import opened LedgerSafety
  import opened Evidences
  import Ordering
  import opened RecordOnce
  import opened OperationsSpec
  import opened OperationsReplay
  import opened OperationsSteps
  import opened OperationsSafety
  import opened OperationsHost

  // ---- Steps of any ledger ----

  /** Each piece of evidence is what its name stands for. */
  ghost predicate Resolves(st: State, cited: seq<Evidence>) {
    forall k | 0 <= k < |cited| :: Resolve(st, cited[k].name) == Some(cited[k].artifact)
  }

  lemma CitedMatches(st: State, cited: seq<Evidence>, origin: Origin)
    requires Resolves(st, cited) && origin.inputs == Cite(cited)
    ensures OriginMatches(st, origin)
  {
    CiteKeys(cited);
  }

  /** Capturing the input of an item that nobody started. */
  lemma InputCaptured(st: State, session: string, batch: Batch) returns (later: State, capture: Observation)
    requires Inv(st) && session in st.sessions && PlainSnapshots(st.project)
    requires BatchOk(st, batch) && Runs(batch, 0) && Row(st, batch, 0, Input).None?
    requires SourcesResolve(st, batch)
    ensures Inv(later) && BatchOk(later, batch) && Extends(st, later) && Ready(later, batch, 0, capture)
    ensures later == st.(observations := st.observations + [capture])
    ensures capture.sequence == |st.observations| + 1 && capture.artifacts == InputRaw(PlanOf(batch, 0))
    ensures capture.origin.operationId == PartId(batch.base, 0, Input)
    ensures forall part | part != Input :: Row(later, batch, 0, part) == Row(st, batch, 0, part)
  {
    var plan := PlanOf(batch, 0);
    var origin, raw := InputOrigin(batch, 0), InputRaw(plan);
    later := RecordOnce.Step(st, session, origin, raw).st;
    capture := Capture(st, session, origin, raw, None);
    InputIsRecorded(st, session, batch, origin, raw);
    StepKeeps(st, session, origin, raw);
    StepAddsPart(st, session, batch, 0, Input, origin, raw);
    StepEffect(st, session, origin, raw);
    InputStepKeeps(st, later, batch, 0);
    PartIsQuietElsewhere(st, later, batch, 0, Input);
    OnlyCapture(later, |st.observations|, origin, raw);
    ReadyNow(st, later, batch, capture);
  }

  lemma InputIsRecorded(st: State, session: string, batch: Batch, origin: Origin, raw: Artifacts)
    requires Inv(st) && session in st.sessions && BatchOk(st, batch) && Runs(batch, 0) && Row(st, batch, 0, Input).None?
    requires origin == InputOrigin(batch, 0) && raw == InputRaw(PlanOf(batch, 0))
    ensures RecordOnce.Step(st, session, origin, raw)
         == Step(st.(observations := st.observations + [Capture(st, session, origin, raw, None)]),
                 Ok(Capture(st, session, origin, raw, None)))
  {
    PartIsFree(st, batch, Input);
    InputNames(PlanOf(batch, 0));
    RecordedFirst(st, session, origin, raw);
  }

  lemma PartIsFree(st: State, batch: Batch, part: Part)
    requires BatchOk(st, batch) && Row(st, batch, 0, part).None?
    ensures FirstRecord(st.observations, PartId(batch.base, 0, part)).None?
    ensures !Has(st.operations, PartId(batch.base, 0, part))
  {
    assert IsPart(batch.base, PartId(batch.base, 0, part));
  }

  lemma InputNames(plan: Plan)
    requires plan.Run?
    ensures InputRaw(plan) != map[] && NamesOk(InputRaw(plan))
  {
    assert 'a' in ARGUMENTS && 'k' in KEY && 'i' in INPUTS;
    assert KEY in InputRaw(plan);
  }

  lemma RecordedFirst(st: State, session: string, origin: Origin, raw: Artifacts)
    requires session in st.sessions && raw != map[] && NamesOk(raw) && OriginMatches(st, origin)
    requires FirstRecord(st.observations, origin.operationId).None? && !Has(st.operations, origin.operationId)
    ensures RecordOnce.Step(st, session, origin, raw)
         == Step(st.(observations := st.observations + [Capture(st, session, origin, raw, None)]),
                 Ok(Capture(st, session, origin, raw, None)))
  {
  }

  ghost predicate SourcesResolve(st: State, batch: Batch) {
    && Runs(batch, 0) && Resolve(st, batch.stdout.name) == Some(batch.stdout.artifact)
    && forall k | 0 <= k < |PlanOf(batch, 0).declared.inputs| ::
         var e := PlanOf(batch, 0).declared.inputs[k].1; Resolve(st, e.name) == Some(e.artifact)
  }

  lemma OwnResolve(st: State, batch: Batch, capture: Observation, k: nat)
    requires Inv(st) && PlainSnapshots(st.project) && Runs(batch, 0) && HasInput(capture) && 1 <= k < 4
    requires 0 < capture.sequence <= |st.observations| && st.observations[capture.sequence - 1] == capture
    ensures var e := CitedEvidence(batch, PlanOf(batch, 0), capture)[k]; Resolve(st, e.name) == Some(e.artifact)
  {
    CaptureResolves(st, capture.sequence - 1, if k == 1 then ARGUMENTS else if k == 2 then INPUTS else KEY);
  }

  lemma ReadyNow(st: State, later: State, batch: Batch, capture: Observation)
    requires Inv(later) && PlainSnapshots(st.project) && SourcesResolve(st, batch)
    requires later == st.(observations := st.observations + [capture]) && capture.sequence == |later.observations|
    requires capture.artifacts == InputRaw(PlanOf(batch, 0))
    requires Row(later, batch, 0, Input) == Some(|st.observations|)
    requires IsRecord(later, |st.observations|, InputOrigin(batch, 0), InputRaw(PlanOf(batch, 0)))
    ensures Ready(later, batch, 0, capture)
  {
    var plan := PlanOf(batch, 0);
    AllResolve(st, later, batch, capture);
    CitedMatches(later, CitedEvidence(batch, plan, capture), ItemRequest(batch, later.project, 0, plan, capture).origin);
  }

  lemma AllResolve(st: State, later: State, batch: Batch, capture: Observation)
    requires Inv(later) && PlainSnapshots(st.project) && SourcesResolve(st, batch) && HasInput(capture)
    requires later == st.(observations := st.observations + [capture]) && capture.sequence == |later.observations|
    ensures Resolves(later, CitedEvidence(batch, PlanOf(batch, 0), capture))
  {
    var plan := PlanOf(batch, 0);
    var cited := CitedEvidence(batch, plan, capture);
    forall k | 0 <= k < |cited|
      ensures Resolve(later, cited[k].name) == Some(cited[k].artifact)
    {
      if 1 <= k < 4 {
        OwnResolve(later, batch, capture, k);
      } else {
        assert k > 3 ==> cited[k] == plan.declared.inputs[k - 4].1;
        StillResolves(st, later, cited[k]);
      }
    }
  }

  lemma StillResolves(st: State, later: State, e: Evidence)
    requires later.project == st.project && st.observations <= later.observations
    requires Resolve(st, e.name) == Some(e.artifact)
    ensures Resolve(later, e.name) == Some(e.artifact)
  {
  }

  lemma UntouchedRows(st: State, batch: Batch, part: Part)
    requires Untouched(st, batch)
    ensures Row(st, batch, 0, part).None?
  {
    assert IsPart(batch.base, PartId(batch.base, 0, part));
  }

  lemma NowUndecided(st: State, batch: Batch, capture: Observation)
    requires Runs(batch, 0) && Ready(st, batch, 0, capture) && !Has(st.operations, ItemId(batch.base, 0))
    requires forall part | part != Input :: Row(st, batch, 0, part).None?
    ensures Undecided(st, batch, 0, capture)
  {
    NotCompleted(st, ItemId(batch.base, 0));
  }

  /** Capturing the input of the first item of a batch that nothing was recorded for. */
  lemma Asks(st: State, session: string, batch: Batch) returns (later: State, capture: Observation)
    requires Inv(st) && session in st.sessions && PlainSnapshots(st.project)
    requires Untouched(st, batch) && Runs(batch, 0)
    requires SourcesResolve(st, batch)
    ensures Inv(later) && BatchOk(later, batch) && Undecided(later, batch, 0, capture)
    ensures later == st.(observations := st.observations + [capture])
    ensures capture.sequence == |st.observations| + 1 && capture.artifacts == InputRaw(PlanOf(batch, 0))
    ensures capture.origin.operationId == PartId(batch.base, 0, Input)
  {
    UntouchedIsOk(st, batch);
    forall part: Part
      ensures Row(st, batch, 0, part).None?
    {
      UntouchedRows(st, batch, part);
    }
    later, capture := InputCaptured(st, session, batch);
    assert !Has(st.operations, ItemId(batch.base, 0));
    NowUndecided(later, batch, capture);
  }

  /** Reserving and executing the one operation of a ledger that has none. */
  lemma Executed(st: State, session: string, batch: Batch, capture: Observation, result: Result, raw: Artifacts)
    returns (later: State, op: Operation)
    requires Inv(st) && session in st.sessions && st.operations == []
    requires BatchOk(st, batch) && Undecided(st, batch, 0, capture)
    requires st.project.allowances == map["c" := 1] && result.usage == map["c" := 1]
    requires raw != map[] && NamesOk(raw)
    ensures Inv(later) && BatchOk(later, batch) && Extends(st, later) && op in later.operations
    ensures later.operations == [op] && op.request == ItemRequest(batch, st.project, 0, PlanOf(batch, 0), capture)
    ensures op.completion.Some? && op.completion.value.result == result && op.completion.value.observation.artifacts == raw
    ensures later.observations == st.observations + [op.completion.value.observation]
    ensures op.completion.value.observation.origin.operationId == ItemId(batch.base, 0)
    ensures later.sessions == st.sessions
  {
    var sent := Dispatched(st, session, batch, capture);
    var request := ItemRequest(batch, st.project, 0, PlanOf(batch, 0), capture);
    OriginGrows(st, sent, request.origin);
    later := Complete(sent, session, request, result, raw).st;
    CompleteKeeps(sent, session, request, result, raw);
    CompletePhases(sent, session, request, result, raw);
    PhasesKeep(sent, later, batch);
    op := FirstCompleted(sent, session, request, result, raw);
    ExtendsTransitive(st, sent, later);
  }

  lemma Dispatched(st: State, session: string, batch: Batch, capture: Observation) returns (sent: State)
    requires Inv(st) && session in st.sessions && st.operations == []
    requires BatchOk(st, batch) && Undecided(st, batch, 0, capture) && st.project.allowances == map["c" := 1]
    ensures Inv(sent) && BatchOk(sent, batch) && Extends(st, sent)
    ensures sent.observations == st.observations && sent.sessions == st.sessions && |sent.operations| == 1
    ensures var op := sent.operations[0];
      op.request == ItemRequest(batch, st.project, 0, PlanOf(batch, 0), capture) && op.Unknown()
      && op.reservation == map["c" := 1]
  {
    var request := ItemRequest(batch, st.project, 0, PlanOf(batch, 0), capture);
    var held := FirstReserved(st, session, request);
    ReserveStep(st, session, batch, 0, capture, map["c" := 1], ROOT);
    ReserveKeeps(st, session, request, map["c" := 1], ROOT);
    OriginGrows(st, held, request.origin);
    sent := Begin(held, session, request).st;
    BeginKeeps(held, session, request);
    BeginPhases(held, session, request);
    PhasesKeep(held, sent, batch);
    FirstBegun(held, session, request);
    ExtendsTransitive(st, held, sent);
  }

  lemma FirstReserved(st: State, session: string, request: Request) returns (later: State)
    requires Inv(st) && session in st.sessions && st.operations == [] && st.project.allowances == map["c" := 1]
    requires request.context == st.project && OriginMatches(st, request.origin)
    ensures later == Reserve(st, session, request, map["c" := 1], ROOT).st
    ensures later == st.(operations := [Operation(request, session, map["c" := 1], None, None, ROOT)])
  {
    later := Reserve(st, session, request, map["c" := 1], ROOT).st;
    assert forall unit :: Available(st, None, unit) == Limit(st, None, unit);
    assert BudgetOpen(st, ROOT);
    assert [] + [Operation(request, session, map["c" := 1], None, None, ROOT)]
        == [Operation(request, session, map["c" := 1], None, None, ROOT)];
  }

  lemma FirstBegun(st: State, session: string, request: Request)
    requires Inv(st) && session in st.sessions && request.context == st.project && OriginMatches(st, request.origin)
    requires st.operations == [Operation(request, session, map["c" := 1], None, None, ROOT)]
    ensures Begin(st, session, request).st
         == st.(operations := [st.operations[0].(dispatch := Some(Dispatch(session, st.clock)))], clock := st.clock + 1)
  {
    assert Has(st.operations, request.origin.operationId);
    assert Find(st.operations, request.origin.operationId) == Some(0);
    forall unit
      ensures Available(st, None, unit) >= 0
    {
      OneReserved(st, unit);
    }
    var sent := st.operations[0].(dispatch := Some(Dispatch(session, st.clock)));
    assert st.operations[0 := sent] == [sent];
  }

  lemma OneReserved(st: State, unit: string)
    requires Inv(st) && |st.operations| == 1 && st.operations[0].Pending()
    ensures Available(st, None, unit) >= 0
  {
    assert WithinLimit(st, None, unit);
    CommittedPlusOveruse(st.operations, None, unit);
    assert st.operations[..0] == [];
    assert Total(Overuse, st.operations, None, unit) == Total(Overuse, st.operations[..0], None, unit);
  }

  lemma FirstCompleted(st: State, session: string, request: Request, result: Result, raw: Artifacts) returns (op: Operation)
    requires Inv(st) && session in st.sessions && request.context == st.project && OriginMatches(st, request.origin)
    requires |st.operations| == 1 && st.operations[0].request == request && st.operations[0].Unknown()
    requires st.operations[0].reservation == map["c" := 1] == result.usage
    requires raw != map[] && NamesOk(raw)
    ensures Complete(st, session, request, result, raw).st.operations == [op]
    ensures op.request == request && op.completion.Some?
    ensures op.completion.value.result == result && op.completion.value.observation.artifacts == raw
    ensures op.completion.value.observation.origin == request.origin
    ensures Complete(st, session, request, result, raw).st.observations == st.observations + [op.completion.value.observation]
    ensures Complete(st, session, request, result, raw).st.sessions == st.sessions
  {
    assert Has(st.operations, request.origin.operationId);
    assert Find(st.operations, request.origin.operationId) == Some(0);
    var step := Complete(st, session, request, result, raw);
    op := step.st.operations[0];
  }

  /** Recording the reuse of a measured result of the same key. */
  lemma ReuseRecorded(st: State, session: string, batch: Batch, capture: Observation, op: Operation) returns (later: State)
    requires Inv(st) && session in st.sessions && PlainSnapshots(st.project)
    requires BatchOk(st, batch) && Undecided(st, batch, 0, capture)
    requires Resolve(st, batch.stdout.name) == Some(batch.stdout.artifact)
    requires op in st.operations && Reusable(op, KeyBlob(PlanOf(batch, 0)))
    ensures Inv(later) && BatchOk(later, batch) && Recorded(later, batch, 0, Reuse)
    ensures SourceOf(later, batch, 0) == op.Id()
    ensures ResultOf(later, batch, 0) == Seen(PlanOf(batch, 0).name, op.completion.value, Some(op.Id()))
  {
    var plan := PlanOf(batch, 0);
    var origin, raw := ReuseOrigin(batch, 0, plan, capture), ReuseRaw(op.Id());
    later := RecordOnce.Step(st, session, origin, raw).st;
    ReuseIsRecorded(st, session, batch, capture, op.Id());
    StepKeeps(st, session, origin, raw);
    ReuseStep(st, session, batch, 0, capture, op);
    assert Row(st, batch, 0, Reuse).None?;
    ReuseIsThere(st, later, batch, capture, op.Id());
  }

  lemma ReuseIsThere(st: State, later: State, batch: Batch, capture: Observation, source: OpId)
    requires Runs(batch, 0) && HasInput(capture) && Row(st, batch, 0, Reuse).None? && ItemOk(later, batch, 0)
    requires |later.observations| == |st.observations| + 1 && st.observations <= later.observations
    requires later.observations[|st.observations|].origin == ReuseOrigin(batch, 0, PlanOf(batch, 0), capture)
    requires later.observations[|st.observations|].artifacts == ReuseRaw(source)
    ensures Recorded(later, batch, 0, Reuse) && SourceOf(later, batch, 0) == source
  {
    OnlyCaptureHere(st, later, ReuseOrigin(batch, 0, PlanOf(batch, 0), capture), ReuseRaw(source));
  }

  lemma ReuseIsRecorded(st: State, session: string, batch: Batch, capture: Observation, source: OpId)
    requires Inv(st) && session in st.sessions && PlainSnapshots(st.project)
    requires BatchOk(st, batch) && Undecided(st, batch, 0, capture)
    requires Resolve(st, batch.stdout.name) == Some(batch.stdout.artifact)
    ensures var origin, raw := ReuseOrigin(batch, 0, PlanOf(batch, 0), capture), ReuseRaw(source);
      RecordOnce.Step(st, session, origin, raw)
      == Step(st.(observations := st.observations + [Capture(st, session, origin, raw, None)]),
              Ok(Capture(st, session, origin, raw, None)))
  {
    var origin, raw := ReuseOrigin(batch, 0, PlanOf(batch, 0), capture), ReuseRaw(source);
    ReuseIsCited(st, batch, capture);
    ReuseNames(source);
    PartIsFree(st, batch, Reuse);
    RecordedFirst(st, session, origin, raw);
  }

  lemma ReuseNames(source: OpId)
    ensures ReuseRaw(source) != map[] && NamesOk(ReuseRaw(source))
  {
    assert 'r' in REUSE && REUSE in ReuseRaw(source);
  }

  lemma ReuseIsCited(st: State, batch: Batch, capture: Observation)
    requires Inv(st) && PlainSnapshots(st.project) && Runs(batch, 0) && Ready(st, batch, 0, capture)
    requires Resolve(st, batch.stdout.name) == Some(batch.stdout.artifact)
    ensures OriginMatches(st, ReuseOrigin(batch, 0, PlanOf(batch, 0), capture))
  {
    CaptureResolves(st, Row(st, batch, 0, Input).value, KEY);
    CitedMatches(st, [Captured(capture, KEY), batch.stdout], ReuseOrigin(batch, 0, PlanOf(batch, 0), capture));
  }

  lemma OnlyCaptureHere(st: State, later: State, origin: Origin, raw: Artifacts)
    requires FirstRecord(st.observations, origin.operationId).None?
    requires |later.observations| == |st.observations| + 1 && st.observations <= later.observations
    requires later.observations[|st.observations|].origin == origin && later.observations[|st.observations|].artifacts == raw
    ensures FirstRecord(later.observations, origin.operationId) == Some(|st.observations|)
  {
    assert later.observations[..|st.observations|] == st.observations;
  }

  /** Both of it, for a batch that nothing was recorded for. */
  lemma AsksAndReuses(st: State, session: string, batch: Batch, op: Operation) returns (later: State)
    requires Inv(st) && session in st.sessions && PlainSnapshots(st.project)
    requires Untouched(st, batch) && Runs(batch, 0) && SourcesResolve(st, batch)
    requires op in st.operations && Reusable(op, KeyBlob(PlanOf(batch, 0)))
    ensures Inv(later) && BatchOk(later, batch) && Recorded(later, batch, 0, Reuse)
    ensures SourceOf(later, batch, 0) == op.Id()
    ensures ResultOf(later, batch, 0) == Seen(PlanOf(batch, 0).name, op.completion.value, Some(op.Id()))
  {
    var asked, capture := Asks(st, session, batch);
    StillResolves(st, asked, batch.stdout);
    later := ReuseRecorded(asked, session, batch, capture, op);
  }

  // ---- The takeover ----

  const PROJECT: Project := Project("p", map["c" := 1], map[])
  const DECLARED_KEY: string := "input/key.json"

  function Declaring(inputs: seq<(string, Evidence)>): Declared {
    Declared("1", true, true, false, inputs, {"c"}, x => Some(x), x => map["c" := 1], None)
  }

  const NOTES: string := "input/notes.txt"

  function NotesFile(): Evidence {
    Evidence(EvidenceName(1, NOTES), Raw([]))
  }

  /** What a worker asks for in the end: operation `b`, which reads the notes. */
  function Asked(): Plan {
    Run("b", Declaring([("notes.txt", NotesFile())]), Int(2))
  }

  /** A task file whose bytes happen to be the key of `b` with its arguments. */
  function KeyFile(): Evidence {
    Evidence(EvidenceName(1, DECLARED_KEY), KeyBlob(Asked()))
  }

  /** What a worker asked for before: operation `a`, which reads that other file. */
  function Earlier(): Plan {
    Run("a", Declaring([("key.json", KeyFile())]), Int(1))
  }

  function BatchFor(base: string, plan: Plan): Batch
    requires plan.Run?
  {
    Batch(base, ROOT, Evidence(EvidenceName(2, STDOUT), Raw([])), map[plan.name := plan.declared],
          [Obj(map["operation" := Str(plan.name), "arguments" := plan.arguments])])
  }

  const FIRST: string := "episode/r/request/1/"
  const SECOND: string := "episode/r/request/2/"

  lemma PlanOfBatch(base: string, plan: Plan)
    requires plan.Run? && plan.declared.parse(plan.arguments) == Some(plan.arguments)
    ensures Runs(BatchFor(base, plan), 0) && PlanOf(BatchFor(base, plan), 0) == plan
  {
    var item := BatchFor(base, plan).items[0];
    assert item.fields.Keys == {"operation", "arguments"};
  }

  /** The ledger before either batch: the run's file, and the output of its tool. */
  lemma Prepared() returns (st: State)
    ensures Inv(st) && st.project == PROJECT && "s" in st.sessions && st.operations == [] && |st.observations| == 2
    ensures Resolve(st, KeyFile().name) == Some(KeyFile().artifact)
    ensures Resolve(st, NotesFile().name) == Some(NotesFile().artifact)
    ensures Resolve(st, EvidenceName(2, STDOUT)) == Some(Raw([]))
    ensures st.observations[0].origin.operationId == Named("run/r/spec")
    ensures st.observations[1].origin.operationId == Named("episode/r/tool/1")
  {
    assert 'i' in DECLARED_KEY && 'i' in NOTES && 's' in STDOUT;
    assert |DECLARED_KEY| != |NOTES|;
    var files := map[DECLARED_KEY := KeyFile().artifact, NOTES := NotesFile().artifact];
    var printed := map[STDOUT := Raw([])];
    assert NOTES in files && STDOUT in printed;
    st := TwoCaptures(Named("run/r/spec"), files, Named("episode/r/tool/1"), printed);
  }

  lemma TwoCaptures(a: OpId, files: Artifacts, b: OpId, printed: Artifacts) returns (st: State)
    requires files != map[] && NamesOk(files) && printed != map[] && NamesOk(printed)
    ensures Inv(st) && st.project == PROJECT && "s" in st.sessions && st.operations == [] && |st.observations| == 2
    ensures forall x | x in files :: Resolve(st, EvidenceName(1, x)) == Some(files[x])
    ensures forall y | y in printed :: Resolve(st, EvidenceName(2, y)) == Some(printed[y])
    ensures st.observations[0].origin.operationId == a && st.observations[1].origin.operationId == b
  {
    Reachable(PROJECT, []);
    var init := Init(PROJECT);
    StartSessionKeeps(init, "s");
    var recorded := OneCapture(StartSession(init, "s").st, a, files);
    st := OneCapture(recorded, b, printed);
    forall x | x in files
      ensures Resolve(st, EvidenceName(1, x)) == Some(files[x])
    {
      CaptureResolves(st, 0, x);
    }
    forall y | y in printed
      ensures Resolve(st, EvidenceName(2, y)) == Some(printed[y])
    {
      CaptureResolves(st, 1, y);
    }
  }

  lemma OneCapture(st: State, id: OpId, raw: Artifacts) returns (later: State)
    requires Inv(st) && "s" in st.sessions && raw != map[] && NamesOk(raw)
    ensures Inv(later) && later.project == st.project && later.sessions == st.sessions && later.operations == st.operations
    ensures |later.observations| == |st.observations| + 1 && st.observations <= later.observations
    ensures var o := later.observations[|st.observations|];
      o.origin.operationId == id && o.artifacts == raw && o.sequence == |later.observations|
  {
    var origin := Origin(id, "kind", "host", "1", map[]);
    RecordKeeps(st, "s", origin, raw, None);
    later := LedgerSpec.Record(st, "s", origin, raw, None).st;
  }

  lemma PartBegins(base: string, i: nat, part: Part)
    ensures base <= ItemText(base, i) && base <= ItemText(base, i) + PartText(part)
  {
  }

  /** Nothing that does not begin with a batch's base belongs to it. */
  lemma ElsewhereIsApart(base: string, id: OpId)
    requires id.Named? && !(base <= id.text)
    ensures !IsPart(base, id) && forall i: nat :: id != ItemId(base, i)
  {
    forall i: nat, part: Part
      ensures id != PartId(base, i, part) && id != ItemId(base, i)
    {
      PartBegins(base, i, part);
    }
  }

  /** The IDs of one batch belong to no other. */
  lemma OtherBatchIsApart(a: string, b: string, id: OpId)
    requires |a| == |b| && a != b && id.Named? && a <= id.text
    ensures !IsPart(b, id) && forall i: nat :: id != ItemId(b, i)
  {
    ElsewhereIsApart(b, id);
  }

  lemma BasesDiffer()
    ensures |FIRST| == |SECOND| && FIRST != SECOND
    ensures !(FIRST <= "run/r/spec") && !(FIRST <= "episode/r/tool/1")
    ensures !(SECOND <= "run/r/spec") && !(SECOND <= "episode/r/tool/1")
  {
    assert FIRST[18] == '1' && SECOND[18] == '2';
    assert |FIRST| == 20 && |"run/r/spec"| == 10 && |"episode/r/tool/1"| == 16;
  }

  lemma PreparedIsUntouched(st: State, batch: Batch)
    requires st.operations == [] && |st.observations| == 2 && (batch.base == FIRST || batch.base == SECOND)
    requires st.observations[0].origin.operationId == Named("run/r/spec")
    requires st.observations[1].origin.operationId == Named("episode/r/tool/1")
    ensures Untouched(st, batch)
  {
    BasesDiffer();
    forall k | 0 <= k < |st.observations|
      ensures !IsPart(batch.base, st.observations[k].origin.operationId)
    {
      ElsewhereIsApart(batch.base, st.observations[k].origin.operationId);
    }
  }

  /** What is added for one batch leaves the other one as it was. */
  lemma OtherStaysUntouched(st: State, later: State, batch: Batch, base: string)
    requires Untouched(st, batch) && |base| == |batch.base| && base != batch.base
    requires st.observations <= later.observations && st.operations <= later.operations
    requires forall k | |st.observations| <= k < |later.observations| ::
      later.observations[k].origin.operationId.Named? && base <= later.observations[k].origin.operationId.text
    requires forall k | |st.operations| <= k < |later.operations| ::
      later.operations[k].Id().Named? && base <= later.operations[k].Id().text
    ensures Untouched(later, batch)
  {
    forall k | 0 <= k < |later.observations|
      ensures !IsPart(batch.base, later.observations[k].origin.operationId)
    {
      if k >= |st.observations| {
        OtherBatchIsApart(base, batch.base, later.observations[k].origin.operationId);
      }
    }
    forall k | 0 <= k < |later.operations|
      ensures !IsPart(batch.base, later.operations[k].Id()) && forall i: nat :: later.operations[k].Id() != ItemId(batch.base, i)
    {
      if k >= |st.operations| {
        OtherBatchIsApart(base, batch.base, later.operations[k].Id());
      } else {
        assert later.operations[k] == st.operations[k] && st.operations[k] in st.operations;
        assert forall i: nat :: !Has(st.operations, ItemId(batch.base, i));
      }
    }
    forall op | op in later.operations
      ensures !IsPart(batch.base, op.Id())
    {
      var k :| 0 <= k < |later.operations| && later.operations[k] == op;
    }
  }

  /** Of the two inputs named like a key the file comes first, so the operation of `a` is
      found by the key of `b`. */
  lemma FoundByTheFile(batch: Batch, capture: Observation)
    requires batch == BatchFor(FIRST, Earlier()) && capture.sequence == 3 && capture.artifacts == InputRaw(Earlier())
    ensures CitedChannel(ItemRequest(batch, PROJECT, 0, Earlier(), capture).origin.inputs, KEY) == Some(KeyBlob(Asked()))
  {
    var inputs := ItemRequest(batch, PROJECT, 0, Earlier(), capture).origin.inputs;
    var own, file := EvidenceName(3, KEY), KeyFile().name;
    EarlierIsPlain(batch, capture);
    ItemNames(batch, Earlier(), capture, KEY);
    assert Earlier().declared.inputs[0].1 == KeyFile();
    EarlierKeys();
    FileSortsFirst();
    FirstOfTwo(Matching(inputs, KEY), own, file);
  }

  lemma EarlierKeys()
    ensures DeclaredAs(Earlier(), KEY, EvidenceName(3, KEY)) == {KeyFile().name}
  {
    var file := KeyFile().name;
    EndsWithItself(OBSERVATION + Decimal(1) + "/input", "/" + KEY);
    assert file == OBSERVATION + Decimal(1) + "/input" + ("/" + KEY);
    FileSortsFirst();
    assert Earlier().declared.inputs[0].1 == KeyFile();
  }

  lemma FirstOfTwo(names: set<string>, own: string, file: string)
    requires own in names && names - {own} == {file} && Ordering.Less(file, own, Ordering.Rank)
    ensures Ordering.Injective(Ordering.Rank) && Ordering.Least(names, Ordering.Rank) == file
  {
    Ordering.RankInjective();
    forall name
      ensures name in names <==> name == own || name == file
    {
      assert name in names - {own} <==> name in {file};
    }
    Ordering.LeastIsOne(file, Ordering.Least(names, Ordering.Rank), names, Ordering.Rank);
  }

  lemma FileSortsFirst()
    ensures KeyFile().name != EvidenceName(3, KEY)
    ensures Ordering.Less(KeyFile().name, EvidenceName(3, KEY), Ordering.Rank)
  {
    var file, own := KeyFile().name, EvidenceName(3, KEY);
    assert file[|OBSERVATION|] == '1' && own[|OBSERVATION|] == '3';
    LessAfterPrefix(OBSERVATION, file, own);
  }

  function SequenceAt(k: nat): nat {
    if k == 0 then 2 else if k < 4 then 3 else 1
  }

  function ChannelAt(k: nat): string {
    if k == 0 then STDOUT else if k == 1 then ARGUMENTS else if k == 2 then INPUTS else if k == 3 then KEY else DECLARED_KEY
  }

  lemma ApartAt(i: nat, j: nat)
    requires i < j < 5
    ensures EvidenceName(SequenceAt(i), ChannelAt(i)) != EvidenceName(SequenceAt(j), ChannelAt(j))
  {
    assert |STDOUT| == 6 && |ARGUMENTS| == 14 && |INPUTS| == 11 && |KEY| == 8 && |DECLARED_KEY| == 14;
    if EvidenceName(SequenceAt(i), ChannelAt(i)) == EvidenceName(SequenceAt(j), ChannelAt(j)) {
      EvidenceNameInjective(SequenceAt(i), ChannelAt(i), SequenceAt(j), ChannelAt(j));
    }
  }

  lemma EarlierNames(batch: Batch, capture: Observation)
    requires batch == BatchFor(FIRST, Earlier()) && capture.sequence == 3 && HasInput(capture)
    ensures var cited := CitedEvidence(batch, Earlier(), capture);
      |cited| == 5 && forall k: nat | k < 5 :: cited[k].name == EvidenceName(SequenceAt(k), ChannelAt(k))
  {
    assert CitedEvidence(batch, Earlier(), capture)
        == [batch.stdout, Captured(capture, ARGUMENTS), Captured(capture, INPUTS), Captured(capture, KEY), KeyFile()];
  }

  lemma EarlierIsPlain(batch: Batch, capture: Observation)
    requires batch == BatchFor(FIRST, Earlier()) && capture.sequence == 3 && HasInput(capture)
    ensures PlainlyCited(batch, Earlier(), capture)
  {
    EarlierNames(batch, capture);
    forall i, j | 0 <= i < j < 5
      ensures EvidenceName(SequenceAt(i), ChannelAt(i)) != EvidenceName(SequenceAt(j), ChannelAt(j))
    {
      ApartAt(i, j);
    }
    forall channel | channel in OWN
      ensures !EndsWith(batch.stdout.name, "/" + channel)
    {
      OwnAreFlat(channel);
      EndsElse(2, STDOUT, channel);
    }
  }

  // ---- The whole run ----

  const SHOWN_BY_EARLIER: Json := Int(7)

  /** The first batch captures the input of operation `a`. */
  lemma FirstBatchAsks(first: Batch, second: Batch) returns (before: State, st: State, capture: Observation)
    requires first == BatchFor(FIRST, Earlier()) && second == BatchFor(SECOND, Asked())
    ensures Inv(st) && st.project == PROJECT && "s" in st.sessions && st.operations == [] && BatchOk(st, first)
    ensures Undecided(st, first, 0, capture) && PlanOf(first, 0) == Earlier()
    ensures capture.sequence == 3 && capture.artifacts == InputRaw(Earlier())
    ensures Untouched(before, second) && before.operations == []
    ensures st.observations == before.observations + [capture]
    ensures capture.origin.operationId == PartId(FIRST, 0, Input)
    ensures Resolve(st, EvidenceName(2, STDOUT)) == Some(Raw([]))
    ensures Resolve(st, NotesFile().name) == Some(NotesFile().artifact)
  {
    before := Prepared();
    PreparedIsUntouched(before, first);
    PreparedIsUntouched(before, second);
    PlanOfBatch(FIRST, Earlier());
    st, capture := Asks(before, "s", first);
    StillResolves(before, st, Evidence(EvidenceName(2, STDOUT), Raw([])));
    StillResolves(before, st, NotesFile());
  }

  lemma EarlierRuns(asked: State, first: Batch, capture: Observation, raw: Artifacts) returns (st: State, op: Operation)
    requires Inv(asked) && asked.project == PROJECT && "s" in asked.sessions && asked.operations == [] && BatchOk(asked, first)
    requires Undecided(asked, first, 0, capture) && raw == map[SHOWN := Encode(SHOWN_BY_EARLIER)]
    ensures Inv(st) && st.project == PROJECT && st.sessions == asked.sessions && BatchOk(st, first) && st.operations == [op]
    ensures op.request == ItemRequest(first, PROJECT, 0, PlanOf(first, 0), capture) && op.completion.Some?
    ensures op.completion.value.result.outcome == Succeeded && op.completion.value.observation.artifacts == raw
    ensures op.completion.value.observation.origin.operationId == ItemId(first.base, 0)
    ensures st.observations == asked.observations + [op.completion.value.observation]
  {
    assert SHOWN in raw && 's' in SHOWN;
    st, op := Executed(asked, "s", first, capture, Result(Succeeded, map["c" := 1], 0), raw);
  }

  /** The first batch executes operation `a`. */
  lemma FirstBatchRuns(first: Batch, second: Batch) returns (st: State, op: Operation)
    requires first == BatchFor(FIRST, Earlier()) && second == BatchFor(SECOND, Asked())
    ensures Inv(st) && st.project == PROJECT && "s" in st.sessions && BatchOk(st, first) && Untouched(st, second)
    ensures Resolve(st, EvidenceName(2, STDOUT)) == Some(Raw([]))
    ensures Resolve(st, NotesFile().name) == Some(NotesFile().artifact)
    ensures op in st.operations && op.Id() == ItemId(FIRST, 0) && Reusable(op, KeyBlob(Asked()))
    ensures op.completion.value.result.outcome == Succeeded
    ensures op.completion.value.observation.artifacts == map[SHOWN := Encode(SHOWN_BY_EARLIER)]
  {
    var before, asked, capture := FirstBatchAsks(first, second);
    var raw := map[SHOWN := Encode(SHOWN_BY_EARLIER)];
    st, op := EarlierRuns(asked, first, capture, raw);
    SecondStillUntouched(before, asked, st, second, capture, op);
    StillResolves(asked, st, Evidence(EvidenceName(2, STDOUT), Raw([])));
    StillResolves(asked, st, NotesFile());
    EarlierIsReusable(first, capture, op);
  }

  lemma EarlierIsReusable(first: Batch, capture: Observation, op: Operation)
    requires first == BatchFor(FIRST, Earlier()) && capture.sequence == 3 && capture.artifacts == InputRaw(Earlier())
    requires op.request == ItemRequest(first, PROJECT, 0, Earlier(), capture) && op.completion.Some?
    requires op.completion.value.result.outcome == Succeeded && op.completion.value.observation.artifacts.Keys == {SHOWN}
    ensures Reusable(op, KeyBlob(Asked()))
  {
    FoundByTheFile(first, capture);
    assert |SHOWN| == 10 && |UNMEASURED| == 15;
  }

  lemma SecondStillUntouched(before: State, asked: State, st: State, second: Batch, capture: Observation, op: Operation)
    requires second.base == SECOND && Untouched(before, second) && before.operations == []
    requires asked.observations == before.observations + [capture] && st.operations == [op] && op.completion.Some?
    requires capture.origin.operationId == PartId(FIRST, 0, Input) && op.Id() == ItemId(FIRST, 0)
    requires st.observations == asked.observations + [op.completion.value.observation]
    requires op.completion.value.observation.origin.operationId == ItemId(FIRST, 0)
    ensures Untouched(st, second)
  {
    BasesDiffer();
    PartBegins(FIRST, 0, Input);
    OtherStaysUntouched(before, st, second, FIRST);
  }

  /** A successful reused result, as the worker sees it. */
  function ShownAs(name: string, source: OpId, result: Json): ItemResult {
    ItemResult(Obj(map["status" := Str("succeeded"), "operation" := Str(name), "reused_from" := Id(source),
                       "result" := result]), map[])
  }

  lemma SecondIsSourced(st: State, second: Batch)
    requires second == BatchFor(SECOND, Asked())
    requires Resolve(st, EvidenceName(2, STDOUT)) == Some(Raw([]))
    requires Resolve(st, NotesFile().name) == Some(NotesFile().artifact)
    ensures SourcesResolve(st, second) && PlanOf(second, 0) == Asked()
  {
    PlanOfBatch(SECOND, Asked());
  }

  lemma QuestionsDiffer()
    ensures !SameQuestion(Asked(), Earlier())
  {
    assert Asked().name != Earlier().name;
  }

  /** The second batch asks for operation `b` and is given what operation `a` recorded: a
      reuse that answers another question, recorded on a ledger that keeps its invariant.
      The cause is a declared file named like the host's own key that sorts before it. */
  lemma DeclaredKeyTakesOver() returns (st: State)
    ensures var first, second := BatchFor(FIRST, Earlier()), BatchFor(SECOND, Asked());
      && Inv(st) && BatchOk(st, second) && Runs(second, 0) && PlanOf(second, 0) == Asked()
      && Recorded(st, second, 0, Reuse) && SourceOf(st, second, 0) == ItemId(FIRST, 0)
      && ResultOf(st, second, 0) == Some(ShownAs("b", ItemId(FIRST, 0), SHOWN_BY_EARLIER))
      && !SameQuestion(Asked(), Earlier())
  {
    var first, second := BatchFor(FIRST, Earlier()), BatchFor(SECOND, Asked());
    var ran, op := FirstBatchRuns(first, second);
    SecondIsSourced(ran, second);
    st := AsksAndReuses(ran, "s", second, op);
    ShownOfEarlier(op.completion.value, Some(op.Id()));
    QuestionsDiffer();
  }

  lemma ShownOfEarlier(done: Completion, source: Option<OpId>)
    requires done.result.outcome == Succeeded && done.observation.artifacts == map[SHOWN := Encode(SHOWN_BY_EARLIER)] && source.Some?
    ensures Seen("b", done, source) == Some(ShownAs("b", source.value, SHOWN_BY_EARLIER))
  {
    assert |FILES| == 6 && SHOWN[0] == 's' && FILES[0] == 'f';
    assert !(FILES <= SHOWN);
    var seen := Seen("b", done, source).value;
    assert seen.files == map[];
  }
}
