/** Claims captured in the ledger, and the host's memoised assessment of them. */
module Claims {
  import opened Records
  import opened Names
  import opened LedgerSpec
  import opened LedgerInvariant
  import opened LedgerSafety
  import opened LedgerStore
  import opened Evidences
  import opened ClaimGraph

  const CLAIM: string := "claim.json"

  datatype Check = Check(operationId: OpId, request: Request, field: string)

  datatype Body = Body(
    statement: string,
    target: Evidence,
    assumptions: map<string, Evidence>,
    parents: seq<Evidence>,
    validation: Option<Check>,
    complete: bool)

  // ---- The recorded form ----

  function CheckJson(check: Option<Check>): Json {
    match check
    case None => Null
    case Some(c) =>
      Obj(map["operation_id" := Id(c.operationId), "request" := RequestDigest(c.request), "field" := Str(c.field)])
  }

  function AssumptionsJson(assumptions: map<string, Evidence>): Json {
    Obj(map name | name in assumptions :: EvidenceJson(assumptions[name]))
  }

  function ParentsJson(parents: seq<Evidence>): Json {
    List(seq(|parents|, i requires 0 <= i < |parents| => EvidenceJson(parents[i])))
  }

  function BodyJson(body: Body): Json {
    Obj(map[
          "version" := Int(1),
          "statement" := Str(body.statement),
          "target" := EvidenceJson(body.target),
          "assumptions" := AssumptionsJson(body.assumptions),
          "parents" := ParentsJson(body.parents),
          "validation" := CheckJson(body.validation),
          "complete" := Bool(body.complete)])
  }

  function ParseCheck(value: Json): Option<Option<Check>> {
    if value == Null then Some(None)
    else if value.Obj? && value.fields.Keys == {"operation_id", "request", "field"}
      && value.fields["operation_id"].Id? && value.fields["request"].RequestDigest? && value.fields["field"].Str?
    then Some(Some(Check(value.fields["operation_id"].id, value.fields["request"].request, value.fields["field"].text)))
    else None
  }

  function ParseAssumptions(value: Json): Option<map<string, Evidence>> {
    if value.Obj? && forall name | name in value.fields :: RestoreEvidence(value.fields[name]).Some?
    then Some(map name | name in value.fields :: RestoreEvidence(value.fields[name]).value)
    else None
  }

  function ParseParents(value: Json): Option<seq<Evidence>> {
    if value.List? && forall i | 0 <= i < |value.items| :: RestoreEvidence(value.items[i]).Some?
    then Some(seq(|value.items|, i requires 0 <= i < |value.items| => RestoreEvidence(value.items[i]).value))
    else None
  }

  const FIELDS: set<string> :=
    {"version", "statement", "target", "assumptions", "parents", "validation", "complete"}

  /** The claim a recorded value holds; `None` where the host refuses to read it. */
  function ParseBody(value: Json): Option<Body> {
    if !value.Obj? || value.fields.Keys != FIELDS then None
    else
      var f := value.fields;
      var target, assumptions := RestoreEvidence(f["target"]), ParseAssumptions(f["assumptions"]);
      var parents, check := ParseParents(f["parents"]), ParseCheck(f["validation"]);
      if f["version"] == Int(1) && f["complete"].Bool? && f["statement"].Str?
        && target.Some? && assumptions.Some? && parents.Some? && check.Some?
      then Some(Body(f["statement"].text, target.value, assumptions.value, parents.value, check.value, f["complete"].flag))
      else None
  }

  lemma ParseRecordedFields(body: Body)
    ensures BodyJson(body).fields.Keys == FIELDS
  {
  }

  lemma ParseRecordedParts(body: Body)
    ensures ParseAssumptions(AssumptionsJson(body.assumptions)) == Some(body.assumptions)
    ensures ParseParents(ParentsJson(body.parents)) == Some(body.parents)
    ensures ParseCheck(CheckJson(body.validation)) == Some(body.validation)
  {
    assert ParseParents(ParentsJson(body.parents)).value == body.parents;
    assert ParseAssumptions(AssumptionsJson(body.assumptions)).value == body.assumptions;
    if body.validation.Some? {
      assert CheckJson(body.validation).fields.Keys == {"operation_id", "request", "field"};
    }
  }

  /** What was recorded reads back as the same claim. */
  lemma ParseRecordedBody(body: Body)
    ensures ParseBody(BodyJson(body)) == Some(body)
  {
    ParseRecordedParts(body);
    ParseRecordedFields(body);
  }

  // ---- Reading a claim ----

  predicate HasClaim(observation: Observation, ref: Evidence) {
    CLAIM in observation.artifacts && Captured(observation, CLAIM) == ref
  }

  /** The capture of claim evidence, by its own name. Names are unique per capture. */
  ghost predicate CapturedAt(st: State, row: nat, ref: Evidence) {
    row < |st.observations| && HasClaim(st.observations[row], ref)
  }

  lemma ClaimIsUnique(st: State, i: nat, j: nat, a: Evidence, b: Evidence)
    requires Inv(st) && CapturedAt(st, i, a) && CapturedAt(st, j, b) && a.name == b.name
    ensures i == j && a == b
  {
    CaptureIsUnique(st, i, j, CLAIM, CLAIM);
  }

  /** A captured host claim whose parents are claims captured before it. */
  ghost predicate ReadsAs(st: State, row: nat, ref: Evidence, body: Body) {
    && CapturedAt(st, row, ref)
    && var origin := st.observations[row].origin;
    && origin.kind == "claim" && origin.producer == "warranted-claims" && origin.version == "1"
    && Lookup(st, Request(origin, st.project)).Ok?
    && ref.artifact.Doc? && ParseBody(ref.artifact.value) == Some(body)
    && origin.operationId == Hashed("claim", ref.artifact.value)
    && forall parent | parent in body.parents :: exists k | 0 <= k < row :: HasClaim(st.observations[k], parent)
  }

  /** What the recorded checker said about a claim; a host proof's status is given. */
  ghost function Validation(st: State, proofs: map<OpId, Status>, check: Option<Check>): Status {
    match check
    case None => Unproved
    case Some(c) =>
      var row := Find(st.operations, c.operationId);
      if row.None? then Missing
      else CheckStatus(st.operations[row.value], proofs, c)
  }

  function CheckStatus(op: Operation, proofs: map<OpId, Status>, check: Check): Status {
    if op.request != check.request then Unsupported
    else if op.request.origin.kind == "proof" then
      if check.field == "proof" && check.operationId in proofs then proofs[check.operationId] else Unsupported
    else
      match op.completion
      case None => Unknown
      case Some(done) =>
        if done.result.outcome == InfrastructureFailure then HostFailure
        else if done.result.outcome != Succeeded || "result.json" !in done.observation.artifacts then Unsupported
        else
          var raw := done.observation.artifacts["result.json"];
          if raw.Doc? && raw.value.Obj? && check.field in raw.value.fields && raw.value.fields[check.field].Bool?
          then if raw.value.fields[check.field].flag then Passed else Rejected
          else Unsupported
  }

  /** The operation was checked as the claim asks, and settled with this answer. */
  ghost predicate Answers(op: Operation, check: Check, flag: bool) {
    && op.Id() == check.operationId && op.request == check.request
    && op.completion.Some? && op.completion.value.result.outcome == Succeeded
    && var artifacts := op.completion.value.observation.artifacts;
       && "result.json" in artifacts && artifacts["result.json"].Doc? && artifacts["result.json"].value.Obj?
       && check.field in artifacts["result.json"].value.fields
       && artifacts["result.json"].value.fields[check.field] == Bool(flag)
  }

  /** A claim is passed, or rejected, by its recorded checker exactly when the operation of
      exactly the recorded request succeeded with that answer in the recorded field. */
  lemma ValidationAnswers(st: State, proofs: map<OpId, Status>, check: Check, flag: bool)
    requires UniqueIds(st.operations) && check.request.origin.kind != "proof"
    ensures Validation(st, proofs, Some(check)) == (if flag then Passed else Rejected) <==>
      exists op | op in st.operations :: Answers(op, check, flag)
  {
    var row := Find(st.operations, check.operationId);
    if op :| op in st.operations && Answers(op, check, flag) {
      var k :| 0 <= k < |st.operations| && st.operations[k] == op;
      assert Has(st.operations, check.operationId) && st.operations[row.value] == op;
    }
    if row.Some? {
      assert st.operations[row.value] in st.operations;
    }
  }

  /** Whatever the ledger grows by, only a check not made or not finished yet can change
      what was said about a claim. */
  lemma ValidationStays(st: State, later: State, proofs: map<OpId, Status>, check: Option<Check>)
    requires UniqueIds(later.operations) && Extends(st, later)
    requires Validation(st, proofs, check) !in {Missing, Unknown}
    ensures Validation(later, proofs, check) == Validation(st, proofs, check)
  {
    if check.Some? {
      var row := Find(st.operations, check.value.operationId).value;
      assert Advances(st.operations[row], later.operations[row]);
      assert Has(later.operations, check.value.operationId);
      assert Find(later.operations, check.value.operationId) == Some(row);
    }
  }

  /** Every supplied version is evidence the ledger holds, under a name. */
  ghost predicate VersionsOk(st: State, current: Versions) {
    forall name | name in current ::
      !Blank(name) && (current[name].Some? ==> Lookup(st, ContextRequest(st.project, current[name].value)).Ok?)
  }

  function ContextRequest(project: Project, version: Evidence): Request {
    Request(Origin(Named("support-context"), "context", "warranted-claims", "1", map[version.name := version.artifact]),
            project)
  }

  ghost function NodeOf(st: State, proofs: map<OpId, Status>, row: nat, body: Body): Node {
    Node(row, body.assumptions, body.parents, Validation(st, proofs, body.validation), body.complete)
  }

  /** The graph of the readable claims of a ledger, aged by capture order. */
  ghost predicate GraphOf(st: State, proofs: map<OpId, Status>, graph: Graph) {
    && HoldsOnlyClaims(st, proofs, graph)
    && (forall ref, row, body | ReadsAs(st, row, ref, body) ::
          ref in graph && graph[ref] == NodeOf(st, proofs, row, body))
  }

  /** Names are apart, and every parent precedes its claim, so a walk never stops for
      order: only for a parent that is not a readable claim. */
  lemma GraphIsOrdered(st: State, proofs: map<OpId, Status>, graph: Graph)
    requires Inv(st) && GraphOf(st, proofs, graph)
    ensures NamesApart(graph)
    ensures forall ref, parent | ref in graph && parent in graph[ref].parents ::
      Walkable(graph, ref, parent) <==> parent in graph
  {
    forall ref, parent | ref in graph && parent in graph && parent in graph[ref].parents
      ensures graph[parent].age < graph[ref].age
    {
      var row: nat, body :| ReadsAs(st, row, ref, body) && graph[ref] == NodeOf(st, proofs, row, body);
      var k :| 0 <= k < row && HasClaim(st.observations[k], parent);
      var i: nat, above :| ReadsAs(st, i, parent, above) && graph[parent] == NodeOf(st, proofs, i, above);
      ClaimIsUnique(st, i, k, parent, parent);
    }
    forall a, b | a in graph && b in graph && a.name == b.name
      ensures a == b
    {
      var i: nat, x :| ReadsAs(st, i, a, x);
      var j: nat, y :| ReadsAs(st, j, b, y);
      ClaimIsUnique(st, i, j, a, b);
    }
  }

  /** On a ledger a walk can leave every readable claim whose parents are readable. */
  lemma ReadableIsInGraph(st: State, proofs: map<OpId, Status>, graph: Graph, ref: Evidence)
    requires Inv(st) && GraphOf(st, proofs, graph)
    ensures AllReadable(graph, ref) <==> forall to | Reaches(graph, ref, to) :: to in graph
  {
    GraphIsOrdered(st, proofs, graph);
    if forall to | Reaches(graph, ref, to) :: to in graph {
      forall to | Reaches(graph, ref, to)
        ensures CanLeave(graph, to)
      {
        forall parent | parent in graph[to].parents
          ensures parent in graph
        {
          ReachesOn(graph, ref, to, parent);
        }
      }
    }
  }

  // ---- Recording a claim ----

  function CheckOf(check: Option<(Request, string)>): Option<Check> {
    if check.None? then None
    else Some(Check(check.value.0.origin.operationId, check.value.0, check.value.1))
  }

  function ClaimOrigin(body: Body, inputs: Artifacts): Origin {
    Origin(Hashed("claim", BodyJson(body)), "claim", "warranted-claims", "1", inputs)
  }

  function CheckedEvidence(check: Option<(Request, string)>): set<Evidence> {
    if check.None? then {}
    else set name | name in check.value.0.origin.inputs :: Evidence(name, check.value.0.origin.inputs[name])
  }

  /** Everything a claim rests on. */
  function ClaimEvidence(body: Body, check: Option<(Request, string)>): set<Evidence> {
    {body.target} + (set name | name in body.assumptions :: body.assumptions[name]) + Elements(body.parents)
    + CheckedEvidence(check)
  }

  function ClaimRaw(body: Body): Artifacts {
    map[CLAIM := Encode(BodyJson(body))]
  }

  ghost predicate Recorded(st: State, body: Body, inputs: Artifacts) {
    exists o | o in st.observations :: IsClaim(o, body, inputs)
  }

  ghost predicate Readable(st: State, ref: Evidence) {
    exists row: nat, body :: ReadsAs(st, row, ref, body)
  }

  /** A validation names a field, binds the exact target, and cites what exists. */
  ghost predicate ValidationOk(st: State, target: Evidence, check: Option<(Request, string)>) {
    check.Some? ==>
      && !Blank(check.value.1)
      && target.name in check.value.0.origin.inputs && check.value.0.origin.inputs[target.name] == target.artifact
      && Lookup(st, check.value.0).Ok?
  }

  /** The claim is well formed and rests on readable claims, and no name it cites stands
      for two artifacts. */
  ghost predicate WellPosed(st: State, body: Body, check: Option<(Request, string)>) {
    && !Blank(body.statement) && (forall name | name in body.assumptions :: !Blank(name))
    && (forall parent | parent in body.parents :: Readable(st, parent))
    && ValidationOk(st, body.target, check) && Consistent(ClaimEvidence(body, check))
  }

  /** What the claim cites is on the ledger, and it is recorded already or can be. */
  ghost predicate Recordable(st: State, session: string, body: Body, inputs: Artifacts) {
    && Lookup(st, Request(ClaimOrigin(body, inputs), st.project)).Ok?
    && (Recorded(st, body, inputs) || session in st.sessions)
  }

  ghost predicate Claimable(st: State, session: string, body: Body, check: Option<(Request, string)>) {
    WellPosed(st, body, check) && Recordable(st, session, body, InputsOf(ClaimEvidence(body, check)))
  }

  /** The evidence of the first capture of exactly this claim. */
  ghost predicate RecordedAs(st: State, body: Body, inputs: Artifacts, ref: Evidence) {
    exists row: nat :: FirstClaim(st, body, inputs, row) && ref == Captured(st.observations[row], CLAIM)
  }

  ghost predicate FirstClaim(st: State, body: Body, inputs: Artifacts, row: nat) {
    && row < |st.observations| && IsClaim(st.observations[row], body, inputs)
    && forall k | 0 <= k < row :: !IsClaim(st.observations[k], body, inputs)
  }

  predicate IsClaim(o: Observation, body: Body, inputs: Artifacts) {
    o.origin == ClaimOrigin(body, inputs) && o.artifacts == ClaimRaw(body)
  }

  lemma ClaimIsNamed(body: Body)
    ensures ClaimRaw(body) != map[] && NamesOk(ClaimRaw(body))
  {
    assert CLAIM in ClaimRaw(body) && 'c' in CLAIM;
  }

  /** Nothing was added but a claim under this ID. */
  ghost predicate AddsOnly(st: State, later: State, id: OpId) {
    && st.observations <= later.observations && later.operations == st.operations
    && forall k | |st.observations| <= k < |later.observations| ::
         later.observations[k].origin.operationId == id && later.observations[k].origin.kind == "claim"
  }

  /** Each parent is a claim someone captured. */
  ghost predicate AreClaims(st: State, parents: seq<Evidence>) {
    forall parent | parent in parents :: exists k: nat :: k < |st.observations| && HasClaim(st.observations[k], parent)
  }

  /** A parent cited by an earlier capture was captured before that. */
  lemma CitedParentPrecedes(st: State, row: nat, parent: Evidence, k: nat)
    requires Inv(st) && row < |st.observations| && parent.name !in st.project.snapshots
    requires parent.name in st.observations[row].origin.inputs
    requires k < |st.observations| && HasClaim(st.observations[k], parent)
    ensures k < row
  {
    assert ObservationOk(st, row) && ObservationOk(st, k);
    ParsePrintedName(k + 1, CLAIM);
    assert Resolve(st.(observations := st.observations[..row]), parent.name).Some?;
  }

  lemma ClaimReads(st: State, row: nat, body: Body, inputs: Artifacts)
    requires Inv(st) && row < |st.observations|
    requires st.observations[row].origin == ClaimOrigin(body, inputs)
    requires st.observations[row].artifacts == ClaimRaw(body)
    requires Lookup(st, Request(ClaimOrigin(body, inputs), st.project)).Ok?
    requires AreClaims(st, body.parents)
    requires forall parent | parent in body.parents :: parent.name in inputs && parent.name !in st.project.snapshots
    ensures ReadsAs(st, row, Captured(st.observations[row], CLAIM), body)
  {
    ParseRecordedBody(body);
    forall parent | parent in body.parents
      ensures exists k | 0 <= k < row :: HasClaim(st.observations[k], parent)
    {
      var k: nat :| k < |st.observations| && HasClaim(st.observations[k], parent);
      CitedParentPrecedes(st, row, parent, k);
    }
  }

  lemma NewClaimStep(st: State, session: string, body: Body, inputs: Artifacts)
    requires Inv(st) && Lookup(st, Request(ClaimOrigin(body, inputs), st.project)).Ok? && AreClaims(st, body.parents)
    ensures var step := LedgerSpec.Record(st, session, ClaimOrigin(body, inputs), ClaimRaw(body), None);
      && Extends(st, step.st) && (step.out.Err? ==> step.st == st)
      && AddsOnly(st, step.st, Hashed("claim", BodyJson(body)))
      && (step.out.Ok? ==>
            && |step.st.observations| == |st.observations| + 1
            && step.st.observations[|st.observations|] == step.out.value
            && step.out.value.origin == ClaimOrigin(body, inputs) && step.out.value.artifacts == ClaimRaw(body)
            && Lookup(step.st, Request(ClaimOrigin(body, inputs), st.project)).Ok? && AreClaims(step.st, body.parents))
  {
    var step := LedgerSpec.Record(st, session, ClaimOrigin(body, inputs), ClaimRaw(body), None);
    OriginGrows(st, step.st, ClaimOrigin(body, inputs));
    forall parent | parent in body.parents
      ensures exists k: nat :: k < |step.st.observations| && HasClaim(step.st.observations[k], parent)
    {
      var k: nat :| k < |st.observations| && HasClaim(st.observations[k], parent);
      assert step.st.observations[k] == st.observations[k];
    }
  }

  lemma ReadableAreClaims(st: State, parents: seq<Evidence>)
    requires forall parent | parent in parents :: Readable(st, parent)
    ensures AreClaims(st, parents)
  {
    forall parent | parent in parents
      ensures exists k: nat :: k < |st.observations| && HasClaim(st.observations[k], parent)
    {
      var row: nat, body :| ReadsAs(st, row, parent, body);
      assert HasClaim(st.observations[row], parent);
    }
  }

  lemma ParentsAreCited(body: Body, check: Option<(Request, string)>)
    requires Consistent(ClaimEvidence(body, check))
    ensures forall parent | parent in body.parents :: parent.name in InputsOf(ClaimEvidence(body, check))
  {
    assert forall parent | parent in body.parents :: parent in ClaimEvidence(body, check);
  }

  lemma NowFirst(st: State, later: State, body: Body, inputs: Artifacts)
    requires |later.observations| == |st.observations| + 1 && st.observations <= later.observations
    requires IsClaim(later.observations[|st.observations|], body, inputs)
    requires forall o | o in st.observations :: !IsClaim(o, body, inputs)
    ensures FirstClaim(later, body, inputs, |st.observations|)
  {
    forall k | 0 <= k < |st.observations|
      ensures !IsClaim(later.observations[k], body, inputs)
    {
      assert st.observations[k] in st.observations;
    }
  }

  /** The values of a mapping, one by one. */
  method ValuesOf(refs: map<string, Evidence>) returns (values: seq<Evidence>)
    ensures Elements(values) == set name | name in refs :: refs[name]
  {
    values := [];
    ghost var done: set<string> := {};
    var names := refs.Keys;
    while names != {}
      invariant names <= refs.Keys && done == refs.Keys - names
      invariant forall e :: e in values <==> exists name | name in done :: e == refs[name]
      decreases names
    {
      var name :| name in names;
      values := values + [refs[name]];
      done := done + {name};
      names := names - {name};
    }
  }

  method RefsOf(inputs: Artifacts) returns (refs: seq<Evidence>)
    ensures Elements(refs) == set name | name in inputs :: Evidence(name, inputs[name])
  {
    refs := [];
    var names := inputs.Keys;
    while names != {}
      invariant names <= inputs.Keys
      invariant forall e :: e in refs <==> e.name in inputs && e.name !in names && e.artifact == inputs[e.name]
      decreases names
    {
      var name :| name in names;
      refs := refs + [Evidence(name, inputs[name])];
      names := names - {name};
    }
  }

  ghost predicate HoldsOnlyClaims(st: State, proofs: map<OpId, Status>, graph: Graph) {
    forall ref | ref in graph ::
      exists row: nat, body :: ReadsAs(st, row, ref, body) && graph[ref] == NodeOf(st, proofs, row, body)
  }

  ghost predicate HoldsClaimsBelow(st: State, graph: Graph, i: nat) {
    forall ref, row: nat, body | row < i && ReadsAs(st, row, ref, body) :: ref in graph
  }

  lemma OneMoreClaim(st: State, proofs: map<OpId, Status>, graph: Graph, i: nat, ref: Evidence, row: nat, body: Body)
    requires HoldsOnlyClaims(st, proofs, graph) && HoldsClaimsBelow(st, graph, i)
    requires i < |st.observations| && HasClaim(st.observations[i], ref) && ReadsAs(st, row, ref, body)
    ensures HoldsOnlyClaims(st, proofs, graph[ref := NodeOf(st, proofs, row, body)])
    ensures HoldsClaimsBelow(st, graph[ref := NodeOf(st, proofs, row, body)], i + 1)
  {
    var after := graph[ref := NodeOf(st, proofs, row, body)];
    forall r | r in after
      ensures exists k: nat, b :: ReadsAs(st, k, r, b) && after[r] == NodeOf(st, proofs, k, b)
    {
      if r != ref {
        assert r in graph;
      }
    }
  }

  lemma CompleteGraph(st: State, proofs: map<OpId, Status>, graph: Graph)
    requires Inv(st) && HoldsOnlyClaims(st, proofs, graph) && HoldsClaimsBelow(st, graph, |st.observations|)
    ensures GraphOf(st, proofs, graph)
  {
    forall ref, row: nat, body | ReadsAs(st, row, ref, body)
      ensures ref in graph && graph[ref] == NodeOf(st, proofs, row, body)
    {
      assert row < |st.observations|;
      var other: nat, same :| ReadsAs(st, other, ref, same) && graph[ref] == NodeOf(st, proofs, other, same);
      ClaimIsUnique(st, row, other, ref, ref);
    }
  }

  // ---- The host object ----

  /** Claim capture and read-only assessment for one serialised writer. */
  class ClaimLog {
    const ledger: Ledger
    const proofs: map<OpId, Status>

    constructor (ledger: Ledger, proofs: map<OpId, Status>)
      ensures this.ledger == ledger && this.proofs == proofs
    {
      this.ledger, this.proofs := ledger, proofs;
    }

    method ParentPrecedes(row: nat, parent: Evidence) returns (precedes: bool)
      requires row <= |ledger.observations|
      ensures precedes <==> exists k | 0 <= k < row :: HasClaim(ledger.observations[k], parent)
    {
      for k := 0 to row
        invariant forall i | 0 <= i < k :: !HasClaim(ledger.observations[i], parent)
      {
        if HasClaim(ledger.observations[k], parent) {
          return true;
        }
      }
      return false;
    }

    method Validate(check: Option<Check>) returns (status: Status)
      requires ledger.Valid()
      ensures status == Validation(ledger.View(), proofs, check)
    {
      match check {
        case None => status := Unproved;
        case Some(c) =>
          var row := ledger.FindRow(c.operationId);
          status := if row.None? then Missing else CheckStatus(ledger.operations[row.value], proofs, c);
      }
    }

    /** The row of the capture of this exact claim evidence. */
    method FindCapture(ref: Evidence) returns (row: Option<nat>)
      requires ledger.Valid()
      ensures row.Some? ==> CapturedAt(ledger.View(), row.value, ref)
      ensures forall i: nat, body | ReadsAs(ledger.View(), i, ref, body) :: row == Some(i)
    {
      for i := 0 to |ledger.observations|
        invariant forall k | 0 <= k < i :: !HasClaim(ledger.observations[k], ref)
      {
        if HasClaim(ledger.observations[i], ref) {
          forall k: nat, body | ReadsAs(ledger.View(), k, ref, body)
            ensures k == i
          {
            ClaimIsUnique(ledger.View(), k, i, ref, ref);
          }
          return Some(i);
        }
      }
      return None;
    }

    method ParentsPrecede(row: nat, parents: seq<Evidence>) returns (precede: bool)
      requires row <= |ledger.observations|
      ensures precede <==> forall parent | parent in parents ::
        exists k | 0 <= k < row :: HasClaim(ledger.observations[k], parent)
    {
      for k := 0 to |parents|
        invariant forall i | 0 <= i < k :: exists j | 0 <= j < row :: HasClaim(ledger.observations[j], parents[i])
      {
        var precedes := ParentPrecedes(row, parents[k]);
        if !precedes {
          assert parents[k] in parents;
          return false;
        }
      }
      return true;
    }

    /** The claim this evidence holds, with its row, or nothing where reading it fails. */
    method Claim(ref: Evidence) returns (out: Option<(nat, Body)>)
      requires ledger.Valid()
      ensures out.Some? ==> ReadsAs(ledger.View(), out.value.0, ref, out.value.1)
      ensures out.None? ==> forall row, body :: !ReadsAs(ledger.View(), row, ref, body)
    {
      var found := FindCapture(ref);
      if found.None? {
        return None;
      }
      var row := found.value;
      var origin := ledger.observations[row].origin;
      if origin.kind != "claim" || origin.producer != "warranted-claims" || origin.version != "1" {
        return None;
      }
      var looked := ledger.LookupRow(Request(origin, ledger.project));
      if looked.Err? || !ref.artifact.Doc? {
        return None;
      }
      var parsed := ParseBody(ref.artifact.value);
      if parsed.None? || origin.operationId != Hashed("claim", ref.artifact.value) {
        return None;
      }
      var precede := ParentsPrecede(row, parsed.value.parents);
      if !precede {
        return None;
      }
      out := Some((row, parsed.value));
    }

    /** Every readable claim of the ledger, which does not change during one assessment. */
    method ReadClaims() returns (graph: Graph)
      requires ledger.Valid()
      ensures GraphOf(ledger.View(), proofs, graph)
    {
      graph := map[];
      for i := 0 to |ledger.observations|
        invariant HoldsOnlyClaims(ledger.View(), proofs, graph)
        invariant HoldsClaimsBelow(ledger.View(), graph, i)
      {
        graph := ReadRow(i, graph);
      }
      CompleteGraph(ledger.View(), proofs, graph);
    }

    method ReadRow(i: nat, graph: Graph) returns (after: Graph)
      requires ledger.Valid() && i < |ledger.observations|
      requires HoldsOnlyClaims(ledger.View(), proofs, graph) && HoldsClaimsBelow(ledger.View(), graph, i)
      ensures HoldsOnlyClaims(ledger.View(), proofs, after) && HoldsClaimsBelow(ledger.View(), after, i + 1)
    {
      after := graph;
      if CLAIM in ledger.observations[i].artifacts {
        var ref := Captured(ledger.observations[i], CLAIM);
        var read := Claim(ref);
        if read.Some? {
          var (row, body) := read.value;
          var validation := Validate(body.validation);
          after := graph[ref := Node(row, body.assumptions, body.parents, validation, body.complete)];
          OneMoreClaim(ledger.View(), proofs, graph, i, ref, row, body);
          return;
        }
      }
      assert forall ref, body :: !ReadsAs(ledger.View(), i, ref, body);
    }

    /** The evidence a claim cites, refusing conflicting references. */
    method CollectFor(body: Body, check: Option<(Request, string)>) returns (inputs: Option<Artifacts>)
      ensures inputs.Some? <==> Consistent(ClaimEvidence(body, check))
      ensures inputs.Some? ==> inputs.value == InputsOf(ClaimEvidence(body, check))
    {
      var assumed := ValuesOf(body.assumptions);
      var checked := [];
      if check.Some? {
        checked := RefsOf(check.value.0.origin.inputs);
      }
      assert Elements([body.target] + assumed + body.parents + checked) == ClaimEvidence(body, check);
      inputs := Collect([body.target] + assumed + body.parents + checked);
    }

    /** The capture of exactly this claim, if it was recorded before. */
    method FindRecorded(body: Body, inputs: Artifacts) returns (row: Option<nat>)
      ensures row.Some? ==> FirstClaim(ledger.View(), body, inputs, row.value)
      ensures row.None? ==> forall o | o in ledger.observations :: !IsClaim(o, body, inputs)
    {
      for i := 0 to |ledger.observations|
        invariant forall k | 0 <= k < i :: !IsClaim(ledger.observations[k], body, inputs)
      {
        if IsClaim(ledger.observations[i], body, inputs) {
          return Some(i);
        }
      }
      return None;
    }

    method AllClaims(parents: seq<Evidence>) returns (all: bool)
      requires ledger.Valid()
      ensures all <==> forall parent | parent in parents :: Readable(ledger.View(), parent)
    {
      for k := 0 to |parents|
        invariant forall i | 0 <= i < k :: Readable(ledger.View(), parents[i])
      {
        var read := Claim(parents[k]);
        if read.None? {
          assert parents[k] in parents;
          return false;
        }
      }
      return true;
    }

    method CheckValidation(target: Evidence, check: Option<(Request, string)>) returns (fine: bool)
      requires ledger.Valid()
      ensures fine <==> ValidationOk(ledger.View(), target, check)
    {
      if check.None? {
        return true;
      }
      var (request, field) := check.value;
      if Blank(field) || target.name !in request.origin.inputs || request.origin.inputs[target.name] != target.artifact {
        return false;
      }
      var looked := ledger.LookupRow(request);
      fine := looked.Ok?;
    }

    /** Capture a claim, not its truth. A claim is recorded exactly when it can be; what is
        returned reads back as exactly this claim, and recording it again returns the same
        evidence and changes nothing. */
    method Record(session: string, body: Body, check: Option<(Request, string)>) returns (out: Outcomes<Evidence>)
      requires ledger.Valid() && body.validation == CheckOf(check)
      modifies ledger
      ensures ledger.Valid() && Extends(old(ledger.View()), ledger.View())
      ensures out.Ok? <==> Claimable(old(ledger.View()), session, body, check)
      ensures out.Err? ==> ledger.View() == old(ledger.View())
      ensures AddsOnly(old(ledger.View()), ledger.View(), Hashed("claim", BodyJson(body)))
      ensures out.Ok? && Recorded(old(ledger.View()), body, InputsOf(ClaimEvidence(body, check))) ==>
        && ledger.View() == old(ledger.View())
        && RecordedAs(old(ledger.View()), body, InputsOf(ClaimEvidence(body, check)), out.value)
      ensures out.Ok? ==>
        && Recorded(ledger.View(), body, InputsOf(ClaimEvidence(body, check)))
        && RecordedAs(ledger.View(), body, InputsOf(ClaimEvidence(body, check)), out.value)
      ensures out.Ok? && (forall parent | parent in body.parents :: parent.name !in ledger.project.snapshots) ==>
        exists row: nat :: ReadsAs(ledger.View(), row, out.value, body)
    {
      var inputs := PoseClaim(body, check);
      if inputs.None? {
        return Err(InvalidInput);
      }
      ReadableAreClaims(ledger.View(), body.parents);
      ParentsAreCited(body, check);
      out := RecordOver(session, body, inputs.value);
    }

    /** What the claim cites, when it is well posed. */
    method PoseClaim(body: Body, check: Option<(Request, string)>) returns (inputs: Option<Artifacts>)
      requires ledger.Valid()
      ensures inputs.Some? <==> WellPosed(ledger.View(), body, check)
      ensures inputs.Some? ==> inputs.value == InputsOf(ClaimEvidence(body, check))
    {
      if Blank(body.statement) || exists name | name in body.assumptions :: Blank(name) {
        return None;
      }
      var all := AllClaims(body.parents);
      var fine := CheckValidation(body.target, check);
      if !all || !fine {
        return None;
      }
      inputs := CollectFor(body, check);
    }

    method RecordOver(session: string, body: Body, inputs: Artifacts) returns (out: Outcomes<Evidence>)
      requires ledger.Valid() && AreClaims(ledger.View(), body.parents)
      modifies ledger
      ensures ledger.Valid() && Extends(old(ledger.View()), ledger.View())
      ensures out.Ok? <==> Recordable(old(ledger.View()), session, body, inputs)
      ensures out.Err? ==> ledger.View() == old(ledger.View())
      ensures AddsOnly(old(ledger.View()), ledger.View(), Hashed("claim", BodyJson(body)))
      ensures Recorded(old(ledger.View()), body, inputs) ==> ledger.View() == old(ledger.View())
      ensures out.Ok? ==> Recorded(ledger.View(), body, inputs) && RecordedAs(ledger.View(), body, inputs, out.value)
      ensures out.Ok? && (forall parent | parent in body.parents :: parent.name in inputs && parent.name !in ledger.project.snapshots) ==>
        exists row: nat :: ReadsAs(ledger.View(), row, out.value, body)
    {
      var origin, raw := ClaimOrigin(body, inputs), ClaimRaw(body);
      ghost var st := ledger.View();
      var looked := ledger.LookupRow(Request(origin, ledger.project));
      if looked.Err? {
        return Err(looked.error);
      }
      var row := FindRecorded(body, inputs);
      if row.None? {
        ClaimIsNamed(body);
        NewClaimStep(st, session, body, inputs);
        var recorded := ledger.Record(session, origin, raw, None);
        if recorded.Err? {
          return Err(recorded.error);
        }
        NowFirst(st, ledger.View(), body, inputs);
        row := Some(|ledger.observations| - 1);
      }
      assert ledger.observations[row.value] in ledger.observations;
      if forall parent | parent in body.parents :: parent.name in inputs && parent.name !in ledger.project.snapshots {
        ClaimReads(ledger.View(), row.value, body, inputs);
      }
      out := Ok(Captured(ledger.observations[row.value], CLAIM));
    }

    method CheckVersions(current: Versions) returns (fine: bool)
      requires ledger.Valid()
      ensures fine <==> VersionsOk(ledger.View(), current)
    {
      var names := current.Keys;
      while names != {}
        invariant names <= current.Keys
        invariant forall name | name in current && name !in names ::
          && !Blank(name)
          && (current[name].Some? ==> Lookup(ledger.View(), ContextRequest(ledger.project, current[name].value)).Ok?)
        decreases names
      {
        var name :| name in names;
        if Blank(name) {
          return false;
        }
        if current[name].Some? {
          var looked := ledger.LookupRow(ContextRequest(ledger.project, current[name].value));
          if looked.Err? {
            return false;
          }
        }
        names := names - {name};
      }
      fine := true;
    }

    /** Current support for a claim, without changing it or running its checker: there is
        one exactly when the supplied versions are on the ledger and every claim reached is
        readable, and then its status is reachability. */
    method Assess(ref: Evidence, current: Versions) returns (out: Option<Assessment>)
      requires ledger.Valid()
      ensures exists graph | GraphOf(ledger.View(), proofs, graph) ::
        && (out.Some? <==> VersionsOk(ledger.View(), current) && forall to | Reaches(graph, ref, to) :: to in graph)
        && (out.Some? ==>
              out == ClaimGraph.Assess(graph, current, ref) && out.value.applicability == Support(graph, current, ref))
    {
      var graph := ReadClaims();
      var fine := CheckVersions(current);
      if !fine {
        return None;
      }
      GraphIsOrdered(ledger.View(), proofs, graph);
      var walk := new Walk(graph, current);
      out := walk.Visit(ref);
      SucceedsWhenReadable(graph, current, ref);
      ReadableIsInGraph(ledger.View(), proofs, graph, ref);
      if out.Some? {
        StatusIsReachability(graph, current, ref);
      }
    }
  }
}
