/** Deciding acceptance from recorded evidence under the host's current policy. */
module AcceptanceSpec {
  import opened Records
  import opened LedgerSpec
  import opened Evidences

  datatype Kind = Rule | Gate
  datatype Condition = Condition(kind: Kind, check: string, field: string)
  datatype Policy = Policy(owner: string, requirements: map<string, Condition>)

  /** What the host's resolver gives for a target: pinned policy and revision, and the
      exact request of every check, or nothing where applicability is unknown. */
  datatype Context = Context(policy: Evidence, revision: Evidence, checks: map<string, Option<Request>>)

  type Receipts = map<string, Option<OpId>>
  type Exceptions = map<string, OpId>

  // ---- The policy ----

  function ParseCondition(value: Json): Option<Condition> {
    if value.Obj? && value.fields.Keys == {"kind", "check", "field"}
      && value.fields["kind"] in {Str("rule"), Str("gate")}
      && value.fields["check"].Str? && !Blank(value.fields["check"].text)
      && value.fields["field"].Str? && !Blank(value.fields["field"].text)
    then Some(Condition(if value.fields["kind"] == Str("rule") then Rule else Gate,
                        value.fields["check"].text, value.fields["field"].text))
    else None
  }

  predicate ConditionsOk(conditions: map<string, Json>) {
    conditions != map[] && forall name | name in conditions :: !Blank(name) && ParseCondition(conditions[name]).Some?
  }

  function ParseConditions(conditions: map<string, Json>): map<string, Condition>
    requires ConditionsOk(conditions)
  {
    map name | name in conditions :: ParseCondition(conditions[name]).value
  }

  function ParsePolicy(blob: Blob): Option<Policy> {
    if blob.Raw? || !blob.value.Obj? || blob.value.fields.Keys != {"version", "owner", "transition", "requirements"}
    then None
    else
      var f := blob.value.fields;
      if f["version"] == Int(1) && f["transition"] == Str("accept-candidate")
        && f["owner"].Str? && !Blank(f["owner"].text)
        && f["requirements"].Obj? && ConditionsOk(f["requirements"].fields)
      then Some(Policy(f["owner"].text, ParseConditions(f["requirements"].fields)))
      else None
  }

  /** The policy names exactly the host's checks. */
  predicate Fits(context: Context, policy: Policy) {
    && (forall name | name in policy.requirements :: policy.requirements[name].check in context.checks)
    && (forall check | check in context.checks ::
          exists name | name in policy.requirements :: policy.requirements[name].check == check)
  }

  /** The policy in force, when it has a gate and names exactly the host's checks. */
  function Current(context: Context): (current: Option<Policy>)
    ensures current.Some? ==> Fits(context, current.value)
  {
    var policy := ParsePolicy(context.policy.artifact);
    if policy.Some?
      && (exists name | name in policy.value.requirements :: policy.value.requirements[name].kind == Gate)
      && Fits(context, policy.value)
    then policy
    else None
  }

  // ---- One check ----

  datatype CheckValue =
    | Blocked(status: Status, evidence: Option<Evidence>)
    | Values(values: map<string, bool>, source: Evidence)

  /** The fields a check must report, and whether a gate depends on it. */
  function FieldsOf(policy: Policy, check: string): set<string> {
    set name | name in policy.requirements && policy.requirements[name].check == check ::
      policy.requirements[name].field
  }

  predicate IsGated(policy: Policy, check: string) {
    exists name | name in policy.requirements ::
      policy.requirements[name].check == check && policy.requirements[name].kind == Gate
  }

  predicate Booleans(value: Json, fields: set<string>) {
    value.Obj? && value.fields.Keys == fields && forall field | field in value.fields :: value.fields[field].Bool?
  }

  /** What a settled check says. */
  function ResultOf(done: Completion, fields: set<string>): CheckValue {
    if done.result.outcome == InfrastructureFailure then Blocked(HostFailure, None)
    else if done.result.outcome != Succeeded || "result.json" !in done.observation.artifacts then
      Blocked(Unsupported, None)
    else
      var evidence := Captured(done.observation, "result.json");
      if evidence.artifact.Doc? && Booleans(evidence.artifact.value, fields) then
        var reported := evidence.artifact.value.fields;
        Values(map field | field in reported :: reported[field].flag, evidence)
      else Blocked(Unsupported, Some(evidence))
  }

  /** Anything a gate accepts must bind this exact target. */
  predicate Binds(request: Request, target: Evidence) {
    target.name in request.origin.inputs && request.origin.inputs[target.name] == target.artifact
  }

  ghost function CheckResult(st: State, target: Evidence, request: Option<Request>, receipt: Option<OpId>,
                             fields: set<string>, gate: bool): Outcomes<CheckValue>
  {
    if request.None? then Ok(Blocked(Unknown, None))
    else if gate && !Binds(request.value, target) then Ok(Blocked(Unsupported, None))
    else if receipt.None? then Ok(Blocked(Missing, None))
    else if receipt == Some(Named("")) then Ok(Blocked(Unsupported, None))
    else if receipt.value != request.value.origin.operationId then
      Ok(Blocked(if Has(st.operations, receipt.value) then Stale else Unsupported, None))
    else
      match Lookup(st, request.value)
      case Err(Conflict) => Ok(Blocked(Unsupported, None))
      case Err(error) => Err(error)
      case Ok(None) => Ok(Blocked(Missing, None))
      case Ok(Some(row)) =>
        if st.operations[row].completion.None? then Ok(Blocked(Unknown, None))
        else Ok(ResultOf(st.operations[row].completion.value, fields))
  }

  ghost function CheckOf(st: State, target: Evidence, context: Context, policy: Policy, receipts: Receipts, check: string)
    : Outcomes<CheckValue>
    requires check in context.checks
  {
    CheckResult(st, target, context.checks[check], if check in receipts then receipts[check] else None,
                FieldsOf(policy, check), IsGated(policy, check))
  }

  // ---- Exceptions ----

  /** The exact current scope an exception or decision is for. */
  function ScopeJson(target: Evidence, context: Context): Json {
    Obj(map["target" := EvidenceJson(target),
            "policy" := EvidenceJson(context.policy),
            "revision" := EvidenceJson(context.revision),
            "checks" := Obj(map name | name in context.checks ::
                              if context.checks[name].Some? then RequestDigest(context.checks[name].value) else Null)])
  }

  function ExceptionBody(target: Evidence, context: Context, policy: Policy, rule: string, reason: string): Json {
    Obj(map["version" := Int(1),
            "scope" := ScopeJson(target, context),
            "owner" := Str(policy.owner),
            "rule" := Str(rule),
            "reason" := Str(reason)])
  }

  function InputsJson(inputs: Artifacts): Json {
    Obj(map name | name in inputs :: Digest(inputs[name]))
  }

  /** The one request that records this body over this evidence. */
  function RequestFor(project: Project, kind: string, inputs: Artifacts, body: Json): Request {
    Request(Origin(Hashed(kind, Obj(map["inputs" := InputsJson(inputs), "body" := body])),
                   kind, "warranted-acceptance", "1", inputs),
            project)
  }

  function ScopeEvidence(target: Evidence, context: Context): set<Evidence> {
    {target, context.policy, context.revision}
  }

  datatype ExceptionResult = ExceptionResult(status: Status, evidence: Option<Evidence>)

  const EXCEPTION: string := "rule-exception"
  const EXCEPTION_FILE: string := "rule-exception.json"

  /** The reason an exception record gives, when it gives one. */
  function ReasonOf(blob: Blob): Option<string> {
    if blob.Doc? && blob.value.Obj? && "reason" in blob.value.fields
      && blob.value.fields["reason"].Str? && !Blank(blob.value.fields["reason"].text)
    then Some(blob.value.fields["reason"].text)
    else None
  }

  /** A recorded exception, judged against the exact current scope. */
  ghost function ExceptionOf(op: Operation, project: Project, target: Evidence, context: Context, policy: Policy, rule: string)
    : Outcomes<ExceptionResult>
  {
    match op.completion
    case None => Ok(ExceptionResult(Unknown, None))
    case Some(done) =>
      if done.result.outcome != Succeeded || EXCEPTION_FILE !in done.observation.artifacts then
        Ok(ExceptionResult(Unsupported, None))
      else
        var evidence := Captured(done.observation, EXCEPTION_FILE);
        match ReasonOf(evidence.artifact)
        case None => Ok(ExceptionResult(Unsupported, Some(evidence)))
        case Some(reason) =>
          var expected := ExceptionBody(target, context, policy, rule, reason);
          if !Consistent(ScopeEvidence(target, context)) then Err(InvalidInput)
          else if evidence.artifact.value != expected
               || op.request != RequestFor(project, EXCEPTION, InputsOf(ScopeEvidence(target, context)), expected) then
            Ok(ExceptionResult(Stale, Some(evidence)))
          else Ok(ExceptionResult(Excepted, Some(evidence)))
  }

  ghost function Exception(st: State, target: Evidence, context: Context, policy: Policy, rule: string, id: OpId)
    : Outcomes<ExceptionResult>
  {
    match Find(st.operations, id)
    case None => Ok(ExceptionResult(Missing, None))
    case Some(row) =>
      var found := Lookup(st, st.operations[row].request);
      if found.Err? then Err(found.error)
      else ExceptionOf(st.operations[row], st.project, target, context, policy, rule)
  }

  // ---- The decision ----

  predicate HasException(policy: Policy, exceptions: Exceptions, name: string)
    requires name in policy.requirements
  {
    policy.requirements[name].kind == Rule && name in exceptions
  }

  function PlainStatus(value: CheckValue, field: string): Status {
    match value
    case Blocked(status, _) => status
    case Values(values, _) => if field in values && values[field] then Passed else Rejected
  }

  ghost function RequirementOf(st: State, target: Evidence, context: Context, policy: Policy, receipts: Receipts,
                               exceptions: Exceptions, name: string): Outcomes<Status>
    requires name in policy.requirements && policy.requirements[name].check in context.checks
  {
    var condition := policy.requirements[name];
    match CheckOf(st, target, context, policy, receipts, condition.check)
    case Err(error) => Err(error)
    case Ok(value) =>
      if HasException(policy, exceptions, name) then
        match Exception(st, target, context, policy, name, exceptions[name])
        case Err(error) => Err(error)
        case Ok(result) => Ok(result.status)
      else Ok(PlainStatus(value, condition.field))
  }

  /** Receipts for unknown checks, or exceptions for anything but a known rule. */
  predicate Invalid(context: Context, policy: Policy, receipts: Receipts, exceptions: Exceptions) {
    || !(receipts.Keys <= context.checks.Keys)
    || exists name | name in exceptions ::
         name !in policy.requirements || policy.requirements[name].kind != Rule
  }

  const PRECEDENCE: seq<Status> := [Unsupported, HostFailure, Unknown, Missing, Stale, Rejected]

  /** The first blocking status present, in order of precedence. */
  function Strongest(statuses: set<Status>, from: nat): Status
    requires from <= |PRECEDENCE|
    decreases |PRECEDENCE| - from
  {
    if from == |PRECEDENCE| then Accepted
    else if PRECEDENCE[from] in statuses then PRECEDENCE[from]
    else Strongest(statuses, from + 1)
  }

  function Verdict(requirements: map<string, Status>, invalid: bool): Status {
    if invalid then Unsupported else Strongest(requirements.Values, 0)
  }

  /** Every requirement's status is the one the ledger supports. */
  ghost predicate Judges(st: State, target: Evidence, context: Context, policy: Policy, receipts: Receipts,
                         exceptions: Exceptions, requirements: map<string, Status>)
    requires Fits(context, policy)
  {
    requirements.Keys == policy.requirements.Keys
    && forall name | name in policy.requirements ::
         RequirementOf(st, target, context, policy, receipts, exceptions, name) == Ok(requirements[name])
  }
}

/** When a decision is acceptance, and that it stays one. */
module AcceptanceSafety {
  import opened Records
  import opened LedgerSpec
  import opened LedgerInvariant
  import opened LedgerSafety
  import opened Evidences
  import opened AcceptanceSpec

  /** What judging relies on, in every reachable state: one row for an ID, requests of
      this project, and a result only after a dispatch. */
  ghost predicate Sound(st: State) {
    UniqueIds(st.operations)
    && forall op | op in st.operations ::
         op.request.context == st.project && (op.completion.Some? ==> op.dispatch.Some?)
  }

  lemma ReachableIsSound(project: Project, events: seq<Event>)
    ensures Sound(Run(Init(project), events))
  {
    var st := Run(Init(project), events);
    Reachable(project, events);
    assert forall op | op in st.operations :: OperationOk(st, op);
  }

  // ---- What acceptance means ----

  /** This operation is the check's exact request, settled successfully with exactly the
      required boolean fields, its own one true. */
  ghost predicate Proves(op: Operation, request: Request, fields: set<string>, field: string) {
    && op.request == request
    && op.completion.Some?
    && op.completion.value.result.outcome == Succeeded
    && var artifacts := op.completion.value.observation.artifacts;
    && "result.json" in artifacts && artifacts["result.json"].Doc?
    && Booleans(artifacts["result.json"].value, fields)
    && field in artifacts["result.json"].value.fields && artifacts["result.json"].value.fields[field].flag
  }

  /** The requirement's check ran as currently requested, is named by its receipt, binds
      the target if any gate depends on it, and reports the requirement's field true. */
  ghost predicate Passes(st: State, target: Evidence, context: Context, policy: Policy, receipts: Receipts, name: string)
    requires name in policy.requirements && policy.requirements[name].check in context.checks
  {
    var condition := policy.requirements[name];
    var request := context.checks[condition.check];
    && request.Some?
    && (IsGated(policy, condition.check) ==> Binds(request.value, target))
    && condition.check in receipts && receipts[condition.check] == Some(request.value.origin.operationId)
    && receipts[condition.check] != Some(Named(""))
    && exists op | op in st.operations :: Proves(op, request.value, FieldsOf(policy, condition.check), condition.field)
  }

  /** This operation recorded a reasoned exception for exactly this rule and scope. */
  ghost predicate Excuses(op: Operation, project: Project, target: Evidence, context: Context, policy: Policy,
                          rule: string, id: OpId)
  {
    && op.Id() == id
    && op.completion.Some? && op.completion.value.result.outcome == Succeeded
    && var artifacts := op.completion.value.observation.artifacts;
    && EXCEPTION_FILE in artifacts && ReasonOf(artifacts[EXCEPTION_FILE]).Some?
    && Consistent(ScopeEvidence(target, context))
    && var body := ExceptionBody(target, context, policy, rule, ReasonOf(artifacts[EXCEPTION_FILE]).value);
    && artifacts[EXCEPTION_FILE].value == body
    && op.request == RequestFor(project, EXCEPTION, InputsOf(ScopeEvidence(target, context)), body)
  }

  ghost predicate Met(st: State, target: Evidence, context: Context, policy: Policy, receipts: Receipts,
                      exceptions: Exceptions, name: string)
    requires name in policy.requirements && policy.requirements[name].check in context.checks
  {
    if HasException(policy, exceptions, name) then
      exists op | op in st.operations :: Excuses(op, st.project, target, context, policy, name, exceptions[name])
    else Passes(st, target, context, policy, receipts, name)
  }

  lemma OnlyRow(st: State, row: nat, op: Operation)
    requires Sound(st) && row < |st.operations| && op in st.operations && op.Id() == st.operations[row].Id()
    ensures op == st.operations[row]
  {
  }

  /** A check lets its requirement pass exactly when an operation proves it. */
  lemma CheckPasses(st: State, target: Evidence, request: Option<Request>, receipt: Option<OpId>,
                    fields: set<string>, gate: bool, field: string)
    requires Sound(st) && field in fields && CheckResult(st, target, request, receipt, fields, gate).Ok?
    ensures var status := PlainStatus(CheckResult(st, target, request, receipt, fields, gate).value, field);
      && status in {Passed, Unsupported, HostFailure, Unknown, Missing, Stale, Rejected}
      && (status == Passed <==>
            && request.Some? && (gate ==> Binds(request.value, target))
            && receipt == Some(request.value.origin.operationId) && receipt != Some(Named(""))
            && exists op | op in st.operations :: Proves(op, request.value, fields, field))
  {
    if request.Some? && (gate ==> Binds(request.value, target)) && receipt == Some(request.value.origin.operationId) {
      if op :| op in st.operations && Proves(op, request.value, fields, field) {
        assert op.Id() == request.value.origin.operationId;
        OnlyRow(st, Find(st.operations, request.value.origin.operationId).value, op);
      }
      if PlainStatus(CheckResult(st, target, request, receipt, fields, gate).value, field) == Passed {
        var op := st.operations[Find(st.operations, request.value.origin.operationId).value];
        assert op in st.operations && Proves(op, request.value, fields, field);
      }
    }
  }

  /** The host asks for this check of this target, and the receipt names that request. */
  predicate Receipted(target: Evidence, request: Option<Request>, receipt: Option<OpId>, gate: bool) {
    request.Some? && (gate ==> Binds(request.value, target))
    && receipt == Some(request.value.origin.operationId) && receipt != Some(Named(""))
  }

  /** What each other status of a check says; unsupported is whatever is left. */
  lemma CheckSays(st: State, target: Evidence, request: Option<Request>, receipt: Option<OpId>,
                  fields: set<string>, gate: bool, field: string)
    requires Sound(st) && field in fields && CheckResult(st, target, request, receipt, fields, gate).Ok?
    ensures var status := PlainStatus(CheckResult(st, target, request, receipt, fields, gate).value, field);
      var named := Receipted(target, request, receipt, gate);
      && (status == Unknown <==> request.None? || (named && IsUnfinished(st, request.value)))
      && (status == Missing <==>
            (request.Some? && (gate ==> Binds(request.value, target)) && receipt.None?)
            || (named && request.value.context == st.project && !Has(st.operations, receipt.value)))
      && (status == Stale <==> (request.Some? && (gate ==> Binds(request.value, target)) && receipt.Some?
                                && !named && receipt.value != Named("") && Has(st.operations, receipt.value)))
      && (status == HostFailure <==> named && HasFailed(st, request.value))
      && (status == Rejected <==> named && exists op | op in st.operations :: Denies(op, request.value, fields, field))
  {
    if Receipted(target, request, receipt, gate) {
      OnlyRequested(st, request.value);
      if Has(st.operations, receipt.value) {
        assert st.operations[Find(st.operations, receipt.value).value] in st.operations;
      }
    }
  }

  ghost predicate IsUnfinished(st: State, request: Request) {
    exists op | op in st.operations :: op.request == request && op.completion.None?
  }

  ghost predicate HasFailed(st: State, request: Request) {
    exists op | op in st.operations ::
      op.request == request && op.completion.Some? && op.completion.value.result.outcome == InfrastructureFailure
  }

  lemma OnlyRequested(st: State, request: Request)
    requires Sound(st)
    ensures forall op | op in st.operations && op.request == request ::
      Has(st.operations, request.origin.operationId)
      && op == st.operations[Find(st.operations, request.origin.operationId).value]
  {
    forall op | op in st.operations && op.request == request
      ensures Has(st.operations, request.origin.operationId)
      ensures op == st.operations[Find(st.operations, request.origin.operationId).value]
    {
      var i :| 0 <= i < |st.operations| && st.operations[i] == op;
      assert st.operations[i].Id() == request.origin.operationId;
      OnlyRow(st, Find(st.operations, request.origin.operationId).value, op);
    }
  }

  /** Like `Proves`, but the check reports the field false. */
  ghost predicate Denies(op: Operation, request: Request, fields: set<string>, field: string) {
    && op.request == request
    && op.completion.Some?
    && op.completion.value.result.outcome == Succeeded
    && var artifacts := op.completion.value.observation.artifacts;
    && "result.json" in artifacts && artifacts["result.json"].Doc?
    && Booleans(artifacts["result.json"].value, fields)
    && field in artifacts["result.json"].value.fields && !artifacts["result.json"].value.fields[field].flag
  }

  /** The operation recorded an exception with a reason, for whatever rule and scope. */
  ghost predicate Reasoned(op: Operation) {
    op.completion.Some? && op.completion.value.result.outcome == Succeeded
    && EXCEPTION_FILE in op.completion.value.observation.artifacts
    && ReasonOf(op.completion.value.observation.artifacts[EXCEPTION_FILE]).Some?
  }

  lemma ExceptionExcuses(st: State, target: Evidence, context: Context, policy: Policy, rule: string, id: OpId)
    requires Sound(st) && Exception(st, target, context, policy, rule, id).Ok?
    ensures var status := Exception(st, target, context, policy, rule, id).value.status;
      && status in {Excepted, Unsupported, Unknown, Missing, Stale}
      && (status == Excepted <==>
            exists op | op in st.operations :: Excuses(op, st.project, target, context, policy, rule, id))
  {
    if op :| op in st.operations && Excuses(op, st.project, target, context, policy, rule, id) {
      OnlyRow(st, Find(st.operations, id).value, op);
    }
    if Exception(st, target, context, policy, rule, id).value.status == Excepted {
      var op := st.operations[Find(st.operations, id).value];
      assert op in st.operations && Excuses(op, st.project, target, context, policy, rule, id);
    }
  }

  /** What each other status of an exception says; unsupported is whatever is left. */
  lemma ExceptionSays(st: State, target: Evidence, context: Context, policy: Policy, rule: string, id: OpId)
    requires Sound(st) && Exception(st, target, context, policy, rule, id).Ok?
    ensures var status := Exception(st, target, context, policy, rule, id).value.status;
      && (status == Missing <==> !Has(st.operations, id))
      && (status == Unknown <==> exists op | op in st.operations :: op.Id() == id && op.completion.None?)
      && (status == Stale <==> exists op | op in st.operations ::
            op.Id() == id && Reasoned(op) && !Excuses(op, st.project, target, context, policy, rule, id))
  {
    if Has(st.operations, id) {
      var found := st.operations[Find(st.operations, id).value];
      assert found in st.operations;
      forall op | op in st.operations && op.Id() == id
        ensures op == found
      {
        OnlyRow(st, Find(st.operations, id).value, op);
      }
    } else {
      forall op | op in st.operations
        ensures op.Id() != id
      {
        var i :| 0 <= i < |st.operations| && st.operations[i] == op;
      }
    }
  }

  lemma ExceptedRequirementMet(st: State, target: Evidence, context: Context, policy: Policy, receipts: Receipts,
                               exceptions: Exceptions, name: string, status: Status)
    requires Sound(st) && name in policy.requirements && policy.requirements[name].check in context.checks
    requires HasException(policy, exceptions, name)
    requires RequirementOf(st, target, context, policy, receipts, exceptions, name) == Ok(status)
    ensures status in PRECEDENCE <==> !Met(st, target, context, policy, receipts, exceptions, name)
    ensures Met(st, target, context, policy, receipts, exceptions, name) ==> status == Excepted
  {
    ExceptionExcuses(st, target, context, policy, name, exceptions[name]);
  }

  lemma RequirementMet(st: State, target: Evidence, context: Context, policy: Policy, receipts: Receipts,
                       exceptions: Exceptions, name: string, status: Status)
    requires Sound(st) && name in policy.requirements && policy.requirements[name].check in context.checks
    requires RequirementOf(st, target, context, policy, receipts, exceptions, name) == Ok(status)
    ensures status in PRECEDENCE <==> !Met(st, target, context, policy, receipts, exceptions, name)
    ensures Met(st, target, context, policy, receipts, exceptions, name) ==>
      status == if HasException(policy, exceptions, name) then Excepted else Passed
  {
    if HasException(policy, exceptions, name) {
      ExceptedRequirementMet(st, target, context, policy, receipts, exceptions, name, status);
    } else {
      var condition := policy.requirements[name];
      CheckPasses(st, target, context.checks[condition.check],
                  if condition.check in receipts then receipts[condition.check] else None,
                  FieldsOf(policy, condition.check), IsGated(policy, condition.check), condition.field);
    }
  }

  lemma {:induction false} StrongestBlocks(statuses: set<Status>, from: nat)
    requires from <= |PRECEDENCE|
    ensures Strongest(statuses, from) == Accepted
       <==> forall status | status in statuses :: status !in PRECEDENCE[from..]
    decreases |PRECEDENCE| - from
  {
    if from < |PRECEDENCE| {
      StrongestBlocks(statuses, from + 1);
      assert PRECEDENCE[from..] == [PRECEDENCE[from]] + PRECEDENCE[from + 1..];
    }
  }

  lemma VerdictAccepts(requirements: map<string, Status>, invalid: bool)
    ensures Verdict(requirements, invalid) == Accepted
       <==> !invalid && forall name | name in requirements :: requirements[name] !in PRECEDENCE
  {
    assert PRECEDENCE[0..] == PRECEDENCE;
    StrongestBlocks(requirements.Values, 0);
    assert forall name | name in requirements :: requirements[name] in requirements.Values;
  }

  /** Which status stands for a whole decision: an invalid call makes it unsupported, and
      else unsupported wins over a host failure, that over an unknown outcome, that over
      missing, that over stale and that over rejected. */
  lemma VerdictIs(requirements: map<string, Status>, invalid: bool, name: string)
    ensures invalid ==> Verdict(requirements, invalid) == Unsupported
    ensures name in requirements && requirements[name] == Unsupported ==> Verdict(requirements, invalid) == Unsupported
    ensures name in requirements && requirements[name] == HostFailure ==>
      Verdict(requirements, invalid) in {Unsupported, HostFailure}
    ensures name in requirements && requirements[name] == Unknown ==>
      Verdict(requirements, invalid) in {Unsupported, HostFailure, Unknown}
    ensures name in requirements && requirements[name] == Missing ==>
      Verdict(requirements, invalid) in {Unsupported, HostFailure, Unknown, Missing}
    ensures name in requirements && requirements[name] == Stale ==>
      Verdict(requirements, invalid) in {Unsupported, HostFailure, Unknown, Missing, Stale}
    ensures name in requirements && requirements[name] == Rejected ==>
      Verdict(requirements, invalid) in {Unsupported, HostFailure, Unknown, Missing, Stale, Rejected}
    ensures !invalid && Verdict(requirements, invalid) != Accepted ==>
      exists blocking | blocking in requirements :: requirements[blocking] == Verdict(requirements, invalid)
  {
    assert name in requirements ==> requirements[name] in requirements.Values;
    if !invalid {
      StrongestIs(requirements.Values, 0, if name in requirements then requirements[name] else Passed);
    }
  }

  /** The strongest status is one of them, and none of them comes before it. */
  lemma {:induction false} StrongestIs(statuses: set<Status>, from: nat, status: Status)
    requires from <= |PRECEDENCE|
    ensures var strongest := Strongest(statuses, from);
      && (strongest != Accepted ==> strongest in statuses && strongest in PRECEDENCE[from..])
      && (status in statuses && status in PRECEDENCE[from..] ==>
            exists k | from <= k < |PRECEDENCE| ::
              PRECEDENCE[k] == strongest && forall i | from <= i < k :: PRECEDENCE[i] != status)
    decreases |PRECEDENCE| - from
  {
    if from < |PRECEDENCE| && PRECEDENCE[from] !in statuses {
      StrongestIs(statuses, from + 1, status);
      assert PRECEDENCE[from..] == [PRECEDENCE[from]] + PRECEDENCE[from + 1..];
    }
  }

  ghost predicate AllMet(st: State, target: Evidence, context: Context, policy: Policy, receipts: Receipts, exceptions: Exceptions)
    requires Fits(context, policy)
  {
    forall name | name in policy.requirements :: Met(st, target, context, policy, receipts, exceptions, name)
  }

  /** Acceptance is sound and complete: the verdict is ACCEPTED exactly when the call
      names only known checks and rules, every requirement passed by its exact current
      check, and every rule given an exception has one recorded for this exact scope. */
  lemma AcceptedExactlyWhenMet(st: State, target: Evidence, context: Context, policy: Policy, receipts: Receipts,
                               exceptions: Exceptions, requirements: map<string, Status>)
    requires Sound(st) && Fits(context, policy)
    requires Judges(st, target, context, policy, receipts, exceptions, requirements)
    ensures Verdict(requirements, Invalid(context, policy, receipts, exceptions)) == Accepted
       <==> !Invalid(context, policy, receipts, exceptions)
            && AllMet(st, target, context, policy, receipts, exceptions)
  {
    VerdictAccepts(requirements, Invalid(context, policy, receipts, exceptions));
    forall name | name in policy.requirements
      ensures name in requirements
      ensures requirements[name] in PRECEDENCE <==> !Met(st, target, context, policy, receipts, exceptions, name)
    {
      RequirementMet(st, target, context, policy, receipts, exceptions, name, requirements[name]);
    }
  }

  // ---- Stability ----

  /** A completed operation is still there, unchanged, in every extension. */
  lemma CompletedStays(st: State, later: State, op: Operation)
    requires Extends(st, later) && op in st.operations && op.completion.Some? && op.dispatch.Some?
    ensures op in later.operations
  {
    var i :| 0 <= i < |st.operations| && st.operations[i] == op;
    assert Advances(op, later.operations[i]);
  }

  lemma MetStays(st: State, later: State, target: Evidence, context: Context, policy: Policy, receipts: Receipts,
                 exceptions: Exceptions, name: string)
    requires Sound(st) && Extends(st, later) && name in policy.requirements && policy.requirements[name].check in context.checks
    requires Met(st, target, context, policy, receipts, exceptions, name)
    ensures Met(later, target, context, policy, receipts, exceptions, name)
  {
    var condition := policy.requirements[name];
    if HasException(policy, exceptions, name) {
      var op :| op in st.operations && Excuses(op, st.project, target, context, policy, name, exceptions[name]);
      CompletedStays(st, later, op);
    } else {
      var request := context.checks[condition.check].value;
      var op :| op in st.operations && Proves(op, request, FieldsOf(policy, condition.check), condition.field);
      CompletedStays(st, later, op);
    }
  }

  lemma MetRequirementStays(st: State, later: State, target: Evidence, context: Context, policy: Policy, receipts: Receipts,
                            exceptions: Exceptions, name: string, before: Status, after: Status)
    requires Sound(st) && Sound(later) && Extends(st, later)
    requires name in policy.requirements && policy.requirements[name].check in context.checks
    requires RequirementOf(st, target, context, policy, receipts, exceptions, name) == Ok(before)
    requires RequirementOf(later, target, context, policy, receipts, exceptions, name) == Ok(after)
    requires Met(st, target, context, policy, receipts, exceptions, name)
    ensures after == before
  {
    MetStays(st, later, target, context, policy, receipts, exceptions, name);
    RequirementMet(st, target, context, policy, receipts, exceptions, name, before);
    RequirementMet(later, target, context, policy, receipts, exceptions, name, after);
  }

  lemma MetRequirementsStay(st: State, later: State, target: Evidence, context: Context, policy: Policy, receipts: Receipts,
                            exceptions: Exceptions, before: map<string, Status>, after: map<string, Status>)
    requires Sound(st) && Sound(later) && Extends(st, later) && Fits(context, policy)
    requires Judges(st, target, context, policy, receipts, exceptions, before)
    requires Judges(later, target, context, policy, receipts, exceptions, after)
    requires AllMet(st, target, context, policy, receipts, exceptions)
    ensures after == before
  {
    forall name | name in policy.requirements
      ensures after[name] == before[name]
    {
      MetRequirementStays(st, later, target, context, policy, receipts, exceptions, name, before[name], after[name]);
    }
  }

  /** With an unchanged context, what was accepted stays accepted: over any extension of
      the ledger a later judgement gives every requirement the same status. */
  lemma AcceptedStays(st: State, later: State, target: Evidence, context: Context, policy: Policy, receipts: Receipts,
                      exceptions: Exceptions, before: map<string, Status>, after: map<string, Status>)
    requires Sound(st) && Sound(later) && Extends(st, later) && Fits(context, policy)
    requires Judges(st, target, context, policy, receipts, exceptions, before)
    requires Judges(later, target, context, policy, receipts, exceptions, after)
    requires Verdict(before, Invalid(context, policy, receipts, exceptions)) == Accepted
    ensures after == before
  {
    AcceptedExactlyWhenMet(st, target, context, policy, receipts, exceptions, before);
    MetRequirementsStay(st, later, target, context, policy, receipts, exceptions, before, after);
  }

  /** The operation this ID names has a recorded result. */
  ghost predicate IsSettled(st: State, id: OpId) {
    exists op | op in st.operations :: op.Id() == id && op.completion.Some?
  }

  /** Every operation the call names is settled. */
  ghost predicate AllSettled(st: State, receipts: Receipts, exceptions: Exceptions) {
    && (forall name | name in receipts && receipts[name].Some? :: IsSettled(st, receipts[name].value))
    && (forall name | name in exceptions :: IsSettled(st, exceptions[name]))
  }

  lemma SettledRowStays(st: State, later: State, id: OpId)
    requires Sound(st) && Sound(later) && Extends(st, later) && IsSettled(st, id)
    ensures Find(st.operations, id).Some? && Find(later.operations, id).Some?
    ensures later.operations[Find(later.operations, id).value] == st.operations[Find(st.operations, id).value]
    ensures st.operations[Find(st.operations, id).value].completion.Some?
  {
    var op :| op in st.operations && op.Id() == id && op.completion.Some?;
    CompletedStays(st, later, op);
    OnlyRow(st, Find(st.operations, id).value, op);
    OnlyRow(later, Find(later.operations, id).value, op);
  }

  lemma SettledCheckStays(st: State, later: State, target: Evidence, request: Option<Request>, receipt: Option<OpId>,
                          fields: set<string>, gate: bool)
    requires Sound(st) && Sound(later) && Extends(st, later) && (receipt.Some? ==> IsSettled(st, receipt.value))
    requires CheckResult(st, target, request, receipt, fields, gate).Ok?
    requires CheckResult(later, target, request, receipt, fields, gate).Ok?
    ensures CheckResult(later, target, request, receipt, fields, gate) == CheckResult(st, target, request, receipt, fields, gate)
  {
    if receipt.Some? {
      SettledRowStays(st, later, receipt.value);
    }
  }

  lemma SettledRequirementStays(st: State, later: State, target: Evidence, context: Context, policy: Policy, receipts: Receipts,
                                exceptions: Exceptions, name: string, before: Status, after: Status)
    requires Sound(st) && Sound(later) && Extends(st, later) && AllSettled(st, receipts, exceptions)
    requires name in policy.requirements && policy.requirements[name].check in context.checks
    requires RequirementOf(st, target, context, policy, receipts, exceptions, name) == Ok(before)
    requires RequirementOf(later, target, context, policy, receipts, exceptions, name) == Ok(after)
    ensures after == before
  {
    var check := policy.requirements[name].check;
    SettledCheckStays(st, later, target, context.checks[check], if check in receipts then receipts[check] else None,
                      FieldsOf(policy, check), IsGated(policy, check));
    if HasException(policy, exceptions, name) {
      SettledRowStays(st, later, exceptions[name]);
    }
  }

  /** Whatever the verdict, it can change later only through an operation the call names
      that was still missing or unfinished. */
  lemma SettledVerdictStays(st: State, later: State, target: Evidence, context: Context, policy: Policy, receipts: Receipts,
                            exceptions: Exceptions, before: map<string, Status>, after: map<string, Status>)
    requires Sound(st) && Sound(later) && Extends(st, later) && Fits(context, policy)
    requires AllSettled(st, receipts, exceptions)
    requires Judges(st, target, context, policy, receipts, exceptions, before)
    requires Judges(later, target, context, policy, receipts, exceptions, after)
    ensures after == before
  {
    forall name | name in policy.requirements
      ensures after[name] == before[name]
    {
      SettledRequirementStays(st, later, target, context, policy, receipts, exceptions, name, before[name], after[name]);
    }
  }
}

/** The host object that judges and commits decisions. */
module AcceptanceHost {
  import opened Records
  import Spec = LedgerSpec
  import opened LedgerInvariant
  import opened LedgerSafety
  import opened LedgerStore
  import opened Evidences
  import opened AcceptanceSpec
  import opened AcceptanceSafety
  import opened AcceptancePolicy
  import opened AcceptanceCommit
  import opened Attempts

  // ---- Recorded bodies ----

  function StatusText(status: Status): string {
    match status
    case Passed => "passed"
    case Excepted => "excepted"
    case Accepted => "accepted"
    case Rejected => "rejected"
    case Missing => "missing"
    case Stale => "stale"
    case Unknown => "unknown"
    case Unproved => "unproved"
    case Unsupported => "unsupported"
    case HostFailure => "infrastructure_failure"
  }

  function DecisionBody(target: Evidence, context: Context, status: Status, requirements: map<string, Status>,
                        receipts: Receipts, exceptions: Exceptions): Json
  {
    Obj(map["version" := Int(1),
            "scope" := ScopeJson(target, context),
            "status" := Str(StatusText(status)),
            "requirements" := Obj(map name | name in requirements :: Str(StatusText(requirements[name]))),
            "receipts" := Obj(map name | name in receipts ::
                                if receipts[name].Some? then Id(receipts[name].value) else Null),
            "exceptions" := Obj(map name | name in exceptions :: Id(exceptions[name]))])
  }

  // ---- Judging as a whole ----

  function SourceOf(value: CheckValue): Option<Evidence> {
    match value
    case Blocked(_, evidence) => evidence
    case Values(_, source) => Some(source)
  }

  type Judged = map<string, CheckValue>
  type Excused = map<string, ExceptionResult>

  ghost predicate JudgesChecks(st: Spec.State, target: Evidence, context: Context, policy: Policy, receipts: Receipts, judged: Judged) {
    judged.Keys == context.checks.Keys
    && forall check | check in judged :: CheckOf(st, target, context, policy, receipts, check) == Ok(judged[check])
  }

  ghost predicate JudgesExceptions(st: Spec.State, target: Evidence, context: Context, policy: Policy, exceptions: Exceptions, excused: Excused) {
    && (forall name :: name in excused <==> name in policy.requirements && HasException(policy, exceptions, name))
    && (forall name | name in excused ::
          name in exceptions && Exception(st, target, context, policy, name, exceptions[name]) == Ok(excused[name]))
  }

  function Statuses(policy: Policy, judged: Judged, excused: Excused): map<string, Status>
    requires forall name | name in policy.requirements :: policy.requirements[name].check in judged
  {
    map name | name in policy.requirements ::
      if name in excused then excused[name].status
      else PlainStatus(judged[policy.requirements[name].check], policy.requirements[name].field)
  }

  lemma StatusesJudge(st: Spec.State, target: Evidence, context: Context, policy: Policy, receipts: Receipts,
                      exceptions: Exceptions, judged: Judged, excused: Excused)
    requires Fits(context, policy)
    requires JudgesChecks(st, target, context, policy, receipts, judged)
    requires JudgesExceptions(st, target, context, policy, exceptions, excused)
    ensures Judges(st, target, context, policy, receipts, exceptions, Statuses(policy, judged, excused))
  {
    forall name | name in policy.requirements
      ensures RequirementOf(st, target, context, policy, receipts, exceptions, name)
           == Ok(Statuses(policy, judged, excused)[name])
    {
      var check := policy.requirements[name].check;
      assert CheckOf(st, target, context, policy, receipts, check) == Ok(judged[check]);
      assert name in excused <==> HasException(policy, exceptions, name);
    }
  }

  function CheckEvidence(judged: Judged): set<Evidence> {
    set check | check in judged && SourceOf(judged[check]).Some? :: SourceOf(judged[check]).value
  }

  function RuleEvidence(excused: Excused): set<Evidence> {
    set name | name in excused && excused[name].evidence.Some? :: excused[name].evidence.value
  }

  /** Everything a decision was judged on, which is what it cites. */
  function DecisionEvidence(target: Evidence, context: Context, judged: Judged, excused: Excused): set<Evidence> {
    ScopeEvidence(target, context) + CheckEvidence(judged) + RuleEvidence(excused)
  }

  function AsSet(evidence: Option<Evidence>): set<Evidence> {
    if evidence.Some? then {evidence.value} else {}
  }

  lemma OneMoreCheck(judged: Judged, check: string, value: CheckValue)
    requires check !in judged
    ensures CheckEvidence(judged[check := value]) == CheckEvidence(judged) + AsSet(SourceOf(value))
  {
    var after := judged[check := value];
    forall e | e in CheckEvidence(judged)
      ensures e in CheckEvidence(after)
    {
      var name :| name in judged && SourceOf(judged[name]) == Some(e);
      assert after[name] == judged[name];
    }
    if SourceOf(value).Some? {
      assert check in after && SourceOf(after[check]).Some?;
    }
  }

  lemma OneMoreRule(excused: Excused, name: string, result: ExceptionResult)
    requires name !in excused
    ensures RuleEvidence(excused[name := result]) == RuleEvidence(excused) + AsSet(result.evidence)
  {
    var after := excused[name := result];
    forall e | e in RuleEvidence(excused)
      ensures e in RuleEvidence(after)
    {
      var other :| other in excused && excused[other].evidence == Some(e);
      assert after[other] == excused[other];
    }
    if result.evidence.Some? {
      assert name in after && after[name].evidence.Some?;
    }
  }

  function Append(cited: seq<Evidence>, evidence: Option<Evidence>): (longer: seq<Evidence>)
    ensures Elements(longer) == Elements(cited) + AsSet(evidence)
  {
    if evidence.Some? then cited + [evidence.value] else cited
  }

  datatype Draft = Draft(status: Status, requirements: map<string, Status>, body: Json, request: Request)

  /** The decision these findings lead to, and the request that will record it. */
  function DraftOf(project: Project, target: Evidence, context: Context, policy: Policy, receipts: Receipts,
                   exceptions: Exceptions, judged: Judged, excused: Excused, inputs: Artifacts): Draft
    requires forall name | name in policy.requirements :: policy.requirements[name].check in judged
  {
    var requirements := Statuses(policy, judged, excused);
    var status := AcceptanceSpec.Verdict(requirements, Invalid(context, policy, receipts, exceptions));
    var body := DecisionBody(target, context, status, requirements, receipts, exceptions);
    Draft(status, requirements, body, RequestFor(project, "decision", inputs, body))
  }

  /** Findings the ledger supports, and exactly the evidence they rest on. */
  ghost predicate Found(st: Spec.State, target: Evidence, context: Context, policy: Policy, receipts: Receipts,
                        exceptions: Exceptions, judged: Judged, excused: Excused, inputs: Artifacts)
  {
    && JudgesChecks(st, target, context, policy, receipts, judged)
    && JudgesExceptions(st, target, context, policy, exceptions, excused)
    && Consistent(DecisionEvidence(target, context, judged, excused))
    && inputs == InputsOf(DecisionEvidence(target, context, judged, excused))
  }

  lemma FitChecksAreJudged(st: Spec.State, target: Evidence, context: Context, policy: Policy, receipts: Receipts, judged: Judged)
    requires Fits(context, policy) && JudgesChecks(st, target, context, policy, receipts, judged)
    ensures forall name | name in policy.requirements :: policy.requirements[name].check in judged
  {
  }

  /** What was judged means what acceptance promises. */
  lemma DraftMeaning(st: Spec.State, target: Evidence, context: Context, policy: Policy, receipts: Receipts,
                     exceptions: Exceptions, judged: Judged, excused: Excused, inputs: Artifacts)
    requires Inv(st) && Fits(context, policy)
    requires Found(st, target, context, policy, receipts, exceptions, judged, excused, inputs)
    ensures var requirements := Statuses(policy, judged, excused);
      && Judges(st, target, context, policy, receipts, exceptions, requirements)
      && (AcceptanceSpec.Verdict(requirements, Invalid(context, policy, receipts, exceptions)) == Accepted <==>
            !Invalid(context, policy, receipts, exceptions)
            && AllMet(st, target, context, policy, receipts, exceptions))
  {
    InvariantIsSound(st);
    StatusesJudge(st, target, context, policy, receipts, exceptions, judged, excused);
    AcceptedExactlyWhenMet(st, target, context, policy, receipts, exceptions, Statuses(policy, judged, excused));
  }

  // ---- When a decision is given ----

  ghost predicate ChecksReadable(st: Spec.State, target: Evidence, context: Context, policy: Policy, receipts: Receipts) {
    forall check | check in context.checks :: CheckOf(st, target, context, policy, receipts, check).Ok?
  }

  ghost predicate RulesReadable(st: Spec.State, target: Evidence, context: Context, policy: Policy, exceptions: Exceptions) {
    forall name | name in policy.requirements && HasException(policy, exceptions, name) ::
      Exception(st, target, context, policy, name, exceptions[name]).Ok?
  }

  ghost function JudgedOn(st: Spec.State, target: Evidence, context: Context, policy: Policy, receipts: Receipts): Judged
    requires ChecksReadable(st, target, context, policy, receipts)
  {
    map check | check in context.checks :: CheckOf(st, target, context, policy, receipts, check).value
  }

  ghost function ExcusedOn(st: Spec.State, target: Evidence, context: Context, policy: Policy, exceptions: Exceptions): Excused
    requires RulesReadable(st, target, context, policy, exceptions)
  {
    map name | name in policy.requirements && HasException(policy, exceptions, name) ::
      Exception(st, target, context, policy, name, exceptions[name]).value
  }

  /** Every check and every rule given an exception can be judged, and no name among the
      evidence judged on stands for two artifacts. */
  ghost predicate CanJudge(st: Spec.State, target: Evidence, context: Context, policy: Policy, receipts: Receipts,
                           exceptions: Exceptions)
  {
    && ChecksReadable(st, target, context, policy, receipts) && RulesReadable(st, target, context, policy, exceptions)
    && Consistent(DecisionEvidence(target, context, JudgedOn(st, target, context, policy, receipts),
                                   ExcusedOn(st, target, context, policy, exceptions)))
  }

  /** The one decision the ledger supports. */
  ghost function DraftOn(st: Spec.State, target: Evidence, context: Context, policy: Policy, receipts: Receipts,
                         exceptions: Exceptions): Draft
    requires Fits(context, policy) && CanJudge(st, target, context, policy, receipts, exceptions)
  {
    var judged, excused := JudgedOn(st, target, context, policy, receipts), ExcusedOn(st, target, context, policy, exceptions);
    DraftOf(st.project, target, context, policy, receipts, exceptions, judged, excused,
            InputsOf(DecisionEvidence(target, context, judged, excused)))
  }

  function DecisionRaw(body: Json): Artifacts {
    map["decision.json" := Encode(body)]
  }

  /** The policy is in force, and everything it asks for can be judged. */
  ghost predicate IsJudged(st: Spec.State, target: Evidence, context: Context, receipts: Receipts, exceptions: Exceptions) {
    Current(context).Some? && CanJudge(st, target, context, Current(context).value, receipts, exceptions)
  }

  /** So it is, and the decision this gives can be committed. */
  ghost predicate CanDecide(st: Spec.State, session: string, scope: string, target: Evidence, context: Context,
                            receipts: Receipts, exceptions: Exceptions)
  {
    && IsJudged(st, target, context, receipts, exceptions)
    && var draft := DraftOn(st, target, context, Current(context).value, receipts, exceptions);
       Committable(st, session, scope, draft.request, DecisionRaw(draft.body))
  }

  lemma JudgedIs(st: Spec.State, target: Evidence, context: Context, policy: Policy, receipts: Receipts, judged: Judged)
    requires JudgesChecks(st, target, context, policy, receipts, judged)
    ensures ChecksReadable(st, target, context, policy, receipts)
    ensures judged == JudgedOn(st, target, context, policy, receipts)
  {
    forall check | check in context.checks
      ensures CheckOf(st, target, context, policy, receipts, check) == Ok(judged[check])
    {
      assert check in judged;
    }
  }

  lemma ExcusedIs(st: Spec.State, target: Evidence, context: Context, policy: Policy, exceptions: Exceptions, excused: Excused)
    requires JudgesExceptions(st, target, context, policy, exceptions, excused)
    ensures RulesReadable(st, target, context, policy, exceptions)
    ensures excused == ExcusedOn(st, target, context, policy, exceptions)
  {
    forall name | name in policy.requirements && HasException(policy, exceptions, name)
      ensures Exception(st, target, context, policy, name, exceptions[name]) == Ok(excused[name])
    {
      assert name in excused;
    }
  }

  /** What was found is what the ledger supports. */
  lemma FoundIs(st: Spec.State, target: Evidence, context: Context, policy: Policy, receipts: Receipts,
                exceptions: Exceptions, judged: Judged, excused: Excused, inputs: Artifacts)
    requires Fits(context, policy)
    requires Found(st, target, context, policy, receipts, exceptions, judged, excused, inputs)
    ensures CanJudge(st, target, context, policy, receipts, exceptions)
    ensures DraftOn(st, target, context, policy, receipts, exceptions)
         == DraftOf(st.project, target, context, policy, receipts, exceptions, judged, excused, inputs)
  {
    JudgedIs(st, target, context, policy, receipts, judged);
    ExcusedIs(st, target, context, policy, exceptions, excused);
  }

  // ---- When an acceptance is given ----

  /** Every request the host's checks are pinned to cites what the ledger holds. */
  ghost predicate ChecksOnLedger(st: Spec.State, context: Context) {
    forall check | check in context.checks && context.checks[check].Some? ::
      Spec.OriginMatches(st, context.checks[check].value.origin)
  }

  lemma CheckIsReadable(st: Spec.State, target: Evidence, request: Option<Request>, receipt: Option<OpId>,
                        fields: set<string>, gate: bool)
    requires Inv(st) && PlainSnapshots(st.project)
    requires request.Some? ==> Spec.OriginMatches(st, request.value.origin)
    ensures var result := CheckResult(st, target, request, receipt, fields, gate);
      result.Ok? && (SourceOf(result.value).Some? ==> OnLedger(st, SourceOf(result.value).value))
  {
    var result := CheckResult(st, target, request, receipt, fields, gate);
    if SourceOf(result.value).Some? {
      var row := Spec.Find(st.operations, request.value.origin.operationId).value;
      assert st.operations[row] in st.operations;
      SettledOnLedger(st, st.operations[row], "result.json");
    }
  }

  lemma ExceptionIsReadable(st: Spec.State, target: Evidence, context: Context, policy: Policy, rule: string, id: OpId)
    requires Inv(st) && PlainSnapshots(st.project) && AllOnLedger(st, ScopeEvidence(target, context))
    ensures var result := Exception(st, target, context, policy, rule, id);
      result.Ok? && (result.value.evidence.Some? ==> OnLedger(st, result.value.evidence.value))
  {
    OnLedgerIsCitable(st, ScopeEvidence(target, context));
    var row := Spec.Find(st.operations, id);
    if row.Some? {
      var op := st.operations[row.value];
      assert op in st.operations && OperationOk(st, op);
      if op.completion.Some? && EXCEPTION_FILE in op.completion.value.observation.artifacts {
        SettledOnLedger(st, op, EXCEPTION_FILE);
      }
    }
  }

  /** On evidence the ledger holds, everything can be judged, and citing it is matched. */
  lemma OnLedgerCanJudge(st: Spec.State, target: Evidence, context: Context, policy: Policy, receipts: Receipts,
                         exceptions: Exceptions)
    requires Inv(st) && PlainSnapshots(st.project) && Fits(context, policy)
    requires AllOnLedger(st, ScopeEvidence(target, context)) && ChecksOnLedger(st, context)
    ensures CanJudge(st, target, context, policy, receipts, exceptions)
    ensures Spec.OriginMatches(st, DraftOn(st, target, context, policy, receipts, exceptions).request.origin)
  {
    forall check | check in context.checks
      ensures CheckReads(st, target, context, policy, receipts, check)
    {
      CheckIsReadable(st, target, context.checks[check], if check in receipts then receipts[check] else None,
                      FieldsOf(policy, check), IsGated(policy, check));
    }
    forall name | name in policy.requirements && HasException(policy, exceptions, name)
      ensures RuleReads(st, target, context, policy, exceptions, name)
    {
      ExceptionIsReadable(st, target, context, policy, name, exceptions[name]);
    }
    FindingsOnLedger(st, target, context, policy, receipts, exceptions);
    OnLedgerIsCitable(st, DecisionEvidence(target, context, JudgedOn(st, target, context, policy, receipts),
                                           ExcusedOn(st, target, context, policy, exceptions)));
  }

  ghost predicate CheckReads(st: Spec.State, target: Evidence, context: Context, policy: Policy, receipts: Receipts, check: string)
    requires check in context.checks
  {
    var result := CheckOf(st, target, context, policy, receipts, check);
    result.Ok? && (SourceOf(result.value).Some? ==> OnLedger(st, SourceOf(result.value).value))
  }

  ghost predicate RuleReads(st: Spec.State, target: Evidence, context: Context, policy: Policy, exceptions: Exceptions, name: string)
    requires name in exceptions
  {
    var result := Exception(st, target, context, policy, name, exceptions[name]);
    result.Ok? && (result.value.evidence.Some? ==> OnLedger(st, result.value.evidence.value))
  }

  lemma FindingsOnLedger(st: Spec.State, target: Evidence, context: Context, policy: Policy, receipts: Receipts,
                         exceptions: Exceptions)
    requires AllOnLedger(st, ScopeEvidence(target, context))
    requires forall check | check in context.checks :: CheckReads(st, target, context, policy, receipts, check)
    requires forall name | name in policy.requirements && HasException(policy, exceptions, name) ::
      RuleReads(st, target, context, policy, exceptions, name)
    ensures ChecksReadable(st, target, context, policy, receipts) && RulesReadable(st, target, context, policy, exceptions)
    ensures AllOnLedger(st, DecisionEvidence(target, context, JudgedOn(st, target, context, policy, receipts),
                                             ExcusedOn(st, target, context, policy, exceptions)))
  {
    assert ChecksReadable(st, target, context, policy, receipts) && RulesReadable(st, target, context, policy, exceptions);
    var judged, excused := JudgedOn(st, target, context, policy, receipts), ExcusedOn(st, target, context, policy, exceptions);
    forall e | e in CheckEvidence(judged)
      ensures OnLedger(st, e)
    {
      var check :| check in judged && SourceOf(judged[check]) == Some(e);
      assert CheckReads(st, target, context, policy, receipts, check);
    }
    forall e | e in RuleEvidence(excused)
      ensures OnLedger(st, e)
    {
      var name :| name in excused && excused[name].evidence == Some(e);
      assert RuleReads(st, target, context, policy, exceptions, name);
    }
  }

  function ExceptionRaw(body: Json): Artifacts {
    map[EXCEPTION_FILE := Encode(body)]
  }

  ghost function ExceptionRequest(st: Spec.State, target: Evidence, context: Context, rule: string, reason: string): Request
    requires Current(context).Some? && Consistent(ScopeEvidence(target, context))
  {
    RequestFor(st.project, EXCEPTION, InputsOf(ScopeEvidence(target, context)),
               ExceptionBody(target, context, Current(context).value, rule, reason))
  }

  /** A reasoned exception for a rule of the policy in force. */
  ghost predicate IsExcusable(target: Evidence, context: Context, rule: string, reason: string) {
    !Blank(reason) && Current(context).Some? && IsRule(context.policy.artifact, rule)
    && Consistent(ScopeEvidence(target, context))
  }

  /** So it is, and its record can be committed. */
  ghost predicate CanExcuse(st: Spec.State, session: string, scope: string, target: Evidence, context: Context,
                            rule: string, reason: string)
  {
    IsExcusable(target, context, rule, reason)
    && Committable(st, session, scope, ExceptionRequest(st, target, context, rule, reason),
                   ExceptionRaw(ExceptionBody(target, context, Current(context).value, rule, reason)))
  }

  lemma ScopeElements(target: Evidence, context: Context)
    ensures Elements([target, context.policy, context.revision]) == ScopeEvidence(target, context)
  {
  }

  lemma RuleIsAsked(context: Context, rule: string)
    requires Current(context).Some?
    ensures IsRule(context.policy.artifact, rule) <==>
      rule in Current(context).value.requirements && Current(context).value.requirements[rule].kind == Rule
  {
    ParsedReads(context.policy.artifact, Current(context).value);
    RulesAsked(context.policy.artifact, Current(context).value, rule);
  }

  lemma ReasonIsGiven(target: Evidence, context: Context, policy: Policy, rule: string, reason: string)
    requires !Blank(reason)
    ensures ReasonOf(Encode(ExceptionBody(target, context, policy, rule, reason))) == Some(reason)
  {
  }

  /** The operation that settled this request with this record excuses the rule. */
  lemma RecordExcuses(op: Operation, project: Project, target: Evidence, context: Context, policy: Policy, rule: string,
                      reason: string)
    requires !Blank(reason) && Consistent(ScopeEvidence(target, context))
    requires var body := ExceptionBody(target, context, policy, rule, reason);
      && op.request == RequestFor(project, EXCEPTION, InputsOf(ScopeEvidence(target, context)), body)
      && op.completion.Some? && op.completion.value.result.outcome == Succeeded
      && op.completion.value.observation.artifacts == ExceptionRaw(body)
    ensures Excuses(op, project, target, context, policy, rule, op.Id())
  {
    ReasonIsGiven(target, context, policy, rule, reason);
  }

  lemma RecordedExceptionExcuses(st: Spec.State, target: Evidence, context: Context, rule: string, reason: string,
                                 done: Completion)
    requires Current(context).Some? && !Blank(reason) && Consistent(ScopeEvidence(target, context))
    requires done.result.outcome == Succeeded
    requires done.observation.artifacts == ExceptionRaw(ExceptionBody(target, context, Current(context).value, rule, reason))
    requires Recorded(st, ExceptionRequest(st, target, context, rule, reason), done)
    ensures IsExcepted(st, target, context, rule, ExceptionRequest(st, target, context, rule, reason).origin.operationId)
  {
    var policy := Current(context).value;
    var op :| op in st.operations && op.request == ExceptionRequest(st, target, context, rule, reason)
              && op.completion == Some(done);
    RecordExcuses(op, st.project, target, context, policy, rule, reason);
    ExcusesExcepts(op, st.project, target, context, policy, rule, op.Id());
  }

  lemma CommittedExceptionExcuses(st: Spec.State, session: string, scope: string, target: Evidence, context: Context,
                                  rule: string, reason: string, elapsed: nat)
    requires Inv(st) && Current(context).Some? && !Blank(reason) && Consistent(ScopeEvidence(target, context))
    requires CommitStep(st, session, scope, ExceptionRequest(st, target, context, rule, reason),
                        ExceptionRaw(ExceptionBody(target, context, Current(context).value, rule, reason)), elapsed).out.Ok?
    ensures var request := ExceptionRequest(st, target, context, rule, reason);
      var raw := ExceptionRaw(ExceptionBody(target, context, Current(context).value, rule, reason));
      IsExcepted(CommitStep(st, session, scope, request, raw, elapsed).st, target, context, rule, request.origin.operationId)
  {
    var policy := Current(context).value;
    var request := ExceptionRequest(st, target, context, rule, reason);
    var raw := ExceptionRaw(ExceptionBody(target, context, policy, rule, reason));
    var step := CommitStep(st, session, scope, request, raw, elapsed);
    CommitRecords(st, session, scope, request, raw, elapsed);
    RecordedExceptionExcuses(step.st, target, context, rule, reason, step.out.value);
  }

  /** Everything is met, what the decision cites is on the ledger, nothing blocks its
      scope, and its ID is its own. */
  ghost predicate CanAccept(st: Spec.State, session: string, scope: string, target: Evidence, context: Context,
                            receipts: Receipts, exceptions: Exceptions)
  {
    var policy := Current(context);
    && policy.Some? && AcceptedBy(st, target, context, receipts, exceptions)
    && PlainSnapshots(st.project) && AllOnLedger(st, ScopeEvidence(target, context)) && ChecksOnLedger(st, context)
    && session in st.sessions && Spec.ScopeKnown(st, scope) && Spec.BudgetOpen(st, scope) && !ScopeBlocked(st, scope)
    && (CanJudge(st, target, context, policy.value, receipts, exceptions) ==>
          var draft := DraftOn(st, target, context, policy.value, receipts, exceptions);
          Unclaimed(st, scope, draft.request, DecisionRaw(draft.body)))
  }

  /** When everything is met the decision accepts. */
  lemma DraftAccepts(st: Spec.State, target: Evidence, context: Context, policy: Policy, receipts: Receipts,
                     exceptions: Exceptions)
    requires Inv(st) && Fits(context, policy) && CanJudge(st, target, context, policy, receipts, exceptions)
    ensures DraftOn(st, target, context, policy, receipts, exceptions).status == Accepted <==>
      !Invalid(context, policy, receipts, exceptions) && AllMet(st, target, context, policy, receipts, exceptions)
  {
    var judged, excused := JudgedOn(st, target, context, policy, receipts), ExcusedOn(st, target, context, policy, exceptions);
    DraftMeaning(st, target, context, policy, receipts, exceptions, judged, excused,
                 InputsOf(DecisionEvidence(target, context, judged, excused)));
  }

  /** The decision accepts exactly when what its policy document asks for is met. */
  lemma DraftAcceptsAsAsked(st: Spec.State, target: Evidence, context: Context, receipts: Receipts, exceptions: Exceptions)
    requires Inv(st) && IsJudged(st, target, context, receipts, exceptions)
    ensures InForce(context)
    ensures DraftOn(st, target, context, Current(context).value, receipts, exceptions).status == Accepted <==>
      AcceptedBy(st, target, context, receipts, exceptions)
  {
    DraftAccepts(st, target, context, Current(context).value, receipts, exceptions);
    AcceptedAsAsked(st, target, context, receipts, exceptions);
    CurrentIsInForce(context);
  }

  lemma DecisionIsNamed(body: Json)
    ensures DecisionRaw(body) != map[] && NamesOk(DecisionRaw(body))
    ensures ExceptionRaw(body) != map[] && NamesOk(ExceptionRaw(body))
  {
    assert "decision.json" in DecisionRaw(body) && 'd' in "decision.json";
    assert EXCEPTION_FILE in ExceptionRaw(body) && 'r' in EXCEPTION_FILE;
  }

  /** Then an accepting decision can be given. */
  lemma AcceptanceIsGiven(st: Spec.State, session: string, scope: string, target: Evidence, context: Context,
                          receipts: Receipts, exceptions: Exceptions)
    requires Inv(st) && CanAccept(st, session, scope, target, context, receipts, exceptions)
    ensures CanDecide(st, session, scope, target, context, receipts, exceptions)
    ensures DraftOn(st, target, context, Current(context).value, receipts, exceptions).status == Accepted
  {
    var policy := Current(context).value;
    AcceptedAsAsked(st, target, context, receipts, exceptions);
    OnLedgerCanJudge(st, target, context, policy, receipts, exceptions);
    DraftAccepts(st, target, context, policy, receipts, exceptions);
    DecisionIsNamed(DraftOn(st, target, context, policy, receipts, exceptions).body);
  }

  datatype Decision = Decision(status: Status, requirements: map<string, Status>, completion: Completion)

  class Acceptance {
    const ledger: Ledger
    const session: string
    const scope: string

    constructor (ledger: Ledger, session: string, scope: string)
      ensures this.ledger == ledger && this.session == session && this.scope == scope
    {
      this.ledger, this.session, this.scope := ledger, session, scope;
    }

    /** Reserve, begin and complete a decision. The host may die between any two of these:
        then the decision may be left unknown, and nothing else was settled. */
    method Commit(request: Request, raw: Artifacts, elapsed: nat) returns (out: Attempted<Completion>)
      requires ledger.Valid()
      modifies ledger
      ensures ledger.Valid() && SettlesOnly(old(ledger.View()), ledger.View(), request, raw)
      ensures out.Died? ==> ledger.mortal
      ensures !out.Died? ==> ledger.View() == CommitStep(old(ledger.View()), session, scope, request, raw, elapsed).st
      ensures !out.Died? ==> out == From(CommitStep(old(ledger.View()), session, scope, request, raw, elapsed).out)
      ensures !out.Died? ==> (out.Done? <==> Committable(old(ledger.View()), session, scope, request, raw))
    {
      ghost var st := ledger.View();
      CommitSucceeds(st, session, scope, request, raw, elapsed);
      SettlesNothing(st, request, raw);
      if scope != Spec.ROOT && scope !in ledger.scopes {
        return Refused(InvalidInput);
      }
      // Also checked before a recorded decision is reused: a later breach blocks it.
      var open := ledger.CheckBudget(scope);
      if !open {
        return Refused(BudgetExceeded);
      }
      if {
        case ledger.mortal => return Died;
        case true =>
      }
      var reserved := ledger.Reserve(session, request, map[], scope);
      ReserveSettles(st, session, scope, request, raw);
      var op :- From(reserved);
      if op.completion.Some? {
        var done := op.completion.value;
        if done.result.outcome != Succeeded || done.observation.artifacts != raw {
          return Refused(Conflict);
        }
        return Done(done);
      }
      out := BeginAndComplete(st, request, raw, elapsed);
    }

    method BeginAndComplete(ghost st: Spec.State, request: Request, raw: Artifacts, elapsed: nat)
      returns (out: Attempted<Completion>)
      requires ledger.Valid() && SettlesOnly(st, ledger.View(), request, raw)
      modifies ledger
      ensures ledger.Valid() && SettlesOnly(st, ledger.View(), request, raw)
      ensures out.Died? ==> ledger.mortal
      ensures !out.Died? ==>
        var begun := Spec.Begin(old(ledger.View()), session, request);
        var step := Spec.Complete(begun.st, session, request, Result(Succeeded, map[], elapsed), raw);
        if begun.out == Ok(true) then ledger.View() == step.st && out == From(step.out)
        else ledger.View() == begun.st && out == (if begun.out.Err? then Refused(begun.out.error) else Refused(UnknownOutcome))
    {
      ghost var reserved := ledger.View();
      if {
        case ledger.mortal => return Died;
        case true =>
      }
      var begun := ledger.Begin(session, request);
      BeginSettles(reserved, session, request, raw);
      SettlesTransitive(st, reserved, ledger.View(), request, raw);
      var granted :- From(begun);
      if !granted {
        return Refused(UnknownOutcome);
      }
      if {
        case ledger.mortal => return Died;
        case true =>
      }
      ghost var sent := ledger.View();
      var completed := ledger.Complete(session, request, Result(Succeeded, map[], elapsed), raw);
      CompleteSettles(sent, session, request, elapsed, raw);
      SettlesTransitive(st, sent, ledger.View(), request, raw);
      out := From(completed);
    }

    method Check(target: Evidence, request: Option<Request>, receipt: Option<OpId>, fields: set<string>, gate: bool)
      returns (out: Outcomes<CheckValue>)
      requires ledger.Valid()
      ensures out == CheckResult(ledger.View(), target, request, receipt, fields, gate)
    {
      if request.None? {
        return Ok(Blocked(Unknown, None));
      }
      if gate && !Binds(request.value, target) {
        return Ok(Blocked(Unsupported, None));
      }
      if receipt.None? {
        return Ok(Blocked(Missing, None));
      }
      if receipt.value == Named("") {
        return Ok(Blocked(Unsupported, None));
      }
      if receipt.value != request.value.origin.operationId {
        var known := ledger.FindRow(receipt.value);
        return Ok(Blocked(if known.Some? then Stale else Unsupported, None));
      }
      var found := ledger.LookupRow(request.value);
      match found {
        case Err(Conflict) => out := Ok(Blocked(Unsupported, None));
        case Err(error) => out := Err(error);
        case Ok(None) => out := Ok(Blocked(Missing, None));
        case Ok(Some(row)) =>
          var completion := ledger.operations[row].completion;
          out := if completion.None? then Ok(Blocked(Unknown, None)) else Ok(ResultOf(completion.value, fields));
      }
    }

    method JudgeException(target: Evidence, context: Context, policy: Policy, rule: string, id: OpId)
      returns (out: Outcomes<ExceptionResult>)
      requires ledger.Valid()
      ensures out == Exception(ledger.View(), target, context, policy, rule, id)
    {
      var found := ledger.FindRow(id);
      if found.None? {
        return Ok(ExceptionResult(Missing, None));
      }
      var op := ledger.operations[found.value];
      var looked := ledger.LookupRow(op.request);
      if looked.Err? {
        return Err(looked.error);
      }
      if op.completion.None? {
        return Ok(ExceptionResult(Unknown, None));
      }
      var done := op.completion.value;
      if done.result.outcome != Succeeded || EXCEPTION_FILE !in done.observation.artifacts {
        return Ok(ExceptionResult(Unsupported, None));
      }
      var evidence := Captured(done.observation, EXCEPTION_FILE);
      var reason := ReasonOf(evidence.artifact);
      if reason.None? {
        return Ok(ExceptionResult(Unsupported, Some(evidence)));
      }
      var expected := ExceptionBody(target, context, policy, rule, reason.value);
      var inputs := Collect([target, context.policy, context.revision]);
      assert Elements([target, context.policy, context.revision]) == ScopeEvidence(target, context);
      if inputs.None? {
        return Err(InvalidInput);
      }
      if evidence.artifact.value != expected || op.request != RequestFor(ledger.project, EXCEPTION, inputs.value, expected) {
        return Ok(ExceptionResult(Stale, Some(evidence)));
      }
      return Ok(ExceptionResult(Excepted, Some(evidence)));
    }

    method JudgeChecks(target: Evidence, context: Context, policy: Policy, receipts: Receipts)
      returns (out: Outcomes<Judged>, cited: seq<Evidence>)
      requires ledger.Valid()
      ensures out.Ok? ==> JudgesChecks(ledger.View(), target, context, policy, receipts, out.value)
      ensures out.Ok? ==> Elements(cited) == CheckEvidence(out.value)
      ensures out.Err? ==> exists check | check in context.checks ::
        CheckOf(ledger.View(), target, context, policy, receipts, check).Err?
    {
      var judged: Judged := map[];
      cited := [];
      var names := context.checks.Keys;
      while names != {}
        invariant names <= context.checks.Keys && judged.Keys == context.checks.Keys - names
        invariant forall check | check in judged ::
          CheckOf(ledger.View(), target, context, policy, receipts, check) == Ok(judged[check])
        invariant Elements(cited) == CheckEvidence(judged)
        decreases names
      {
        var check :| check in names;
        var value := Check(target, context.checks[check], if check in receipts then receipts[check] else None,
                           FieldsOf(policy, check), IsGated(policy, check));
        assert value == CheckOf(ledger.View(), target, context, policy, receipts, check);
        if value.Err? {
          return Err(value.error), [];
        }
        OneMoreCheck(judged, check, value.value);
        judged := judged[check := value.value];
        cited := Append(cited, SourceOf(value.value));
        names := names - {check};
      }
      out := Ok(judged);
    }

    method JudgeExceptions(target: Evidence, context: Context, policy: Policy, exceptions: Exceptions)
      returns (out: Outcomes<Excused>, cited: seq<Evidence>)
      requires ledger.Valid()
      ensures out.Ok? ==> JudgesExceptions(ledger.View(), target, context, policy, exceptions, out.value)
      ensures out.Ok? ==> Elements(cited) == RuleEvidence(out.value)
      ensures out.Err? ==> !RulesReadable(ledger.View(), target, context, policy, exceptions)
    {
      var excused: Excused := map[];
      cited := [];
      var names := policy.requirements.Keys;
      while names != {}
        invariant names <= policy.requirements.Keys
        invariant forall name :: name in excused <==>
          name in policy.requirements && name !in names && HasException(policy, exceptions, name)
        invariant forall name | name in excused ::
          name in exceptions
          && Exception(ledger.View(), target, context, policy, name, exceptions[name]) == Ok(excused[name])
        invariant Elements(cited) == RuleEvidence(excused)
        decreases names
      {
        var name :| name in names;
        if HasException(policy, exceptions, name) {
          var result := JudgeException(target, context, policy, name, exceptions[name]);
          if result.Err? {
            return Err(result.error), [];
          }
          OneMoreRule(excused, name, result.value);
          excused := excused[name := result.value];
          cited := Append(cited, result.value.evidence);
        }
        names := names - {name};
      }
      out := Ok(excused);
    }

    /** Judge every check and exception, collecting the evidence judged on. */
    method Judge(target: Evidence, context: Context, policy: Policy, receipts: Receipts, exceptions: Exceptions)
      returns (judged: Judged, excused: Excused, inputs: Outcomes<Artifacts>)
      requires ledger.Valid()
      ensures inputs.Ok? ==>
        Found(ledger.View(), target, context, policy, receipts, exceptions, judged, excused, inputs.value)
      ensures inputs.Err? ==> !CanJudge(ledger.View(), target, context, policy, receipts, exceptions)
    {
      judged, excused := map[], map[];
      var checks, checkEvidence := JudgeChecks(target, context, policy, receipts);
      if checks.Err? {
        return judged, excused, Err(checks.error);
      }
      var rules, ruleEvidence := JudgeExceptions(target, context, policy, exceptions);
      if rules.Err? {
        return judged, excused, Err(rules.error);
      }
      judged, excused := checks.value, rules.value;
      JudgedIs(ledger.View(), target, context, policy, receipts, judged);
      ExcusedIs(ledger.View(), target, context, policy, exceptions, excused);
      var evidence := [target, context.policy, context.revision] + checkEvidence + ruleEvidence;
      assert Elements(evidence) == DecisionEvidence(target, context, judged, excused);
      var collected := Collect(evidence);
      inputs := if collected.None? then Err(InvalidInput) else Ok(collected.value);
    }

    /** Resolve current requirements, check evidence, and commit the decision. Unless the host
        dies, a decision is returned exactly when it can be made and committed; it is the one
        the ledger supports, and accepts exactly when every requirement is met. */
    method Accept(target: Evidence, context: Context, receipts: Receipts, exceptions: Exceptions, elapsed: nat)
      returns (out: Attempted<Decision>)
      requires ledger.Valid()
      modifies ledger
      ensures ledger.Valid()
      ensures out.Died? ==> ledger.mortal
      ensures !IsJudged(old(ledger.View()), target, context, receipts, exceptions) ==> ledger.View() == old(ledger.View())
      ensures IsJudged(old(ledger.View()), target, context, receipts, exceptions) ==>
        var draft := DraftOn(old(ledger.View()), target, context, Current(context).value, receipts, exceptions);
        && SettlesOnly(old(ledger.View()), ledger.View(), draft.request, DecisionRaw(draft.body))
        && (out.Done? ==>
              var step := CommitStep(old(ledger.View()), session, scope, draft.request, DecisionRaw(draft.body), elapsed);
              && ledger.View() == step.st && step.out.Ok?
              && out.value == Decision(draft.status, draft.requirements, step.out.value))
      ensures !out.Died? ==> (out.Done? <==> CanDecide(old(ledger.View()), session, scope, target, context, receipts, exceptions))
      ensures out.Done? ==> InForce(context)
      ensures out.Done? ==>
        (out.value.status == Accepted <==> AcceptedBy(old(ledger.View()), target, context, receipts, exceptions))
      ensures CanAccept(old(ledger.View()), session, scope, target, context, receipts, exceptions) ==>
        out.Died? || (out.Done? && out.value.status == Accepted)
    {
      ghost var st := ledger.View();
      if CanAccept(st, session, scope, target, context, receipts, exceptions) {
        AcceptanceIsGiven(st, session, scope, target, context, receipts, exceptions);
      }
      var draft := Drafted(target, context, receipts, exceptions);
      if draft.Err? {
        return Refused(draft.error);
      }
      DraftAcceptsAsAsked(st, target, context, receipts, exceptions);
      var completion :- Commit(draft.value.request, DecisionRaw(draft.value.body), elapsed);
      out := Done(Decision(draft.value.status, draft.value.requirements, completion));
    }

    /** The decision the ledger supports, unless it cannot be judged. */
    method Drafted(target: Evidence, context: Context, receipts: Receipts, exceptions: Exceptions) returns (out: Outcomes<Draft>)
      requires ledger.Valid()
      ensures out.Ok? <==> IsJudged(ledger.View(), target, context, receipts, exceptions)
      ensures out.Ok? ==> out.value == DraftOn(ledger.View(), target, context, Current(context).value, receipts, exceptions)
    {
      var current := Current(context);
      if current.None? {
        return Err(InvalidInput);
      }
      var policy := current.value;
      var judged, excused, inputs := Judge(target, context, policy, receipts, exceptions);
      if inputs.Err? {
        return Err(inputs.error);
      }
      FitChecksAreJudged(ledger.View(), target, context, policy, receipts, judged);
      FoundIs(ledger.View(), target, context, policy, receipts, exceptions, judged, excused, inputs.value);
      out := Ok(DraftOf(ledger.project, target, context, policy, receipts, exceptions, judged, excused, inputs.value));
    }

    /** The request that records an exception, for a rule of the policy in force. */
    method ExceptionDraft(target: Evidence, context: Context, rule: string, reason: string) returns (out: Outcomes<Request>)
      requires ledger.Valid()
      ensures out.Ok? <==> IsExcusable(target, context, rule, reason)
      ensures out.Ok? ==> out.value == ExceptionRequest(ledger.View(), target, context, rule, reason)
    {
      var current := Current(context);
      if Blank(reason) || current.None? {
        return Err(InvalidInput);
      }
      var policy := current.value;
      RuleIsAsked(context, rule);
      if rule !in policy.requirements || policy.requirements[rule].kind != Rule {
        return Err(InvalidInput);
      }
      var inputs := Collect([target, context.policy, context.revision]);
      ScopeElements(target, context);
      if inputs.None? {
        return Err(InvalidInput);
      }
      out := Ok(RequestFor(ledger.project, EXCEPTION, inputs.value, ExceptionBody(target, context, policy, rule, reason)));
    }

    /** Record a host-authorised rule exception for this exact current scope. */
    method RecordException(target: Evidence, context: Context, rule: string, reason: string, elapsed: nat)
      returns (out: Attempted<OpId>)
      requires ledger.Valid()
      modifies ledger
      ensures ledger.Valid()
      ensures out.Died? ==> ledger.mortal
      ensures ledger.View() == old(ledger.View()) || (
        && IsExcusable(target, context, rule, reason)
        && SettlesOnly(old(ledger.View()), ledger.View(),
                       ExceptionRequest(old(ledger.View()), target, context, rule, reason),
                       ExceptionRaw(ExceptionBody(target, context, Current(context).value, rule, reason))))
      ensures out.Done? ==> IsRule(context.policy.artifact, rule)
      ensures out.Done? ==> IsExcepted(ledger.View(), target, context, rule, out.value)
      ensures !out.Died? ==> (out.Done? <==> CanExcuse(old(ledger.View()), session, scope, target, context, rule, reason))
    {
      var request := ExceptionDraft(target, context, rule, reason);
      if request.Err? {
        return Refused(request.error);
      }
      ghost var before := ledger.View();
      var raw := ExceptionRaw(ExceptionBody(target, context, Current(context).value, rule, reason));
      var committed :- Commit(request.value, raw, elapsed);
      CommittedExceptionExcuses(before, session, scope, target, context, rule, reason, elapsed);
      out := Done(request.value.origin.operationId);
    }
  }

  lemma InvariantIsSound(st: Spec.State)
    requires Inv(st)
    ensures Sound(st)
  {
    assert forall op | op in st.operations :: OperationOk(st, op);
  }
}
