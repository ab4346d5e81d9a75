/** What acceptance means, said of the policy document and of recorded evidence. */
module AcceptancePolicy {
  import opened Records
  import opened LedgerSpec
  import opened Evidences
  import opened AcceptanceSpec
  import opened AcceptanceSafety

  // ---- The policy document ----

  /** The document has a requirement of this name, of this kind, check and field. */
  ghost predicate Asks(policy: Blob, name: string, kind: string, check: string, field: string) {
    && policy.Doc? && policy.value.Obj?
    && "requirements" in policy.value.fields && policy.value.fields["requirements"].Obj?
    && name in policy.value.fields["requirements"].fields
    && policy.value.fields["requirements"].fields[name]
         == Obj(map["kind" := Str(kind), "check" := Str(check), "field" := Str(field)])
  }

  function KindText(kind: Kind): string {
    match kind
    case Rule => "rule"
    case Gate => "gate"
  }

  function ConditionJson(condition: Condition): Json {
    Obj(map["kind" := Str(KindText(condition.kind)), "check" := Str(condition.check), "field" := Str(condition.field)])
  }

  function ConditionsJson(conditions: map<string, Condition>): map<string, Json> {
    map name | name in conditions :: ConditionJson(conditions[name])
  }

  function PolicyFields(owner: Json, requirements: Json): (f: map<string, Json>)
    ensures f.Keys == {"version", "owner", "transition", "requirements"}
    ensures f["version"] == Int(1) && f["transition"] == Str("accept-candidate")
    ensures f["owner"] == owner && f["requirements"] == requirements
  {
    map["version" := Int(1), "owner" := owner, "transition" := Str("accept-candidate"), "requirements" := requirements]
  }

  /** A policy as its document writes it. */
  function PolicyJson(policy: Policy): Json {
    Obj(PolicyFields(Str(policy.owner), Obj(ConditionsJson(policy.requirements))))
  }

  predicate ValidPolicy(policy: Policy) {
    && !Blank(policy.owner) && policy.requirements != map[]
    && forall name | name in policy.requirements ::
         !Blank(name) && !Blank(policy.requirements[name].check) && !Blank(policy.requirements[name].field)
  }

  lemma ParsePrintedCondition(condition: Condition)
    requires !Blank(condition.check) && !Blank(condition.field)
    ensures ParseCondition(ConditionJson(condition)) == Some(condition)
  {
  }

  lemma PrintParsedCondition(value: Json)
    requires ParseCondition(value).Some?
    ensures value == ConditionJson(ParseCondition(value).value)
    ensures !Blank(ParseCondition(value).value.check) && !Blank(ParseCondition(value).value.field)
  {
    assert value.fields == ConditionJson(ParseCondition(value).value).fields;
  }

  lemma ParsePrintedConditions(policy: Policy)
    requires ValidPolicy(policy)
    ensures ConditionsOk(ConditionsJson(policy.requirements))
    ensures ParseConditions(ConditionsJson(policy.requirements)) == policy.requirements
  {
    var conditions := ConditionsJson(policy.requirements);
    forall name | name in conditions
      ensures ParseCondition(conditions[name]) == Some(policy.requirements[name])
    {
      ParsePrintedCondition(policy.requirements[name]);
    }
    var name :| name in policy.requirements;
    assert name in conditions;
  }

  lemma PrintedConditions(conditions: map<string, Json>, parsed: map<string, Condition>)
    requires conditions.Keys == parsed.Keys
    requires forall name | name in conditions :: conditions[name] == ConditionJson(parsed[name])
    ensures conditions == ConditionsJson(parsed)
  {
  }

  lemma PrintParsedConditions(conditions: map<string, Json>)
    requires ConditionsOk(conditions)
    ensures conditions == ConditionsJson(ParseConditions(conditions))
  {
    forall name | name in conditions
      ensures conditions[name] == ConditionJson(ParseConditions(conditions)[name])
    {
      PrintParsedCondition(conditions[name]);
    }
    PrintedConditions(conditions, ParseConditions(conditions));
  }

  lemma ParsedConditionsAreValid(conditions: map<string, Json>)
    requires ConditionsOk(conditions)
    ensures ParseConditions(conditions) != map[]
    ensures forall name | name in ParseConditions(conditions) ::
      !Blank(name) && !Blank(ParseConditions(conditions)[name].check) && !Blank(ParseConditions(conditions)[name].field)
  {
    forall name | name in conditions
      ensures ParseConditions(conditions)[name] == ParseCondition(conditions[name]).value
    {
      PrintParsedCondition(conditions[name]);
    }
    var name :| name in conditions;
    assert name in ParseConditions(conditions);
  }

  lemma PolicyFieldsAre(f: map<string, Json>)
    requires f.Keys == {"version", "owner", "transition", "requirements"}
    requires f["version"] == Int(1) && f["transition"] == Str("accept-candidate")
    ensures f == PolicyFields(f["owner"], f["requirements"])
  {
    var other := PolicyFields(f["owner"], f["requirements"]);
    assert forall name | name in f :: f[name] == other[name];
  }

  /** A document read as a policy is that policy written out. */
  lemma PrintParsedPolicy(blob: Blob)
    requires ParsePolicy(blob).Some?
    ensures blob.Doc? && blob.value == PolicyJson(ParsePolicy(blob).value) && ValidPolicy(ParsePolicy(blob).value)
  {
    PrintParsedConditions(blob.value.fields["requirements"].fields);
    ParsedConditionsAreValid(blob.value.fields["requirements"].fields);
    PolicyFieldsAre(blob.value.fields);
  }

  /** A policy written out, in any layout, reads back as the same policy. */
  lemma ParsePrintedPolicy(policy: Policy, layout: nat)
    requires ValidPolicy(policy)
    ensures ParsePolicy(Doc(PolicyJson(policy), layout)) == Some(policy)
  {
    ParsePrintedConditions(policy);
  }

  predicate Requires(policy: Policy, name: string, kind: string, check: string, field: string) {
    name in policy.requirements && kind == KindText(policy.requirements[name].kind)
    && check == policy.requirements[name].check && field == policy.requirements[name].field
  }

  lemma ConditionFields(condition: Condition, kind: string, check: string, field: string)
    ensures ConditionJson(condition) == Obj(map["kind" := Str(kind), "check" := Str(check), "field" := Str(field)]) <==>
      kind == KindText(condition.kind) && check == condition.check && field == condition.field
  {
    var fields := map["kind" := Str(kind), "check" := Str(check), "field" := Str(field)];
    var own := ConditionJson(condition).fields;
    if own == fields {
      assert own["kind"] == fields["kind"] && own["check"] == fields["check"] && own["field"] == fields["field"];
    }
  }

  /** A requirement of the document is the policy's requirement of that name. */
  lemma AsksIs(blob: Blob, policy: Policy, name: string, kind: string, check: string, field: string)
    requires ParsePolicy(blob) == Some(policy)
    ensures Asks(blob, name, kind, check, field) <==> Requires(policy, name, kind, check, field)
  {
    PrintParsedPolicy(blob);
    if name in policy.requirements {
      ConditionFields(policy.requirements[name], kind, check, field);
    }
  }

  /** The requirement is a rule or a gate, and nothing in it is blank. */
  ghost predicate WellPut(policy: Blob, name: string) {
    !Blank(name) && exists kind, check, field ::
      Asks(policy, name, kind, check, field) && (kind == "rule" || kind == "gate") && !Blank(check) && !Blank(field)
  }

  /** The document has the form of a policy: this version and transition, an owner, and
      requirements that are rules or gates. */
  ghost predicate IsPolicy(policy: Blob) {
    && policy.Doc? && policy.value.Obj?
    && policy.value.fields.Keys == {"version", "owner", "transition", "requirements"}
    && policy.value.fields["version"] == Int(1) && policy.value.fields["transition"] == Str("accept-candidate")
    && policy.value.fields["owner"].Str? && !Blank(policy.value.fields["owner"].text)
    && policy.value.fields["requirements"].Obj?
    && policy.value.fields["requirements"].fields != map[]
    && forall name | name in policy.value.fields["requirements"].fields :: WellPut(policy, name)
  }

  ghost predicate HasGate(policy: Blob) {
    exists name, check, field :: Asks(policy, name, "gate", check, field)
  }

  ghost predicate AsksFor(policy: Blob, check: string) {
    exists name, kind, field :: Asks(policy, name, kind, check, field)
  }

  /** The document is a policy the host acts on: it has a gate and asks for exactly the
      host's checks. */
  ghost predicate InForce(context: Context) {
    IsPolicy(context.policy.artifact) && HasGate(context.policy.artifact) && AsksForChecks(context)
  }

  ghost predicate AsksForChecks(context: Context) {
    forall check :: check in context.checks <==> AsksFor(context.policy.artifact, check)
  }

  lemma AskedIs(policy: Blob, name: string, kind: string, check: string, field: string)
    requires Asks(policy, name, kind, check, field) && (kind == "rule" || kind == "gate") && !Blank(check) && !Blank(field)
    ensures ParseCondition(policy.value.fields["requirements"].fields[name])
         == Some(Condition(if kind == "rule" then Rule else Gate, check, field))
  {
    ParsePrintedCondition(Condition(if kind == "rule" then Rule else Gate, check, field));
  }

  /** The policy's requirements are those of the document. */
  ghost predicate Reads(blob: Blob, policy: Policy) {
    forall name, kind, check, field :: Asks(blob, name, kind, check, field) <==> Requires(policy, name, kind, check, field)
  }

  lemma ParsedReads(blob: Blob, policy: Policy)
    requires ParsePolicy(blob) == Some(policy)
    ensures Reads(blob, policy)
  {
    forall name, kind, check, field
      ensures Asks(blob, name, kind, check, field) <==> Requires(policy, name, kind, check, field)
    {
      AsksIs(blob, policy, name, kind, check, field);
    }
  }

  /** A document parses exactly when it has the form of a policy. */
  lemma ParsesIsPolicy(blob: Blob)
    ensures ParsePolicy(blob).Some? <==> IsPolicy(blob)
  {
    if IsPolicy(blob) {
      var conditions := blob.value.fields["requirements"].fields;
      forall name | name in conditions
        ensures !Blank(name) && ParseCondition(conditions[name]).Some?
      {
        assert WellPut(blob, name);
        var kind, check, field :|
          Asks(blob, name, kind, check, field) && (kind == "rule" || kind == "gate") && !Blank(check) && !Blank(field);
        AskedIs(blob, name, kind, check, field);
      }
    }
    if ParsePolicy(blob).Some? {
      ParsedIsPolicy(blob, ParsePolicy(blob).value);
    }
  }

  lemma ParsedIsPolicy(blob: Blob, policy: Policy)
    requires ParsePolicy(blob) == Some(policy)
    ensures IsPolicy(blob)
  {
    PrintParsedPolicy(blob);
    ParsedReads(blob, policy);
    forall name | name in policy.requirements
      ensures WellPut(blob, name)
    {
      var condition := policy.requirements[name];
      assert Requires(policy, name, KindText(condition.kind), condition.check, condition.field);
    }
  }

  lemma ReadsFits(context: Context, policy: Policy)
    requires Reads(context.policy.artifact, policy)
    ensures Fits(context, policy) <==> AsksForChecks(context)
  {
    var blob := context.policy.artifact;
    forall check
      ensures AsksFor(blob, check) <==> exists name | name in policy.requirements :: policy.requirements[name].check == check
    {
      if name :| name in policy.requirements && policy.requirements[name].check == check {
        assert Requires(policy, name, KindText(policy.requirements[name].kind), check, policy.requirements[name].field);
      }
    }
    forall name | name in policy.requirements
      ensures AsksFor(blob, policy.requirements[name].check)
    {
    }
  }

  lemma ReadsGate(blob: Blob, policy: Policy)
    requires Reads(blob, policy)
    ensures HasGate(blob) <==> exists name | name in policy.requirements :: policy.requirements[name].kind == Gate
  {
    if name :| name in policy.requirements && policy.requirements[name].kind == Gate {
      assert Requires(policy, name, "gate", policy.requirements[name].check, policy.requirements[name].field);
    }
  }

  lemma CurrentParsed(context: Context, policy: Policy)
    requires ParsePolicy(context.policy.artifact) == Some(policy)
    ensures Current(context).Some? <==> HasGate(context.policy.artifact) && AsksForChecks(context)
  {
    ParsedReads(context.policy.artifact, policy);
    ReadsFits(context, policy);
    ReadsGate(context.policy.artifact, policy);
  }

  /** The host acts on a policy exactly when its document is one. */
  lemma CurrentIsInForce(context: Context)
    ensures Current(context).Some? <==> InForce(context)
  {
    ParsesIsPolicy(context.policy.artifact);
    if ParsePolicy(context.policy.artifact).Some? {
      CurrentParsed(context, ParsePolicy(context.policy.artifact).value);
    }
  }

  // ---- What is met ----

  /** The operation is the check's exact request, settled successfully, and reports true
      or false for exactly the fields the document asks of the check, true for this one. */
  ghost predicate Reports(op: Operation, request: Request, policy: Blob, check: string, field: string) {
    && op.request == request
    && op.completion.Some? && op.completion.value.result.outcome == Succeeded
    && var artifacts := op.completion.value.observation.artifacts;
    && "result.json" in artifacts && artifacts["result.json"].Doc? && artifacts["result.json"].value.Obj?
    && var fields := artifacts["result.json"].value.fields;
    && (forall name :: name in fields <==> AsksField(policy, check, name))
    && (forall name | name in fields :: fields[name].Bool?)
    && field in fields && fields[field] == Bool(true)
  }

  ghost predicate AsksField(policy: Blob, check: string, field: string) {
    exists name, kind :: Asks(policy, name, kind, check, field)
  }

  ghost predicate Gates(policy: Blob, check: string) {
    exists name, field :: Asks(policy, name, "gate", check, field)
  }

  /** The check ran as the host requests it now, is the one its receipt names, takes the
      target itself as an input when a gate asks for it, and reports the field true. */
  ghost predicate PassesBy(st: State, target: Evidence, context: Context, receipts: Receipts, check: string, field: string) {
    var policy := context.policy.artifact;
    && check in context.checks && context.checks[check].Some?
    && var request := context.checks[check].value;
    && (Gates(policy, check) ==>
          target.name in request.origin.inputs && request.origin.inputs[target.name] == target.artifact)
    && check in receipts && receipts[check] == Some(request.origin.operationId)
    && request.origin.operationId != Named("")
    && exists op | op in st.operations :: Reports(op, request, policy, check, field)
  }

  /** The operation is a successful record of an exception to this rule, with a reason and
      in the owner's name, for exactly this target, policy, revision and these checks. */
  ghost predicate ExceptedBy(op: Operation, project: Project, target: Evidence, context: Context, rule: string, id: OpId) {
    && op.request.origin.operationId == id
    && op.completion.Some? && op.completion.value.result.outcome == Succeeded
    && var artifacts := op.completion.value.observation.artifacts;
    && "rule-exception.json" in artifacts && artifacts["rule-exception.json"].Doc?
    && SaysException(artifacts["rule-exception.json"].value, target, context, rule)
    && IsRequestFor(op.request, project, {target, context.policy, context.revision}, artifacts["rule-exception.json"].value)
  }

  ghost predicate SaysException(body: Json, target: Evidence, context: Context, rule: string) {
    && body.Obj? && body.fields.Keys == {"version", "scope", "owner", "rule", "reason"}
    && body.fields["version"] == Int(1)
    && SaysScope(body.fields["scope"], target, context)
    && context.policy.artifact.Doc? && context.policy.artifact.value.Obj? && "owner" in context.policy.artifact.value.fields
    && body.fields["owner"] == context.policy.artifact.value.fields["owner"]
    && body.fields["rule"] == Str(rule)
    && body.fields["reason"].Str? && !Blank(body.fields["reason"].text)
  }

  ghost predicate SaysScope(scope: Json, target: Evidence, context: Context) {
    && scope.Obj? && scope.fields.Keys == {"target", "policy", "revision", "checks"}
    && SaysEvidence(scope.fields["target"], target)
    && SaysEvidence(scope.fields["policy"], context.policy)
    && SaysEvidence(scope.fields["revision"], context.revision)
    && scope.fields["checks"].Obj?
    && var checks := scope.fields["checks"].fields;
    && checks.Keys == context.checks.Keys
    && forall check | check in checks ::
         checks[check] == match context.checks[check] case Some(request) => RequestDigest(request) case None => Null
  }

  predicate SaysEvidence(value: Json, evidence: Evidence) {
    && value.Obj? && value.fields.Keys == {"name", "artifact"}
    && value.fields["name"] == Str(evidence.name) && value.fields["artifact"] == Digest(evidence.artifact)
  }

  /** The request cites exactly this evidence and is named by it and the body. */
  ghost predicate IsRequestFor(request: Request, project: Project, evidence: set<Evidence>, body: Json) {
    && request.context == project
    && request.origin.kind == "rule-exception" && request.origin.producer == "warranted-acceptance"
    && request.origin.version == "1"
    && Cites(request.origin.inputs, evidence)
    && IsIdFor(request.origin.operationId, request.origin.inputs, body)
  }

  predicate IsIdFor(id: OpId, inputs: Artifacts, body: Json) {
    && id.Hashed? && id.kind == "rule-exception"
    && id.value.Obj? && id.value.fields.Keys == {"inputs", "body"} && id.value.fields["body"] == body
    && id.value.fields["inputs"].Obj? && id.value.fields["inputs"].fields.Keys == inputs.Keys
    && forall name | name in inputs :: id.value.fields["inputs"].fields[name] == Digest(inputs[name])
  }

  ghost predicate IsExcepted(st: State, target: Evidence, context: Context, rule: string, id: OpId) {
    exists op | op in st.operations :: ExceptedBy(op, st.project, target, context, rule, id)
  }

  ghost predicate AskedIsMet(st: State, target: Evidence, context: Context, receipts: Receipts, exceptions: Exceptions,
                             name: string, kind: string, check: string, field: string)
  {
    if kind == "rule" && name in exceptions then IsExcepted(st, target, context, name, exceptions[name])
    else PassesBy(st, target, context, receipts, check, field)
  }

  /** Every requirement of the document is met: it passes, or it is a rule with an exception. */
  ghost predicate AllAskedIsMet(st: State, target: Evidence, context: Context, receipts: Receipts, exceptions: Exceptions) {
    forall name, kind, check, field | Asks(context.policy.artifact, name, kind, check, field) ::
      AskedIsMet(st, target, context, receipts, exceptions, name, kind, check, field)
  }

  ghost predicate IsRule(policy: Blob, name: string) {
    exists check, field :: Asks(policy, name, "rule", check, field)
  }

  /** The call names checks of the host and rules of the document only. */
  ghost predicate NamesKnown(context: Context, receipts: Receipts, exceptions: Exceptions) {
    && (forall check | check in receipts :: check in context.checks)
    && (forall name | name in exceptions :: IsRule(context.policy.artifact, name))
  }

  /** The call names what there is, and everything the document asks for is met. */
  ghost predicate AcceptedBy(st: State, target: Evidence, context: Context, receipts: Receipts, exceptions: Exceptions) {
    && NamesKnown(context, receipts, exceptions)
    && AllAskedIsMet(st, target, context, receipts, exceptions)
  }

  // ---- The judged requirements are the document's ----

  lemma FieldsAsked(blob: Blob, policy: Policy, check: string, field: string)
    requires Reads(blob, policy)
    ensures field in FieldsOf(policy, check) <==> AsksField(blob, check, field)
  {
    if field in FieldsOf(policy, check) {
      var name :| name in policy.requirements && policy.requirements[name].check == check
                  && policy.requirements[name].field == field;
      assert Requires(policy, name, KindText(policy.requirements[name].kind), check, field);
    }
    if AsksField(blob, check, field) {
      var name, kind :| Asks(blob, name, kind, check, field);
      assert Requires(policy, name, kind, check, field);
    }
  }

  lemma GatesAsked(blob: Blob, policy: Policy, check: string)
    requires Reads(blob, policy)
    ensures IsGated(policy, check) <==> Gates(blob, check)
  {
    if name :| name in policy.requirements && policy.requirements[name].check == check
               && policy.requirements[name].kind == Gate {
      assert Requires(policy, name, "gate", check, policy.requirements[name].field);
    }
    if Gates(blob, check) {
      var name, field :| Asks(blob, name, "gate", check, field);
      assert Requires(policy, name, "gate", check, field);
    }
  }

  lemma ReportsProves(op: Operation, request: Request, blob: Blob, policy: Policy, check: string, field: string)
    requires Reads(blob, policy)
    ensures Reports(op, request, blob, check, field) <==> Proves(op, request, FieldsOf(policy, check), field)
  {
    forall name
      ensures name in FieldsOf(policy, check) <==> AsksField(blob, check, name)
    {
      FieldsAsked(blob, policy, check, name);
    }
  }

  lemma PassesAsked(st: State, target: Evidence, context: Context, policy: Policy, receipts: Receipts, name: string)
    requires Reads(context.policy.artifact, policy)
    requires name in policy.requirements && policy.requirements[name].check in context.checks
    ensures Passes(st, target, context, policy, receipts, name)
       <==> PassesBy(st, target, context, receipts, policy.requirements[name].check, policy.requirements[name].field)
  {
    var check, field := policy.requirements[name].check, policy.requirements[name].field;
    GatesAsked(context.policy.artifact, policy, check);
    if context.checks[check].Some? {
      forall op | op in st.operations
        ensures Reports(op, context.checks[check].value, context.policy.artifact, check, field)
           <==> Proves(op, context.checks[check].value, FieldsOf(policy, check), field)
      {
        ReportsProves(op, context.checks[check].value, context.policy.artifact, policy, check, field);
      }
    }
  }

  lemma EvidenceIsSaid(value: Json, evidence: Evidence)
    ensures SaysEvidence(value, evidence) <==> value == EvidenceJson(evidence)
  {
    if SaysEvidence(value, evidence) {
      assert value.fields == EvidenceJson(evidence).fields;
    }
  }

  lemma ScopeIsSaid(value: Json, target: Evidence, context: Context)
    ensures SaysScope(value, target, context) <==> value == ScopeJson(target, context)
  {
    EvidenceIsSaid(EvidenceJson(target), target);
    EvidenceIsSaid(EvidenceJson(context.policy), context.policy);
    EvidenceIsSaid(EvidenceJson(context.revision), context.revision);
    if SaysScope(value, target, context) {
      EvidenceIsSaid(value.fields["target"], target);
      EvidenceIsSaid(value.fields["policy"], context.policy);
      EvidenceIsSaid(value.fields["revision"], context.revision);
      assert value.fields["checks"].fields == ScopeJson(target, context).fields["checks"].fields;
      assert value.fields == ScopeJson(target, context).fields;
    }
  }

  lemma ExceptionFields(f: map<string, Json>, scope: Json, owner: Json, rule: Json, reason: Json)
    ensures f == map["version" := Int(1), "scope" := scope, "owner" := owner, "rule" := rule, "reason" := reason] <==>
      && f.Keys == {"version", "scope", "owner", "rule", "reason"}
      && f["version"] == Int(1) && f["scope"] == scope && f["owner"] == owner && f["rule"] == rule && f["reason"] == reason
  {
  }

  lemma ExceptionIsSaid(blob: Blob, target: Evidence, context: Context, policy: Policy, rule: string)
    requires blob.Doc? && ParsePolicy(context.policy.artifact) == Some(policy)
    ensures SaysException(blob.value, target, context, rule) <==>
      ReasonOf(blob).Some? && blob.value == ExceptionBody(target, context, policy, rule, ReasonOf(blob).value)
  {
    PrintParsedPolicy(context.policy.artifact);
    if blob.value.Obj? && ReasonOf(blob).Some? {
      ExceptionFields(blob.value.fields, ScopeJson(target, context), Str(policy.owner), Str(rule), Str(ReasonOf(blob).value));
      if "scope" in blob.value.fields {
        ScopeIsSaid(blob.value.fields["scope"], target, context);
      }
    }
  }

  lemma RequestFields(f: map<string, Json>, inputs: Json, body: Json)
    ensures f == map["inputs" := inputs, "body" := body] <==>
      f.Keys == {"inputs", "body"} && f["inputs"] == inputs && f["body"] == body
  {
  }

  lemma InputsFields(f: map<string, Json>, inputs: Artifacts)
    ensures f == InputsJson(inputs).fields <==>
      f.Keys == inputs.Keys && forall name | name in inputs :: f[name] == Digest(inputs[name])
  {
  }

  lemma RequestIsFor(request: Request, project: Project, evidence: set<Evidence>, body: Json)
    ensures IsRequestFor(request, project, evidence, body) <==>
      Consistent(evidence) && request == RequestFor(project, EXCEPTION, InputsOf(evidence), body)
  {
    if Cites(request.origin.inputs, evidence) {
      InputsAreUnique(evidence, request.origin.inputs);
      IdIsFor(request.origin.operationId, request.origin.inputs, body);
    }
  }

  lemma IdIsFor(id: OpId, inputs: Artifacts, body: Json)
    ensures IsIdFor(id, inputs, body) <==>
      id == Hashed(EXCEPTION, Obj(map["inputs" := InputsJson(inputs), "body" := body]))
  {
    if id.Hashed? && id.value.Obj? {
      RequestFields(id.value.fields, InputsJson(inputs), body);
      if "inputs" in id.value.fields && id.value.fields["inputs"].Obj? {
        InputsFields(id.value.fields["inputs"].fields, inputs);
      }
    }
  }

  lemma ExcusesExcepts(op: Operation, project: Project, target: Evidence, context: Context, policy: Policy, rule: string, id: OpId)
    requires ParsePolicy(context.policy.artifact) == Some(policy)
    ensures Excuses(op, project, target, context, policy, rule, id) <==> ExceptedBy(op, project, target, context, rule, id)
  {
    if op.completion.Some? && EXCEPTION_FILE in op.completion.value.observation.artifacts {
      var blob := op.completion.value.observation.artifacts[EXCEPTION_FILE];
      if blob.Doc? {
        ExceptionIsSaid(blob, target, context, policy, rule);
        RequestIsFor(op.request, project, ScopeEvidence(target, context), blob.value);
      }
    }
  }

  lemma ExceptionAsked(st: State, target: Evidence, context: Context, policy: Policy, rule: string, id: OpId)
    requires ParsePolicy(context.policy.artifact) == Some(policy)
    ensures (exists op | op in st.operations :: Excuses(op, st.project, target, context, policy, rule, id))
       <==> IsExcepted(st, target, context, rule, id)
  {
    forall op | op in st.operations
      ensures Excuses(op, st.project, target, context, policy, rule, id)
         <==> ExceptedBy(op, st.project, target, context, rule, id)
    {
      ExcusesExcepts(op, st.project, target, context, policy, rule, id);
    }
  }

  /** A requirement is met as judged exactly when it is met as the document asks. */
  lemma MetAsked(st: State, target: Evidence, context: Context, policy: Policy, receipts: Receipts, exceptions: Exceptions,
                 name: string)
    requires ParsePolicy(context.policy.artifact) == Some(policy)
    requires name in policy.requirements && policy.requirements[name].check in context.checks
    ensures Met(st, target, context, policy, receipts, exceptions, name) <==>
      AskedIsMet(st, target, context, receipts, exceptions, name, KindText(policy.requirements[name].kind),
                 policy.requirements[name].check, policy.requirements[name].field)
  {
    if HasException(policy, exceptions, name) {
      ExceptionAsked(st, target, context, policy, name, exceptions[name]);
    } else {
      ParsedReads(context.policy.artifact, policy);
      PassesAsked(st, target, context, policy, receipts, name);
    }
  }

  lemma RulesAsked(blob: Blob, policy: Policy, name: string)
    requires Reads(blob, policy)
    ensures IsRule(blob, name) <==> name in policy.requirements && policy.requirements[name].kind == Rule
  {
    if name in policy.requirements && policy.requirements[name].kind == Rule {
      assert Requires(policy, name, "rule", policy.requirements[name].check, policy.requirements[name].field);
    }
    if IsRule(blob, name) {
      var check, field :| Asks(blob, name, "rule", check, field);
      assert Requires(policy, name, "rule", check, field);
    }
  }

  lemma AllMetAsked(st: State, target: Evidence, context: Context, policy: Policy, receipts: Receipts, exceptions: Exceptions)
    requires Current(context) == Some(policy)
    ensures AllMet(st, target, context, policy, receipts, exceptions) <==> AllAskedIsMet(st, target, context, receipts, exceptions)
  {
    if AllMet(st, target, context, policy, receipts, exceptions) {
      forall name, kind, check, field | Asks(context.policy.artifact, name, kind, check, field)
        ensures AskedIsMet(st, target, context, receipts, exceptions, name, kind, check, field)
      {
        AsksIs(context.policy.artifact, policy, name, kind, check, field);
        MetAsked(st, target, context, policy, receipts, exceptions, name);
      }
    }
    if AllAskedIsMet(st, target, context, receipts, exceptions) {
      forall name | name in policy.requirements
        ensures Met(st, target, context, policy, receipts, exceptions, name)
      {
        var condition := policy.requirements[name];
        AsksIs(context.policy.artifact, policy, name, KindText(condition.kind), condition.check, condition.field);
        MetAsked(st, target, context, policy, receipts, exceptions, name);
      }
    }
  }

  lemma InvalidAsAsked(context: Context, policy: Policy, receipts: Receipts, exceptions: Exceptions)
    requires Current(context) == Some(policy)
    ensures NamesKnown(context, receipts, exceptions) <==> !Invalid(context, policy, receipts, exceptions)
  {
    ParsedReads(context.policy.artifact, policy);
    forall name | name in exceptions
      ensures IsRule(context.policy.artifact, name) <==>
        name in policy.requirements && policy.requirements[name].kind == Rule
    {
      RulesAsked(context.policy.artifact, policy, name);
    }
  }

  /** What the policy's requirements ask for is what its document does: the verdict accepts
      exactly when the call names known checks and rules, and every requirement written in
      the document passes, or is written a rule and has an exception recorded for it. */
  lemma AcceptedAsAsked(st: State, target: Evidence, context: Context, receipts: Receipts, exceptions: Exceptions)
    requires Current(context).Some?
    ensures AcceptedBy(st, target, context, receipts, exceptions) <==>
      !Invalid(context, Current(context).value, receipts, exceptions)
      && AllMet(st, target, context, Current(context).value, receipts, exceptions)
  {
    AllMetAsked(st, target, context, Current(context).value, receipts, exceptions);
    InvalidAsAsked(context, Current(context).value, receipts, exceptions);
  }
}
