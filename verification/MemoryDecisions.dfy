/** What acceptance decides is what memory goes by. */
module MemoryDecisions {
  import opened Records
  import Spec = LedgerSpec
  import opened LedgerInvariant
  import opened Evidences
  import opened AcceptanceSpec
  import opened AcceptancePolicy
  import opened AcceptanceCommit
  import opened AcceptanceHost
  import Memory = MemoryRecords

  lemma StatusTextsDiffer(a: Status, b: Status)
    ensures StatusText(a) == StatusText(b) ==> a == b
  {
    assert |"passed"| == 6 && |"excepted"| == 8 && |"accepted"| == 8 && |"rejected"| == 8 && |"missing"| == 7;
    assert |"stale"| == 5 && |"unknown"| == 7 && |"unproved"| == 8 && |"unsupported"| == 11;
    assert |"infrastructure_failure"| == 22;
    assert "excepted"[0] == 'e' && "rejected"[0] == 'r' && "unproved"[0] == 'u' && "accepted"[0] == 'a';
    assert "missing"[0] == 'm' && "unknown"[0] == 'u';
  }

  lemma StatusTexts(status: Status)
    ensures StatusText(status) == "accepted" <==> status == Accepted
  {
    StatusTextsDiffer(status, Accepted);
  }

  /** A recorded decision says which candidate, policy and revision it is about, and its
      status. */
  lemma DecisionSays(target: Evidence, context: Context, status: Status, requirements: map<string, Status>,
                     receipts: Receipts, exceptions: Exceptions, other: Status)
    ensures var body := DecisionBody(target, context, status, requirements, receipts, exceptions);
      && body.fields.Keys == {"version", "scope", "status", "requirements", "receipts", "exceptions"}
      && body.fields["version"] == Int(1) && SaysScope(body.fields["scope"], target, context)
      && (body.fields["status"] == Str(StatusText(other)) <==> other == status)
  {
    ScopeIsSaid(ScopeJson(target, context), target, context);
    StatusTextsDiffer(status, other);
  }

  /** And what was found of each requirement. */
  lemma DecisionFinds(target: Evidence, context: Context, status: Status, requirements: map<string, Status>,
                      receipts: Receipts, exceptions: Exceptions, name: string, other: Status)
    ensures var body := DecisionBody(target, context, status, requirements, receipts, exceptions);
      && "requirements" in body.fields && body.fields["requirements"].Obj?
      && (name in body.fields["requirements"].fields <==> name in requirements)
      && (name in requirements ==>
            (body.fields["requirements"].fields[name] == Str(StatusText(other)) <==> other == requirements[name]))
  {
    if name in requirements {
      StatusTextsDiffer(requirements[name], other);
    }
  }

  /** And which receipts and exceptions it went by. */
  lemma DecisionGoesBy(target: Evidence, context: Context, status: Status, requirements: map<string, Status>,
                       receipts: Receipts, exceptions: Exceptions, name: string)
    ensures var body := DecisionBody(target, context, status, requirements, receipts, exceptions);
      && "receipts" in body.fields && body.fields["receipts"].Obj?
      && "exceptions" in body.fields && body.fields["exceptions"].Obj?
      && (name in body.fields["receipts"].fields <==> name in receipts)
      && (name in receipts ==> match receipts[name]
                               case Some(id) => body.fields["receipts"].fields[name] == Id(id)
                               case None => body.fields["receipts"].fields[name] == Null)
      && (name in body.fields["exceptions"].fields <==> name in exceptions)
      && (name in exceptions ==> body.fields["exceptions"].fields[name] == Id(exceptions[name]))
  {
    var ids := map check | check in receipts :: if receipts[check].Some? then Id(receipts[check].value) else Null;
    assert name in ids <==> name in receipts;
  }

  lemma BodyStatus(target: Evidence, context: Context, status: Status, requirements: map<string, Status>,
                   receipts: Receipts, exceptions: Exceptions)
    ensures var body := DecisionBody(target, context, status, requirements, receipts, exceptions);
      "status" in body.fields && body.fields["status"] == Str(StatusText(status))
  {
  }

  /** The target is among what a decision cites. */
  lemma DecisionCitesTarget(target: Evidence, context: Context, judged: Judged, excused: Excused)
    requires Consistent(DecisionEvidence(target, context, judged, excused))
    ensures var inputs := InputsOf(DecisionEvidence(target, context, judged, excused));
      target.name in inputs && inputs[target.name] == target.artifact
  {
    var cited := DecisionEvidence(target, context, judged, excused);
    assert target in ScopeEvidence(target, context) && target in cited;
    assert target.name in Cited(cited) && ArtifactOf(cited, target.name) == target.artifact;
  }

  ghost predicate HasDecision(st: Spec.State, request: Request, target: Evidence, text: string) {
    exists op | op in st.operations ::
      op.request == request && Memory.Decides(op, target) && Memory.DecisionOf(op) == Some(Str(text))
  }

  lemma CommittedBodyCounts(st: Spec.State, session: string, scope: string, request: Request, body: Json, target: Evidence,
                            text: string, elapsed: nat)
    requires Inv(st) && request.origin.kind == "decision"
    requires target.name in request.origin.inputs && request.origin.inputs[target.name] == target.artifact
    requires body.Obj? && "status" in body.fields && body.fields["status"] == Str(text)
    requires CommitStep(st, session, scope, request, map["decision.json" := Encode(body)], elapsed).out.Ok?
    ensures HasDecision(CommitStep(st, session, scope, request, map["decision.json" := Encode(body)], elapsed).st,
                        request, target, text)
  {
    var raw: Artifacts := map["decision.json" := Encode(body)];
    var step := CommitStep(st, session, scope, request, raw, elapsed);
    CommitRecords(st, session, scope, request, raw, elapsed);
    var op :| op in step.st.operations && op.request == request && op.completion == Some(step.out.value);
    assert Memory.DecisionOf(op) == Some(Str(text));
  }

  /** A decision that acceptance has committed counts for memory exactly when it accepts:
      its operation cites the target, and records the status that was decided. */
  lemma CommittedDecisionCounts(st: Spec.State, session: string, scope: string, target: Evidence, context: Context,
                                policy: Policy, receipts: Receipts, exceptions: Exceptions, judged: Judged,
                                excused: Excused, inputs: Artifacts, elapsed: nat)
    requires Inv(st) && Fits(context, policy) && Found(st, target, context, policy, receipts, exceptions, judged, excused, inputs)
    requires var draft := DraftOf(st.project, target, context, policy, receipts, exceptions, judged, excused, inputs);
      CommitStep(st, session, scope, draft.request, map["decision.json" := Encode(draft.body)], elapsed).out.Ok?
    ensures var draft := DraftOf(st.project, target, context, policy, receipts, exceptions, judged, excused, inputs);
      var step := CommitStep(st, session, scope, draft.request, map["decision.json" := Encode(draft.body)], elapsed);
      && HasDecision(step.st, draft.request, target, StatusText(draft.status))
      && (draft.status == Accepted ==> Memory.AcceptedBy(step.st.operations, target))
  {
    var draft := DraftOf(st.project, target, context, policy, receipts, exceptions, judged, excused, inputs);
    DecisionCitesTarget(target, context, judged, excused);
    BodyStatus(target, context, draft.status, draft.requirements, receipts, exceptions);
    StatusTexts(draft.status);
    CommittedBodyCounts(st, session, scope, draft.request, draft.body, target, StatusText(draft.status), elapsed);
  }
}
