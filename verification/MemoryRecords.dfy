/** Where a memory entry comes from: the recorded runs, submissions, checks and notes. */
module MemoryRecords {
  import opened Records
  import opened Names
  import opened LedgerSpec
  import opened LedgerInvariant
  import opened LedgerSafety
  import opened Evidences
  import opened RecordOnce
  import opened TaskSpecs
  import opened TaskRecords
  import opened TaskRuns

  /** What the trusted domain and project declare: the checkers' versions, and the
      environment every result depends on. `length` is the size of stored bytes. */
  datatype Domain = Domain(name: string, checkers: map<string, string>, environment: Blob, length: Blob -> nat)

  /** A run as loaded; `campaign` is what it records of the campaign it belongs to. */
  datatype Run = Run(id: string, record: TaskRun, campaign: Option<Blob>)

  /** What one check or one note file of an assessed submission gives memory. */
  datatype Source = Source(run: Run, index: nat, target: Evidence, name: string, ref: Evidence, items: seq<Json>)

  predicate IsOf(s: Source, run: Run, index: nat, target: Evidence) {
    s.run == run && s.index == index && s.target == target
  }

  const RUN: string := "run/"
  const RUN_SPEC: string := "run-spec"
  const RUN_POLICY: string := "run-policy"
  const CAMPAIGN: string := "campaign.json"
  const POLICY: string := "policy.json"
  const SUBMISSION: string := "submission.json"
  const FACTS: string := "facts.json"
  const NOTES: string := "notes"
  const NOTES_FILE: string := "candidate/notes.json"
  const CANDIDATE: string := "candidate/result.json"
  const CHECK: string := "check/"
  const DECISION: string := "decision.json"
  const PRODUCER: string := "warranted-tasks"
  const NOTES_COUNT: nat := 32
  const NOTES_LIMIT: nat := 16 * 1024

  // ---- Runs ----

  function BeforeSlash(text: string): (head: string)
    ensures '/' !in head && head <= text
    ensures |head| < |text| ==> text[|head|] == '/'
  {
    if text == [] || text[0] == '/' then [] else [text[0]] + BeforeSlash(text[1..])
  }

  /** What follows the first slash of an ID, up to the next one. */
  function SecondPart(text: string): Option<string> {
    var first := BeforeSlash(text);
    if |first| < |text| then Some(BeforeSlash(text[|first| + 1..])) else None
  }

  /** The run a capture's ID names. What follows the last slash of a hashed ID is a digest,
      which names no run. */
  function RunName(id: OpId): (name: Option<string>)
    ensures name.Some? ==> '/' !in name.value
  {
    match id
    case Named(text) => SecondPart(text)
    case Hashed(kind, _) => if '/' in kind then SecondPart(kind + "/") else None
  }

  function RunText(id: string, rest: string): string {
    RUN + id + "/" + rest
  }

  predicate OfRunRecord(o: Observation, id: string) {
    o.origin.operationId == Named(RunText(id, "spec")) || o.origin.operationId == Named(RunText(id, "policy"))
  }

  /** The last capture of a kind under a run's two IDs. */
  function LastOf(observations: seq<Observation>, id: string, kind: string): (last: Option<Observation>)
    ensures last.Some? ==> last.value in observations && OfRunRecord(last.value, id) && last.value.origin.kind == kind
  {
    if observations == [] then None
    else
      var o := observations[|observations| - 1];
      if OfRunRecord(o, id) && o.origin.kind == kind then Some(o)
      else LastOf(observations[..|observations| - 1], id, kind)
  }

  predicate OnlyTheTwoKinds(observations: seq<Observation>, id: string) {
    forall o | o in observations && OfRunRecord(o, id) :: o.origin.kind in {RUN_SPEC, RUN_POLICY}
  }

  function CampaignOf(spec: Observation): Option<Blob> {
    if CAMPAIGN in spec.artifacts then Some(spec.artifacts[CAMPAIGN]) else None
  }

  /** A run the host can load from these captures. */
  predicate Loads(observations: seq<Observation>, run: Run) {
    && OnlyTheTwoKinds(observations, run.id)
    && LastOf(observations, run.id, RUN_SPEC) == Some(run.record.spec)
    && LoadTask(run.record.spec.artifacts) == Some(run.record.task)
    && run.campaign == CampaignOf(run.record.spec) && (run.campaign.Some? ==> run.campaign.value.Doc?)
    && var policy := LastOf(observations, run.id, RUN_POLICY);
       policy.Some? && POLICY in policy.value.artifacts
  }

  /** The campaign split a run records; nothing where its record names none. */
  function SplitOf(campaign: Option<Blob>): Option<Option<string>> {
    match campaign
    case None => Some(None)
    case Some(blob) =>
      if blob.Doc? && blob.value.Obj? && "split" in blob.value.fields && blob.value.fields["split"].Str?
      then Some(Some(blob.value.fields["split"].text))
      else None
  }

  // ---- Submissions ----

  function SubmissionText(run: string, index: nat): string {
    RunText(run, "submission/" + Decimal(index))
  }

  function Padded(index: nat): string {
    if |Decimal(index)| == 1 then "00" + Decimal(index)
    else if |Decimal(index)| == 2 then "0" + Decimal(index)
    else Decimal(index)
  }

  /** The IDs of the tool attempts of a submission's episode begin so. */
  function ToolText(run: string, index: nat): string {
    "episode/" + run + "-s" + Padded(index) + "/tool/"
  }

  /** The captured submission a target stands for. */
  predicate IsTarget(observations: seq<Observation>, run: string, index: nat, target: Evidence) {
    var row := FirstRecord(observations, Named(SubmissionText(run, index)));
    row.Some? && SUBMISSION in observations[row.value].artifacts && target == Captured(observations[row.value], SUBMISSION)
  }

  // ---- Facts and notes ----

  /** The inputs a check of this submission cites: its target, and the evidence of exactly
      the files of the contract in force. */
  ghost predicate CitesContract(run: TaskRun, index: nat, target: Evidence, cited: Artifacts) {
    && Contract(run.task, index).Some?
    && exists visible: Refs, hidden: Refs ::
         && Agree(visible, Contract(run.task, index).value.inputs) && Agree(hidden, Contract(run.task, index).value.private)
         && CitesAll(cited, visible) && CitesAll(cited, hidden)
         && target.name in cited && (Elsewhere(run, target) ==> cited[target.name] == target.artifact)
         && forall n | n in cited :: n == target.name || NamedBy(visible, n) || NamedBy(hidden, n)
  }

  function CheckText(run: string, index: nat, check: string): string {
    SubmissionText(run, index) + "/" + CHECK + check
  }

  function CheckRequest(project: Project, domain: Domain, run: Run, index: nat, check: string, cited: Artifacts): Request
    requires check in domain.checkers
  {
    Request(Origin(Named(CheckText(run.id, index, check)), "check", domain.name + "/" + check, domain.checkers[check], cited),
            project)
  }

  /** The facts a settled check reported. */
  predicate Reports(op: Operation, ref: Evidence, items: seq<Json>) {
    && op.completion.Some? && FACTS in op.completion.value.observation.artifacts
    && ref == Captured(op.completion.value.observation, FACTS)
    && ref.artifact == Doc(List(items), if ref.artifact.Doc? then ref.artifact.layout else 0)
  }

  ghost predicate IsCheckOf(project: Project, domain: Domain, s: Source, check: string, op: Operation) {
    && check in domain.checkers
    && exists cited ::
         CitesContract(s.run.record, s.index, s.target, cited)
         && op.request == CheckRequest(project, domain, s.run, s.index, check, cited)
  }

  /** This check, made of exactly this target and the files in force, reported these facts. */
  ghost predicate FactsOf(operations: seq<Operation>, project: Project, domain: Domain, check: string, s: Source) {
    && s.name == CHECK + check
    && exists op | op in operations :: IsCheckOf(project, domain, s, check, op) && Reports(op, s.ref, s.items)
  }

  /** A check of the contract in force reported these facts. */
  ghost predicate FromCheck(operations: seq<Operation>, project: Project, domain: Domain, s: Source) {
    && Contract(s.run.record.task, s.index).Some?
    && exists check | check in Contract(s.run.record.task, s.index).value.checks :: FactsOf(operations, project, domain, check, s)
  }

  /** Worker notes; nothing where the file is malformed or too large. */
  function NotesOf(domain: Domain, blob: Blob): Option<seq<Json>> {
    if domain.length(blob) <= NOTES_LIMIT && blob.Doc? && blob.value.List? && |blob.value.items| <= NOTES_COUNT
      && forall note | note in blob.value.items :: note.Str?
    then Some(blob.value.items)
    else None
  }

  /** A tool attempt of the submission's episode captured a candidate. */
  predicate Submits(op: Operation, run: string, index: nat) {
    && op.Id().Named? && ToolText(run, index) <= op.Id().text
    && op.completion.Some? && CANDIDATE in op.completion.value.observation.artifacts
  }

  /** The one captured candidate of the submission came with these notes. */
  ghost predicate FromNotes(operations: seq<Operation>, domain: Domain, s: Source) {
    && s.name == NOTES && s.items != []
    && exists op | op in operations ::
         && Submits(op, s.run.id, s.index) && NOTES_FILE in op.completion.value.observation.artifacts
         && s.ref == Captured(op.completion.value.observation, NOTES_FILE)
         && NotesOf(domain, s.ref.artifact) == Some(s.items)
         && forall other | other in operations && Submits(other, s.run.id, s.index) :: other == op
  }

  /** Some recorded run-spec names this run. */
  ghost predicate IsARun(observations: seq<Observation>, id: string) {
    exists o | o in observations :: o.origin.kind == RUN_SPEC && RunName(o.origin.operationId) == Some(id)
  }

  predicate InScope(run: Run, scope: string) {
    run.record.task.memory.Some? && run.record.task.memory.value.scope == scope
  }

  ghost predicate IsSubmitted(observations: seq<Observation>, scope: string, run: Run, index: nat, target: Evidence) {
    && Loads(observations, run) && InScope(run, scope)
    && 1 <= index <= run.record.task.submissions && IsTarget(observations, run.id, index, target)
  }

  ghost predicate Gives(operations: seq<Operation>, project: Project, domain: Domain, s: Source) {
    FromCheck(operations, project, domain, s) || FromNotes(operations, domain, s)
  }

  /** Everything the ledger holds that memory of this scope is made of. */
  ghost predicate Sourced(st: State, domain: Domain, scope: string, s: Source) {
    && IsARun(st.observations, s.run.id) && IsSubmitted(st.observations, scope, s.run, s.index, s.target)
    && Gives(st.operations, st.project, domain, s)
  }

  // ---- Acceptance ----

  /** A completed decision that cites the target, and what it decided. */
  predicate Decides(op: Operation, target: Evidence) {
    && op.request.origin.kind == "decision" && op.completion.Some?
    && target.name in op.request.origin.inputs && op.request.origin.inputs[target.name] == target.artifact
  }

  function DecisionOf(op: Operation): Option<Json>
    requires op.completion.Some?
  {
    var artifacts := op.completion.value.observation.artifacts;
    if DECISION in artifacts && artifacts[DECISION].Doc? && artifacts[DECISION].value.Obj?
      && "status" in artifacts[DECISION].value.fields
    then Some(artifacts[DECISION].value.fields["status"])
    else None
  }

  ghost predicate AcceptedBy(operations: seq<Operation>, target: Evidence) {
    exists op | op in operations :: Decides(op, target) && DecisionOf(op) == Some(Str("accepted"))
  }

  // ---- Versions ----

  const DOMAIN: string := "domain"
  const FILE: string := "file/"
  const VERSION: string := "version"

  function VersionId(name: string, blob: Blob): OpId {
    Hashed("memory-version/" + name, Digest(blob))
  }

  function VersionOrigin(name: string, blob: Blob): Origin {
    Origin(VersionId(name, blob), "memory-version", PRODUCER, "1", map[])
  }

  /** The one record of these bytes under this name. */
  ghost predicate VersionAt(st: State, name: string, blob: Blob, e: Evidence) {
    var row := FirstRecord(st.observations, VersionId(name, blob));
    && row.Some? && st.observations[row.value].artifacts == map[VERSION := blob]
    && e == Captured(st.observations[row.value], VERSION)
  }

  function VersionNames(files: Files, names: set<string>): set<string> {
    {DOMAIN} + set name | name in names && name in files :: FILE + name
  }

  /** A version record for the environment and for each of the named files. */
  ghost predicate VersionsAt(st: State, domain: Domain, files: Files, names: set<string>, versions: map<string, Evidence>) {
    && versions.Keys == VersionNames(files, names)
    && VersionAt(st, DOMAIN, domain.environment, versions[DOMAIN])
    && forall name | name in names && name in files :: VersionAt(st, FILE + name, files[name], versions[FILE + name])
  }

  // ---- What a call records ----

  function EntryText(run: string, index: nat, source: string): string {
    SubmissionText(run, index) + "/memory/" + source
  }

  function EntryOrigin(s: Source): Origin {
    Origin(Named(EntryText(s.run.id, s.index, s.name)), "memory-entry", PRODUCER, "1",
           map[s.target.name := s.target.artifact, s.ref.name := s.ref.artifact])
  }

  function EntryBody(scope: string, s: Source): Json {
    Obj(map["version" := Int(1), "scope" := Str(scope), "run" := Str(s.run.id), "task" := Str(s.run.record.task.id),
            "submission" := Int(s.index), "source" := Str(s.name), "items" := List(s.items)])
  }

  const ENTRY: string := "entry.json"

  function EntryRaw(scope: string, s: Source): Artifacts {
    map[ENTRY := Encode(EntryBody(scope, s))]
  }

  /** Bookkeeping of memory: its IDs are those of no run's record and no submission. */
  ghost predicate IsBookkeeping(id: OpId) {
    || id.Hashed?
    || exists run, index, source :: '/' !in run && id == Named(EntryText(run, index, source))
  }

  /** Only bookkeeping was added: no operation, and nothing of a run. */
  ghost predicate OnlyBookkeeping(st: State, later: State) {
    && Inv(later) && Extends(st, later) && later.operations == st.operations
    && forall k | |st.observations| <= k < |later.observations| ::
         IsBookkeeping(later.observations[k].origin.operationId) && later.observations[k].origin.kind != RUN_SPEC
  }

  lemma BookkeepingTransitive(a: State, b: State, c: State)
    requires OnlyBookkeeping(a, b) && OnlyBookkeeping(b, c)
    ensures OnlyBookkeeping(a, c)
  {
    ExtendsTransitive(a, b, c);
  }

  lemma {:induction false} BeforeSlashOf(head: string, rest: string)
    requires '/' !in head
    ensures BeforeSlash(head + "/" + rest) == head
  {
    var whole := head + "/" + rest;
    if head != [] {
      assert whole[1..] == head[1..] + "/" + rest;
      BeforeSlashOf(head[1..], rest);
    }
  }

  lemma FirstPart(a: string, b: string, x: string, y: string)
    requires '/' !in a && '/' !in b && a + "/" + x == b + "/" + y
    ensures a == b && x == y
  {
    BeforeSlashOf(a, x);
    BeforeSlashOf(b, y);
    assert (a + "/" + x)[|a| + 1..] == x && (b + "/" + y)[|b| + 1..] == y;
  }

  lemma RunTexts(a: string, b: string, x: string, y: string)
    requires '/' !in a && '/' !in b && RunText(a, x) == RunText(b, y)
    ensures a == b && x == y
  {
    assert RunText(a, x)[|RUN|..] == a + "/" + x && RunText(b, y)[|RUN|..] == b + "/" + y;
    FirstPart(a, b, x, y);
  }

  /** Bookkeeping never touches what a run is loaded from. */
  lemma BookkeepingIsNoRecord(o: Observation, id: string)
    requires '/' !in id && IsBookkeeping(o.origin.operationId)
    ensures !OfRunRecord(o, id)
  {
    if o.origin.operationId.Named? {
      var run, index, source :| '/' !in run && o.origin.operationId == Named(EntryText(run, index, source));
      var rest := "submission/" + Decimal(index) + "/memory/" + source;
      assert EntryText(run, index, source) == RunText(run, rest);
      assert rest[1] == 'u' && "spec"[1] == 'p' && "policy"[1] == 'o';
      if o.origin.operationId == Named(RunText(id, "spec")) {
        RunTexts(run, id, rest, "spec");
      } else if o.origin.operationId == Named(RunText(id, "policy")) {
        RunTexts(run, id, rest, "policy");
      }
    }
  }

  lemma {:induction false} LastStays(before: seq<Observation>, after: seq<Observation>, id: string, kind: string)
    requires before <= after
    requires forall k | |before| <= k < |after| :: !OfRunRecord(after[k], id)
    ensures LastOf(after, id, kind) == LastOf(before, id, kind)
  {
    if |after| > |before| {
      LastStays(before, after[..|after| - 1], id, kind);
    } else {
      assert before == after;
    }
  }

  /** A run loads the same after any bookkeeping. */
  lemma LoadsStays(st: State, later: State, run: Run)
    requires OnlyBookkeeping(st, later) && '/' !in run.id
    ensures Loads(later.observations, run) <==> Loads(st.observations, run)
  {
    var before, after := st.observations, later.observations;
    forall k | |before| <= k < |after|
      ensures !OfRunRecord(after[k], run.id)
    {
      BookkeepingIsNoRecord(after[k], run.id);
    }
    LastStays(before, after, run.id, RUN_SPEC);
    LastStays(before, after, run.id, RUN_POLICY);
    forall o | o in after && OfRunRecord(o, run.id)
      ensures o in before
    {
      var k :| 0 <= k < |after| && after[k] == o;
      assert before[k] == o;
    }
    forall o | o in before
      ensures o in after
    {
      var k :| 0 <= k < |before| && before[k] == o;
      assert after[k] == o;
    }
  }

  lemma NumberEndsThere(i: nat, more: string, index: nat)
    ensures "submission/" + Decimal(i) + "/" + more != "submission/" + Decimal(index)
  {
    var head := "submission/";
    var long, short := head + Decimal(i) + "/" + more, head + Decimal(index);
    assert long[|head| + |Decimal(i)|] == '/';
    forall k | |head| <= k < |short|
      ensures short[k] != '/'
    {
      assert short[k] == Decimal(index)[k - |head|] && Decimal(index)[k - |head|] in Decimal(index);
    }
  }

  /** No submission is captured by bookkeeping. */
  lemma BookkeepingIsNoTarget(o: Observation, run: string, index: nat)
    requires '/' !in run && IsBookkeeping(o.origin.operationId)
    ensures o.origin.operationId != Named(SubmissionText(run, index))
  {
    if o.origin.operationId == Named(SubmissionText(run, index)) {
      var other, i, source :| '/' !in other && o.origin.operationId == Named(EntryText(other, i, source));
      var rest := "submission/" + Decimal(i) + "/" + ("memory/" + source);
      assert EntryText(other, i, source) == RunText(other, rest);
      RunTexts(other, run, rest, "submission/" + Decimal(index));
      NumberEndsThere(i, "memory/" + source, index);
    }
  }

  lemma TargetStays(st: State, later: State, run: string, index: nat, target: Evidence)
    requires OnlyBookkeeping(st, later) && '/' !in run
    ensures IsTarget(later.observations, run, index, target) <==> IsTarget(st.observations, run, index, target)
  {
    var id := Named(SubmissionText(run, index));
    var before, after := FirstRecord(st.observations, id), FirstRecord(later.observations, id);
    if before.Some? {
      FirstRecordStays(st.observations, later.observations, id);
    } else if after.Some? {
      assert forall k | 0 <= k < |st.observations| :: st.observations[k] in st.observations;
      BookkeepingIsNoTarget(later.observations[after.value], run, index);
    }
  }

  /** What memory is made of does not change while it is read. */
  lemma SourcedStays(st: State, later: State, scope: string, run: Run, index: nat, target: Evidence)
    requires OnlyBookkeeping(st, later) && '/' !in run.id
    ensures IsSubmitted(later.observations, scope, run, index, target) <==> IsSubmitted(st.observations, scope, run, index, target)
  {
    LoadsStays(st, later, run);
    TargetStays(st, later, run.id, index, target);
  }

  /** No run-spec is recorded by bookkeeping. */
  lemma RunsStay(st: State, later: State, id: string)
    requires OnlyBookkeeping(st, later)
    ensures IsARun(later.observations, id) <==> IsARun(st.observations, id)
  {
    if o :| o in later.observations && o.origin.kind == RUN_SPEC && RunName(o.origin.operationId) == Some(id) {
      var k :| 0 <= k < |later.observations| && later.observations[k] == o;
      assert st.observations[k] == o;
    }
    if o :| o in st.observations && o.origin.kind == RUN_SPEC && RunName(o.origin.operationId) == Some(id) {
      var k :| 0 <= k < |st.observations| && st.observations[k] == o;
      assert later.observations[k] == o;
    }
  }

  /** Memory is made of the same after any bookkeeping. */
  lemma SourcesStay(st: State, later: State, domain: Domain, scope: string, s: Source)
    requires OnlyBookkeeping(st, later)
    ensures Sourced(later, domain, scope, s) <==> Sourced(st, domain, scope, s)
  {
    RunsStay(st, later, s.run.id);
    if IsARun(st.observations, s.run.id) {
      SourcedStays(st, later, scope, s.run, s.index, s.target);
    }
  }
}
