/** Host operations a worker asks for in batches, and what the ledger holds of a batch. */
module OperationsSpec {
  import opened Records
  import opened Names
  import opened LedgerSpec
  import opened LedgerSafety
  import opened Evidences
  import Ordering
  import opened RecordOnce

  // ---- Declared operations ----

  /** What domain code gives back. */
  datatype Produced = Produced(outcome: Outcome, usage: Amounts, raw: Artifacts, shown: Json, files: map<string, Blob>, elapsed: nat)

  /** Trusted domain code. `inputs` are the task files it may read, in order; `receipt`
      finds out how an execution with an external effect ended, from its files and
      arguments, when the operation has a way to. */
  datatype Declared = Declared(
    version: string,
    effectFree: bool,
    reusable: bool,
    shared: bool,
    inputs: seq<(string, Evidence)>,
    units: set<string>,
    parse: Json -> Option<Json>,
    reservation: Json -> Amounts,
    receipt: Option<(map<string, Blob>, Json) -> Option<Produced>>)

  /** One batch printed by a tool attempt: `base` starts the IDs of its items. */
  datatype Batch = Batch(
    base: string,
    scope: string,
    stdout: Evidence,
    catalogue: map<string, Declared>,
    items: seq<Json>)

  datatype Plan = Invalid(shown: Json) | Run(name: string, declared: Declared, arguments: Json)

  function ErrorShown(message: string, name: Option<string>): Json {
    var fields := map["status" := Str("error"), "error" := Str(message)];
    Obj(if name.Some? then fields["operation" := Str(name.value)] else fields)
  }

  /** What one item asks for, decided without the ledger. */
  function PlanOf(batch: Batch, i: nat): Plan
    requires i < |batch.items|
  {
    var item := batch.items[i];
    if !item.Obj? || item.fields.Keys != {"operation", "arguments"} || !item.fields["operation"].Str? then
      Invalid(ErrorShown("malformed request item", None))
    else
      var name := item.fields["operation"].text;
      if name !in batch.catalogue then Invalid(ErrorShown("unknown operation", None))
      else
        var declared := batch.catalogue[name];
        match declared.parse(item.fields["arguments"])
        case None => Invalid(ErrorShown("invalid arguments", Some(name)))
        case Some(arguments) => Run(name, declared, arguments)
  }

  predicate Runs(batch: Batch, i: nat) {
    i < |batch.items| && PlanOf(batch, i).Run?
  }

  // ---- IDs ----

  function ItemText(base: string, i: nat): string {
    base + Decimal(i + 1)
  }

  function ItemId(base: string, i: nat): OpId {
    Named(ItemText(base, i))
  }

  datatype Part = Input | Reuse | Refusal

  function PartText(part: Part): string {
    match part
    case Input => "/input"
    case Reuse => "/reuse"
    case Refusal => "/refused"
  }

  function PartId(base: string, i: nat, part: Part): OpId {
    Named(ItemText(base, i) + PartText(part))
  }

  ghost predicate IsPart(base: string, id: OpId) {
    exists i: nat, part: Part :: id == PartId(base, i, part)
  }

  ghost predicate IsItem(base: string, id: OpId) {
    exists i: nat :: id == ItemId(base, i)
  }

  /** Every ID a batch uses. */
  ghost function BatchIds(base: string): iset<OpId> {
    iset id | IsPart(base, id) || IsItem(base, id)
  }

  /** Every ID the host uses while it handles this batch. */
  ghost function IdsOf(batch: Batch): iset<OpId> {
    iset id | IsPart(batch.base, id) || IsItemOf(batch, id)
  }

  ghost predicate IsItemOf(batch: Batch, id: OpId) {
    exists i: nat :: i < |batch.items| && id == ItemId(batch.base, i)
  }

  // ---- What an item records ----

  const STDOUT: string := "stdout"
  const ARGUMENTS: string := "arguments.json"
  const KEY: string := "key.json"
  const INPUTS: string := "inputs.json"
  const REUSE: string := "reuse.json"
  const REFUSED: string := "refused.json"
  const SHOWN: string := "shown.json"
  const UNMEASURED: string := "unmeasured.json"
  const OPERATION: string := "operation"

  function Files(inputs: seq<(string, Evidence)>): map<string, Evidence> {
    if inputs == [] then map[]
    else Files(inputs[..|inputs| - 1])[inputs[|inputs| - 1].0 := inputs[|inputs| - 1].1]
  }

  function KeyJson(name: string, declared: Declared, arguments: Json): Json {
    var files := Files(declared.inputs);
    Obj(map["operation" := Str(name),
            "version" := Str(declared.version),
            "arguments" := arguments,
            "inputs" := Obj(map n | n in files :: Digest(files[n].artifact))])
  }

  function KeyBlob(plan: Plan): Blob
    requires plan.Run?
  {
    Encode(KeyJson(plan.name, plan.declared, plan.arguments))
  }

  function InputRaw(plan: Plan): Artifacts
    requires plan.Run?
  {
    var files := Files(plan.declared.inputs);
    map[ARGUMENTS := Encode(plan.arguments),
        KEY := KeyBlob(plan),
        INPUTS := Encode(Obj(map n | n in files :: Str(files[n].name)))]
  }

  function InputOrigin(batch: Batch, i: nat): Origin {
    Origin(PartId(batch.base, i, Input), "operation-input", "warranted-operations", "1", map[])
  }

  function Cite(cited: seq<Evidence>): Artifacts {
    if cited == [] then map[]
    else Cite(cited[..|cited| - 1])[cited[|cited| - 1].name := cited[|cited| - 1].artifact]
  }

  predicate HasInput(capture: Observation) {
    ARGUMENTS in capture.artifacts && KEY in capture.artifacts && INPUTS in capture.artifacts
  }

  /** Own captures first, then the declared files, each under the evidence it cites. */
  function CitedEvidence(batch: Batch, plan: Plan, capture: Observation): seq<Evidence>
    requires plan.Run? && HasInput(capture)
  {
    [batch.stdout, Captured(capture, ARGUMENTS), Captured(capture, INPUTS), Captured(capture, KEY)]
    + seq(|plan.declared.inputs|, k requires 0 <= k < |plan.declared.inputs| => plan.declared.inputs[k].1)
  }

  function ItemRequest(batch: Batch, project: Project, i: nat, plan: Plan, capture: Observation): Request
    requires plan.Run? && HasInput(capture)
  {
    Request(
      Origin(ItemId(batch.base, i), OPERATION, plan.name, plan.declared.version, Cite(CitedEvidence(batch, plan, capture))),
      project)
  }

  function RefusalOrigin(batch: Batch, i: nat, plan: Plan): Origin
    requires plan.Run?
  {
    Origin(PartId(batch.base, i, Refusal), "operation-refused", plan.name, "1", map[])
  }

  function RefusalShown(plan: Plan, reason: string): Json
    requires plan.Run?
  {
    Obj(map["status" := Str("refused"), "operation" := Str(plan.name), "error" := Str(reason)])
  }

  function ReuseOrigin(batch: Batch, i: nat, plan: Plan, capture: Observation): Origin
    requires plan.Run? && HasInput(capture)
  {
    Origin(PartId(batch.base, i, Reuse), "operation-reuse", plan.name, plan.declared.version,
           Cite([Captured(capture, KEY), batch.stdout]))
  }

  function ReuseRaw(source: OpId): Artifacts {
    map[REUSE := Encode(Obj(map["source" := Id(source)]))]
  }

  function ReuseSource(artifacts: Artifacts): Option<OpId> {
    if REUSE in artifacts && artifacts[REUSE].Doc? && artifacts[REUSE].value.Obj?
      && "source" in artifacts[REUSE].value.fields && artifacts[REUSE].value.fields["source"].Id?
    then Some(artifacts[REUSE].value.fields["source"].id)
    else None
  }

  // ---- What a result records ----

  function FileChannels(files: map<string, Blob>): Artifacts {
    var channels := set file | file in files :: FILES + file;
    map channel | channel in channels && channel[|FILES|..] in files :: files[channel[|FILES|..]]
  }

  /** Raw evidence of a result; an oversized shown value is a host failure. */
  function EvidenceOf(produced: Produced, oversized: bool): Artifacts {
    var raw := if oversized then produced.raw["oversized-shown.json" := Encode(produced.shown)] else produced.raw;
    raw[SHOWN := Encode(if oversized then Null else produced.shown)] + FileChannels(produced.files)
  }

  function SettledOutcome(produced: Produced, oversized: bool): Outcome {
    if oversized then InfrastructureFailure
    else if produced.outcome.Failed? then Failed(1)
    else produced.outcome
  }

  // ---- Looking up by channel ----

  predicate EndsWith(name: string, suffix: string) {
    |suffix| <= |name| && name[|name| - |suffix|..] == suffix
  }

  function Matching(inputs: Artifacts, channel: string): set<string> {
    set name | name in inputs && EndsWith(name, "/" + channel)
  }

  /** The first input, in name order, whose name ends in the channel. */
  ghost function CitedChannel(inputs: Artifacts, channel: string): Option<ArtifactRef> {
    var names := Matching(inputs, channel);
    if names == {} then None
    else
      Ordering.RankInjective();
      Some(inputs[Ordering.Least(names, Ordering.Rank)])
  }

  /** A measured result another request for the same key may reuse. */
  ghost predicate Reusable(op: Operation, key: ArtifactRef) {
    && op.request.origin.kind == OPERATION
    && CitedChannel(op.request.origin.inputs, KEY) == Some(key)
    && op.completion.Some?
    && op.completion.value.result.outcome != InfrastructureFailure
    && UNMEASURED !in op.completion.value.observation.artifacts
  }

  // ---- What the ledger holds of an item ----

  function Row(st: State, batch: Batch, i: nat, part: Part): Option<nat> {
    FirstRecord(st.observations, PartId(batch.base, i, part))
  }

  predicate Recorded(st: State, batch: Batch, i: nat, part: Part) {
    Row(st, batch, i, part).Some?
  }

  ghost predicate Ran(st: State, batch: Batch, i: nat) {
    Has(st.operations, ItemId(batch.base, i)) || Recorded(st, batch, i, Reuse)
  }

  ghost predicate Placed(st: State, batch: Batch, i: nat) {
    Ran(st, batch, i) || Recorded(st, batch, i, Refusal)
  }

  ghost predicate Completed(st: State, id: OpId) {
    exists op | op in st.operations :: op.Id() == id && op.completion.Some?
  }

  /** The item's disposition is on record: executed, reused or refused. */
  ghost predicate Decided(st: State, batch: Batch, i: nat) {
    || Completed(st, ItemId(batch.base, i))
    || Recorded(st, batch, i, Reuse)
    || Recorded(st, batch, i, Refusal)
  }

  /** The item's input is captured, and its request cites evidence that exists. */
  ghost predicate Ready(st: State, batch: Batch, i: nat, capture: Observation)
    requires Runs(batch, i)
  {
    var plan, row := PlanOf(batch, i), Row(st, batch, i, Input);
    && row.Some? && IsRecord(st, row.value, InputOrigin(batch, i), InputRaw(plan))
    && capture == st.observations[row.value]
    && OriginMatches(st, ItemRequest(batch, st.project, i, plan, capture).origin)
  }

  /** A recorded reuse names a measured result of the same key, completed before it. */
  ghost predicate ReuseOk(st: State, row: nat, key: ArtifactRef)
    requires row < |st.observations|
  {
    var source := ReuseSource(st.observations[row].artifacts);
    && source.Some?
    && exists op | op in st.operations ::
         && op.Id() == source.value && Reusable(op, key)
         && op.completion.value.observation.sequence <= row
  }

  ghost predicate ItemOk(st: State, batch: Batch, i: nat) {
    Placed(st, batch, i) ==>
      && Runs(batch, i)
      && (exists capture :: Ready(st, batch, i, capture)
            && forall op | op in st.operations && op.Id() == ItemId(batch.base, i) ::
                 op.request == ItemRequest(batch, st.project, i, PlanOf(batch, i), capture))
      && (Recorded(st, batch, i, Reuse) ==>
            !Has(st.operations, ItemId(batch.base, i))
            && ReuseOk(st, Row(st, batch, i, Reuse).value, KeyBlob(PlanOf(batch, i))))
      && (Recorded(st, batch, i, Refusal) ==>
            !Ran(st, batch, i)
            && RefusedOk(st.observations[Row(st, batch, i, Refusal).value].artifacts))
  }

  predicate RefusedOk(artifacts: Artifacts) {
    REFUSED in artifacts && artifacts[REFUSED].Doc?
  }

  /** Items are decided in order, and nothing runs after a refusal. */
  ghost predicate InOrder(st: State, batch: Batch) {
    && (forall i, j | 0 <= i < j < |batch.items| && Runs(batch, i) && Placed(st, batch, j) :: Decided(st, batch, i))
    && (forall i, j | 0 <= i < j < |batch.items| && Recorded(st, batch, i, Refusal) :: !Ran(st, batch, j))
  }

  ghost predicate BatchOk(st: State, batch: Batch) {
    && (forall op | op in st.operations :: !IsPart(batch.base, op.Id()))
    && (forall i | 0 <= i < |batch.items| :: ItemOk(st, batch, i))
    && InOrder(st, batch)
  }

  // ---- What a worker sees ----

  datatype ItemResult = ItemResult(shown: Json, files: map<string, Blob>)

  function OutcomeText(outcome: Outcome): string {
    match outcome
    case Succeeded => "succeeded"
    case Failed(_) => "failed"
    case InfrastructureFailure => "infrastructure_failure"
  }

  const FILES: string := "files/"

  /** The observation and delivered files of one recorded result; `None` where the
      record lacks what it should hold. */
  function Seen(name: string, done: Completion, source: Option<OpId>): Option<ItemResult> {
    var artifacts := done.observation.artifacts;
    var plain := map["status" := Str(OutcomeText(done.result.outcome)), "operation" := Str(name)];
    var fields := if source.Some? then plain["reused_from" := Id(source.value)] else plain;
    if done.result.outcome == InfrastructureFailure then Some(ItemResult(Obj(fields), map[]))
    else if SHOWN !in artifacts || artifacts[SHOWN].Raw? then None
    else
      var delivered := set channel | channel in artifacts && FILES <= channel :: channel[|FILES|..];
      Some(ItemResult(
        Obj(fields["result" := artifacts[SHOWN].value]),
        map file | file in delivered && FILES + file in artifacts :: artifacts[FILES + file]))
  }

  /** The completion of the operation with this ID. */
  ghost function CompletionOf(st: State, id: OpId): (done: Completion)
    requires Completed(st, id)
    ensures exists op | op in st.operations :: op.Id() == id && op.completion == Some(done)
  {
    var op :| op in st.operations && op.Id() == id && op.completion.Some?;
    op.completion.value
  }

  ghost function SourceOf(st: State, batch: Batch, i: nat): OpId
    requires ItemOk(st, batch, i) && Recorded(st, batch, i, Reuse)
    ensures Completed(st, SourceOf(st, batch, i))
  {
    ReuseSource(st.observations[Row(st, batch, i, Reuse).value].artifacts).value
  }

  /** What the recorded disposition of an item shows, and shows on every replay. */
  ghost function ResultOf(st: State, batch: Batch, i: nat): Option<ItemResult>
    requires ItemOk(st, batch, i) && Decided(st, batch, i) && Runs(batch, i)
  {
    var name := PlanOf(batch, i).name;
    if Completed(st, ItemId(batch.base, i)) then Seen(name, CompletionOf(st, ItemId(batch.base, i)), None)
    else if Recorded(st, batch, i, Reuse) then
      var source := SourceOf(st, batch, i);
      Seen(name, CompletionOf(st, source), Some(source))
    else
      var refusal := st.observations[Row(st, batch, i, Refusal).value];
      Some(ItemResult(refusal.artifacts[REFUSED].value, map[]))
  }
}
