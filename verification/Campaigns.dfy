/** Campaign plans pinned on the ledger, and the splits they keep apart. */
module CampaignSpecs {
  import opened Records
  import opened LedgerSpec
  import opened LedgerSafety
  import opened RecordOnce

  const SPLITS: set<string> := {"training", "development", "held-out"}

  /** A task of a campaign: its ID, what it records as now, and the split it belongs to. */
  datatype CampaignTask = CampaignTask(id: string, digest: Blob, scope: Option<string>, split: string)

  datatype CampaignConfig = CampaignConfig(name: string, record: Json, adapter: Option<Blob>)

  datatype CampaignSpec = CampaignSpec(
    id: string,
    tasks: seq<CampaignTask>,
    configs: seq<CampaignConfig>,
    repetitions: nat)

  datatype Entry = Entry(
    task: string,
    digest: Blob,
    split: string,
    scope: Option<string>,
    config: string,
    configRecord: Json,
    adapter: Option<Blob>,
    repetition: nat)

  datatype Planned = Planned(run: string, entry: Entry)

  datatype Plan = Plan(id: string, repetitions: nat, entries: seq<Planned>)

  /** What the campaign constructor accepts. */
  predicate ValidSpec(spec: CampaignSpec) {
    && spec.tasks != [] && spec.configs != [] && 1 <= spec.repetitions <= 1000
    && (forall t | t in spec.tasks :: t.split in SPLITS)
    && (forall i, j | 0 <= i < j < |spec.tasks| :: spec.tasks[i].id != spec.tasks[j].id)
    && (forall a, b | a in spec.tasks && b in spec.tasks && a.scope.Some? && a.scope == b.scope :: a.split == b.split)
  }

  // ---- The entries of a plan ----

  function EntryFor(task: CampaignTask, config: CampaignConfig, repetition: nat): Entry {
    Entry(task.id, task.digest, task.split, task.scope, config.name, config.record, config.adapter, repetition)
  }

  function ForTask(task: CampaignTask, configs: seq<CampaignConfig>, repetition: nat): seq<Entry> {
    seq(|configs|, k requires 0 <= k < |configs| => EntryFor(task, configs[k], repetition))
  }

  function ForTasks(tasks: seq<CampaignTask>, configs: seq<CampaignConfig>, repetition: nat): seq<Entry> {
    if tasks == [] then []
    else ForTasks(tasks[..|tasks| - 1], configs, repetition) + ForTask(tasks[|tasks| - 1], configs, repetition)
  }

  function ForRepetitions(spec: CampaignSpec, n: nat): seq<Entry> {
    if n == 0 then [] else ForRepetitions(spec, n - 1) + ForTasks(spec.tasks, spec.configs, n)
  }

  /** Every task under every configuration, repetition by repetition. */
  function Entries(spec: CampaignSpec): seq<Entry> {
    ForRepetitions(spec, spec.repetitions)
  }

  lemma {:induction false} TaskOfEntry(tasks: seq<CampaignTask>, configs: seq<CampaignConfig>, repetition: nat, e: Entry)
    requires e in ForTasks(tasks, configs, repetition)
    ensures exists t | t in tasks :: t.id == e.task && t.split == e.split && t.scope == e.scope
  {
    var n := |tasks| - 1;
    if e in ForTasks(tasks[..n], configs, repetition) {
      TaskOfEntry(tasks[..n], configs, repetition, e);
      var t :| t in tasks[..n] && t.id == e.task && t.split == e.split && t.scope == e.scope;
      assert t in tasks;
    } else {
      assert tasks[n] in tasks;
    }
  }

  lemma {:induction false} TaskOfSpecEntry(spec: CampaignSpec, n: nat, e: Entry)
    requires e in ForRepetitions(spec, n)
    ensures exists t | t in spec.tasks :: t.id == e.task && t.split == e.split && t.scope == e.scope
  {
    if e in ForTasks(spec.tasks, spec.configs, n) {
      TaskOfEntry(spec.tasks, spec.configs, n, e);
    } else {
      TaskOfSpecEntry(spec, n - 1, e);
    }
  }

  // ---- Separation ----

  /** A task has one split, and so has a memory scope. */
  predicate Apart(a: Entry, b: Entry) {
    && (a.task == b.task ==> a.split == b.split)
    && (a.scope.Some? && a.scope == b.scope ==> a.split == b.split)
  }

  /** The entries of one valid campaign are apart. */
  lemma SpecEntriesApart(spec: CampaignSpec, a: Entry, b: Entry)
    requires ValidSpec(spec) && a in Entries(spec) && b in Entries(spec)
    ensures Apart(a, b)
  {
    TaskOfSpecEntry(spec, spec.repetitions, a);
    TaskOfSpecEntry(spec, spec.repetitions, b);
    var t :| t in spec.tasks && t.id == a.task && t.split == a.split && t.scope == a.scope;
    var u :| u in spec.tasks && u.id == b.task && u.split == b.split && u.scope == b.scope;
    var i :| 0 <= i < |spec.tasks| && spec.tasks[i] == t;
    var j :| 0 <= j < |spec.tasks| && spec.tasks[j] == u;
  }

  // ---- Recorded plans ----

  function OptionalText(text: Option<string>): Json {
    if text.Some? then Str(text.value) else Null
  }

  function OptionalDigest(blob: Option<Blob>): Json {
    if blob.Some? then Digest(blob.value) else Null
  }

  function PlannedJson(p: Planned): Json {
    Obj(map["run" := Str(p.run),
            "task" := Str(p.entry.task),
            "task_digest" := Digest(p.entry.digest),
            "split" := Str(p.entry.split),
            "scope" := OptionalText(p.entry.scope),
            "config" := Str(p.entry.config),
            "config_record" := p.entry.configRecord,
            "adapter" := OptionalDigest(p.entry.adapter),
            "repetition" := Int(p.entry.repetition)])
  }

  const ENTRY_FIELDS: set<string> :=
    {"run", "task", "task_digest", "split", "scope", "config", "config_record", "adapter", "repetition"}

  function PlannedOf(f: map<string, Json>): Option<Planned>
    requires ENTRY_FIELDS <= f.Keys
  {
    if f["run"].Str? && f["task"].Str? && f["task_digest"].Digest? && f["split"].Str? && f["config"].Str?
      && (f["scope"].Null? || f["scope"].Str?) && (f["adapter"].Null? || f["adapter"].Digest?)
      && f["repetition"].Int? && f["repetition"].number >= 0
    then
      Some(Planned(f["run"].text,
                   Entry(f["task"].text, f["task_digest"].of, f["split"].text,
                         if f["scope"].Str? then Some(f["scope"].text) else None,
                         f["config"].text, f["config_record"],
                         if f["adapter"].Digest? then Some(f["adapter"].of) else None,
                         f["repetition"].number)))
    else None
  }

  function ParsePlanned(value: Json): Option<Planned> {
    if value.Obj? && ENTRY_FIELDS <= value.fields.Keys then PlannedOf(value.fields) else None
  }

  function PlanJson(plan: Plan): Json {
    Obj(map["version" := Int(1),
            "id" := Str(plan.id),
            "repetitions" := Int(plan.repetitions),
            "entries" := List(seq(|plan.entries|, k requires 0 <= k < |plan.entries| => PlannedJson(plan.entries[k])))])
  }

  function ParseEntries(items: seq<Json>): Option<seq<Planned>> {
    if forall k | 0 <= k < |items| :: ParsePlanned(items[k]).Some? then
      Some(seq(|items|, k requires 0 <= k < |items| => ParsePlanned(items[k]).value))
    else None
  }

  function ParsePlan(blob: Blob): Option<Plan> {
    if blob.Doc? && blob.value.Obj? && {"id", "repetitions", "entries"} <= blob.value.fields.Keys then
      var f := blob.value.fields;
      if f["id"].Str? && f["repetitions"].Int? && f["repetitions"].number >= 0 && f["entries"].List? then
        match ParseEntries(f["entries"].items)
        case None => None
        case Some(entries) => Some(Plan(f["id"].text, f["repetitions"].number, entries))
      else None
    else None
  }

  lemma ParseRecordedEntry(p: Planned)
    ensures ParsePlanned(PlannedJson(p)) == Some(p)
  {
    var f := PlannedJson(p).fields;
    assert ENTRY_FIELDS <= f.Keys;
  }

  lemma ParseRecordedEntries(entries: seq<Planned>, items: seq<Json>)
    requires |items| == |entries| && forall k | 0 <= k < |items| :: ParsePlanned(items[k]) == Some(entries[k])
    ensures ParseEntries(items) == Some(entries)
  {
    assert ParseEntries(items).value == entries;
  }

  /** A recorded plan reads back as the same plan. */
  lemma ParseRecordedPlan(plan: Plan)
    ensures ParsePlan(Encode(PlanJson(plan))) == Some(plan)
  {
    var items := PlanJson(plan).fields["entries"].items;
    forall k | 0 <= k < |items|
      ensures ParsePlanned(items[k]) == Some(plan.entries[k])
    {
      ParseRecordedEntry(plan.entries[k]);
    }
    ParseRecordedEntries(plan.entries, items);
  }

  const PLAN: string := "plan.json"
  const CAMPAIGN_PLAN: string := "campaign-plan"

  function CampaignId(id: string): OpId {
    Named("campaign/" + id)
  }

  function PlanOrigin(id: string): Origin {
    Origin(CampaignId(id), CAMPAIGN_PLAN, "warranted-tasks", "1", map[])
  }

  function PlanRaw(plan: Plan): Artifacts {
    map[PLAN := Encode(PlanJson(plan))]
  }

  function PlanOf(o: Observation): Option<Plan> {
    if PLAN in o.artifacts then ParsePlan(o.artifacts[PLAN]) else None
  }

  lemma CampaignIdInjective(a: string, b: string)
    requires CampaignId(a) == CampaignId(b)
    ensures a == b
  {
    var head := "campaign/";
    assert (head + a)[|head|..] == a && (head + b)[|head|..] == b;
  }

  ghost predicate IsCampaignId(id: OpId) {
    exists name: string :: id == CampaignId(name)
  }

  /** A capture under a campaign's ID is that campaign's plan, and the only one. */
  ghost predicate PlanAt(st: State, row: int, plan: Plan) {
    && 0 <= row < |st.observations|
    && st.observations[row].origin.kind == CAMPAIGN_PLAN
    && st.observations[row].origin.operationId == CampaignId(plan.id)
    && PlanOf(st.observations[row]) == Some(plan)
  }

  ghost predicate PlansRead(st: State) {
    && (forall op | op in st.operations :: !IsCampaignId(op.Id()))
    && (forall row | 0 <= row < |st.observations|
          && (st.observations[row].origin.kind == CAMPAIGN_PLAN || IsCampaignId(st.observations[row].origin.operationId)) ::
          exists plan :: PlanAt(st, row, plan))
    && (forall i, j | 0 <= i < j < |st.observations| && IsCampaignId(st.observations[i].origin.operationId) ::
          st.observations[i].origin.operationId != st.observations[j].origin.operationId)
  }

  ghost predicate PlansApart(a: Plan, b: Plan) {
    forall x, y | x in a.entries && y in b.entries :: Apart(x.entry, y.entry)
  }

  /** Across all pinned plans, a task has one split and a memory scope has one split. */
  ghost predicate Separated(st: State) {
    forall i, j, a, b | PlanAt(st, i, a) && PlanAt(st, j, b) :: PlansApart(a, b)
  }

  ghost predicate CampaignsOk(st: State) {
    PlansRead(st) && Separated(st)
  }
}

/** Planning campaigns on a project's ledger. */
module CampaignHost {
  import opened Records
  import Spec = LedgerSpec
  import opened LedgerInvariant
  import opened LedgerSafety
  import opened LedgerStore
  import RecordOnce
  import opened Touching
  import opened CampaignSpecs

  function EntriesOf(plan: Plan): seq<Entry> {
    seq(|plan.entries|, k requires 0 <= k < |plan.entries| => plan.entries[k].entry)
  }

  /** Every one of these entries is apart from everything the plan pinned. */
  predicate ApartFromPlan(entries: seq<Entry>, plan: Plan) {
    forall e, p | e in entries && p in plan.entries :: Apart(e, p.entry)
  }

  /** The entries are apart from every other campaign's pinned plan. */
  ghost predicate ApartFromOthers(st: Spec.State, id: string, entries: seq<Entry>) {
    forall row, plan | PlanAt(st, row, plan) && plan.id != id :: ApartFromPlan(entries, plan)
  }

  lemma PlanIsOne(st: Spec.State, i: int, j: int, a: Plan, b: Plan)
    requires PlansRead(st) && PlanAt(st, i, a) && PlanAt(st, j, b) && a.id == b.id
    ensures i == j && a == b
  {
    assert IsCampaignId(st.observations[i].origin.operationId);
    assert IsCampaignId(st.observations[j].origin.operationId);
  }

  /** What is pinned as these entries is apart from the other plans already. */
  lemma PinnedIsApart(st: Spec.State, row: int, pinned: Plan)
    requires CampaignsOk(st) && PlanAt(st, row, pinned)
    ensures ApartFromOthers(st, pinned.id, EntriesOf(pinned))
  {
    forall other, plan | PlanAt(st, other, plan) && plan.id != pinned.id
      ensures ApartFromPlan(EntriesOf(pinned), plan)
    {
      assert PlansApart(pinned, plan);
      forall e, p | e in EntriesOf(pinned) && p in plan.entries
        ensures Apart(e, p.entry)
      {
        var k :| 0 <= k < |pinned.entries| && EntriesOf(pinned)[k] == e;
        assert pinned.entries[k] in pinned.entries;
      }
    }
  }

  method CheckApart(entries: seq<Entry>, plan: Plan) returns (apart: bool)
    ensures apart == ApartFromPlan(entries, plan)
  {
    for i := 0 to |plan.entries|
      invariant forall e, k | e in entries && 0 <= k < i :: Apart(e, plan.entries[k].entry)
    {
      for j := 0 to |entries|
        invariant forall k | 0 <= k < j :: Apart(entries[k], plan.entries[i].entry)
      {
        if !Apart(entries[j], plan.entries[i].entry) {
          assert entries[j] in entries && plan.entries[i] in plan.entries;
          return false;
        }
      }
    }
    return true;
  }

  method CheckOthers(ledger: Ledger, id: string, entries: seq<Entry>) returns (apart: bool)
    requires ledger.Valid() && PlansRead(ledger.View())
    ensures apart == ApartFromOthers(ledger.View(), id, entries)
  {
    for row := 0 to |ledger.observations|
      invariant forall k, plan | k < row && PlanAt(ledger.View(), k, plan) && plan.id != id :: ApartFromPlan(entries, plan)
    {
      if ledger.observations[row].origin.kind == CAMPAIGN_PLAN {
        var plan := PlanOf(ledger.observations[row]).value;
        assert PlanAt(ledger.View(), row, plan);
        if plan.id != id {
          var fine := CheckApart(entries, plan);
          if !fine {
            return false;
          }
        }
      }
    }
    return true;
  }

  /** The plan pinned under this ID. */
  method Pinned(ledger: Ledger, id: string) returns (pinned: Option<Plan>)
    requires ledger.Valid() && PlansRead(ledger.View())
    ensures pinned.Some? ==> exists row :: PlanAt(ledger.View(), row, pinned.value) && pinned.value.id == id
    ensures pinned.None? ==> RecordOnce.FirstRecord(ledger.observations, CampaignId(id)).None?
  {
    var row := RecordOnce.FirstRecord(ledger.observations, CampaignId(id));
    if row.None? {
      return None;
    }
    assert IsCampaignId(ledger.observations[row.value].origin.operationId);
    ghost var plan :| PlanAt(ledger.View(), row.value, plan);
    CampaignIdInjective(plan.id, id);
    pinned := PlanOf(ledger.observations[row.value]);
  }

  /** Give every entry a run of its own. */
  method AssignRuns(entries: seq<Entry>) returns (planned: seq<Planned>)
    ensures |planned| == |entries| && forall k | 0 <= k < |entries| :: planned[k].entry == entries[k]
  {
    planned := [];
    for k := 0 to |entries|
      invariant |planned| == k && forall i | 0 <= i < k :: planned[i].entry == entries[i]
    {
      var run: string := *;
      planned := planned + [Planned(run, entries[k])];
    }
  }

  ghost predicate AddsPlan(st: Spec.State, later: Spec.State, plan: Plan) {
    && later.operations == st.operations
    && |later.observations| == |st.observations| + 1 && st.observations <= later.observations
    && RecordOnce.FirstRecord(st.observations, CampaignId(plan.id)).None?
    && PlanAt(later, |st.observations|, plan)
  }

  lemma AddedPlansRead(st: Spec.State, later: Spec.State, plan: Plan)
    requires PlansRead(st) && AddsPlan(st, later, plan)
    ensures PlansRead(later)
  {
    var n := |st.observations|;
    forall i | 0 <= i < n
      ensures later.observations[i] == st.observations[i]
      ensures later.observations[i].origin.operationId != CampaignId(plan.id)
    {
      assert st.observations[i] in st.observations;
    }
    forall row | 0 <= row < |later.observations|
                 && (later.observations[row].origin.kind == CAMPAIGN_PLAN || IsCampaignId(later.observations[row].origin.operationId))
      ensures exists p :: PlanAt(later, row, p)
    {
      if row < n {
        var p :| PlanAt(st, row, p);
        assert PlanAt(later, row, p);
      }
    }
  }

  lemma AddedSeparated(st: Spec.State, later: Spec.State, plan: Plan)
    requires Separated(st) && AddsPlan(st, later, plan)
    requires PlansApart(plan, plan) && ApartFromOthers(st, plan.id, EntriesOf(plan))
    ensures Separated(later)
  {
    var n := |st.observations|;
    forall i, j, a, b | PlanAt(later, i, a) && PlanAt(later, j, b)
      ensures PlansApart(a, b)
    {
      if i < n && j < n {
        assert PlanAt(st, i, a) && PlanAt(st, j, b);
      } else if i < n {
        OldApartFromNew(st, later, plan, i, a);
      } else if j < n {
        OldApartFromNew(st, later, plan, j, b);
      }
    }
  }

  lemma OldApartFromNew(st: Spec.State, later: Spec.State, plan: Plan, i: nat, a: Plan)
    requires AddsPlan(st, later, plan) && i < |st.observations| && PlanAt(later, i, a)
    requires ApartFromOthers(st, plan.id, EntriesOf(plan))
    ensures PlansApart(a, plan) && PlansApart(plan, a)
  {
    assert PlanAt(st, i, a);
    assert st.observations[i] in st.observations;
    forall x, y | x in a.entries && y in plan.entries
      ensures Apart(x.entry, y.entry) && Apart(y.entry, x.entry)
    {
      var k :| 0 <= k < |plan.entries| && plan.entries[k] == y;
      assert EntriesOf(plan)[k] == y.entry;
      assert y.entry in EntriesOf(plan);
    }
  }

  /** Recording a new plan that is apart from the others keeps all plans apart. */
  lemma PlanStep(st: Spec.State, session: string, plan: Plan, spec: CampaignSpec)
    requires Inv(st) && CampaignsOk(st) && ValidSpec(spec) && plan.id == spec.id && EntriesOf(plan) == Entries(spec)
    requires RecordOnce.FirstRecord(st.observations, CampaignId(plan.id)).None?
    requires ApartFromOthers(st, plan.id, EntriesOf(plan))
    ensures var step := RecordOnce.Step(st, session, PlanOrigin(plan.id), PlanRaw(plan));
      && CampaignsOk(step.st)
      && (step.out.Err? ==> step.st == st)
      && (step.out.Ok? ==> PlanAt(step.st, |st.observations|, plan))
  {
    var step := RecordOnce.Step(st, session, PlanOrigin(plan.id), PlanRaw(plan));
    RecordOnce.StepEffect(st, session, PlanOrigin(plan.id), PlanRaw(plan));
    if step.out.Ok? {
      ParseRecordedPlan(plan);
      assert AddsPlan(st, step.st, plan);
      forall x, y | x in plan.entries && y in plan.entries
        ensures Apart(x.entry, y.entry)
      {
        var i :| 0 <= i < |plan.entries| && plan.entries[i] == x;
        var j :| 0 <= j < |plan.entries| && plan.entries[j] == y;
        assert EntriesOf(plan)[i] == x.entry && EntriesOf(plan)[j] == y.entry;
        SpecEntriesApart(spec, x.entry, y.entry);
      }
      AddedPlansRead(st, step.st, plan);
      AddedSeparated(st, step.st, plan);
    }
  }

  /** A new plan is recorded by every known session. */
  lemma PlanIsRecorded(st: Spec.State, session: string, plan: Plan)
    requires PlansRead(st) && RecordOnce.FirstRecord(st.observations, CampaignId(plan.id)).None?
    ensures RecordOnce.Step(st, session, PlanOrigin(plan.id), PlanRaw(plan)).out.Ok? <==> session in st.sessions
  {
    assert PLAN in PlanRaw(plan) && 'p' in PLAN;
    assert IsCampaignId(CampaignId(plan.id));
  }

  /** The campaign keeps apart from every other's pinned plan, and is pinned with these
      entries or not at all. */
  ghost predicate Plannable(st: Spec.State, session: string, spec: CampaignSpec) {
    && ApartFromOthers(st, spec.id, Entries(spec))
    && (forall row, pinned | PlanAt(st, row, pinned) && pinned.id == spec.id :: EntriesOf(pinned) == Entries(spec))
    && (session in st.sessions || exists row, pinned :: PlanAt(st, row, pinned) && pinned.id == spec.id)
  }

  /** Pin a campaign's plan, or return the one pinned before; it is refused exactly when it
      cannot be planned. Whatever campaigns were planned, a task and a memory scope keep one
      split across all pinned plans, and planning the same campaign again returns the
      identical plan with its run IDs. */
  method PlanCampaign(ledger: Ledger, session: string, spec: CampaignSpec) returns (out: Outcomes<Plan>)
    requires ledger.Valid() && CampaignsOk(ledger.View()) && ValidSpec(spec)
    modifies ledger
    ensures ledger.Valid() && CampaignsOk(ledger.View())
    ensures Touches(old(ledger.View()), ledger.View(), iset{CampaignId(spec.id)})
    ensures out.Ok? <==> Plannable(old(ledger.View()), session, spec)
    ensures out.Err? ==> ledger.View() == old(ledger.View())
    ensures out.Ok? ==>
      && out.value.id == spec.id && EntriesOf(out.value) == Entries(spec)
      && exists row :: PlanAt(ledger.View(), row, out.value)
    ensures forall row, pinned | PlanAt(old(ledger.View()), row, pinned) && pinned.id == spec.id ::
      ledger.View() == old(ledger.View()) && if EntriesOf(pinned) == Entries(spec) then out == Ok(pinned) else out.Err?
  {
    var entries := Entries(spec);
    ghost var st := ledger.View();
    TouchesNothing(st, iset{CampaignId(spec.id)});
    forall row, pinned | PlanAt(st, row, pinned) && pinned.id == spec.id && EntriesOf(pinned) == entries
      ensures ApartFromOthers(st, spec.id, entries)
    {
      PinnedIsApart(st, row, pinned);
    }
    var apart := CheckOthers(ledger, spec.id, entries);
    if !apart {
      return Err(InvalidInput);
    }
    var pinned := Pinned(ledger, spec.id);
    if pinned.Some? {
      OnlyPinned(st, pinned.value);
      return if EntriesOf(pinned.value) != entries then Err(InvalidInput) else Ok(pinned.value);
    }
    NothingPinned(st, spec.id);
    out := Pin(ledger, session, spec, entries);
  }

  /** Pin these entries under a campaign nobody pinned. */
  method Pin(ledger: Ledger, session: string, spec: CampaignSpec, entries: seq<Entry>) returns (out: Outcomes<Plan>)
    requires ledger.Valid() && CampaignsOk(ledger.View()) && ValidSpec(spec) && entries == Entries(spec)
    requires RecordOnce.FirstRecord(ledger.observations, CampaignId(spec.id)).None?
    requires ApartFromOthers(ledger.View(), spec.id, entries)
    modifies ledger
    ensures ledger.Valid() && CampaignsOk(ledger.View())
    ensures Touches(old(ledger.View()), ledger.View(), iset{CampaignId(spec.id)})
    ensures out.Ok? <==> session in old(ledger.sessions)
    ensures out.Err? ==> ledger.View() == old(ledger.View())
    ensures out.Ok? ==>
      && out.value.id == spec.id && EntriesOf(out.value) == entries
      && exists row :: PlanAt(ledger.View(), row, out.value)
  {
    ghost var st := ledger.View();
    var planned := AssignRuns(entries);
    var plan := Plan(spec.id, spec.repetitions, planned);
    assert EntriesOf(plan) == entries;
    PlanStep(st, session, plan, spec);
    PlanIsRecorded(st, session, plan);
    StepTouches(st, session, PlanOrigin(plan.id), PlanRaw(plan), iset{CampaignId(spec.id)});
    var recorded := RecordOnce.Record(ledger, session, PlanOrigin(spec.id), PlanRaw(plan));
    if recorded.Err? {
      return Err(recorded.error);
    }
    out := Ok(plan);
  }

  lemma OnlyPinned(st: Spec.State, pinned: Plan)
    requires PlansRead(st) && exists row :: PlanAt(st, row, pinned)
    ensures forall row, other | PlanAt(st, row, other) && other.id == pinned.id :: other == pinned
  {
    var k :| PlanAt(st, k, pinned);
    forall row, other | PlanAt(st, row, other) && other.id == pinned.id
      ensures other == pinned
    {
      PlanIsOne(st, row, k, other, pinned);
    }
  }

  lemma NothingPinned(st: Spec.State, id: string)
    requires RecordOnce.FirstRecord(st.observations, CampaignId(id)).None?
    ensures forall row, plan | PlanAt(st, row, plan) :: plan.id != id
  {
    forall row, plan | PlanAt(st, row, plan)
      ensures plan.id != id
    {
      assert st.observations[row] in st.observations;
    }
  }

  /** A pinned plan stays pinned, as it is, on every later ledger. */
  lemma PinnedStays(st: Spec.State, later: Spec.State, row: int, plan: Plan)
    requires PlanAt(st, row, plan) && Extends(st, later)
    ensures PlanAt(later, row, plan)
  {
  }

  /** Whatever else is recorded, away from the campaigns' IDs, the plans stay apart. */
  lemma OthersKeepPlans(st: Spec.State, later: Spec.State)
    requires CampaignsOk(st) && Extends(st, later)
    requires forall k | |st.observations| <= k < |later.observations| ::
      later.observations[k].origin.kind != CAMPAIGN_PLAN && !IsCampaignId(later.observations[k].origin.operationId)
    requires forall op | op in later.operations :: !IsCampaignId(op.Id())
    ensures CampaignsOk(later)
  {
    forall row | 0 <= row < |later.observations|
                 && (later.observations[row].origin.kind == CAMPAIGN_PLAN || IsCampaignId(later.observations[row].origin.operationId))
      ensures exists p :: PlanAt(later, row, p)
    {
      var p :| PlanAt(st, row, p);
      assert PlanAt(later, row, p);
    }
    forall i, j, a, b | PlanAt(later, i, a) && PlanAt(later, j, b)
      ensures PlansApart(a, b)
    {
      assert PlanAt(st, i, a) && PlanAt(st, j, b);
    }
  }
}
