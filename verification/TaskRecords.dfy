/** A task as the named channels of a run's record, and back. */
module TaskRecords {
  import opened Records
  import opened Names
  import Ordering
  import opened TaskSpecs

  // ---- Channels ----

  function Prefixed(prefix: string, files: Files): Files {
    var channels := set name | name in files :: prefix + name;
    map channel | channel in channels && prefix <= channel && channel[|prefix|..] in files :: files[channel[|prefix|..]]
  }

  lemma PrefixedHolds(prefix: string, files: Files, channel: string)
    ensures channel in Prefixed(prefix, files) <==> prefix <= channel && channel[|prefix|..] in files
    ensures channel in Prefixed(prefix, files) ==> Prefixed(prefix, files)[channel] == files[channel[|prefix|..]]
  {
    if prefix <= channel && channel[|prefix|..] in files {
      assert prefix + channel[|prefix|..] == channel;
    }
    forall name | name in files
      ensures (prefix + name)[|prefix|..] == name
    {
    }
  }

  const INPUT: string := "input/"
  const PRIVATE: string := "private/"
  const TASK: string := "task.json"
  const REVISION: string := "revision.json"
  const REVISIONS: string := "revision/"

  function RevisionPrefix(number: nat): string {
    REVISIONS + Decimal(number) + "/"
  }

  lemma NumberOfPrefix(channel: string, n: nat)
    requires RevisionPrefix(n) <= channel
    ensures channel[|REVISIONS|..][..DigitRun(channel[|REVISIONS|..])] == Decimal(n)
  {
    var prefix, rest := RevisionPrefix(n), channel[|REVISIONS|..];
    var tail := channel[|prefix|..];
    assert channel == prefix + tail;
    assert rest == Decimal(n) + ("/" + tail);
    DigitRunOf(Decimal(n), "/" + tail);
  }

  /** A channel belongs to at most one numbered revision. */
  lemma RevisionPrefixesApart(j: nat, k: nat, channel: string)
    requires RevisionPrefix(j) <= channel && RevisionPrefix(k) <= channel
    ensures j == k
  {
    NumberOfPrefix(channel, j);
    NumberOfPrefix(channel, k);
    DecimalInjective(j, k);
  }

  // ---- Values in the records ----

  function Texts(items: seq<string>): Json {
    List(seq(|items|, i requires 0 <= i < |items| => Str(items[i])))
  }

  function ParseTexts(value: Json): Option<seq<string>> {
    if value.List? && forall i | 0 <= i < |value.items| :: value.items[i].Str? then
      Some(seq(|value.items|, i requires 0 <= i < |value.items| => value.items[i].text))
    else None
  }

  lemma ParseRecordedTexts(items: seq<string>)
    ensures ParseTexts(Texts(items)) == Some(items)
  {
    assert ParseTexts(Texts(items)).value == items;
  }

  ghost function SortedNames(files: Files): seq<string> {
    Ordering.RankInjective();
    Ordering.SortedKeys(files.Keys, Ordering.Rank)
  }

  lemma SortedNamesAre(files: Files)
    ensures forall name :: name in SortedNames(files) <==> name in files
  {
    Ordering.RankInjective();
  }

  /** The files of these names, when every one has its channel. */
  function Gather(read: Files, prefix: string, names: seq<string>): Option<Files> {
    if forall name | name in names :: prefix + name in read
    then Some(map name | name in names :: read[prefix + name])
    else None
  }

  /** Files flattened under a prefix come back, whatever else is in the record. */
  lemma GatherRecorded(read: Files, prefix: string, files: Files)
    requires Holds(read, prefix, files)
    ensures Gather(read, prefix, SortedNames(files)) == Some(files)
  {
    SortedNamesAre(files);
    assert Gather(read, prefix, SortedNames(files)).value == files;
  }

  // ---- Revisions ----

  ghost function RevisionMeta(r: Revision): Json {
    Obj(map["id" := Str(r.id),
            "owner" := Str(r.owner),
            "reason" := Str(r.reason),
            "inputs" := Texts(SortedNames(r.inputs)),
            "private" := Texts(SortedNames(r.private)),
            "remove" := Texts(r.remove),
            "checks" := if r.checks.Some? then Texts(r.checks.value) else Null,
            "note" := Str(r.note)])
  }

  ghost function RevisionRecord(r: Revision): Files {
    map[REVISION := Encode(RevisionMeta(r))] + Prefixed(INPUT, r.inputs) + Prefixed(PRIVATE, r.private)
  }

  function ParseChecks(value: Json): Option<Option<seq<string>>> {
    if value == Null then Some(None)
    else
      match ParseTexts(value)
      case None => None
      case Some(checks) => Some(Some(checks))
  }

  const REVISION_FIELDS: set<string> :=
    {"id", "owner", "reason", "inputs", "private", "remove", "checks", "note"}

  function RevisionOf(read: Files, f: map<string, Json>): Option<Revision>
    requires REVISION_FIELDS <= f.Keys
  {
    var inputNames, privateNames := ParseTexts(f["inputs"]), ParseTexts(f["private"]);
    var remove, checks := ParseTexts(f["remove"]), ParseChecks(f["checks"]);
    if f["id"].Str? && f["owner"].Str? && f["reason"].Str? && f["note"].Str?
      && inputNames.Some? && privateNames.Some? && remove.Some? && checks.Some?
    then
      var inputs, private := Gather(read, INPUT, inputNames.value), Gather(read, PRIVATE, privateNames.value);
      if inputs.Some? && private.Some? then
        Some(Revision(f["id"].text, f["owner"].text, f["reason"].text, inputs.value, private.value,
                      remove.value, checks.value, f["note"].text))
      else None
    else None
  }

  function FromRecord(read: Files): Option<Revision> {
    if REVISION in read && read[REVISION].Doc? && read[REVISION].value.Obj?
      && REVISION_FIELDS <= read[REVISION].value.fields.Keys
    then
      var r := RevisionOf(read, read[REVISION].value.fields);
      if r.Some? && ValidRevision(r.value) then r else None
    else None
  }

  lemma PrefixedAt(prefix: string, files: Files, name: string)
    requires name in files
    ensures prefix + name in Prefixed(prefix, files) && Prefixed(prefix, files)[prefix + name] == files[name]
  {
    PrefixedHolds(prefix, files, prefix + name);
    assert (prefix + name)[|prefix|..] == name;
  }

  lemma PrefixedApart(prefix: string, files: Files, channel: string)
    requires prefix != "" && channel != "" && prefix[0] != channel[0]
    ensures channel !in Prefixed(prefix, files)
  {
    PrefixedHolds(prefix, files, channel);
  }

  /** The record holds these files under this prefix. */
  ghost predicate Holds(read: Files, prefix: string, files: Files) {
    forall name | name in files :: prefix + name in read && read[prefix + name] == files[name]
  }

  lemma RevisionRecordHolds(r: Revision)
    ensures var raw := RevisionRecord(r);
      && REVISION in raw && raw[REVISION] == Encode(RevisionMeta(r))
      && Holds(raw, INPUT, r.inputs) && Holds(raw, PRIVATE, r.private)
  {
    var raw := RevisionRecord(r);
    PrefixedApart(INPUT, r.inputs, REVISION);
    PrefixedApart(PRIVATE, r.private, REVISION);
    forall name | name in r.inputs
      ensures INPUT + name in raw && raw[INPUT + name] == r.inputs[name]
    {
      PrefixedAt(INPUT, r.inputs, name);
      PrefixedApart(PRIVATE, r.private, INPUT + name);
    }
    forall name | name in r.private
      ensures PRIVATE + name in raw && raw[PRIVATE + name] == r.private[name]
    {
      PrefixedAt(PRIVATE, r.private, name);
    }
  }

  /** The fields of a revision's record. */
  ghost predicate HoldsRevision(f: map<string, Json>, r: Revision) {
    && REVISION_FIELDS <= f.Keys
    && f["id"] == Str(r.id) && f["owner"] == Str(r.owner) && f["reason"] == Str(r.reason) && f["note"] == Str(r.note)
    && f["inputs"] == Texts(SortedNames(r.inputs)) && f["private"] == Texts(SortedNames(r.private))
    && f["remove"] == Texts(r.remove)
    && f["checks"] == if r.checks.Some? then Texts(r.checks.value) else Null
  }

  lemma MetaHoldsRevision(r: Revision)
    ensures HoldsRevision(RevisionMeta(r).fields, r)
  {
  }

  lemma RevisionOfFields(read: Files, f: map<string, Json>, r: Revision)
    requires HoldsRevision(f, r) && Holds(read, INPUT, r.inputs) && Holds(read, PRIVATE, r.private)
    ensures RevisionOf(read, f) == Some(r)
  {
    GatherRecorded(read, INPUT, r.inputs);
    GatherRecorded(read, PRIVATE, r.private);
    ParseRecordedTexts(SortedNames(r.inputs));
    ParseRecordedTexts(SortedNames(r.private));
    ParseRecordedTexts(r.remove);
    if r.checks.Some? {
      ParseRecordedTexts(r.checks.value);
    }
  }

  /** A recorded revision reads back as the same revision. */
  lemma LoadRecordedRevision(r: Revision)
    requires ValidRevision(r)
    ensures FromRecord(RevisionRecord(r)) == Some(r)
  {
    RevisionRecordHolds(r);
    MetaHoldsRevision(r);
    RevisionOfFields(RevisionRecord(r), RevisionMeta(r).fields, r);
  }

  // ---- Tasks ----

  function MemoryJson(memory: Option<MemorySpec>): Json {
    match memory
    case None => Null
    case Some(m) => Obj(map["scope" := Str(m.scope), "depends" := Texts(m.depends)])
  }

  function ParseMemory(value: Json): Option<Option<MemorySpec>> {
    if value == Null then Some(None)
    else if value.Obj? && value.fields.Keys == {"scope", "depends"} && value.fields["scope"].Str?
      && ParseTexts(value.fields["depends"]).Some?
    then Some(Some(MemorySpec(value.fields["scope"].text, ParseTexts(value.fields["depends"]).value)))
    else None
  }

  function BudgetJson(budget: Option<nat>): Json {
    if budget.Some? then Int(budget.value) else Null
  }

  function ParseBudget(value: Json): Option<Option<nat>> {
    if value == Null then Some(None)
    else if value.Int? && value.number >= 0 then Some(Some(value.number))
    else None
  }

  function Points(revisions: seq<Scheduled>): Json {
    List(seq(|revisions|, k requires 0 <= k < |revisions| => Int(revisions[k].after)))
  }

  ghost function TaskMeta(t: Task): Json {
    Obj(map["id" := Str(t.id),
            "objective" := Str(t.objective),
            "inputs" := Texts(SortedNames(t.inputs)),
            "private" := Texts(SortedNames(t.private)),
            "checks" := Texts(t.checks),
            "submissions" := Int(t.submissions),
            "check_budget" := BudgetJson(t.checkBudget),
            "duplicate_guard" := t.guard,
            "memory" := MemoryJson(t.memory),
            "revisions" := Points(t.revisions)])
  }

  /** Records numbered from one, each under its own prefix. */
  function Numbered(records: seq<Files>): Files {
    if records == [] then map[]
    else
      var n := |records|;
      Numbered(records[..n - 1]) + Prefixed(RevisionPrefix(n), records[n - 1])
  }

  ghost function RevisionRecords(revisions: seq<Scheduled>): (records: seq<Files>)
    ensures |records| == |revisions|
  {
    seq(|revisions|, k requires 0 <= k < |revisions| => RevisionRecord(revisions[k].revision))
  }

  function Flatten(meta: Blob, inputs: Files, private: Files, records: seq<Files>): Files {
    map[TASK := meta] + Prefixed(INPUT, inputs) + Prefixed(PRIVATE, private) + Numbered(records)
  }

  ghost function TaskRecord(t: Task): Files {
    Flatten(Encode(TaskMeta(t)), t.inputs, t.private, RevisionRecords(t.revisions))
  }

  /** Every channel under a prefix, without the prefix. */
  function Part(read: Files, prefix: string): Files {
    var rests := set channel | channel in read && prefix <= channel :: channel[|prefix|..];
    map rest | rest in rests && prefix + rest in read :: read[prefix + rest]
  }

  lemma PartHolds(read: Files, prefix: string, rest: string)
    ensures rest in Part(read, prefix) <==> prefix + rest in read
    ensures rest in Part(read, prefix) ==> Part(read, prefix)[rest] == read[prefix + rest]
  {
    assert (prefix + rest)[|prefix|..] == rest;
  }

  const TASK_FIELDS: set<string> :=
    {"id", "objective", "inputs", "private", "checks", "submissions", "check_budget", "duplicate_guard", "memory",
     "revisions"}

  /** The revisions of a record, numbered from one; `None` where one cannot be read. */
  function ReadRevisions(read: Files, count: nat): (parsed: seq<Option<Revision>>)
    ensures |parsed| == count
  {
    seq(count, k requires 0 <= k < count => FromRecord(Part(read, RevisionPrefix(k + 1))))
  }

  /** The schedule: each revision with the checkpoint recorded for it. */
  function Schedule(points: seq<Json>, parsed: seq<Option<Revision>>): Option<seq<Scheduled>>
    requires |points| == |parsed|
  {
    if points == [] then Some([])
    else
      var n := |points| - 1;
      var earlier := Schedule(points[..n], parsed[..n]);
      if earlier.Some? && parsed[n].Some? && points[n].Int? && points[n].number >= 1 then
        Some(earlier.value + [Scheduled(points[n].number, parsed[n].value)])
      else None
  }

  function TaskOf(read: Files, f: map<string, Json>): Option<Task>
    requires TASK_FIELDS <= f.Keys
  {
    var inputNames, privateNames := ParseTexts(f["inputs"]), ParseTexts(f["private"]);
    var checks, budget, memory := ParseTexts(f["checks"]), ParseBudget(f["check_budget"]), ParseMemory(f["memory"]);
    if f["id"].Str? && f["objective"].Str? && f["submissions"].Int? && f["submissions"].number >= 1
      && f["revisions"].List? && inputNames.Some? && privateNames.Some? && checks.Some? && budget.Some? && memory.Some?
    then
      var inputs, private := Gather(read, INPUT, inputNames.value), Gather(read, PRIVATE, privateNames.value);
      var points := f["revisions"].items;
      var revisions := Schedule(points, ReadRevisions(read, |points|));
      if inputs.Some? && private.Some? && revisions.Some? then
        Some(Task(f["id"].text, f["objective"].text, inputs.value, private.value, checks.value, f["submissions"].number,
                  budget.value, f["duplicate_guard"], memory.value, revisions.value))
      else None
    else None
  }

  /** Rebuild a task from a run's record; `None` where the host refuses it. */
  function LoadTask(read: Files): Option<Task> {
    if TASK in read && read[TASK].Doc? && read[TASK].value.Obj? && TASK_FIELDS <= read[TASK].value.fields.Keys then
      var t := TaskOf(read, read[TASK].value.fields);
      if t.Some? && ValidTask(t.value) then t else None
    else None
  }

  // ---- The round trip ----

  lemma {:induction false} NumberedChannels(records: seq<Files>, channel: string) returns (k: nat)
    requires channel in Numbered(records)
    ensures k < |records| && RevisionPrefix(k + 1) <= channel
  {
    var n := |records|;
    PrefixedHolds(RevisionPrefix(n), records[n - 1], channel);
    if RevisionPrefix(n) <= channel {
      k := n - 1;
    } else {
      k := NumberedChannels(records[..n - 1], channel);
    }
  }

  lemma PrefixOnce(k: nat, channel: string, records: seq<Files>)
    requires RevisionPrefix(k + 1) <= channel
    ensures channel in Numbered(records) ==> k < |records|
  {
    if channel in Numbered(records) {
      var j := NumberedChannels(records, channel);
      RevisionPrefixesApart(j + 1, k + 1, channel);
    }
  }

  /** The channels of the k-th record are exactly that record's. */
  lemma {:induction false} NumberedHolds(records: seq<Files>, k: nat, channel: string)
    requires k < |records| && RevisionPrefix(k + 1) <= channel
    ensures var rest := channel[|RevisionPrefix(k + 1)|..];
      && (channel in Numbered(records) <==> rest in records[k])
      && (rest in records[k] ==> Numbered(records)[channel] == records[k][rest])
  {
    var n := |records|;
    PrefixedHolds(RevisionPrefix(n), records[n - 1], channel);
    if k == n - 1 {
      PrefixOnce(k, channel, records[..n - 1]);
    } else {
      NumberedHolds(records[..n - 1], k, channel);
      if RevisionPrefix(n) <= channel {
        RevisionPrefixesApart(k + 1, n, channel);
      }
    }
  }

  /** Channels that are none of a task's own. */
  predicate Unrelated(channel: string) {
    channel != TASK && !(INPUT <= channel) && !(PRIVATE <= channel) && !(REVISIONS <= channel)
  }

  /** A record holds these channels, and beside them only ones no task has. */
  ghost predicate Keeps(read: Files, flat: Files) {
    && (forall channel | channel in flat :: channel in read && read[channel] == flat[channel])
    && (forall channel | channel in read && channel !in flat :: Unrelated(channel))
  }

  lemma Glued(prefix: string, rest: string)
    ensures prefix <= prefix + rest && (prefix + rest)[|prefix|..] == rest
  {
  }

  lemma NoRevisionChannel(records: seq<Files>, channel: string)
    requires channel != "" && channel[0] != 'r'
    ensures channel !in Numbered(records)
  {
    if channel in Numbered(records) {
      var k := NumberedChannels(records, channel);
    }
  }

  lemma OnlyRevisionChannel(meta: Blob, inputs: Files, private: Files, records: seq<Files>, channel: string)
    requires REVISIONS <= channel
    ensures var flat := Flatten(meta, inputs, private, records);
      && (channel in flat <==> channel in Numbered(records))
      && (channel in flat ==> flat[channel] == Numbered(records)[channel])
  {
    assert channel[0] == 'r' && channel[8] == '/' && TASK[0] == 't';
    PrefixedApart(INPUT, inputs, channel);
    PrefixedApart(PRIVATE, private, channel);
  }

  /** What the record has under a prefix is exactly these files. */
  ghost predicate HoldsPart(read: Files, prefix: string, record: Files) {
    forall channel | prefix <= channel ::
      && (channel in read <==> channel[|prefix|..] in record)
      && (channel in read ==> read[channel] == record[channel[|prefix|..]])
  }

  /** Under `revision/` there are only the numbered records. */
  ghost predicate OnlyNumbered(flat: Files, records: seq<Files>) {
    forall channel | REVISIONS <= channel ::
      && (channel in flat <==> channel in Numbered(records))
      && (channel in flat ==> flat[channel] == Numbered(records)[channel])
  }

  lemma FlattenOnlyNumbered(meta: Blob, inputs: Files, private: Files, records: seq<Files>)
    ensures OnlyNumbered(Flatten(meta, inputs, private, records), records)
  {
    forall channel | REVISIONS <= channel
      ensures var flat := Flatten(meta, inputs, private, records);
        && (channel in flat <==> channel in Numbered(records))
        && (channel in flat ==> flat[channel] == Numbered(records)[channel])
    {
      OnlyRevisionChannel(meta, inputs, private, records, channel);
    }
  }

  lemma NumberedPart(flat: Files, records: seq<Files>, k: nat)
    requires OnlyNumbered(flat, records) && k < |records|
    ensures HoldsPart(flat, RevisionPrefix(k + 1), records[k])
  {
    var prefix := RevisionPrefix(k + 1);
    assert REVISIONS <= prefix;
    forall channel | prefix <= channel
      ensures channel in flat <==> channel[|prefix|..] in records[k]
      ensures channel in flat ==> flat[channel] == records[k][channel[|prefix|..]]
    {
      NumberedHolds(records, k, channel);
    }
  }

  lemma PartIs(read: Files, prefix: string, record: Files)
    requires HoldsPart(read, prefix, record)
    ensures Part(read, prefix) == record
  {
    forall rest
      ensures rest in Part(read, prefix) <==> rest in record
      ensures rest in record ==> Part(read, prefix)[rest] == record[rest]
    {
      PartHolds(read, prefix, rest);
      Glued(prefix, rest);
    }
  }

  /** A flattened task, channel by channel. */
  ghost predicate IsFlat(flat: Files, meta: Blob, inputs: Files, private: Files, records: seq<Files>) {
    && TASK in flat && flat[TASK] == meta
    && Holds(flat, INPUT, inputs) && Holds(flat, PRIVATE, private)
    && forall k | 0 <= k < |records| :: HoldsPart(flat, RevisionPrefix(k + 1), records[k])
  }

  lemma FlattenIsFlat(meta: Blob, inputs: Files, private: Files, records: seq<Files>)
    ensures IsFlat(Flatten(meta, inputs, private, records), meta, inputs, private, records)
  {
    FlattenHolds(meta, inputs, private, records);
    FlattenOnlyNumbered(meta, inputs, private, records);
    forall k | 0 <= k < |records|
      ensures HoldsPart(Flatten(meta, inputs, private, records), RevisionPrefix(k + 1), records[k])
    {
      NumberedPart(Flatten(meta, inputs, private, records), records, k);
    }
  }

  lemma FlattenHolds(meta: Blob, inputs: Files, private: Files, records: seq<Files>)
    ensures var flat := Flatten(meta, inputs, private, records);
      TASK in flat && flat[TASK] == meta && Holds(flat, INPUT, inputs) && Holds(flat, PRIVATE, private)
  {
    var flat := Flatten(meta, inputs, private, records);
    NoRevisionChannel(records, TASK);
    PrefixedApart(INPUT, inputs, TASK);
    PrefixedApart(PRIVATE, private, TASK);
    forall name | name in inputs
      ensures INPUT + name in flat && flat[INPUT + name] == inputs[name]
    {
      PrefixedAt(INPUT, inputs, name);
      PrefixedApart(PRIVATE, private, INPUT + name);
      NoRevisionChannel(records, INPUT + name);
    }
    forall name | name in private
      ensures PRIVATE + name in flat && flat[PRIVATE + name] == private[name]
    {
      PrefixedAt(PRIVATE, private, name);
      NoRevisionChannel(records, PRIVATE + name);
    }
  }

  /** Unrelated channels beside a flattened task hide nothing of it and add nothing to it. */
  lemma KeepsPart(read: Files, flat: Files, prefix: string, record: Files)
    requires Keeps(read, flat) && HoldsPart(flat, prefix, record) && REVISIONS <= prefix
    ensures HoldsPart(read, prefix, record)
  {
    forall channel | prefix <= channel
      ensures channel in read <==> channel in flat
    {
      assert REVISIONS <= channel;
    }
  }

  lemma KeepsFlat(read: Files, flat: Files, meta: Blob, inputs: Files, private: Files, records: seq<Files>)
    requires Keeps(read, flat) && IsFlat(flat, meta, inputs, private, records)
    ensures IsFlat(read, meta, inputs, private, records)
  {
    forall k | 0 <= k < |records|
      ensures HoldsPart(read, RevisionPrefix(k + 1), records[k])
    {
      KeepsPart(read, flat, RevisionPrefix(k + 1), records[k]);
    }
  }

  lemma {:induction false} ScheduleRecorded(revisions: seq<Scheduled>, parsed: seq<Option<Revision>>)
    requires |parsed| == |revisions|
    requires forall k | 0 <= k < |revisions| :: revisions[k].after >= 1 && parsed[k] == Some(revisions[k].revision)
    ensures Schedule(Points(revisions).items, parsed) == Some(revisions)
  {
    if revisions != [] {
      var n := |revisions| - 1;
      ScheduleRecorded(revisions[..n], parsed[..n]);
      assert Points(revisions).items[..n] == Points(revisions[..n]).items;
      assert revisions == revisions[..n] + [revisions[n]];
    }
  }

  /** The fields of a task's record. */
  ghost predicate HoldsTask(f: map<string, Json>, t: Task) {
    && TASK_FIELDS <= f.Keys
    && f["id"] == Str(t.id) && f["objective"] == Str(t.objective) && f["submissions"] == Int(t.submissions)
    && f["inputs"] == Texts(SortedNames(t.inputs)) && f["private"] == Texts(SortedNames(t.private))
    && f["checks"] == Texts(t.checks) && f["check_budget"] == BudgetJson(t.checkBudget)
    && f["duplicate_guard"] == t.guard && f["memory"] == MemoryJson(t.memory)
    && f["revisions"] == Points(t.revisions)
  }

  lemma MetaHoldsTask(t: Task)
    ensures HoldsTask(TaskMeta(t).fields, t)
  {
  }

  lemma ParseRecordedMemory(memory: Option<MemorySpec>)
    ensures ParseMemory(MemoryJson(memory)) == Some(memory)
  {
    if memory.Some? {
      assert MemoryJson(memory).fields.Keys == {"scope", "depends"};
      ParseRecordedTexts(memory.value.depends);
    }
  }

  lemma TaskOfFields(read: Files, f: map<string, Json>, t: Task)
    requires HoldsTask(f, t) && Holds(read, INPUT, t.inputs) && Holds(read, PRIVATE, t.private)
    requires t.submissions >= 1
    requires Schedule(Points(t.revisions).items, ReadRevisions(read, |t.revisions|)) == Some(t.revisions)
    ensures TaskOf(read, f) == Some(t)
  {
    GatherRecorded(read, INPUT, t.inputs);
    GatherRecorded(read, PRIVATE, t.private);
    ParseRecordedTexts(SortedNames(t.inputs));
    ParseRecordedTexts(SortedNames(t.private));
    ParseRecordedTexts(t.checks);
    ParseRecordedMemory(t.memory);
  }

  lemma ReadRecorded(read: Files, records: seq<Files>, revisions: seq<Scheduled>)
    requires |records| == |revisions|
    requires forall k | 0 <= k < |records| :: HoldsPart(read, RevisionPrefix(k + 1), records[k])
    requires forall k | 0 <= k < |records| :: FromRecord(records[k]) == Some(revisions[k].revision)
    ensures forall k | 0 <= k < |records| :: ReadRevisions(read, |records|)[k] == Some(revisions[k].revision)
  {
    forall k | 0 <= k < |records|
      ensures ReadRevisions(read, |records|)[k] == FromRecord(records[k])
    {
      PartIs(read, RevisionPrefix(k + 1), records[k]);
    }
  }

  lemma LoadFlattened(read: Files, meta: Json, t: Task, records: seq<Files>)
    requires ValidTask(t) && meta.Obj? && HoldsTask(meta.fields, t) && |records| == |t.revisions|
    requires IsFlat(read, Encode(meta), t.inputs, t.private, records)
    requires forall k | 0 <= k < |records| :: FromRecord(records[k]) == Some(t.revisions[k].revision)
    ensures LoadTask(read) == Some(t)
  {
    ReadRecorded(read, records, t.revisions);
    ScheduleRecorded(t.revisions, ReadRevisions(read, |records|));
    TaskOfFields(read, meta.fields, t);
  }

  /** Flattening a valid task with any number of scheduled revisions into named channels
      and loading it back gives the same task, whatever else the run recorded. */
  lemma LoadRecordedTask(read: Files, t: Task)
    requires ValidTask(t) && Keeps(read, TaskRecord(t))
    ensures LoadTask(read) == Some(t)
  {
    MetaHoldsTask(t);
    var records := RevisionRecords(t.revisions);
    forall k | 0 <= k < |records|
      ensures FromRecord(records[k]) == Some(t.revisions[k].revision)
    {
      LoadRecordedRevision(t.revisions[k].revision);
    }
    FlattenIsFlat(Encode(TaskMeta(t)), t.inputs, t.private, records);
    KeepsFlat(read, TaskRecord(t), Encode(TaskMeta(t)), t.inputs, t.private, records);
    LoadFlattened(read, TaskMeta(t), t, records);
  }

  /** The channels a run keeps beside its task are none of the task's. */
  lemma RunChannelsAreUnrelated(version: nat)
    ensures Unrelated("config.json") && Unrelated("campaign.json") && Unrelated("model-api.json")
    ensures Unrelated("memory.json") && Unrelated("memory/" + Decimal(version) + ".json")
    ensures Unrelated("project-revisions.json")
  {
    StartsElsewhere("config.json");
    StartsElsewhere("campaign.json");
    StartsElsewhere("model-api.json");
    StartsElsewhere("memory.json");
    StartsElsewhere("memory/" + Decimal(version) + ".json");
    var revised := "project-revisions.json";
    assert revised[0] == 'p' && revised[2] == 'o' && PRIVATE[2] == 'i';
  }

  lemma StartsElsewhere(channel: string)
    requires channel != "" && channel[0] in "cm"
    ensures Unrelated(channel)
  {
    assert TASK[0] == 't' && INPUT[0] == 'i' && PRIVATE[0] == 'p' && REVISIONS[0] == 'r';
  }
}
