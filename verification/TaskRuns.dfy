/** The recorded evidence of a run's files, contract by contract. */
module TaskRuns {
  import opened Records
  import opened Names
  import opened Evidences
  import opened TaskSpecs
  import opened TaskRecords

  /** A run as loaded: its record on the ledger, and the task that record holds. */
  datatype TaskRun = TaskRun(spec: Observation, task: Task)

  type Refs = map<string, Evidence>

  /** The same names, resolving to the same bytes. */
  predicate Agree(refs: Refs, files: Files) {
    refs.Keys == files.Keys && forall name | name in files :: refs[name].artifact == files[name]
  }

  /** Each is a channel of the run's own record. */
  predicate OfRun(run: TaskRun, refs: Refs) {
    forall name | name in refs ::
      exists channel | channel in run.spec.artifacts :: refs[name] == Captured(run.spec, channel)
  }

  /** The evidence of some files, under the prefix they were recorded with. */
  function RefsUnder(run: TaskRun, prefix: string, files: Files): Refs
    requires Holds(run.spec.artifacts, prefix, files)
  {
    map name | name in files :: Captured(run.spec, prefix + name)
  }

  /** The record of a run holds every file its revisions bring, and every contract of its
      schedule is accepted. */
  ghost predicate Held(run: TaskRun) {
    && Holds(run.spec.artifacts, INPUT, run.task.inputs) && Holds(run.spec.artifacts, PRIVATE, run.task.private)
    && (forall k | 0 <= k < |run.task.revisions| :: HeldRevision(run, k))
    && (forall k | 0 <= k <= |run.task.revisions| :: ContractAfter(run.task, k).Some?)
  }

  ghost predicate HeldRevision(run: TaskRun, k: nat)
    requires k < |run.task.revisions|
  {
    && Holds(run.spec.artifacts, RevisionPrefix(k + 1) + INPUT, run.task.revisions[k].revision.inputs)
    && Holds(run.spec.artifacts, RevisionPrefix(k + 1) + PRIVATE, run.task.revisions[k].revision.private)
  }

  lemma {:induction false} ScheduleLength(points: seq<Json>, parsed: seq<Option<Revision>>)
    requires |points| == |parsed| && Schedule(points, parsed).Some?
    ensures |Schedule(points, parsed).value| == |points|
  {
    if points != [] {
      ScheduleLength(points[..|points| - 1], parsed[..|points| - 1]);
    }
  }

  lemma {:induction false} ScheduledAs(points: seq<Json>, parsed: seq<Option<Revision>>, k: nat)
    requires |points| == |parsed| && Schedule(points, parsed).Some? && k < |points|
    ensures |Schedule(points, parsed).value| == |points|
    ensures parsed[k].Some? && Schedule(points, parsed).value[k].revision == parsed[k].value
  {
    var n := |points| - 1;
    ScheduleLength(points[..n], parsed[..n]);
    if k < n {
      ScheduledAs(points[..n], parsed[..n], k);
    }
  }

  /** What the schedule of a loaded task was read from. */
  lemma LoadedSchedule(read: Files, t: Task) returns (points: seq<Json>)
    requires LoadTask(read) == Some(t)
    ensures Schedule(points, ReadRevisions(read, |points|)) == Some(t.revisions)
  {
    points := read[TASK].value.fields["revisions"].items;
  }

  /** The revision read from a part of the record finds its files under the part's prefix. */
  lemma PartHoldsRevision(read: Files, prefix: string, r: Revision)
    requires FromRecord(Part(read, prefix)) == Some(r)
    ensures Holds(read, prefix + INPUT, r.inputs) && Holds(read, prefix + PRIVATE, r.private)
  {
    forall name | name in r.inputs
      ensures prefix + INPUT + name in read && read[prefix + INPUT + name] == r.inputs[name]
    {
      assert prefix + INPUT + name == prefix + (INPUT + name);
      PartHolds(read, prefix, INPUT + name);
    }
    forall name | name in r.private
      ensures prefix + PRIVATE + name in read && read[prefix + PRIVATE + name] == r.private[name]
    {
      assert prefix + PRIVATE + name == prefix + (PRIVATE + name);
      PartHolds(read, prefix, PRIVATE + name);
    }
  }

  /** So does each revision read by its number. */
  lemma NumberedHoldsRevision(read: Files, count: nat, k: nat, r: Revision)
    requires k < count && ReadRevisions(read, count)[k] == Some(r)
    ensures Holds(read, RevisionPrefix(k + 1) + INPUT, r.inputs) && Holds(read, RevisionPrefix(k + 1) + PRIVATE, r.private)
  {
    PartHoldsRevision(read, RevisionPrefix(k + 1), r);
  }

  /** Whatever wrote the record: a run that loads holds every file its contracts name. */
  lemma LoadedIsHeld(run: TaskRun)
    requires LoadTask(run.spec.artifacts) == Some(run.task)
    ensures Held(run)
  {
    var points := LoadedSchedule(run.spec.artifacts, run.task);
    var parsed := ReadRevisions(run.spec.artifacts, |points|);
    ScheduleLength(points, parsed);
    forall k | 0 <= k < |run.task.revisions|
      ensures HeldRevision(run, k)
    {
      ScheduledAs(points, parsed, k);
      NumberedHoldsRevision(run.spec.artifacts, |points|, k, run.task.revisions[k].revision);
    }
    forall k | 0 <= k <= |run.task.revisions|
      ensures ContractAfter(run.task, k).Some?
    {
      EarlierContract(run.task, k, |run.task.revisions|);
    }
  }

  /** A run whose record was written from a valid task, beside channels that are none of the
      task's, loads that task and holds its files. */
  lemma RecordedIsHeld(run: TaskRun)
    requires ValidTask(run.task) && Keeps(run.spec.artifacts, TaskRecord(run.task))
    ensures LoadTask(run.spec.artifacts) == Some(run.task) && Held(run)
  {
    LoadRecordedTask(run.spec.artifacts, run.task);
    LoadedIsHeld(run);
  }

  /** Set each of these files on one side, and take it off the other. */
  method Place(run: TaskRun, prefix: string, files: Files, side: Refs, other: Refs) returns (placed: Refs, left: Refs)
    requires Holds(run.spec.artifacts, prefix, files)
    ensures placed == side + RefsUnder(run, prefix, files)
    ensures left == Without(other, files.Keys)
  {
    placed, left := side, other;
    var names := files.Keys;
    while names != {}
      invariant names <= files.Keys
      invariant forall name :: name in placed <==> name in side || (name in files && name !in names)
      invariant forall name | name in placed ::
        placed[name] == if name in files && name !in names then Captured(run.spec, prefix + name) else side[name]
      invariant forall name :: name in left <==> name in other && (name !in files || name in names)
      invariant forall name | name in left :: left[name] == other[name]
      decreases names
    {
      var name :| name in names;
      left := left - {name};
      placed := placed[name := Captured(run.spec, prefix + name)];
      names := names - {name};
    }
  }

  // ---- The two folds ----

  lemma RefsUnderAgree(run: TaskRun, prefix: string, files: Files)
    requires Holds(run.spec.artifacts, prefix, files)
    ensures Agree(RefsUnder(run, prefix, files), files) && OfRun(run, RefsUnder(run, prefix, files))
  {
  }

  /** Dropping first and adding later is adding first and dropping later, when nothing that
      is added is dropped. */
  lemma AddedThenMoved(refs: Refs, files: Files, gone: set<string>, moved: set<string>, newRefs: Refs, newFiles: Files)
    requires Agree(refs, files) && Agree(newRefs, newFiles) && newFiles.Keys !! moved
    ensures Agree(Without(Without(refs, gone) + newRefs, moved), Revised(files, gone + moved, newFiles))
  {
  }

  lemma MovedThenAdded(refs: Refs, files: Files, gone: set<string>, moved: set<string>, newRefs: Refs, newFiles: Files)
    requires Agree(refs, files) && Agree(newRefs, newFiles)
    ensures Agree(Without(Without(refs, gone), moved) + newRefs, Revised(files, gone + moved, newFiles))
  {
  }

  lemma StillOfRun(run: TaskRun, refs: Refs, gone: set<string>, added: Refs)
    requires OfRun(run, refs) && OfRun(run, added)
    ensures OfRun(run, Without(refs, gone)) && OfRun(run, refs + added)
  {
  }

  /** A contract with a file on both sides is refused. */
  lemma NoFileOnBothSides(r: Revision, t: Task, after: Task)
    requires Amended(r, t) == Some(after)
    ensures r.inputs.Keys !! r.private.Keys
    ensures after.inputs == Revised(t.inputs, Removed(r.remove) + r.private.Keys, r.inputs)
    ensures after.private == Revised(t.private, Removed(r.remove) + r.inputs.Keys, r.private)
  {
    assert r.inputs.Keys <= after.inputs.Keys && r.private.Keys <= after.private.Keys;
  }

  /** One revision applied to the evidence, in the host's own order: the files and bytes
      are those of the contract after it. */
  method PlaceRevision(run: TaskRun, k: nat, t: Task, after: Task, inputs: Refs, private: Refs)
    returns (visible: Refs, hidden: Refs)
    requires k < |run.task.revisions| && HeldRevision(run, k) && OfRun(run, inputs) && OfRun(run, private)
    requires Amended(run.task.revisions[k].revision, t) == Some(after)
    requires Agree(inputs, t.inputs) && Agree(private, t.private)
    ensures OfRun(run, visible) && OfRun(run, hidden)
    ensures Agree(visible, after.inputs) && Agree(hidden, after.private)
  {
    var r, prefix := run.task.revisions[k].revision, RevisionPrefix(k + 1);
    var gone := Removed(r.remove);
    NoFileOnBothSides(r, t, after);
    RefsUnderAgree(run, prefix + INPUT, r.inputs);
    RefsUnderAgree(run, prefix + PRIVATE, r.private);
    var keptInputs := Pop(inputs, gone);
    var keptPrivate := Pop(private, gone);
    var added, left := Place(run, prefix + INPUT, r.inputs, keptInputs, keptPrivate);
    hidden, visible := Place(run, prefix + PRIVATE, r.private, left, added);
    ghost var newInputs, newPrivate := RefsUnder(run, prefix + INPUT, r.inputs), RefsUnder(run, prefix + PRIVATE, r.private);
    AddedThenMoved(inputs, t.inputs, gone, r.private.Keys, newInputs, r.inputs);
    MovedThenAdded(private, t.private, gone, r.inputs.Keys, newPrivate, r.private);
    StillOfRun(run, inputs, gone, newInputs);
    StillOfRun(run, keptInputs, gone, newInputs);
    StillOfRun(run, added, r.private.Keys, newPrivate);
    StillOfRun(run, private, gone, newPrivate);
    StillOfRun(run, keptPrivate, r.inputs.Keys, newPrivate);
    StillOfRun(run, left, gone, newPrivate);
  }

  /** Worker-visible and private file evidence for a submission: for every valid task and
      every submission, the same names as the contract in force, resolving to its bytes. */
  method FilesFor(run: TaskRun, index: nat) returns (inputs: Refs, private: Refs)
    requires Held(run)
    ensures Contract(run.task, index).Some?
    ensures Agree(inputs, Contract(run.task, index).value.inputs)
    ensures Agree(private, Contract(run.task, index).value.private)
    ensures OfRun(run, inputs) && OfRun(run, private)
  {
    RefsUnderAgree(run, INPUT, run.task.inputs);
    RefsUnderAgree(run, PRIVATE, run.task.private);
    inputs := RefsUnder(run, INPUT, run.task.inputs);
    private := RefsUnder(run, PRIVATE, run.task.private);
    for k := 0 to Version(run.task, index)
      invariant Agree(inputs, ContractAfter(run.task, k).value.inputs)
      invariant Agree(private, ContractAfter(run.task, k).value.private)
      invariant OfRun(run, inputs) && OfRun(run, private)
    {
      assert HeldRevision(run, k) && ContractAfter(run.task, k + 1).Some?;
      inputs, private := PlaceRevision(run, k, ContractAfter(run.task, k).value, ContractAfter(run.task, k + 1).value,
                                       inputs, private);
    }
  }

  // ---- What a check cites ----

  /** Cited under its own evidence name. */
  predicate CitesAll(cited: Artifacts, refs: Refs) {
    forall name | name in refs :: refs[name].name in cited && cited[refs[name].name] == refs[name].artifact
  }

  predicate NamedBy(refs: Refs, n: string) {
    exists name | name in refs :: n == refs[name].name
  }

  /** The evidence is not a file of the run. */
  ghost predicate Elsewhere(run: TaskRun, target: Evidence) {
    forall channel | channel in run.spec.artifacts :: target.name != Captured(run.spec, channel).name
  }

  /** Another capture's evidence, such as a submission, is never a file of the run. */
  lemma OtherCaptureIsElsewhere(run: TaskRun, other: Observation, channel: string)
    requires run.spec.sequence > 0 && NamesOk(run.spec.artifacts)
    requires other.sequence > 0 && channel in other.artifacts && !Blank(channel) && other.sequence != run.spec.sequence
    ensures Elsewhere(run, Captured(other, channel))
  {
    forall c | c in run.spec.artifacts && Captured(other, channel).name == Captured(run.spec, c).name
      ensures false
    {
      EvidenceNameInjective(other.sequence, channel, run.spec.sequence, c);
    }
  }

  /** What a check of a submission cites: its target, and exactly the files of the contract
      in force, which are the bytes its checker reads. */
  method CheckInputs(run: TaskRun, index: nat, target: Evidence) returns (cited: Artifacts, visible: Refs, hidden: Refs)
    requires Held(run) && run.spec.sequence > 0 && NamesOk(run.spec.artifacts)
    ensures Contract(run.task, index).Some?
    ensures Agree(visible, Contract(run.task, index).value.inputs) && Agree(hidden, Contract(run.task, index).value.private)
    ensures CitesAll(cited, visible) && CitesAll(cited, hidden)
    ensures target.name in cited && (Elsewhere(run, target) ==> cited[target.name] == target.artifact)
    ensures forall n | n in cited :: n == target.name || NamedBy(visible, n) || NamedBy(hidden, n)
  {
    visible, hidden := FilesFor(run, index);
    cited := CiteFiles(run, target, visible, hidden);
  }

  method CiteFiles(run: TaskRun, target: Evidence, visible: Refs, hidden: Refs) returns (cited: Artifacts)
    requires run.spec.sequence > 0 && NamesOk(run.spec.artifacts) && OfRun(run, visible) && OfRun(run, hidden)
    ensures CitesAll(cited, visible) && CitesAll(cited, hidden)
    ensures target.name in cited && (Elsewhere(run, target) ==> cited[target.name] == target.artifact)
    ensures forall n | n in cited :: n == target.name || NamedBy(visible, n) || NamedBy(hidden, n)
  {
    cited := CiteRefs(run, map[target.name := target.artifact], visible);
    ghost var before := cited;
    cited := CiteRefs(run, cited, hidden);
    forall name | name in visible
      ensures visible[name].name in cited && cited[visible[name].name] == visible[name].artifact
    {
      assert visible[name].name in before;
      if other :| other in hidden && hidden[other].name == visible[name].name {
        SameChannel(run, visible[name], hidden[other]);
      }
    }
    if Elsewhere(run, target) {
      NotAFile(run, target, visible);
      NotAFile(run, target, hidden);
    }
  }

  lemma NotAFile(run: TaskRun, target: Evidence, refs: Refs)
    requires OfRun(run, refs) && Elsewhere(run, target)
    ensures !NamedBy(refs, target.name)
  {
  }

  lemma SameChannel(run: TaskRun, a: Evidence, b: Evidence)
    requires run.spec.sequence > 0 && NamesOk(run.spec.artifacts) && a.name == b.name
    requires exists channel | channel in run.spec.artifacts :: a == Captured(run.spec, channel)
    requires exists channel | channel in run.spec.artifacts :: b == Captured(run.spec, channel)
    ensures a == b
  {
    var x :| x in run.spec.artifacts && a == Captured(run.spec, x);
    var y :| y in run.spec.artifacts && b == Captured(run.spec, y);
    EvidenceNameInjective(run.spec.sequence, x, run.spec.sequence, y);
  }

  method CiteRefs(run: TaskRun, cited: Artifacts, refs: Refs) returns (more: Artifacts)
    requires run.spec.sequence > 0 && NamesOk(run.spec.artifacts) && OfRun(run, refs)
    ensures CitesAll(more, refs)
    ensures forall n :: n in more <==> n in cited || NamedBy(refs, n)
    ensures forall n | n in cited && !NamedBy(refs, n) :: more[n] == cited[n]
  {
    more := cited;
    var names := refs.Keys;
    while names != {}
      invariant names <= refs.Keys
      invariant forall n :: n in more <==> n in cited || exists name | name in refs :: name !in names && n == refs[name].name
      invariant forall name | name in refs && name !in names :: more[refs[name].name] == refs[name].artifact
      invariant forall n | n in cited && !NamedBy(refs, n) :: more[n] == cited[n]
      decreases names
    {
      var name :| name in names;
      ghost var left := names;
      names := names - {name};
      forall other | other in refs && other !in left && refs[other].name == refs[name].name
        ensures refs[other].artifact == refs[name].artifact
      {
        SameChannel(run, refs[other], refs[name]);
      }
      more := more[refs[name].name := refs[name].artifact];
    }
  }
}
