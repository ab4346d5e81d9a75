/** Why memory cannot be derived: what on the ledger it cannot read or record. */
module MemoryRefusals {
  import opened Records
  import opened LedgerSpec
  import opened LedgerInvariant
  import opened LedgerSafety
  import opened Evidences
  import RecordOnce
  import opened Claims
  import opened TaskSpecs
  import opened TaskRuns
  import opened MemoryRecords
  import opened MemoryEntries
  import opened MemorySources

  // ---- What cannot be read ----

  /** A run-spec whose run the host cannot load. */
  ghost predicate Unloadable(observations: seq<Observation>, o: Observation) {
    o.origin.kind == RUN_SPEC && forall run | Loads(observations, run) :: RunName(o.origin.operationId) != Some(run.id)
  }

  /** The submission's first capture holds no submission. */
  predicate Uncaptured(observations: seq<Observation>, run: string, index: nat) {
    var row := RecordOnce.FirstRecord(observations, Named(SubmissionText(run, index)));
    row.Some? && SUBMISSION !in observations[row.value].artifacts
  }

  /** Facts that are read are a list. */
  predicate FactsReadable(op: Operation) {
    op.completion.Some? && FACTS in op.completion.value.observation.artifacts ==>
      && var blob := op.completion.value.observation.artifacts[FACTS];
      blob.Doc? && blob.value.List?
  }

  /** The host still has the check, its request is on the ledger's terms, and what it
      reported can be read. */
  ghost predicate AnswersCheck(st: State, domain: Domain, run: Run, index: nat, check: string, cited: Artifacts) {
    && check in domain.checkers
    && var found := Lookup(st, CheckRequest(st.project, domain, run, index, check, cited));
    && found.Ok? && (found.value.Some? ==> FactsReadable(st.operations[found.value.value]))
  }

  ghost predicate Unanswered(st: State, domain: Domain, run: Run, index: nat, target: Evidence, check: string) {
    exists cited | CitesContract(run.record, index, target, cited) :: !AnswersCheck(st, domain, run, index, check, cited)
  }

  /** What the tool attempts of a submission's episode captured as candidates. */
  function Submitted(operations: seq<Operation>, run: string, index: nat): (found: seq<Operation>)
    ensures forall op :: op in found <==> op in operations && Submits(op, run, index)
  {
    if operations == [] then []
    else
      var n := |operations| - 1;
      Submitted(operations[..n], run, index) + if Submits(operations[n], run, index) then [operations[n]] else []
  }

  /** A captured submission that has not one candidate, or a check that gives no answer. */
  ghost predicate Unsettled(st: State, domain: Domain, run: Run, index: nat, target: Evidence) {
    || |Submitted(st.operations, run.id, index)| != 1
    || (Contract(run.record.task, index).Some?
        && exists check | check in Contract(run.record.task, index).value.checks :: Unanswered(st, domain, run, index, target, check))
  }

  /** An unreadable decision on the target comes before any that accepts it. */
  predicate Undecided(operations: seq<Operation>, target: Evidence) {
    exists i | 0 <= i < |operations| && Decides(operations[i], target) && DecisionOf(operations[i]).None? ::
      forall j | 0 <= j < i && Decides(operations[j], target) :: DecisionOf(operations[j]) != Some(Str("accepted"))
  }

  /** The submission's decisions or the run's split cannot be read. */
  predicate Unassessed(st: State, s: Source) {
    SplitOf(s.run.campaign).None? || Undecided(st.operations, s.target)
  }

  ghost predicate UncapturedIn(st: State, scope: string, run: Run, index: nat) {
    && '/' !in run.id && Loads(st.observations, run) && InScope(run, scope)
    && 1 <= index <= run.record.task.submissions && Uncaptured(st.observations, run.id, index)
  }

  ghost predicate UnsettledIn(st: State, domain: Domain, scope: string, run: Run, index: nat, target: Evidence) {
    '/' !in run.id && IsSubmitted(st.observations, scope, run, index, target) && Unsettled(st, domain, run, index, target)
  }

  /** Something on the ledger that memory of this scope cannot be read from. */
  ghost predicate Unreadable(st: State, domain: Domain, scope: string) {
    || (exists o | o in st.observations :: Unloadable(st.observations, o))
    || (exists run, index :: UncapturedIn(st, scope, run, index))
    || (exists run, index, target :: UnsettledIn(st, domain, scope, run, index, target))
    || (exists s :: Sourced(st, domain, scope, s) && Unassessed(st, s))
  }

  // ---- What cannot be recorded ----

  /** An entry of memory, on the ledger. */
  ghost predicate EntryAt(st: State, scope: string, s: Source, capture: Observation) {
    var row := RecordOnce.FirstRecord(st.observations, Named(EntryText(s.run.id, s.index, s.name)));
    && row.Some? && st.observations[row.value] == capture
    && capture.origin == EntryOrigin(s) && capture.artifacts == EntryRaw(scope, s)
  }

  ghost predicate VersionBlocked(st: State, session: string) {
    exists name, blob :: RecordOnce.Step(st, session, VersionOrigin(name, blob), map[VERSION := blob]).out.Err?
  }

  ghost predicate ClaimBlocked(st: State, session: string, domain: Domain, scope: string, s: Source) {
    && HasContract(s)
    && exists capture, versions ::
         && EntryAt(st, scope, s, capture) && VersionsAt(st, domain, FilesOf(s), Depends(s), versions)
         && !Claimable(st, session, ClaimBody(scope, s, Captured(capture, ENTRY), versions), None)
  }

  /** One of the records memory keeps of a source cannot be made. */
  ghost predicate SourceBlocked(st: State, session: string, domain: Domain, scope: string, s: Source) {
    || RecordOnce.Step(st, session, EntryOrigin(s), EntryRaw(scope, s)).out.Err?
    || VersionBlocked(st, session)
    || ClaimBlocked(st, session, domain, scope, s)
  }

  /** Why the walk over the sources of a scope stops. */
  ghost predicate Stops(st: State, session: string, domain: Domain, scope: string) {
    Unreadable(st, domain, scope) || exists s :: Submitting(st, domain, scope, s) && SourceBlocked(st, session, domain, scope, s)
  }

  /** A check of the contract in force. */
  predicate InForce(run: Run, index: nat, check: string) {
    Contract(run.record.task, index).Some? && check in Contract(run.record.task, index).value.checks
  }

  lemma StopsAtCheck(st: State, session: string, domain: Domain, scope: string, run: Run, index: nat, target: Evidence,
                     check: string, cited: Artifacts)
    requires '/' !in run.id && IsSubmitted(st.observations, scope, run, index, target) && InForce(run, index, check)
    requires CitesContract(run.record, index, target, cited) && !AnswersCheck(st, domain, run, index, check, cited)
    ensures Stops(st, session, domain, scope)
  {
    assert Unanswered(st, domain, run, index, target, check);
    assert UnsettledIn(st, domain, scope, run, index, target);
  }

  lemma StopsAtCapture(st: State, session: string, domain: Domain, scope: string, run: Run, index: nat)
    requires UncapturedIn(st, scope, run, index)
    ensures Stops(st, session, domain, scope)
  {
  }

  lemma StopsAtNotes(st: State, session: string, domain: Domain, scope: string, run: Run, index: nat, target: Evidence)
    requires '/' !in run.id && IsSubmitted(st.observations, scope, run, index, target)
    requires |Submitted(st.operations, run.id, index)| != 1
    ensures Stops(st, session, domain, scope)
  {
    assert UnsettledIn(st, domain, scope, run, index, target);
  }

  lemma StopsAtSource(st: State, later: State, session: string, domain: Domain, scope: string, s: Source)
    requires OnlyBookkeeping(st, later) && '/' !in s.run.id && Submitting(st, domain, scope, s)
    requires SourceBlocked(later, session, domain, scope, s)
    ensures Stops(later, session, domain, scope)
  {
    SourcedStays(st, later, scope, s.run, s.index, s.target);
    assert Submitting(later, domain, scope, s);
  }

  lemma StopsAtSpec(st: State, session: string, domain: Domain, scope: string, o: Observation)
    requires o in st.observations && Unloadable(st.observations, o)
    ensures Stops(st, session, domain, scope)
  {
  }

  lemma StillCaptured(st: State, later: State, o: Observation)
    requires OnlyBookkeeping(st, later) && o in st.observations
    ensures o in later.observations
  {
    var k :| 0 <= k < |st.observations| && st.observations[k] == o;
    assert later.observations[k] == o;
  }

  // ---- When nothing else is under the IDs memory uses ----

  /** An operation or another capture has the ID of this record. */
  ghost predicate Taken(st: State, origin: Origin, raw: Artifacts) {
    || (exists op | op in st.operations && op.Id() == origin.operationId :: op.request != Request(origin, st.project))
    || (exists k | 0 <= k < |st.observations| && st.observations[k].origin.operationId == origin.operationId ::
          !RecordOnce.IsRecord(st, k, origin, raw))
  }

  /** A record of memory's whose ID something else has. */
  ghost predicate Clashes(st: State, domain: Domain, scope: string) {
    || (exists name, blob :: Taken(st, VersionOrigin(name, blob), map[VERSION := blob]))
    || (exists s :: Submitting(st, domain, scope, s) && Taken(st, EntryOrigin(s), EntryRaw(scope, s)))
    || (exists op, body: Body | op in st.operations :: op.Id() == Hashed("claim", BodyJson(body)))
  }

  /** A record on the ledger's terms is refused only where its ID is taken. */
  lemma RefusedIsTaken(st: State, session: string, origin: Origin, raw: Artifacts)
    requires Inv(st) && session in st.sessions && OriginMatches(st, origin) && raw != map[] && NamesOk(raw)
    ensures RecordOnce.Step(st, session, origin, raw).out.Err? ==> Taken(st, origin, raw)
  {
    var row := Find(st.operations, origin.operationId);
    if row.Some? {
      assert st.operations[row.value] in st.operations;
    }
  }

  lemma VersionOnLedger(st: State, name: string, blob: Blob, e: Evidence)
    requires Inv(st) && PlainSnapshots(st.project) && VersionAt(st, name, blob, e)
    ensures OnLedger(st, e)
  {
    CaptureResolves(st, RecordOnce.FirstRecord(st.observations, VersionId(name, blob)).value, VERSION);
  }

  /** What the claim of an entry cites is on the ledger. */
  lemma ClaimOnLedger(st: State, domain: Domain, scope: string, s: Source, capture: Observation, versions: map<string, Evidence>)
    requires Inv(st) && PlainSnapshots(st.project) && HasContract(s) && EntryAt(st, scope, s, capture)
    requires VersionsAt(st, domain, FilesOf(s), Depends(s), versions)
    ensures AllOnLedger(st, ClaimEvidence(ClaimBody(scope, s, Captured(capture, ENTRY), versions), None))
  {
    var body := ClaimBody(scope, s, Captured(capture, ENTRY), versions);
    CaptureResolves(st, RecordOnce.FirstRecord(st.observations, Named(EntryText(s.run.id, s.index, s.name))).value, ENTRY);
    forall e | e in ClaimEvidence(body, None)
      ensures OnLedger(st, e)
    {
      if e != body.target {
        var key :| key in versions && versions[key] == e;
        VersionIsOnLedger(st, domain, FilesOf(s), Depends(s), versions, key);
      }
    }
  }

  lemma VersionIsOnLedger(st: State, domain: Domain, files: Files, names: set<string>, versions: map<string, Evidence>, key: string)
    requires Inv(st) && PlainSnapshots(st.project) && VersionsAt(st, domain, files, names, versions) && key in versions
    ensures OnLedger(st, versions[key]) && !Blank(key)
  {
    if key == DOMAIN {
      VersionOnLedger(st, DOMAIN, domain.environment, versions[DOMAIN]);
      assert 'd' in DOMAIN;
    } else {
      var name := FileOfKey(files, names, key);
      VersionOnLedger(st, FILE + name, files[name], versions[key]);
      assert key[0] == 'f' && key[0] in key;
    }
  }

  lemma ClaimIsPosed(st: State, domain: Domain, scope: string, s: Source, entry: Evidence, versions: map<string, Evidence>)
    requires Inv(st) && PlainSnapshots(st.project) && HasContract(s)
    requires VersionsAt(st, domain, FilesOf(s), Depends(s), versions)
    requires Consistent(ClaimEvidence(ClaimBody(scope, s, entry, versions), None))
    ensures WellPosed(st, ClaimBody(scope, s, entry, versions), None)
  {
    var body := ClaimBody(scope, s, entry, versions);
    forall name | name in body.assumptions
      ensures !Blank(name)
    {
      VersionIsOnLedger(st, domain, FilesOf(s), Depends(s), versions, name);
    }
    assert body.statement[0] == 'm' && body.statement[0] in body.statement;
  }

  lemma UnlookedIsTaken(st: State, body: Body, inputs: Artifacts)
    requires Lookup(st, Request(ClaimOrigin(body, inputs), st.project)).Err?
    requires OriginMatches(st, ClaimOrigin(body, inputs))
    ensures exists op | op in st.operations :: op.Id() == Hashed("claim", BodyJson(body))
  {
    var row := Find(st.operations, Hashed("claim", BodyJson(body)));
    assert st.operations[row.value] in st.operations;
  }

  /** A claim of memory's is refused only where an operation has its ID. */
  lemma ClaimIsFree(st: State, session: string, domain: Domain, scope: string, s: Source, capture: Observation,
                    versions: map<string, Evidence>)
    requires Inv(st) && PlainSnapshots(st.project) && session in st.sessions && HasContract(s)
    requires EntryAt(st, scope, s, capture) && VersionsAt(st, domain, FilesOf(s), Depends(s), versions)
    requires !Claimable(st, session, ClaimBody(scope, s, Captured(capture, ENTRY), versions), None)
    ensures Clashes(st, domain, scope)
  {
    var body := ClaimBody(scope, s, Captured(capture, ENTRY), versions);
    ClaimOnLedger(st, domain, scope, s, capture, versions);
    OnLedgerIsCitable(st, ClaimEvidence(body, None));
    ClaimIsPosed(st, domain, scope, s, Captured(capture, ENTRY), versions);
    UnlookedIsTaken(st, body, InputsOf(ClaimEvidence(body, None)));
  }

  lemma NotesOnLedger(st: State, domain: Domain, s: Source)
    requires Inv(st) && PlainSnapshots(st.project) && FromNotes(st.operations, domain, s)
    ensures OnLedger(st, s.ref)
  {
    var op :| op in st.operations && Submits(op, s.run.id, s.index) && NOTES_FILE in op.completion.value.observation.artifacts
      && s.ref == Captured(op.completion.value.observation, NOTES_FILE);
    SettledOnLedger(st, op, NOTES_FILE);
  }

  lemma ReportOnLedger(st: State, op: Operation, ref: Evidence, items: seq<Json>)
    requires Inv(st) && PlainSnapshots(st.project) && op in st.operations && Reports(op, ref, items)
    ensures OnLedger(st, ref)
  {
    SettledOnLedger(st, op, FACTS);
  }

  lemma FactsOnLedger(st: State, domain: Domain, check: string, s: Source)
    requires Inv(st) && PlainSnapshots(st.project) && FactsOf(st.operations, st.project, domain, check, s)
    ensures OnLedger(st, s.ref)
  {
    var op :| op in st.operations && IsCheckOf(st.project, domain, s, check, op) && Reports(op, s.ref, s.items);
    ReportOnLedger(st, op, s.ref, s.items);
  }

  lemma TargetOnLedger(st: State, run: string, index: nat, target: Evidence)
    requires Inv(st) && PlainSnapshots(st.project) && IsTarget(st.observations, run, index, target)
    ensures OnLedger(st, target)
  {
    CaptureResolves(st, RecordOnce.FirstRecord(st.observations, Named(SubmissionText(run, index))).value, SUBMISSION);
  }

  /** An entry is refused only where its ID is taken. */
  lemma EntryIsFree(st: State, session: string, domain: Domain, scope: string, s: Source)
    requires Inv(st) && PlainSnapshots(st.project) && session in st.sessions && Submitting(st, domain, scope, s)
    requires RecordOnce.Step(st, session, EntryOrigin(s), EntryRaw(scope, s)).out.Err?
    ensures Clashes(st, domain, scope)
  {
    TargetOnLedger(st, s.run.id, s.index, s.target);
    if FromNotes(st.operations, domain, s) {
      NotesOnLedger(st, domain, s);
    } else {
      var check :| FactsOf(st.operations, st.project, domain, check, s);
      FactsOnLedger(st, domain, check, s);
    }
    EntryIsTaken(st, session, domain, scope, s);
  }

  lemma EntryIsTaken(st: State, session: string, domain: Domain, scope: string, s: Source)
    requires Inv(st) && session in st.sessions && OnLedger(st, s.target) && OnLedger(st, s.ref)
    requires RecordOnce.Step(st, session, EntryOrigin(s), EntryRaw(scope, s)).out.Err?
    ensures Taken(st, EntryOrigin(s), EntryRaw(scope, s))
  {
    assert ENTRY in EntryRaw(scope, s) && 'e' in ENTRY;
    RefusedIsTaken(st, session, EntryOrigin(s), EntryRaw(scope, s));
  }

  lemma SourceIsFree(st: State, session: string, domain: Domain, scope: string, s: Source)
    requires Inv(st) && PlainSnapshots(st.project) && session in st.sessions
    requires Submitting(st, domain, scope, s) && SourceBlocked(st, session, domain, scope, s)
    ensures Clashes(st, domain, scope)
  {
    if ClaimBlocked(st, session, domain, scope, s) {
      var capture, versions :|
        && EntryAt(st, scope, s, capture) && VersionsAt(st, domain, FilesOf(s), Depends(s), versions)
        && !Claimable(st, session, ClaimBody(scope, s, Captured(capture, ENTRY), versions), None);
      ClaimIsFree(st, session, domain, scope, s, capture, versions);
    } else if VersionBlocked(st, session) {
      VersionIsFree(st, session, domain, scope);
    } else {
      EntryIsFree(st, session, domain, scope, s);
    }
  }

  lemma VersionIsFree(st: State, session: string, domain: Domain, scope: string)
    requires Inv(st) && session in st.sessions && VersionBlocked(st, session)
    ensures Clashes(st, domain, scope)
  {
    var name, blob :| RecordOnce.Step(st, session, VersionOrigin(name, blob), map[VERSION := blob]).out.Err?;
    assert 'v' in VERSION && VERSION in map[VERSION := blob];
    RefusedIsTaken(st, session, VersionOrigin(name, blob), map[VERSION := blob]);
  }

  /** In a known session the walk stops only for what cannot be read, or where something
      else has the ID of a record of memory's. */
  lemma StopsOnlyThere(st: State, session: string, domain: Domain, scope: string)
    requires Inv(st) && PlainSnapshots(st.project) && session in st.sessions
    ensures Stops(st, session, domain, scope) ==> Unreadable(st, domain, scope) || Clashes(st, domain, scope)
  {
    if !Unreadable(st, domain, scope) && Stops(st, session, domain, scope) {
      var s :| Submitting(st, domain, scope, s) && SourceBlocked(st, session, domain, scope, s);
      SourceIsFree(st, session, domain, scope, s);
    }
  }

  /** A version of a file that cannot be looked up again. */
  ghost predicate Comparable(st: State, domain: Domain, now: Files) {
    forall current | VersionsAt(st, domain, now, now.Keys, current) :: VersionsOk(st, Given(current))
  }

  ghost predicate SomeUnassessed(st: State, found: seq<Found>) {
    exists f | f in found :: Unassessed(st, f.source)
  }

  /** The versions of files can be assessed against, unless an operation has the ID the
      assessment looks up. */
  lemma VersionsCompare(st: State, domain: Domain, now: Files)
    requires Inv(st) && PlainSnapshots(st.project) && !Has(st.operations, Named("support-context"))
    ensures Comparable(st, domain, now)
  {
    forall current | VersionsAt(st, domain, now, now.Keys, current)
      ensures VersionsOk(st, Given(current))
    {
      forall name | name in current
        ensures !Blank(name) && Lookup(st, ContextRequest(st.project, current[name])).Ok?
      {
        VersionIsOnLedger(st, domain, now, now.Keys, current, name);
      }
    }
  }

  /** What cannot be read is so whatever bookkeeping was added. */
  lemma UnreadableStays(st: State, later: State, domain: Domain, scope: string)
    requires OnlyBookkeeping(st, later) && Unreadable(later, domain, scope)
    ensures Unreadable(st, domain, scope)
  {
    if o :| o in later.observations && Unloadable(later.observations, o) {
      UnloadableStays(st, later, o);
    } else if run, index :| UncapturedIn(later, scope, run, index) {
      UncapturedStays(st, later, scope, run, index);
    } else if run, index, target :| UnsettledIn(later, domain, scope, run, index, target) {
      UnsettledStays(st, later, domain, scope, run, index, target);
    } else {
      var s :| Sourced(later, domain, scope, s) && Unassessed(later, s);
      UnassessedStays(st, later, domain, scope, s);
    }
  }

  lemma UnassessedStays(st: State, later: State, domain: Domain, scope: string, s: Source)
    requires OnlyBookkeeping(st, later) && Sourced(later, domain, scope, s) && Unassessed(later, s)
    ensures Sourced(st, domain, scope, s) && Unassessed(st, s)
  {
    SourcesStay(st, later, domain, scope, s);
  }

  lemma UnloadableStays(st: State, later: State, o: Observation)
    requires OnlyBookkeeping(st, later) && o in later.observations && Unloadable(later.observations, o)
    ensures o in st.observations && Unloadable(st.observations, o)
  {
    var k :| 0 <= k < |later.observations| && later.observations[k] == o;
    assert st.observations[k] == o;
    forall run | Loads(st.observations, run)
      ensures RunName(o.origin.operationId) != Some(run.id)
    {
      if '/' !in run.id {
        LoadsStays(st, later, run);
      }
    }
  }

  lemma UncapturedStays(st: State, later: State, scope: string, run: Run, index: nat)
    requires OnlyBookkeeping(st, later) && UncapturedIn(later, scope, run, index)
    ensures UncapturedIn(st, scope, run, index)
  {
    LoadsStays(st, later, run);
    NoCaptureStays(st, later, run.id, index);
  }

  lemma NoCaptureStays(st: State, later: State, run: string, index: nat)
    requires OnlyBookkeeping(st, later) && '/' !in run && Uncaptured(later.observations, run, index)
    ensures Uncaptured(st.observations, run, index)
  {
    var id := Named(SubmissionText(run, index));
    if RecordOnce.FirstRecord(st.observations, id).Some? {
      RecordOnce.FirstRecordStays(st.observations, later.observations, id);
    } else {
      var row := RecordOnce.FirstRecord(later.observations, id).value;
      assert forall k | 0 <= k < |st.observations| :: st.observations[k] in st.observations;
      BookkeepingIsNoTarget(later.observations[row], run, index);
    }
  }

  lemma AnswersStay(st: State, later: State, domain: Domain, run: Run, index: nat, check: string, cited: Artifacts)
    requires OnlyBookkeeping(st, later) && AnswersCheck(st, domain, run, index, check, cited)
    ensures AnswersCheck(later, domain, run, index, check, cited)
  {
    OriginGrows(st, later, CheckRequest(st.project, domain, run, index, check, cited).origin);
  }

  lemma UnsettledStays(st: State, later: State, domain: Domain, scope: string, run: Run, index: nat, target: Evidence)
    requires OnlyBookkeeping(st, later) && UnsettledIn(later, domain, scope, run, index, target)
    ensures UnsettledIn(st, domain, scope, run, index, target)
  {
    SourcedStays(st, later, scope, run, index, target);
    if |Submitted(later.operations, run.id, index)| == 1 {
      var check :| check in Contract(run.record.task, index).value.checks && Unanswered(later, domain, run, index, target, check);
      UnansweredStays(st, later, domain, run, index, target, check);
    }
  }

  lemma UnansweredStays(st: State, later: State, domain: Domain, run: Run, index: nat, target: Evidence, check: string)
    requires OnlyBookkeeping(st, later) && Unanswered(later, domain, run, index, target, check)
    ensures Unanswered(st, domain, run, index, target, check)
  {
    var cited :| CitesContract(run.record, index, target, cited) && !AnswersCheck(later, domain, run, index, check, cited);
    if AnswersCheck(st, domain, run, index, check, cited) {
      AnswersStay(st, later, domain, run, index, check, cited);
    }
  }

  /** In a known session, with no snapshot or operation under a name memory looks up, memory
      is refused only for what cannot be read, or where something else has an ID of its own. */
  ghost predicate Explained(st: State, later: State, session: string, domain: Domain, scope: string) {
    PlainSnapshots(st.project) && session in st.sessions && !Has(st.operations, Named("support-context")) ==>
      Unreadable(st, domain, scope) || Clashes(later, domain, scope)
  }

  lemma ExplainsStop(st: State, later: State, session: string, domain: Domain, scope: string)
    requires OnlyBookkeeping(st, later) && Stops(later, session, domain, scope)
    ensures Explained(st, later, session, domain, scope)
  {
    if PlainSnapshots(st.project) && session in st.sessions {
      StopsOnlyThere(later, session, domain, scope);
      if Unreadable(later, domain, scope) {
        UnreadableStays(st, later, domain, scope);
      }
    }
  }

  lemma ExplainsAssess(st: State, later: State, session: string, domain: Domain, scope: string, now: Files, found: seq<Found>)
    requires OnlyBookkeeping(st, later) && SourcesOf(found) == AllSources(st, domain, scope)
    requires VersionBlocked(later, session) || !Comparable(later, domain, now) || SomeUnassessed(later, found)
    ensures Explained(st, later, session, domain, scope)
  {
    if PlainSnapshots(st.project) && session in st.sessions && !Has(st.operations, Named("support-context")) {
      VersionsCompare(later, domain, now);
      if VersionBlocked(later, session) {
        VersionIsFree(later, session, domain, scope);
      } else {
        var f :| f in found && Unassessed(later, f.source);
        assert f.source in SourcesOf(found);
        assert Sourced(st, domain, scope, f.source) && Unassessed(st, f.source);
      }
    }
  }
}
