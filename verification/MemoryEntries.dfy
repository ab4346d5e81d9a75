/** What a memory entry says of its source, and when it still applies. */
module MemoryEntries {
  import opened Records
  import opened LedgerSpec
  import opened LedgerInvariant
  import opened LedgerSafety
  import opened Evidences
  import opened RecordOnce
  import opened ClaimGraph
  import opened Claims
  import opened TaskSpecs
  import opened TaskRuns
  import opened MemoryRecords
  import opened MemorySnapshots

  /** A source with the record and the claim memory keeps of it. */
  datatype Found = Found(source: Source, claim: Evidence, capture: Observation)

  function AllFiles(contract: Task): Files {
    contract.inputs + contract.private
  }

  /** The files of the contract the source was submitted under. */
  function FilesOf(s: Source): Files
    requires Contract(s.run.record.task, s.index).Some?
  {
    AllFiles(Contract(s.run.record.task, s.index).value)
  }

  /** The files whose bytes the source's results depend on. */
  function Depends(s: Source): set<string>
    requires s.run.record.task.memory.Some?
  {
    set name | name in s.run.record.task.memory.value.depends
  }

  function ClaimBody(scope: string, s: Source, entry: Evidence, versions: map<string, Evidence>): Body {
    Body("memory entry " + s.name + " in scope " + scope, entry, versions, [], None, true)
  }

  predicate HasContract(s: Source) {
    s.run.record.task.memory.Some? && Contract(s.run.record.task, s.index).Some?
  }

  /** The claim is recorded as memory records it. */
  ghost predicate ClaimKept(st: State, body: Body) {
    Consistent(ClaimEvidence(body, None)) && Recorded(st, body, InputsOf(ClaimEvidence(body, None)))
  }

  /** The source is recorded, and so is the claim that it rests on these file versions. */
  ghost predicate FoundAt(st: State, domain: Domain, scope: string, f: Found) {
    var row := FirstRecord(st.observations, Named(EntryText(f.source.run.id, f.source.index, f.source.name)));
    && HasContract(f.source)
    && row.Some? && st.observations[row.value] == f.capture
    && f.capture.origin == EntryOrigin(f.source) && f.capture.artifacts == EntryRaw(scope, f.source)
    && exists versions, k: nat ::
         && VersionsAt(st, domain, FilesOf(f.source), Depends(f.source), versions)
         && ReadsAs(st, k, f.claim, ClaimBody(scope, f.source, Captured(f.capture, ENTRY), versions))
         && ClaimKept(st, ClaimBody(scope, f.source, Captured(f.capture, ENTRY), versions))
  }

  // ---- What was found stays found ----

  lemma VersionStays(st: State, later: State, name: string, blob: Blob, e: Evidence)
    requires st.observations <= later.observations && VersionAt(st, name, blob, e)
    ensures VersionAt(later, name, blob, e)
  {
    FirstRecordStays(st.observations, later.observations, VersionId(name, blob));
  }

  lemma VersionsStay(st: State, later: State, domain: Domain, files: Files, names: set<string>, versions: map<string, Evidence>)
    requires st.observations <= later.observations && VersionsAt(st, domain, files, names, versions)
    ensures VersionsAt(later, domain, files, names, versions)
  {
    VersionStays(st, later, DOMAIN, domain.environment, versions[DOMAIN]);
    forall name | name in names && name in files
      ensures VersionAt(later, FILE + name, files[name], versions[FILE + name])
    {
      VersionStays(st, later, FILE + name, files[name], versions[FILE + name]);
    }
  }

  /** A claim that reads one way reads so on every later ledger. */
  lemma ReadsStay(st: State, later: State, row: nat, ref: Evidence, body: Body)
    requires Extends(st, later) && later.operations == st.operations && ReadsAs(st, row, ref, body)
    ensures ReadsAs(later, row, ref, body)
  {
    OriginGrows(st, later, st.observations[row].origin);
    forall parent | parent in body.parents
      ensures exists k | 0 <= k < row :: HasClaim(later.observations[k], parent)
    {
      var k :| 0 <= k < row && HasClaim(st.observations[k], parent);
      assert later.observations[k] == st.observations[k];
    }
  }

  lemma ClaimStays(st: State, later: State, body: Body)
    requires st.observations <= later.observations && ClaimKept(st, body)
    ensures ClaimKept(later, body)
  {
    var o :| o in st.observations && o.origin == ClaimOrigin(body, InputsOf(ClaimEvidence(body, None)))
             && o.artifacts == ClaimRaw(body);
    assert o in later.observations;
  }

  lemma FoundStays(st: State, later: State, domain: Domain, scope: string, f: Found)
    requires Extends(st, later) && later.operations == st.operations && FoundAt(st, domain, scope, f)
    ensures FoundAt(later, domain, scope, f)
  {
    FirstRecordStays(st.observations, later.observations, Named(EntryText(f.source.run.id, f.source.index, f.source.name)));
    var versions, k: nat :|
      && VersionsAt(st, domain, FilesOf(f.source), Depends(f.source), versions)
      && ReadsAs(st, k, f.claim, ClaimBody(scope, f.source, Captured(f.capture, ENTRY), versions))
      && ClaimKept(st, ClaimBody(scope, f.source, Captured(f.capture, ENTRY), versions));
    VersionsStay(st, later, domain, FilesOf(f.source), Depends(f.source), versions);
    ClaimStays(st, later, ClaimBody(scope, f.source, Captured(f.capture, ENTRY), versions));
    ReadsStay(st, later, k, f.claim, ClaimBody(scope, f.source, Captured(f.capture, ENTRY), versions));
  }

  // ---- What need not be recorded again ----

  /** Every version record these files need is there. */
  ghost predicate VersionsKept(st: State, domain: Domain, files: Files, names: set<string>) {
    && FirstRecord(st.observations, VersionId(DOMAIN, domain.environment)).Some?
    && forall name | name in names && name in files :: FirstRecord(st.observations, VersionId(FILE + name, files[name])).Some?
  }

  /** The source is recorded, with its versions and its claim. */
  ghost predicate Kept(st: State, domain: Domain, scope: string, s: Source) {
    exists f: Found :: f.source == s && FoundAt(st, domain, scope, f)
  }

  ghost predicate AllKept(st: State, domain: Domain, scope: string, sources: iset<Source>) {
    forall s | s in sources :: Kept(st, domain, scope, s)
  }

  lemma VersionsAreOne(st: State, domain: Domain, files: Files, names: set<string>, a: map<string, Evidence>,
                       b: map<string, Evidence>)
    requires VersionsAt(st, domain, files, names, a) && VersionsAt(st, domain, files, names, b)
    ensures a == b && VersionsKept(st, domain, files, names)
  {
    forall key | key in a
      ensures a[key] == b[key]
    {
      if key != DOMAIN {
        var name := FileOfKey(files, names, key);
      }
    }
  }

  // ---- When an entry applies ----

  /** One file against the files of now: its bytes may be others, or it may be gone. */
  function FileStatus(blob: Blob, now: Files, name: string): Applicability {
    if name !in now then Undetermined else if now[name] == blob then Current else Outdated
  }

  predicate SomeFile(files: Files, depends: set<string>, now: Files, status: Applicability) {
    exists name | name in depends && name in files :: FileStatus(files[name], now, name) == status
  }

  /** Results of some files apply to others: outdated where a file they depend on has
      other bytes now, else undetermined where one is gone. */
  function Applies(files: Files, depends: set<string>, now: Files): Applicability {
    if SomeFile(files, depends, now, Outdated) then Outdated
    else if SomeFile(files, depends, now, Undetermined) then Undetermined
    else Current
  }

  /** Records of the same name are equal exactly when their bytes are. */
  lemma VersionsTellBytes(st: State, name: string, a: Blob, b: Blob, x: Evidence, y: Evidence)
    requires Inv(st) && VersionAt(st, name, a, x) && VersionAt(st, name, b, y)
    ensures x == y <==> a == b
  {
    var i := FirstRecord(st.observations, VersionId(name, a)).value;
    var j := FirstRecord(st.observations, VersionId(name, b)).value;
    if x == y {
      CaptureIsUnique(st, i, j, VERSION, VERSION);
      assert map[VERSION := a][VERSION] == map[VERSION := b][VERSION];
    }
  }

  lemma FileNames(name: string, other: string)
    ensures FILE + name != DOMAIN && (FILE + name == FILE + other ==> name == other)
  {
    assert (FILE + name)[0] == 'f' && DOMAIN[0] == 'd';
    assert (FILE + name)[|FILE|..] == name && (FILE + other)[|FILE|..] == other;
  }

  lemma FileIsAmong(files: Files, names: set<string>, name: string)
    ensures FILE + name in VersionNames(files, names) <==> name in names && name in files
  {
    if FILE + name in VersionNames(files, names) {
      FileNames(name, name);
      var other :| other in names && other in files && FILE + name == FILE + other;
      FileNames(name, other);
    }
  }

  function Given(versions: map<string, Evidence>): Versions {
    map name | name in versions :: Some(versions[name])
  }

  /** One depended-on file, compared through its recorded versions. */
  lemma FileCompares(st: State, domain: Domain, files: Files, depends: set<string>, versions: map<string, Evidence>,
                     now: Files, current: map<string, Evidence>, name: string)
    requires Inv(st) && VersionsAt(st, domain, files, depends, versions) && VersionsAt(st, domain, now, now.Keys, current)
    requires name in depends && name in files
    ensures FILE + name in versions
    ensures Compare(Given(current), FILE + name, versions[FILE + name]) == FileStatus(files[name], now, name)
  {
    FileIsAmong(files, depends, name);
    FileIsAmong(now, now.Keys, name);
    if name in now {
      VersionsTellBytes(st, FILE + name, files[name], now[name], versions[FILE + name], current[FILE + name]);
    }
  }

  lemma DomainCompares(st: State, domain: Domain, files: Files, depends: set<string>, versions: map<string, Evidence>,
                       now: Files, current: map<string, Evidence>)
    requires Inv(st) && VersionsAt(st, domain, files, depends, versions) && VersionsAt(st, domain, now, now.Keys, current)
    ensures DOMAIN in versions && Compare(Given(current), DOMAIN, versions[DOMAIN]) == Current
  {
    VersionsTellBytes(st, DOMAIN, domain.environment, domain.environment, versions[DOMAIN], current[DOMAIN]);
  }

  /** The assumptions of a claim have a status when some depended-on file has it. */
  lemma AssumesWhenFile(st: State, domain: Domain, files: Files, depends: set<string>, versions: map<string, Evidence>,
                        now: Files, current: map<string, Evidence>, node: Node, status: Applicability)
    requires Inv(st) && VersionsAt(st, domain, files, depends, versions) && VersionsAt(st, domain, now, now.Keys, current)
    requires node.assumptions == versions && status != Current
    ensures Assumes(node, Given(current), status) <==> SomeFile(files, depends, now, status)
  {
    if Assumes(node, Given(current), status) {
      AssumedFile(st, domain, files, depends, versions, now, current, node, status);
    }
    if SomeFile(files, depends, now, status) {
      var name :| name in depends && name in files && FileStatus(files[name], now, name) == status;
      FileCompares(st, domain, files, depends, versions, now, current, name);
    }
  }

  lemma AssumedFile(st: State, domain: Domain, files: Files, depends: set<string>, versions: map<string, Evidence>,
                    now: Files, current: map<string, Evidence>, node: Node, status: Applicability)
    requires Inv(st) && VersionsAt(st, domain, files, depends, versions) && VersionsAt(st, domain, now, now.Keys, current)
    requires node.assumptions == versions && status != Current && Assumes(node, Given(current), status)
    ensures SomeFile(files, depends, now, status)
  {
    var key :| key in versions && Compare(Given(current), key, versions[key]) == status;
    DomainCompares(st, domain, files, depends, versions, now, current);
    var name := FileOfKey(files, depends, key);
    FileCompares(st, domain, files, depends, versions, now, current, name);
  }

  lemma FileOfKey(files: Files, names: set<string>, key: string) returns (name: string)
    requires key in VersionNames(files, names) && key != DOMAIN
    ensures name in names && name in files && key == FILE + name
  {
    name :| name in names && name in files && key == FILE + name;
  }

  /** The support of a complete claim without parents is what it assumes itself. */
  lemma SupportAlone(graph: Graph, current: Versions, ref: Evidence)
    requires ref in graph && graph[ref].parents == [] && graph[ref].complete
    ensures Support(graph, current, ref)
         == if Assumes(graph[ref], current, Outdated) then Outdated
            else if Assumes(graph[ref], current, Undetermined) then Undetermined
            else Current
  {
    ReachesWithStep(graph, current, Outdated, ref);
    ReachesWithStep(graph, current, Undetermined, ref);
  }

  /** The claim of an entry rests on no other claim, so a walk from it reads nothing else. */
  lemma EntryClaimIsReadable(st: State, proofs: map<OpId, Status>, domain: Domain, scope: string, f: Found, graph: Graph)
    requires FoundAt(st, domain, scope, f) && GraphOf(st, proofs, graph)
    ensures forall to | Reaches(graph, f.claim, to) :: to in graph
  {
    var versions, k: nat :|
      && VersionsAt(st, domain, FilesOf(f.source), Depends(f.source), versions)
      && ReadsAs(st, k, f.claim, ClaimBody(scope, f.source, Captured(f.capture, ENTRY), versions));
    assert graph[f.claim].parents == [];
    forall to | Reaches(graph, f.claim, to)
      ensures to in graph
    {
      if to != f.claim {
        var parent := ReachesBeyond(graph, f.claim, to);
        assert false;
      }
    }
  }

  /** What the claim of an entry supports is what its files' bytes say. */
  lemma SupportIsApplies(st: State, proofs: map<OpId, Status>, domain: Domain, scope: string, f: Found, now: Files,
                         current: map<string, Evidence>, graph: Graph)
    requires Inv(st) && FoundAt(st, domain, scope, f) && VersionsAt(st, domain, now, now.Keys, current)
    requires GraphOf(st, proofs, graph)
    ensures Support(graph, Given(current), f.claim) == Applies(FilesOf(f.source), Depends(f.source), now)
  {
    var files, depends := FilesOf(f.source), Depends(f.source);
    var versions, k: nat :|
      && VersionsAt(st, domain, files, depends, versions)
      && ReadsAs(st, k, f.claim, ClaimBody(scope, f.source, Captured(f.capture, ENTRY), versions));
    var body := ClaimBody(scope, f.source, Captured(f.capture, ENTRY), versions);
    assert graph[f.claim] == NodeOf(st, proofs, k, body);
    SupportAlone(graph, Given(current), f.claim);
    AssumesWhenFile(st, domain, files, depends, versions, now, current, graph[f.claim], Outdated);
    AssumesWhenFile(st, domain, files, depends, versions, now, current, graph[f.claim], Undetermined);
  }

  // ---- The entry ----

  /** The entry shown for a source: what it says follows from the ledger alone. */
  ghost predicate EntryOf(st: State, s: Source, now: Files, e: MemoryEntry) {
    var row := FirstRecord(st.observations, Named(EntryText(s.run.id, s.index, s.name)));
    && HasContract(s)
    && e.run == s.run.id && e.task == s.run.record.task.id && e.submission == s.index && e.source == s.name
    && e.items == s.items
    && (e.accepted <==> AcceptedBy(st.operations, s.target))
    && e.applicability == Applies(FilesOf(s), Depends(s), now)
    && SplitOf(s.run.campaign) == Some(e.split)
    && row.Some? && e.sequence == st.observations[row.value].sequence
    && ENTRY in st.observations[row.value].artifacts && e.evidence == Captured(st.observations[row.value], ENTRY)
  }

  /** The sources that were found, as a set. */
  ghost function SourcesOf(found: seq<Found>): iset<Source> {
    iset f | f in found :: f.source
  }

  ghost predicate AllFound(st: State, domain: Domain, scope: string, found: seq<Found>) {
    forall f | f in found :: FoundAt(st, domain, scope, f)
  }

  lemma AllStay(st: State, later: State, domain: Domain, scope: string, found: seq<Found>)
    requires Extends(st, later) && later.operations == st.operations && AllFound(st, domain, scope, found)
    ensures AllFound(later, domain, scope, found)
  {
    forall f | f in found
      ensures FoundAt(later, domain, scope, f)
    {
      FoundStays(st, later, domain, scope, f);
    }
  }

  /** Every source of one submission. */
  ghost function SubmissionSources(st: State, domain: Domain, run: Run, index: nat, target: Evidence): iset<Source> {
    iset s: Source | IsOf(s, run, index, target) && Gives(st.operations, st.project, domain, s)
  }

  /** Every source of a run's first submissions. */
  ghost function RunSources(st: State, domain: Domain, run: Run, n: nat): iset<Source> {
    iset s: Source | s.run == run && 1 <= s.index <= n && IsTarget(st.observations, run.id, s.index, s.target)
      && Gives(st.operations, st.project, domain, s)
  }
}
