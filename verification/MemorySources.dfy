/** Walking the sources of a scope: which are found, how often, and why one cannot be read. */
module MemorySources {
  import opened Records
  import opened LedgerSpec
  import opened LedgerInvariant
  import opened LedgerSafety
  import opened Evidences
  import RecordOnce
  import opened Claims
  import opened TaskSpecs
  import opened TaskRuns
  import opened MemoryRecords
  import opened MemoryEntries

  // ---- How often a source was found ----

  ghost function Times(found: seq<Found>, s: Source): nat {
    if found == [] then 0
    else Times(found[..|found| - 1], s) + if found[|found| - 1].source == s then 1 else 0
  }

  lemma {:induction false} TimesIsMembership(found: seq<Found>, s: Source)
    ensures Times(found, s) > 0 <==> s in SourcesOf(found)
  {
    if found != [] {
      var n := |found| - 1;
      TimesIsMembership(found[..n], s);
      assert found == found[..n] + [found[n]];
      if s in SourcesOf(found[..n]) {
        var f :| f in found[..n] && f.source == s;
        assert f in found;
      }
      assert found[n] in found;
    }
  }

  /** Exactly these sources were added, each once. */
  ghost predicate Adds(found: seq<Found>, more: seq<Found>, extra: iset<Source>) {
    forall s :: Times(more, s) == Times(found, s) + if s in extra then 1 else 0
  }

  lemma AddsTwice(found: seq<Found>, some: seq<Found>, more: seq<Found>, x: iset<Source>, y: iset<Source>)
    requires Adds(found, some, x) && Adds(some, more, y) && x !! y
    ensures Adds(found, more, x + y)
  {
  }

  lemma AddsNothing(found: seq<Found>)
    ensures Adds(found, found, iset{})
  {
  }

  lemma AddsOne(found: seq<Found>, f: Found)
    ensures Adds(found, found + [f], iset{f.source})
  {
    assert (found + [f])[..|found|] == found;
  }

  lemma OneMoreIsFound(st: State, domain: Domain, scope: string, found: seq<Found>, f: Found)
    requires AllFound(st, domain, scope, found) && FoundAt(st, domain, scope, f)
    ensures AllFound(st, domain, scope, found + [f])
  {
  }

  // ---- The sources of one submission ----

  ghost function Maybe(source: Option<Source>): iset<Source> {
    if source.Some? then iset{source.value} else iset{}
  }

  /** What one check of a submission gives. */
  ghost function FactSources(operations: seq<Operation>, project: Project, domain: Domain, run: Run, index: nat,
                             target: Evidence, check: string): iset<Source>
  {
    iset s | IsOf(s, run, index, target) && FactsOf(operations, project, domain, check, s)
  }

  /** What these checks of a submission give. */
  ghost function CheckSources(operations: seq<Operation>, project: Project, domain: Domain, run: Run, index: nat,
                              target: Evidence, checks: seq<string>): iset<Source>
  {
    iset s | IsOf(s, run, index, target) && exists check | check in checks :: FactsOf(operations, project, domain, check, s)
  }

  ghost function NoteSources(operations: seq<Operation>, domain: Domain, run: Run, index: nat, target: Evidence): iset<Source> {
    iset s | IsOf(s, run, index, target) && FromNotes(operations, domain, s)
  }

  lemma CheckNames(a: string, b: string)
    requires CHECK + a == CHECK + b
    ensures a == b
  {
    assert (CHECK + a)[|CHECK|..] == a && (CHECK + b)[|CHECK|..] == b;
  }

  lemma OneMoreCheck(operations: seq<Operation>, project: Project, domain: Domain, run: Run, index: nat, target: Evidence,
                     checks: seq<string>, k: nat)
    requires k < |checks|
    ensures CheckSources(operations, project, domain, run, index, target, checks[..k + 1])
         == CheckSources(operations, project, domain, run, index, target, checks[..k])
          + FactSources(operations, project, domain, run, index, target, checks[k])
  {
    assert checks[..k + 1] == checks[..k] + [checks[k]];
  }

  lemma ChecksApart(operations: seq<Operation>, project: Project, domain: Domain, run: Run, index: nat, target: Evidence,
                    checks: seq<string>, k: nat)
    requires k < |checks| && TaskSpecs.Distinct(checks)
    ensures CheckSources(operations, project, domain, run, index, target, checks[..k])
         !! FactSources(operations, project, domain, run, index, target, checks[k])
  {
    forall s | s in CheckSources(operations, project, domain, run, index, target, checks[..k])
      ensures s !in FactSources(operations, project, domain, run, index, target, checks[k])
    {
      var check :| check in checks[..k] && FactsOf(operations, project, domain, check, s);
      if s.name == CHECK + checks[k] {
        CheckNames(check, checks[k]);
      }
    }
  }

  /** The checks of the contract in force are different checks. */
  lemma LoadedChecks(observations: seq<Observation>, run: Run, index: nat)
    requires Loads(observations, run)
    ensures Contract(run.record.task, index).Some? && TaskSpecs.Distinct(Contract(run.record.task, index).value.checks)
  {
    ContractsAreValid(run.record.task, Version(run.record.task, index));
  }

  lemma SubmissionGives(st: State, domain: Domain, run: Run, index: nat, target: Evidence)
    requires Contract(run.record.task, index).Some?
    ensures SubmissionSources(st, domain, run, index, target)
         == CheckSources(st.operations, st.project, domain, run, index, target, Contract(run.record.task, index).value.checks)
          + NoteSources(st.operations, domain, run, index, target)
  {
  }

  lemma NotesAreNoCheck(operations: seq<Operation>, project: Project, domain: Domain, run: Run, index: nat, target: Evidence,
                        checks: seq<string>)
    ensures CheckSources(operations, project, domain, run, index, target, checks)
         !! NoteSources(operations, domain, run, index, target)
  {
    forall check: string
      ensures CHECK + check != NOTES
    {
      assert (CHECK + check)[0] == 'c' && NOTES[0] == 'n';
    }
  }

  // ---- The submissions of one run ----

  /** What the captured submission of one index gives, if there is one. */
  ghost function IndexSources(st: State, domain: Domain, run: Run, index: nat): iset<Source> {
    iset s: Source | s.run == run && s.index == index && IsTarget(st.observations, run.id, index, s.target)
      && Gives(st.operations, st.project, domain, s)
  }

  ghost predicate IsTheTarget(observations: seq<Observation>, run: string, index: nat, target: Option<Evidence>) {
    forall e :: target == Some(e) <==> IsTarget(observations, run, index, e)
  }

  lemma NothingSubmitted(st: State, domain: Domain, run: Run, index: nat)
    requires forall e :: !IsTarget(st.observations, run.id, index, e)
    ensures IndexSources(st, domain, run, index) == iset{}
  {
  }

  lemma SubmittedSources(st: State, domain: Domain, run: Run, index: nat, target: Evidence)
    requires IsTheTarget(st.observations, run.id, index, Some(target))
    ensures IndexSources(st, domain, run, index) == SubmissionSources(st, domain, run, index, target)
  {
    forall s: Source
      ensures s in IndexSources(st, domain, run, index) <==> s in SubmissionSources(st, domain, run, index, target)
    {
      assert Some(target) == Some(s.target) <==> IsTarget(st.observations, run.id, index, s.target);
    }
  }

  lemma SameIndexSources(st: State, later: State, domain: Domain, run: Run, index: nat)
    requires OnlyBookkeeping(st, later) && '/' !in run.id
    ensures IndexSources(later, domain, run, index) == IndexSources(st, domain, run, index)
  {
    forall s: Source
      ensures s in IndexSources(later, domain, run, index) <==> s in IndexSources(st, domain, run, index)
    {
      TargetStays(st, later, run.id, index, s.target);
    }
  }

  lemma OneMoreIndex(st: State, domain: Domain, run: Run, k: nat)
    ensures RunSources(st, domain, run, k + 1) == RunSources(st, domain, run, k) + IndexSources(st, domain, run, k + 1)
    ensures RunSources(st, domain, run, k) !! IndexSources(st, domain, run, k + 1)
  {
  }

  lemma NoIndex(st: State, domain: Domain, run: Run)
    ensures RunSources(st, domain, run, 0) == iset{}
  {
  }

  lemma FewerIndices(st: State, domain: Domain, run: Run, k: nat, n: nat)
    requires k <= n
    ensures RunSources(st, domain, run, k) <= RunSources(st, domain, run, n)
  {
  }

  // ---- The runs of the ledger ----

  predicate NamesRun(o: Observation, id: string) {
    o.origin.kind == RUN_SPEC && RunName(o.origin.operationId) == Some(id)
  }

  /** How many captures of kind run-spec name a run; more than one only when they share a
      name. */
  function Namings(observations: seq<Observation>, id: string): nat {
    if observations == [] then 0
    else
      var n := |observations| - 1;
      Namings(observations[..n], id) + if NamesRun(observations[n], id) then 1 else 0
  }

  lemma {:induction false} NamingsAreRuns(observations: seq<Observation>, id: string)
    ensures Namings(observations, id) > 0 <==> IsARun(observations, id)
  {
    if observations != [] {
      var n := |observations| - 1;
      NamingsAreRuns(observations[..n], id);
      assert observations == observations[..n] + [observations[n]];
      assert observations[n] in observations;
    }
  }

  /** A source of a captured submission of the scope. */
  ghost predicate Submitting(st: State, domain: Domain, scope: string, s: Source) {
    IsSubmitted(st.observations, scope, s.run, s.index, s.target) && Gives(st.operations, st.project, domain, s)
  }

  /** What the run a capture names gives. */
  ghost function NamedSources(st: State, domain: Domain, scope: string, o: Observation): iset<Source> {
    iset s: Source | NamesRun(o, s.run.id) && Submitting(st, domain, scope, s)
  }

  lemma NamedIsAmong(st: State, domain: Domain, scope: string, k: nat)
    requires k < |st.observations|
    ensures AllKept(st, domain, scope, AllSources(st, domain, scope)) ==>
      AllKept(st, domain, scope, NamedSources(st, domain, scope, st.observations[k]))
  {
    assert st.observations[k] in st.observations;
  }

  /** Everything the ledger holds that memory of this scope is made of. */
  ghost function AllSources(st: State, domain: Domain, scope: string): iset<Source> {
    iset s: Source | Sourced(st, domain, scope, s)
  }

  /** Each source was found once for every run-spec among the first captures that names its
      run. */
  ghost predicate Tallied(st: State, domain: Domain, scope: string, found: seq<Found>, k: nat)
    requires k <= |st.observations|
  {
    forall s :: Times(found, s) == if Submitting(st, domain, scope, s) then Namings(st.observations[..k], s.run.id) else 0
  }

  lemma TalliesNothing(st: State, domain: Domain, scope: string)
    ensures Tallied(st, domain, scope, [], 0)
  {
  }

  lemma TalliesNext(st: State, domain: Domain, scope: string, some: seq<Found>, more: seq<Found>, k: nat)
    requires k < |st.observations| && Tallied(st, domain, scope, some, k)
    requires Adds(some, more, NamedSources(st, domain, scope, st.observations[k]))
    ensures Tallied(st, domain, scope, more, k + 1)
  {
    forall s
      ensures Times(more, s) == if Submitting(st, domain, scope, s) then Namings(st.observations[..k + 1], s.run.id) else 0
    {
      OneMoreNaming(st.observations, k, s.run.id);
      assert s in NamedSources(st, domain, scope, st.observations[k])
        <==> NamesRun(st.observations[k], s.run.id) && Submitting(st, domain, scope, s);
      assert Times(more, s) == Times(some, s) + if s in NamedSources(st, domain, scope, st.observations[k]) then 1 else 0;
    }
  }

  lemma OneMoreNaming(observations: seq<Observation>, k: nat, id: string)
    requires k < |observations|
    ensures Namings(observations[..k + 1], id) == Namings(observations[..k], id) + if NamesRun(observations[k], id) then 1 else 0
  {
    assert observations[..k + 1][..k] == observations[..k];
  }

  lemma TalliesAll(st: State, domain: Domain, scope: string, found: seq<Found>)
    requires Tallied(st, domain, scope, found, |st.observations|)
    ensures SourcesOf(found) == AllSources(st, domain, scope)
    ensures forall s | s in AllSources(st, domain, scope) :: Times(found, s) == Namings(st.observations, s.run.id)
  {
    assert st.observations[..|st.observations|] == st.observations;
    forall s
      ensures s in SourcesOf(found) <==> s in AllSources(st, domain, scope)
    {
      TimesIsMembership(found, s);
      NamingsAreRuns(st.observations, s.run.id);
    }
  }

  lemma OneRun(observations: seq<Observation>, a: Run, b: Run)
    requires Loads(observations, a) && Loads(observations, b) && a.id == b.id
    ensures a == b
  {
  }

  lemma OtherScope(st: State, domain: Domain, scope: string, o: Observation, run: Run)
    requires RunName(o.origin.operationId) == Some(run.id) && Loads(st.observations, run) && !InScope(run, scope)
    ensures NamedSources(st, domain, scope, o) == iset{}
  {
    forall s: Source
      ensures s !in NamedSources(st, domain, scope, o)
    {
      if s.run.id == run.id && Loads(st.observations, s.run) {
        OneRun(st.observations, s.run, run);
      }
    }
  }

  lemma OfThisRun(st: State, domain: Domain, scope: string, o: Observation, run: Run)
    requires NamesRun(o, run.id) && Loads(st.observations, run) && InScope(run, scope)
    ensures NamedSources(st, domain, scope, o) == RunSources(st, domain, run, run.record.task.submissions)
  {
    forall s: Source
      ensures s in NamedSources(st, domain, scope, o) <==> s in RunSources(st, domain, run, run.record.task.submissions)
    {
      if s.run.id == run.id && Loads(st.observations, s.run) {
        OneRun(st.observations, s.run, run);
      }
    }
  }

  lemma SameNamedSources(st: State, later: State, domain: Domain, scope: string, o: Observation)
    requires OnlyBookkeeping(st, later)
    ensures NamedSources(later, domain, scope, o) == NamedSources(st, domain, scope, o)
  {
    forall s: Source
      ensures s in NamedSources(later, domain, scope, o) <==> s in NamedSources(st, domain, scope, o)
    {
      if NamesRun(o, s.run.id) {
        SourcedStays(st, later, scope, s.run, s.index, s.target);
      }
    }
  }

  // ---- A source has one name ----

  lemma CheckHasId(project: Project, domain: Domain, s: Source, check: string, op: Operation)
    requires IsCheckOf(project, domain, s, check, op)
    ensures op.Id() == Named(CheckText(s.run.id, s.index, check))
  {
  }

  lemma OneOfId(operations: seq<Operation>, x: Operation, y: Operation)
    requires UniqueIds(operations) && x in operations && y in operations && x.Id() == y.Id()
    ensures x == y
  {
    var i :| 0 <= i < |operations| && operations[i] == x;
    var j :| 0 <= j < |operations| && operations[j] == y;
    assert i == j;
  }

  lemma OneCheck(st: State, domain: Domain, a: Source, b: Source, check: string)
    requires Inv(st) && a.run == b.run && a.index == b.index && a.target == b.target
    requires FactsOf(st.operations, st.project, domain, check, a) && FactsOf(st.operations, st.project, domain, check, b)
    ensures a == b
  {
    var x :| x in st.operations && IsCheckOf(st.project, domain, a, check, x) && Reports(x, a.ref, a.items);
    var y :| y in st.operations && IsCheckOf(st.project, domain, b, check, y) && Reports(y, b.ref, b.items);
    CheckHasId(st.project, domain, a, check, x);
    CheckHasId(st.project, domain, b, check, y);
    OneOfId(st.operations, x, y);
  }

  lemma OneNote(st: State, domain: Domain, a: Source, b: Source)
    requires a.run == b.run && a.index == b.index && a.target == b.target
    requires FromNotes(st.operations, domain, a) && FromNotes(st.operations, domain, b)
    ensures a == b
  {
  }

  lemma GivenByCheck(st: State, domain: Domain, s: Source) returns (check: string)
    requires Gives(st.operations, st.project, domain, s) && s.name != NOTES
    ensures s.name == CHECK + check && FactsOf(st.operations, st.project, domain, check, s)
  {
    assert FromCheck(st.operations, st.project, domain, s);
    check :| check in Contract(s.run.record.task, s.index).value.checks && FactsOf(st.operations, st.project, domain, check, s);
  }

  lemma GivenByNotes(st: State, domain: Domain, s: Source)
    requires Gives(st.operations, st.project, domain, s) && s.name == NOTES
    ensures FromNotes(st.operations, domain, s)
  {
    forall check: string
      ensures CHECK + check != NOTES
    {
      assert (CHECK + check)[0] == 'c' && NOTES[0] == 'n';
    }
  }

  /** No two sources of a scope have the same run, submission and name. */
  lemma SourceIsOne(st: State, domain: Domain, scope: string, a: Source, b: Source)
    requires Inv(st) && Submitting(st, domain, scope, a) && Submitting(st, domain, scope, b)
    requires a.run.id == b.run.id && a.index == b.index && a.name == b.name
    ensures a == b
  {
    OneRun(st.observations, a.run, b.run);
    if a.name == NOTES {
      GivenByNotes(st, domain, a);
      GivenByNotes(st, domain, b);
      OneNote(st, domain, a, b);
    } else {
      var x := GivenByCheck(st, domain, a);
      var y := GivenByCheck(st, domain, b);
      CheckNames(x, y);
      OneCheck(st, domain, a, b, x);
    }
  }
}
