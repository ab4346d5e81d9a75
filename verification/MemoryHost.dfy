/** Deriving the memory of a scope from the ledger, and the snapshot a new run shows. */
module MemoryHost {
  import opened Records
  import Spec = LedgerSpec
  import opened LedgerInvariant
  import opened LedgerSafety
  import opened LedgerStore
  import opened Evidences
  import RecordOnce
  import opened ClaimGraph
  import opened Claims
  import opened TaskSpecs
  import opened TaskRecords
  import opened TaskRuns
  import opened MemoryRecords
  import opened MemorySnapshots
  import opened MemoryEntries
  import opened MemorySources
  import opened MemoryRefusals
  import opened Attempts

  // ---- What is read ----

  lemma OneMoreCapture(observations: seq<Observation>, i: nat, id: string, kind: string)
    requires i < |observations|
    ensures LastOf(observations[..i + 1], id, kind)
         == if OfRunRecord(observations[i], id) && observations[i].origin.kind == kind then Some(observations[i])
            else LastOf(observations[..i], id, kind)
  {
    assert observations[..i + 1][..i] == observations[..i];
  }

  ghost predicate FoundKinds(observations: seq<Observation>, id: string, found: map<string, Observation>) {
    && (forall kind | kind in found :: LastOf(observations, id, kind) == Some(found[kind]))
    && (forall o | o in observations && OfRunRecord(o, id) :: o.origin.kind in found)
  }

  lemma OneMoreKind(observations: seq<Observation>, i: nat, id: string, found: map<string, Observation>)
    requires i < |observations| && FoundKinds(observations[..i], id, found)
    ensures var o := observations[i];
      FoundKinds(observations[..i + 1], id, if OfRunRecord(o, id) then found[o.origin.kind := o] else found)
  {
    var o := observations[i];
    var after := if OfRunRecord(o, id) then found[o.origin.kind := o] else found;
    forall kind | kind in after
      ensures LastOf(observations[..i + 1], id, kind) == Some(after[kind])
    {
      OneMoreCapture(observations, i, id, kind);
    }
    assert observations[..i + 1] == observations[..i] + [o];
  }

  // ---- Steps ----

  ghost predicate KeptAs(st: Spec.State, domain: Domain, scope: string, s: Source, capture: Observation) {
    exists f: Found :: f.source == s && f.capture == capture && FoundAt(st, domain, scope, f)
  }

  lemma KeptVersions(st: Spec.State, domain: Domain, scope: string, s: Source, capture: Observation)
    requires KeptAs(st, domain, scope, s, capture) && HasContract(s)
    ensures VersionsKept(st, domain, FilesOf(s), Depends(s))
  {
    var f: Found :| f.source == s && f.capture == capture && FoundAt(st, domain, scope, f);
    var versions, k: nat :| VersionsAt(st, domain, FilesOf(s), Depends(s), versions)
                            && ReadsAs(st, k, f.claim, ClaimBody(scope, s, Captured(capture, ENTRY), versions));
    VersionsAreOne(st, domain, FilesOf(s), Depends(s), versions, versions);
  }

  lemma KeptClaim(st: Spec.State, domain: Domain, scope: string, s: Source, capture: Observation, versions: map<string, Evidence>)
    requires KeptAs(st, domain, scope, s, capture) && HasContract(s) && ENTRY in capture.artifacts
    requires VersionsAt(st, domain, FilesOf(s), Depends(s), versions)
    ensures ClaimKept(st, ClaimBody(scope, s, Captured(capture, ENTRY), versions))
  {
    var f: Found :| f.source == s && f.capture == capture && FoundAt(st, domain, scope, f);
    var same, k: nat :| VersionsAt(st, domain, FilesOf(s), Depends(s), same)
                        && ReadsAs(st, k, f.claim, ClaimBody(scope, s, Captured(capture, ENTRY), same))
                        && ClaimKept(st, ClaimBody(scope, s, Captured(capture, ENTRY), same));
    VersionsAreOne(st, domain, FilesOf(s), Depends(s), versions, same);
  }

  lemma RecordIsBookkeeping(st: Spec.State, session: string, origin: Origin, raw: Artifacts)
    requires Inv(st) && IsBookkeeping(origin.operationId) && origin.kind != RUN_SPEC
    ensures var step := RecordOnce.Step(st, session, origin, raw);
      && OnlyBookkeeping(st, step.st)
      && (RecordOnce.FirstRecord(st.observations, origin.operationId).Some? || step.out.Err? ==> step.st == st)
      && (step.out.Ok? ==>
            var row := RecordOnce.FirstRecord(step.st.observations, origin.operationId);
            row.Some? && step.st.observations[row.value] == step.out.value
            && step.out.value.origin == origin && step.out.value.artifacts == raw)
  {
    RecordOnce.StepKeeps(st, session, origin, raw);
    RecordOnce.StepExtends(st, session, origin, raw);
    RecordOnce.StepEffect(st, session, origin, raw);
  }

  lemma OneMoreName(files: Files, names: set<string>, name: string)
    requires name in files
    ensures VersionNames(files, names + {name}) == VersionNames(files, names) + {FILE + name}
  {
  }

  lemma OneMoreVersion(st: Spec.State, later: Spec.State, domain: Domain, files: Files, names: set<string>,
                       versions: map<string, Evidence>, name: string, version: Evidence)
    requires st.observations <= later.observations && VersionsAt(st, domain, files, names, versions)
    requires name in files && VersionAt(later, FILE + name, files[name], version)
    ensures VersionsAt(later, domain, files, names + {name}, versions[FILE + name := version])
  {
    var more := versions[FILE + name := version];
    VersionsStay(st, later, domain, files, names, versions);
    FileNames(name, name);
    OneMoreName(files, names, name);
    forall other | other in names + {name} && other in files
      ensures VersionAt(later, FILE + other, files[other], more[FILE + other])
    {
      FileNames(name, other);
      if other != name {
        assert more[FILE + other] == versions[FILE + other];
      }
    }
  }

  lemma NamesLeft(files: Files, names: set<string>, left: set<string>, name: string)
    requires left <= names && name in left
    ensures names - (left - {name}) == names - left + {name}
    ensures name !in files ==> VersionNames(files, names - left + {name}) == VersionNames(files, names - left)
  {
    assert VersionNames(files, names - left + {name})
        == VersionNames(files, names - left) + if name in files then {FILE + name} else {};
  }

  lemma EntryStays(st: Spec.State, later: Spec.State, scope: string, s: Source, capture: Observation)
    requires st.observations <= later.observations && EntryAt(st, scope, s, capture)
    ensures EntryAt(later, scope, s, capture)
  {
    RecordOnce.FirstRecordStays(st.observations, later.observations, Named(EntryText(s.run.id, s.index, s.name)));
  }

  lemma ClaimIsBookkeeping(st: Spec.State, later: Spec.State, body: Body)
    requires Inv(later) && Extends(st, later) && AddsOnly(st, later, Hashed("claim", BodyJson(body)))
    ensures OnlyBookkeeping(st, later)
  {
  }

  // ---- Sources, gathered one by one ----

  /** Exactly these sources were recorded and added, unless the host died or was refused;
      only bookkeeping was added, and none at all when they were recorded before. */
  ghost predicate Gathers(st: Spec.State, later: Spec.State, session: string, domain: Domain, scope: string, found: seq<Found>,
                          out: Attempted<seq<Found>>, extra: iset<Source>)
  {
    && OnlyBookkeeping(st, later) && (AllKept(st, domain, scope, extra) ==> later == st)
    && (out.Refused? ==> Stops(later, session, domain, scope))
    && (out.Done? ==> AllFound(later, domain, scope, out.value) && Adds(found, out.value, extra))
  }

  lemma GathersNothing(st: Spec.State, session: string, domain: Domain, scope: string, found: seq<Found>)
    requires Inv(st) && AllFound(st, domain, scope, found)
    ensures Gathers(st, st, session, domain, scope, found, Done(found), iset{})
  {
    AddsNothing(found);
  }

  lemma GathersNoMore(st: Spec.State, session: string, domain: Domain, scope: string, found: seq<Found>, error: Error,
                      extra: iset<Source>)
    requires Inv(st) && Stops(st, session, domain, scope)
    ensures Gathers(st, st, session, domain, scope, found, Refused(error), extra)
  {
  }

  /** First these, then those. */
  lemma GathersOn(st: Spec.State, now: Spec.State, later: Spec.State, session: string, domain: Domain, scope: string,
                  found: seq<Found>, some: seq<Found>, out: Attempted<seq<Found>>, x: iset<Source>, y: iset<Source>)
    requires Gathers(st, now, session, domain, scope, found, Done(some), x)
    requires Gathers(now, later, session, domain, scope, some, out, y) && x !! y
    ensures Gathers(st, later, session, domain, scope, found, out, x + y)
  {
    BookkeepingTransitive(st, now, later);
    if out.Done? {
      AddsTwice(found, some, out.value, x, y);
    }
  }

  /** What stops before the end has gathered fewer. */
  lemma GathersLess(st: Spec.State, later: Spec.State, session: string, domain: Domain, scope: string, found: seq<Found>,
                    out: Attempted<seq<Found>>, x: iset<Source>, y: iset<Source>)
    requires Gathers(st, later, session, domain, scope, found, out, x) && x <= y && (out.Done? ==> x == y)
    ensures Gathers(st, later, session, domain, scope, found, out, y)
  {
  }

  lemma NoChecks(st: Spec.State, session: string, domain: Domain, scope: string, run: Run, index: nat, target: Evidence,
                 found: seq<Found>)
    requires Inv(st) && AllFound(st, domain, scope, found)
    ensures Gathers(st, st, session, domain, scope, found, Done(found),
                    CheckSources(st.operations, st.project, domain, run, index, target, []))
  {
    assert CheckSources(st.operations, st.project, domain, run, index, target, []) == iset{};
    GathersNothing(st, session, domain, scope, found);
  }

  lemma NextCheck(st: Spec.State, now: Spec.State, later: Spec.State, session: string, domain: Domain, scope: string, run: Run,
                  index: nat, target: Evidence, checks: seq<string>, k: nat, found: seq<Found>, some: seq<Found>,
                  out: Attempted<seq<Found>>)
    requires k < |checks| && TaskSpecs.Distinct(checks)
    requires Gathers(st, now, session, domain, scope, found, Done(some),
                     CheckSources(st.operations, st.project, domain, run, index, target, checks[..k]))
    requires Gathers(now, later, session, domain, scope, some, out,
                     FactSources(now.operations, now.project, domain, run, index, target, checks[k]))
    ensures Gathers(st, later, session, domain, scope, found, out,
                    CheckSources(st.operations, st.project, domain, run, index, target, checks[..k + 1]))
  {
    OneMoreCheck(st.operations, st.project, domain, run, index, target, checks, k);
    ChecksApart(st.operations, st.project, domain, run, index, target, checks, k);
    GathersOn(st, now, later, session, domain, scope, found, some, out,
              CheckSources(st.operations, st.project, domain, run, index, target, checks[..k]),
              FactSources(st.operations, st.project, domain, run, index, target, checks[k]));
  }

  lemma LastCheck(st: Spec.State, later: Spec.State, session: string, domain: Domain, scope: string, run: Run, index: nat,
                  target: Evidence, checks: seq<string>, k: nat, found: seq<Found>, out: Attempted<seq<Found>>)
    requires k <= |checks| && (out.Done? ==> k == |checks|)
    requires Gathers(st, later, session, domain, scope, found, out,
                     CheckSources(st.operations, st.project, domain, run, index, target, checks[..k]))
    ensures Gathers(st, later, session, domain, scope, found, out,
                    CheckSources(st.operations, st.project, domain, run, index, target, checks))
  {
    assert checks[..|checks|] == checks;
    GathersLess(st, later, session, domain, scope, found, out,
                CheckSources(st.operations, st.project, domain, run, index, target, checks[..k]),
                CheckSources(st.operations, st.project, domain, run, index, target, checks));
  }

  lemma NoAnswer(st: Spec.State, session: string, domain: Domain, scope: string, run: Run, index: nat, target: Evidence,
                 check: string, cited: Artifacts, found: seq<Found>, error: Error)
    requires Inv(st) && '/' !in run.id && IsSubmitted(st.observations, scope, run, index, target) && InForce(run, index, check)
    requires CitesContract(run.record, index, target, cited) && !AnswersCheck(st, domain, run, index, check, cited)
    ensures Gathers(st, st, session, domain, scope, found, Refused(error),
                    FactSources(st.operations, st.project, domain, run, index, target, check))
  {
    StopsAtCheck(st, session, domain, scope, run, index, target, check, cited);
    GathersNoMore(st, session, domain, scope, found, error,
                  FactSources(st.operations, st.project, domain, run, index, target, check));
  }

  lemma NoCandidate(st: Spec.State, session: string, domain: Domain, scope: string, run: Run, index: nat, target: Evidence,
                    found: seq<Found>, error: Error)
    requires Inv(st) && '/' !in run.id && IsSubmitted(st.observations, scope, run, index, target)
    requires |Submitted(st.operations, run.id, index)| != 1
    ensures Gathers(st, st, session, domain, scope, found, Refused(error),
                    NoteSources(st.operations, domain, run, index, target))
  {
    StopsAtNotes(st, session, domain, scope, run, index, target);
    GathersNoMore(st, session, domain, scope, found, error, NoteSources(st.operations, domain, run, index, target));
  }

  lemma FactsSubmit(st: Spec.State, domain: Domain, scope: string, run: Run, index: nat, target: Evidence, check: string,
                    source: Option<Source>)
    requires IsSubmitted(st.observations, scope, run, index, target) && InForce(run, index, check)
    requires forall s ::
      source == Some(s) <==> IsOf(s, run, index, target) && FactsOf(st.operations, st.project, domain, check, s)
    ensures FactSources(st.operations, st.project, domain, run, index, target, check) == Maybe(source)
    ensures source.Some? ==> source.value.run == run && Submitting(st, domain, scope, source.value)
  {
    if source.Some? {
      assert IsOf(source.value, run, index, target) && FactsOf(st.operations, st.project, domain, check, source.value);
      assert FromCheck(st.operations, st.project, domain, source.value);
    }
  }

  lemma NotesSubmit(st: Spec.State, domain: Domain, scope: string, run: Run, index: nat, target: Evidence,
                    source: Option<Source>)
    requires IsSubmitted(st.observations, scope, run, index, target)
    requires forall s :: source == Some(s) <==> IsOf(s, run, index, target) && FromNotes(st.operations, domain, s)
    ensures NoteSources(st.operations, domain, run, index, target) == Maybe(source)
    ensures source.Some? ==> source.value.run == run && Submitting(st, domain, scope, source.value)
  {
    if source.Some? {
      assert IsOf(source.value, run, index, target) && FromNotes(st.operations, domain, source.value);
    }
  }

  lemma NextIndex(st: Spec.State, now: Spec.State, later: Spec.State, session: string, domain: Domain, scope: string, run: Run,
                  k: nat, found: seq<Found>, some: seq<Found>, out: Attempted<seq<Found>>)
    requires '/' !in run.id && Gathers(st, now, session, domain, scope, found, Done(some), RunSources(st, domain, run, k))
    requires Gathers(now, later, session, domain, scope, some, out, IndexSources(now, domain, run, k + 1))
    ensures Gathers(st, later, session, domain, scope, found, out, RunSources(st, domain, run, k + 1))
  {
    SameIndexSources(st, now, domain, run, k + 1);
    OneMoreIndex(st, domain, run, k);
    GathersOn(st, now, later, session, domain, scope, found, some, out, RunSources(st, domain, run, k),
              IndexSources(st, domain, run, k + 1));
  }

  /** The runs that the first captures name are gathered. */
  ghost predicate WalkedTo(st: Spec.State, later: Spec.State, session: string, domain: Domain, scope: string,
                           out: Attempted<seq<Found>>, k: nat)
    requires k <= |st.observations|
  {
    && OnlyBookkeeping(st, later) && (AllKept(st, domain, scope, AllSources(st, domain, scope)) ==> later == st)
    && (out.Refused? ==> Stops(later, session, domain, scope))
    && (out.Done? ==> AllFound(later, domain, scope, out.value) && Tallied(st, domain, scope, out.value, k))
  }

  lemma NoneWalked(st: Spec.State, session: string, domain: Domain, scope: string)
    requires Inv(st)
    ensures WalkedTo(st, st, session, domain, scope, Done([]), 0)
  {
    TalliesNothing(st, domain, scope);
  }

  /** Exactly the sources the ledger holds were found and recorded, each once for every
      run-spec that names its run, unless the host died or was refused; only bookkeeping was
      added, and none at all when they were recorded before. */
  ghost predicate FoundAll(st: Spec.State, later: Spec.State, session: string, domain: Domain, scope: string,
                           out: Attempted<seq<Found>>)
  {
    && OnlyBookkeeping(st, later) && (AllKept(st, domain, scope, AllSources(st, domain, scope)) ==> later == st)
    && (out.Refused? ==> Stops(later, session, domain, scope))
    && (out.Done? ==>
          && AllFound(later, domain, scope, out.value) && SourcesOf(out.value) == AllSources(st, domain, scope)
          && Tallied(st, domain, scope, out.value, |st.observations|))
  }

  lemma WalkedAll(st: Spec.State, later: Spec.State, session: string, domain: Domain, scope: string,
                  out: Attempted<seq<Found>>, k: nat)
    requires k <= |st.observations| && (out.Done? ==> k == |st.observations|)
    requires WalkedTo(st, later, session, domain, scope, out, k)
    ensures FoundAll(st, later, session, domain, scope, out)
  {
    if out.Done? {
      TalliesAll(st, domain, scope, out.value);
    }
  }

  lemma NextRun(st: Spec.State, now: Spec.State, later: Spec.State, session: string, domain: Domain, scope: string, k: nat,
                some: seq<Found>, out: Attempted<seq<Found>>)
    requires k < |st.observations| && WalkedTo(st, now, session, domain, scope, Done(some), k)
    requires Gathers(now, later, session, domain, scope, some, out, NamedSources(now, domain, scope, st.observations[k]))
    ensures WalkedTo(st, later, session, domain, scope, out, k + 1)
  {
    SameNamedSources(st, now, domain, scope, st.observations[k]);
    NamedIsAmong(st, domain, scope, k);
    BookkeepingTransitive(st, now, later);
    if out.Done? {
      TalliesNext(st, domain, scope, some, out.value, k);
    }
  }

  // ---- Entries ----

  /** The entries of the first of what was found, in order. */
  ghost predicate EntriesOf(st: Spec.State, found: seq<Found>, now: Files, entries: seq<MemoryEntry>) {
    |entries| <= |found| && forall k | 0 <= k < |entries| :: EntryOf(st, found[k].source, now, entries[k])
  }

  lemma OneMoreEntryOf(st: Spec.State, found: seq<Found>, now: Files, entries: seq<MemoryEntry>, e: MemoryEntry)
    requires EntriesOf(st, found, now, entries) && |entries| < |found| && EntryOf(st, found[|entries|].source, now, e)
    ensures EntriesOf(st, found, now, entries + [e])
  {
  }

  ghost predicate IsEntry(st: Spec.State, sources: iset<Source>, now: Files, e: MemoryEntry) {
    exists s | s in sources :: EntryOf(st, s, now, e)
  }

  ghost predicate HasEntry(st: Spec.State, s: Source, now: Files, entries: seq<MemoryEntry>) {
    exists e | e in entries :: EntryOf(st, s, now, e)
  }

  /** Each entry is of one of these sources, and each source has an entry. */
  ghost predicate EntriesFor(st: Spec.State, sources: iset<Source>, now: Files, entries: seq<MemoryEntry>) {
    && (forall e | e in entries :: IsEntry(st, sources, now, e))
    && (forall s | s in sources :: HasEntry(st, s, now, entries))
  }

  lemma EveryEntry(st: Spec.State, found: seq<Found>, now: Files, entries: seq<MemoryEntry>)
    requires EntriesOf(st, found, now, entries) && |entries| == |found|
    ensures EntriesFor(st, SourcesOf(found), now, entries)
  {
    forall e | e in entries
      ensures IsEntry(st, SourcesOf(found), now, e)
    {
      var k :| 0 <= k < |entries| && entries[k] == e;
      assert found[k].source in SourcesOf(found);
    }
    forall s | s in SourcesOf(found)
      ensures HasEntry(st, s, now, entries)
    {
      var f :| f in found && f.source == s;
      var k :| 0 <= k < |found| && found[k] == f;
      assert entries[k] in entries;
    }
  }

  lemma SameEntries(st: Spec.State, sources: iset<Source>, now: Files, entries: seq<MemoryEntry>, sorted: seq<MemoryEntry>)
    requires EntriesFor(st, sources, now, entries) && forall e :: e in sorted <==> e in entries
    ensures EntriesFor(st, sources, now, sorted)
  {
    forall s | s in sources
      ensures HasEntry(st, s, now, sorted)
    {
      StillHasEntry(st, s, now, entries, sorted);
    }
  }

  lemma StillHasEntry(st: Spec.State, s: Source, now: Files, entries: seq<MemoryEntry>, more: seq<MemoryEntry>)
    requires HasEntry(st, s, now, entries) && forall e | e in entries :: e in more
    ensures HasEntry(st, s, now, more)
  {
  }

  /** The entry of a source is there once for every run-spec that names the source's run. */
  ghost predicate Counted(st: Spec.State, observations: seq<Observation>, sources: iset<Source>, now: Files,
                          entries: seq<MemoryEntry>)
  {
    forall s, e | s in sources && EntryOf(st, s, now, e) :: multiset(entries)[e] == Namings(observations, s.run.id)
  }

  lemma EntryTellsSource(st: Spec.State, later: Spec.State, domain: Domain, scope: string, now: Files, a: Source, b: Source,
                         x: MemoryEntry, y: MemoryEntry)
    requires Inv(st) && Submitting(st, domain, scope, a) && Submitting(st, domain, scope, b)
    requires EntryOf(later, a, now, x) && EntryOf(later, b, now, y)
    ensures x == y <==> a == b
  {
    if x == y {
      SourceIsOne(st, domain, scope, a, b);
    }
  }

  lemma {:induction false} CountedAlike(found: seq<Found>, entries: seq<MemoryEntry>, s: Source, e: MemoryEntry)
    requires |entries| == |found| && forall k | 0 <= k < |found| :: entries[k] == e <==> found[k].source == s
    ensures multiset(entries)[e] == Times(found, s)
  {
    if found != [] {
      var n := |found| - 1;
      CountedAlike(found[..n], entries[..n], s, e);
      assert entries == entries[..n] + [entries[n]];
    }
  }

  /** What was assessed of a source is there as often as the source was found. */
  lemma EntryTimes(st: Spec.State, later: Spec.State, domain: Domain, scope: string, found: seq<Found>, now: Files,
                   entries: seq<MemoryEntry>, s: Source, e: MemoryEntry)
    requires Inv(st) && |entries| == |found| && EntriesOf(later, found, now, entries)
    requires forall f | f in found :: Submitting(st, domain, scope, f.source)
    requires Submitting(st, domain, scope, s) && EntryOf(later, s, now, e)
    ensures multiset(entries)[e] == Times(found, s)
  {
    forall k | 0 <= k < |found|
      ensures entries[k] == e <==> found[k].source == s
    {
      assert found[k] in found;
      EntryTellsSource(st, later, domain, scope, now, found[k].source, s, entries[k], e);
    }
    CountedAlike(found, entries, s, e);
  }

  /** The entries of every source of a scope, in order. */
  ghost predicate EntriesOfScope(st: Spec.State, later: Spec.State, domain: Domain, scope: string, now: Files,
                                 entries: seq<MemoryEntry>)
  {
    && NewestFirst(entries)
    && EntriesFor(later, AllSources(st, domain, scope), now, entries)
    && Counted(later, st.observations, AllSources(st, domain, scope), now, entries)
  }

  lemma EntriesInOrder(st: Spec.State, later: Spec.State, domain: Domain, scope: string, found: seq<Found>, now: Files,
                       entries: seq<MemoryEntry>, sorted: seq<MemoryEntry>)
    requires Inv(st) && |entries| == |found| && EntriesOf(later, found, now, entries)
    requires SourcesOf(found) == AllSources(st, domain, scope) && Tallied(st, domain, scope, found, |st.observations|)
    requires NewestFirst(sorted) && multiset(sorted) == multiset(entries)
    ensures EntriesOfScope(st, later, domain, scope, now, sorted)
  {
    EveryEntry(later, found, now, entries);
    SameMembers(sorted, entries);
    SameEntries(later, AllSources(st, domain, scope), now, entries, sorted);
    EntriesAreCounted(st, later, domain, scope, found, now, entries);
  }

  lemma EntriesAreCounted(st: Spec.State, later: Spec.State, domain: Domain, scope: string, found: seq<Found>, now: Files,
                          entries: seq<MemoryEntry>)
    requires Inv(st) && |entries| == |found| && EntriesOf(later, found, now, entries)
    requires SourcesOf(found) == AllSources(st, domain, scope) && Tallied(st, domain, scope, found, |st.observations|)
    ensures Counted(later, st.observations, AllSources(st, domain, scope), now, entries)
  {
    TalliesAll(st, domain, scope, found);
    forall f | f in found
      ensures Submitting(st, domain, scope, f.source)
    {
      assert f.source in SourcesOf(found);
    }
    forall s, e | s in AllSources(st, domain, scope) && EntryOf(later, s, now, e)
      ensures multiset(entries)[e] == Namings(st.observations, s.run.id)
    {
      EntryTimes(st, later, domain, scope, found, now, entries, s, e);
    }
  }

  /** Everything memory records for this task is recorded. */
  ghost predicate UpToDate(st: Spec.State, domain: Domain, task: Task) {
    task.memory.Some? ==>
      && AllKept(st, domain, task.memory.value.scope, AllSources(st, domain, task.memory.value.scope))
      && VersionsKept(st, domain, AllFiles(task), AllFiles(task).Keys)
  }

  lemma NowUpToDate(st: Spec.State, later: Spec.State, domain: Domain, task: Task, found: seq<Found>)
    requires task.memory.Some? && OnlyBookkeeping(st, later)
    requires SourcesOf(found) == AllSources(st, domain, task.memory.value.scope)
    requires AllFound(later, domain, task.memory.value.scope, found)
    requires VersionsKept(later, domain, AllFiles(task), AllFiles(task).Keys)
    ensures UpToDate(later, domain, task)
  {
    var scope := task.memory.value.scope;
    forall s | s in AllSources(later, domain, scope)
      ensures Kept(later, domain, scope, s)
    {
      SourcesStay(st, later, domain, scope, s);
      assert s in SourcesOf(found);
      var f :| f in found && f.source == s;
    }
  }

  lemma AssessedAll(st: Spec.State, recorded: Spec.State, later: Spec.State, session: string, domain: Domain, task: Task,
                    found: seq<Found>, entries: seq<MemoryEntry>, sorted: seq<MemoryEntry>)
    requires Inv(st) && task.memory.Some?
    requires FoundAll(st, recorded, session, domain, task.memory.value.scope, Done(found)) && OnlyBookkeeping(recorded, later)
    requires VersionsKept(later, domain, AllFiles(task), AllFiles(task).Keys)
    requires |entries| == |found| && EntriesOf(later, found, AllFiles(task), entries)
    requires NewestFirst(sorted) && multiset(sorted) == multiset(entries)
    ensures EntriesOfScope(st, later, domain, task.memory.value.scope, AllFiles(task), sorted)
    ensures UpToDate(later, domain, task)
  {
    BookkeepingTransitive(st, recorded, later);
    AllStay(recorded, later, domain, task.memory.value.scope, found);
    NowUpToDate(st, later, domain, task, found);
    EntriesInOrder(st, later, domain, task.memory.value.scope, found, AllFiles(task), entries, sorted);
  }

  /** The memory file of a run: the facts it shows, and how many it withholds. */
  datatype Shown = Shown(facts: seq<Fact>, withheld: Withheld)

  class Memory {
    const ledger: Ledger
    const session: string
    const domain: Domain
    const proofs: map<OpId, Status>

    constructor (ledger: Ledger, session: string, domain: Domain, proofs: map<OpId, Status>)
      ensures this.ledger == ledger && this.session == session && this.domain == domain && this.proofs == proofs
    {
      this.ledger, this.session, this.domain, this.proofs := ledger, session, domain, proofs;
    }

    /** The run of this name, exactly when its record can be read. */
    method Load(id: string) returns (out: Option<Run>)
      requires ledger.Valid()
      ensures out.Some? ==> out.value.id == id && Loads(ledger.observations, out.value)
      ensures out.None? ==> forall run | Loads(ledger.observations, run) :: run.id != id
    {
      var found: map<string, Observation> := map[];
      for i := 0 to |ledger.observations|
        invariant FoundKinds(ledger.observations[..i], id, found)
      {
        OneMoreKind(ledger.observations, i, id, found);
        var o := ledger.observations[i];
        if OfRunRecord(o, id) {
          found := found[o.origin.kind := o];
        }
      }
      assert ledger.observations[..|ledger.observations|] == ledger.observations;
      out := None;
      if found.Keys == {RUN_SPEC, RUN_POLICY} {
        out := FromRecords(id, found[RUN_SPEC], found[RUN_POLICY]);
      } else {
        MissingKind(id, found);
      }
    }

    lemma MissingKind(id: string, found: map<string, Observation>)
      requires FoundKinds(ledger.observations, id, found) && found.Keys != {RUN_SPEC, RUN_POLICY}
      ensures forall run | Loads(ledger.observations, run) :: run.id != id
    {
      forall run | Loads(ledger.observations, run)
        ensures run.id != id
      {
        if run.id == id {
          forall kind
            ensures kind in found <==> kind in {RUN_SPEC, RUN_POLICY}
          {
          }
        }
      }
    }

    method FromRecords(id: string, spec: Observation, policy: Observation) returns (out: Option<Run>)
      requires LastOf(ledger.observations, id, RUN_SPEC) == Some(spec)
      requires LastOf(ledger.observations, id, RUN_POLICY) == Some(policy)
      requires OnlyTheTwoKinds(ledger.observations, id)
      ensures out.Some? ==> out.value.id == id && Loads(ledger.observations, out.value)
      ensures out.None? ==> forall run | Loads(ledger.observations, run) :: run.id != id
    {
      var task := LoadTask(spec.artifacts);
      var campaign := CampaignOf(spec);
      if task.None? || POLICY !in policy.artifacts || (campaign.Some? && campaign.value.Raw?) {
        return None;
      }
      out := Some(Run(id, TaskRun(spec, task.value), campaign));
    }

    /** The facts a check of this submission reported, when it was made of exactly this
        target and the files in force. */
    method CheckFacts(run: Run, index: nat, target: Evidence, check: string)
      returns (out: Outcomes<Option<Source>>, ghost cited: Artifacts)
      requires ledger.Valid() && Loads(ledger.observations, run)
      ensures CitesContract(run.record, index, target, cited)
      ensures out.Ok? <==> AnswersCheck(ledger.View(), domain, run, index, check, cited)
      ensures out.Ok? ==> forall s ::
        out.value == Some(s)
        <==> IsOf(s, run, index, target) && FactsOf(ledger.operations, ledger.project, domain, check, s)
    {
      var inputs := InputsOfCheck(run, index, target);
      cited := inputs;
      if check !in domain.checkers {
        return Err(InvalidInput), cited;
      }
      var request := CheckRequest(ledger.project, domain, run, index, check, inputs);
      var found := ledger.LookupRow(request);
      match found {
        case Err(error) => out := Err(error);
        case Ok(None) =>
          NoFactsOf(run, index, target, check, inputs);
          out := Ok(None);
        case Ok(Some(row)) =>
          FoundRow(request, row);
          OnlyFactsOf(run, index, target, check, inputs, ledger.operations[row]);
          out := FactsOfOperation(run, index, target, check, ledger.operations[row]);
      }
    }

    lemma FoundRow(request: Request, row: nat)
      requires Spec.Lookup(ledger.View(), request) == Ok(Some(row))
      ensures row < |ledger.operations| && ledger.operations[row] in ledger.operations
      ensures ledger.operations[row].request == request
    {
    }

    method InputsOfCheck(run: Run, index: nat, target: Evidence) returns (cited: Artifacts)
      requires ledger.Valid() && Loads(ledger.observations, run)
      ensures CitesContract(run.record, index, target, cited)
    {
      LoadedIsHeld(run.record);
      SpecIsNamed(run);
      ghost var visible, hidden;
      cited, visible, hidden := CheckInputs(run.record, index, target);
    }

    lemma SpecIsNamed(run: Run)
      requires ledger.Valid() && Loads(ledger.observations, run)
      ensures run.record.spec.sequence > 0 && NamesOk(run.record.spec.artifacts)
    {
      var k :| 0 <= k < |ledger.observations| && ledger.observations[k] == run.record.spec;
      assert ObservationOk(ledger.View(), k);
    }

    /** A check has one ID, so its facts are those of the operation under it. */
    lemma OnlyFactsOf(run: Run, index: nat, target: Evidence, check: string, cited: Artifacts, op: Operation)
      requires ledger.Valid() && op in ledger.operations && check in domain.checkers
      requires CitesContract(run.record, index, target, cited)
      requires op.request == CheckRequest(ledger.project, domain, run, index, check, cited)
      ensures forall s | IsOf(s, run, index, target) ::
        FactsOf(ledger.operations, ledger.project, domain, check, s) <==> s.name == CHECK + check && Reports(op, s.ref, s.items)
    {
      forall s, other | IsOf(s, run, index, target) && other in ledger.operations
        && IsCheckOf(ledger.project, domain, s, check, other)
        ensures other == op
      {
        assert other.Id() == op.Id();
      }
    }

    lemma NoFactsOf(run: Run, index: nat, target: Evidence, check: string, cited: Artifacts)
      requires check in domain.checkers
      requires Spec.Lookup(ledger.View(), CheckRequest(ledger.project, domain, run, index, check, cited)) == Ok(None)
      ensures forall s | IsOf(s, run, index, target) :: !FactsOf(ledger.operations, ledger.project, domain, check, s)
    {
      forall s, op | IsOf(s, run, index, target) && IsCheckOf(ledger.project, domain, s, check, op)
        ensures op.Id() == Named(CheckText(run.id, index, check))
      {
      }
    }

    method FactsOfOperation(run: Run, index: nat, target: Evidence, check: string, op: Operation)
      returns (out: Outcomes<Option<Source>>)
      ensures out.Ok? <==> FactsReadable(op)
      ensures out.Ok? ==> forall s: Source ::
        out.value == Some(s) <==> IsOf(s, run, index, target) && s.name == CHECK + check && Reports(op, s.ref, s.items)
    {
      if op.completion.None? || FACTS !in op.completion.value.observation.artifacts {
        return Ok(None);
      }
      var ref := Captured(op.completion.value.observation, FACTS);
      if ref.artifact.Raw? || !ref.artifact.value.List? {
        return Err(InvalidInput);
      }
      out := Ok(Some(Source(run, index, target, CHECK + check, ref, ref.artifact.value.items)));
    }

    /** The notes that came with the one captured candidate of this submission. */
    method NotesFrom(run: Run, index: nat, target: Evidence) returns (out: Outcomes<Option<Source>>)
      requires ledger.Valid()
      ensures out.Ok? <==> |Submitted(ledger.operations, run.id, index)| == 1
      ensures out.Ok? ==> forall s ::
        out.value == Some(s) <==> IsOf(s, run, index, target) && FromNotes(ledger.operations, domain, s)
    {
      var matches: seq<Operation> := [];
      for i := 0 to |ledger.operations|
        invariant matches == Submitted(ledger.operations[..i], run.id, index)
      {
        assert ledger.operations[..i + 1][..i] == ledger.operations[..i];
        if Submits(ledger.operations[i], run.id, index) {
          matches := matches + [ledger.operations[i]];
        }
      }
      assert ledger.operations[..|ledger.operations|] == ledger.operations;
      if |matches| != 1 {
        return Err(InvalidInput);
      }
      var op := matches[0];
      assert op in matches;
      OnlyOne(matches, run, index);
      FindsItself(op);
      var found := ledger.LookupRow(op.request);
      match found {
        case Err(error) => out := Err(error);
        case Ok(_) => out := Ok(NotesOfCandidate(run, index, target, op));
      }
    }

    /** The request of an operation on the ledger finds it again. */
    lemma FindsItself(op: Operation)
      requires ledger.Valid() && op in ledger.operations
      ensures Spec.Lookup(ledger.View(), op.request).Ok?
    {
      assert OperationOk(ledger.View(), op);
      var row := Spec.Find(ledger.operations, op.Id());
      var k :| 0 <= k < |ledger.operations| && ledger.operations[k] == op;
      assert ledger.operations[row.value].Id() == ledger.operations[k].Id();
    }

    lemma OnlyOne(matches: seq<Operation>, run: Run, index: nat)
      requires |matches| == 1 && matches == Submitted(ledger.operations, run.id, index)
      ensures forall other | other in ledger.operations && Submits(other, run.id, index) :: other == matches[0]
    {
    }

    function NotesOfCandidate(run: Run, index: nat, target: Evidence, op: Operation): Option<Source>
      requires Submits(op, run.id, index)
    {
      var observation := op.completion.value.observation;
      if NOTES_FILE !in observation.artifacts then None
      else
        var note := Captured(observation, NOTES_FILE);
        var items := NotesOf(domain, note.artifact);
        if items.Some? && items.value != [] then Some(Source(run, index, target, NOTES, note, items.value)) else None
    }

    /** Whether some completed decision on exactly this target accepted it; an unreadable
        decision stops the search. */
    method Accepted(target: Evidence) returns (out: Outcomes<bool>)
      requires ledger.Valid()
      ensures out.Err? <==> Undecided(ledger.operations, target)
      ensures out.Ok? ==> (out.value <==> AcceptedBy(ledger.operations, target))
    {
      for i := 0 to |ledger.operations|
        invariant forall k | 0 <= k < i && Decides(ledger.operations[k], target) :: DecisionOf(ledger.operations[k]).Some?
        invariant forall op | op in ledger.operations[..i] && Decides(op, target) :: DecisionOf(op) != Some(Str("accepted"))
      {
        var op := ledger.operations[i];
        if Decides(op, target) {
          var decision := DecisionOf(op);
          if decision.None? {
            return Err(InvalidInput);
          }
          if decision.value == Str("accepted") {
            assert op in ledger.operations;
            return Ok(true);
          }
        }
        assert ledger.operations[..i + 1] == ledger.operations[..i] + [op];
      }
      assert ledger.operations[..|ledger.operations|] == ledger.operations;
      out := Ok(false);
    }

    // ---- What is recorded ----

    /** One record for a name and these bytes, so equal bytes compare equal across runs. */
    method Version(name: string, blob: Blob) returns (out: Attempted<Evidence>)
      requires ledger.Valid()
      modifies ledger
      ensures ledger.Valid() && OnlyBookkeeping(old(ledger.View()), ledger.View())
      ensures out.Died? ==> ledger.mortal
      ensures RecordOnce.FirstRecord(old(ledger.observations), VersionId(name, blob)).Some? ==> ledger.View() == old(ledger.View())
      ensures out.Refused? ==> VersionBlocked(ledger.View(), session)
      ensures out.Done? ==> VersionAt(ledger.View(), name, blob, out.value)
    {
      if {
        case ledger.mortal => return Died;
        case true =>
      }
      ghost var st := ledger.View();
      RecordIsBookkeeping(st, session, VersionOrigin(name, blob), map[VERSION := blob]);
      var recorded := RecordOnce.Record(ledger, session, VersionOrigin(name, blob), map[VERSION := blob]);
      var capture :- From(recorded);
      out := Done(Captured(capture, VERSION));
    }

    method VersionsFor(files: Files, names: set<string>) returns (out: Attempted<map<string, Evidence>>)
      requires ledger.Valid()
      modifies ledger
      ensures ledger.Valid() && OnlyBookkeeping(old(ledger.View()), ledger.View())
      ensures out.Died? ==> ledger.mortal
      ensures VersionsKept(old(ledger.View()), domain, files, names) ==> ledger.View() == old(ledger.View())
      ensures out.Refused? ==> VersionBlocked(ledger.View(), session)
      ensures out.Done? ==> VersionsAt(ledger.View(), domain, files, names, out.value)
    {
      var environment :- Version(DOMAIN, domain.environment);
      var versions := map[DOMAIN := environment];
      var left := names;
      while left != {}
        invariant ledger.Valid() && OnlyBookkeeping(old(ledger.View()), ledger.View())
        invariant left <= names && VersionsAt(ledger.View(), domain, files, names - left, versions)
        invariant VersionsKept(old(ledger.View()), domain, files, names) ==> ledger.View() == old(ledger.View())
        decreases left
      {
        var name :| name in left;
        if name in files {
          ghost var before := ledger.View();
          var version := Version(FILE + name, files[name]);
          BookkeepingTransitive(old(ledger.View()), before, ledger.View());
          if version.IsFailure() {
            return version.PropagateFailure();
          }
          OneMoreVersion(before, ledger.View(), domain, files, names - left, versions, name, version.value);
          versions := versions[FILE + name := version.value];
        }
        NamesLeft(files, names, left, name);
        left := left - {name};
      }
      assert names - {} == names;
      out := Done(versions);
    }

    /** The record of a source, and the claim that it rests on its contract's files. */
    method RecordEntry(scope: string, s: Source) returns (out: Attempted<Found>)
      requires ledger.Valid() && HasContract(s) && '/' !in s.run.id
      modifies ledger
      ensures ledger.Valid() && OnlyBookkeeping(old(ledger.View()), ledger.View())
      ensures out.Died? ==> ledger.mortal
      ensures Kept(old(ledger.View()), domain, scope, s) ==> ledger.View() == old(ledger.View())
      ensures out.Refused? ==> SourceBlocked(ledger.View(), session, domain, scope, s)
      ensures out.Done? ==> out.value.source == s && FoundAt(ledger.View(), domain, scope, out.value)
    {
      if {
        case ledger.mortal => return Died;
        case true =>
      }
      ghost var st := ledger.View();
      assert IsBookkeeping(EntryOrigin(s).operationId);
      RecordIsBookkeeping(st, session, EntryOrigin(s), EntryRaw(scope, s));
      var recorded := RecordOnce.Record(ledger, session, EntryOrigin(s), EntryRaw(scope, s));
      ghost var entered := ledger.View();
      var capture :- From(recorded);
      out := RecordSupport(scope, s, capture);
      BookkeepingTransitive(st, entered, ledger.View());
    }

    method RecordSupport(scope: string, s: Source, capture: Observation) returns (out: Attempted<Found>)
      requires ledger.Valid() && HasContract(s) && EntryAt(ledger.View(), scope, s, capture)
      modifies ledger
      ensures ledger.Valid() && OnlyBookkeeping(old(ledger.View()), ledger.View())
      ensures out.Died? ==> ledger.mortal
      ensures KeptAs(old(ledger.View()), domain, scope, s, capture) ==> ledger.View() == old(ledger.View())
      ensures out.Refused? ==> VersionBlocked(ledger.View(), session) || ClaimBlocked(ledger.View(), session, domain, scope, s)
      ensures out.Done? ==> out.value.source == s && FoundAt(ledger.View(), domain, scope, out.value)
    {
      ghost var st := ledger.View();
      if KeptAs(st, domain, scope, s, capture) {
        KeptVersions(st, domain, scope, s, capture);
      }
      var versions :- VersionsFor(FilesOf(s), Depends(s));
      ghost var supported := ledger.View();
      if {
        case ledger.mortal => return Died;
        case true =>
      }
      EntryStays(st, supported, scope, s, capture);
      if KeptAs(st, domain, scope, s, capture) {
        KeptClaim(st, domain, scope, s, capture, versions);
      }
      out := RecordClaim(scope, s, capture, versions);
      BookkeepingTransitive(st, supported, ledger.View());
    }

    method RecordClaim(scope: string, s: Source, capture: Observation, versions: map<string, Evidence>)
      returns (out: Attempted<Found>)
      requires ledger.Valid() && HasContract(s)
      requires EntryAt(ledger.View(), scope, s, capture)
      requires VersionsAt(ledger.View(), domain, FilesOf(s), Depends(s), versions)
      modifies ledger
      ensures ledger.Valid() && OnlyBookkeeping(old(ledger.View()), ledger.View())
      ensures out.Died? ==> ledger.mortal
      ensures ClaimKept(old(ledger.View()), ClaimBody(scope, s, Captured(capture, ENTRY), versions)) ==> ledger.View() == old(ledger.View())
      ensures out.Refused? ==> ClaimBlocked(ledger.View(), session, domain, scope, s)
      ensures out.Done? ==> out.value.source == s && FoundAt(ledger.View(), domain, scope, out.value)
    {
      var body := ClaimBody(scope, s, Captured(capture, ENTRY), versions);
      ghost var st := ledger.View();
      var claims := new ClaimLog(ledger, proofs);
      var recorded := claims.Record(session, body, None);
      ClaimIsBookkeeping(st, ledger.View(), body);
      var claim :- From(recorded);
      EntryStays(st, ledger.View(), scope, s, capture);
      VersionsStay(st, ledger.View(), domain, FilesOf(s), Depends(s), versions);
      out := Done(Found(s, claim, capture));
    }

    // ---- Every source of the scope ----

    method AddSource(scope: string, s: Source, found: seq<Found>) returns (out: Attempted<seq<Found>>)
      requires ledger.Valid() && '/' !in s.run.id && AllFound(ledger.View(), domain, scope, found)
      requires Submitting(ledger.View(), domain, scope, s)
      modifies ledger
      ensures ledger.Valid() && Gathers(old(ledger.View()), ledger.View(), session, domain, scope, found, out, iset{s})
      ensures out.Died? ==> ledger.mortal
    {
      ghost var st := ledger.View();
      LoadedIsHeld(s.run.record);
      var recorded := RecordEntry(scope, s);
      match recorded {
        case Died => out := Died;
        case Refused(error) =>
          StopsAtSource(st, ledger.View(), session, domain, scope, s);
          out := Refused(error);
        case Done(entry) =>
          AllStay(st, ledger.View(), domain, scope, found);
          AddsOne(found, entry);
          OneMoreIsFound(ledger.View(), domain, scope, found, entry);
          out := Done(found + [entry]);
      }
    }

    /** One more source, recorded. */
    method Add(scope: string, source: Option<Source>, found: seq<Found>) returns (out: Attempted<seq<Found>>)
      requires ledger.Valid() && AllFound(ledger.View(), domain, scope, found)
      requires source.Some? ==> '/' !in source.value.run.id && Submitting(ledger.View(), domain, scope, source.value)
      modifies ledger
      ensures ledger.Valid() && Gathers(old(ledger.View()), ledger.View(), session, domain, scope, found, out, Maybe(source))
      ensures out.Died? ==> ledger.mortal
    {
      match source {
        case None =>
          GathersNothing(ledger.View(), session, domain, scope, found);
          out := Done(found);
        case Some(s) => out := AddSource(scope, s, found);
      }
    }

    /** What one check of a submission gives memory, recorded. */
    method AddCheck(scope: string, run: Run, index: nat, target: Evidence, check: string, found: seq<Found>)
      returns (out: Attempted<seq<Found>>)
      requires ledger.Valid() && IsSubmitted(ledger.observations, scope, run, index, target) && '/' !in run.id
      requires AllFound(ledger.View(), domain, scope, found) && InForce(run, index, check)
      modifies ledger
      ensures ledger.Valid()
      ensures out.Died? ==> ledger.mortal
      ensures Gathers(old(ledger.View()), ledger.View(), session, domain, scope, found, out,
                      FactSources(old(ledger.operations), ledger.project, domain, run, index, target, check))
    {
      ghost var cited;
      var facts;
      facts, cited := CheckFacts(run, index, target, check);
      match facts {
        case Err(error) =>
          NoAnswer(ledger.View(), session, domain, scope, run, index, target, check, cited, found, error);
          out := Refused(error);
        case Ok(source) =>
          FactsSubmit(ledger.View(), domain, scope, run, index, target, check, source);
          out := Add(scope, source, found);
      }
    }

    method AddNotes(scope: string, run: Run, index: nat, target: Evidence, found: seq<Found>)
      returns (out: Attempted<seq<Found>>)
      requires ledger.Valid() && IsSubmitted(ledger.observations, scope, run, index, target) && '/' !in run.id
      requires AllFound(ledger.View(), domain, scope, found)
      modifies ledger
      ensures ledger.Valid()
      ensures out.Died? ==> ledger.mortal
      ensures Gathers(old(ledger.View()), ledger.View(), session, domain, scope, found, out,
                      NoteSources(old(ledger.operations), domain, run, index, target))
    {
      var notes := NotesFrom(run, index, target);
      match notes {
        case Err(error) =>
          NoCandidate(ledger.View(), session, domain, scope, run, index, target, found, error);
          out := Refused(error);
        case Ok(source) =>
          NotesSubmit(ledger.View(), domain, scope, run, index, target, source);
          out := Add(scope, source, found);
      }
    }

    method AddChecks(scope: string, run: Run, index: nat, target: Evidence, checks: seq<string>, found: seq<Found>)
      returns (out: Attempted<seq<Found>>)
      requires ledger.Valid() && IsSubmitted(ledger.observations, scope, run, index, target) && '/' !in run.id
      requires AllFound(ledger.View(), domain, scope, found)
      requires TaskSpecs.Distinct(checks) && forall check | check in checks :: InForce(run, index, check)
      modifies ledger
      ensures ledger.Valid()
      ensures out.Died? ==> ledger.mortal
      ensures Gathers(old(ledger.View()), ledger.View(), session, domain, scope, found, out,
                      CheckSources(old(ledger.operations), ledger.project, domain, run, index, target, checks))
    {
      ghost var st := ledger.View();
      out := Done(found);
      var k := 0;
      NoChecks(st, session, domain, scope, run, index, target, found);
      while k < |checks| && out.Done?
        invariant ledger.Valid() && k <= |checks|
        invariant out.Died? ==> ledger.mortal
        invariant Gathers(st, ledger.View(), session, domain, scope, found, out,
                          CheckSources(st.operations, st.project, domain, run, index, target, checks[..k]))
        decreases |checks| - k
      {
        out := AddNextCheck(scope, run, index, target, checks, k, out.value, st, found);
        k := k + 1;
      }
      LastCheck(st, ledger.View(), session, domain, scope, run, index, target, checks, k, found, out);
    }

    method AddNextCheck(scope: string, run: Run, index: nat, target: Evidence, checks: seq<string>, k: nat, some: seq<Found>,
                        ghost st: Spec.State, ghost found: seq<Found>)
      returns (out: Attempted<seq<Found>>)
      requires ledger.Valid() && IsSubmitted(st.observations, scope, run, index, target) && '/' !in run.id
      requires k < |checks| && TaskSpecs.Distinct(checks) && InForce(run, index, checks[k])
      requires Gathers(st, ledger.View(), session, domain, scope, found, Done(some),
                       CheckSources(st.operations, st.project, domain, run, index, target, checks[..k]))
      modifies ledger
      ensures ledger.Valid()
      ensures out.Died? ==> ledger.mortal
      ensures Gathers(st, ledger.View(), session, domain, scope, found, out,
                      CheckSources(st.operations, st.project, domain, run, index, target, checks[..k + 1]))
    {
      ghost var before := ledger.View();
      SourcedStays(st, before, scope, run, index, target);
      out := AddCheck(scope, run, index, target, checks[k], some);
      NextCheck(st, before, ledger.View(), session, domain, scope, run, index, target, checks, k, found, some, out);
    }

    /** Every check of the contract in force, then the notes. */
    method AddSubmission(scope: string, run: Run, index: nat, target: Evidence, found: seq<Found>)
      returns (out: Attempted<seq<Found>>)
      requires ledger.Valid() && IsSubmitted(ledger.observations, scope, run, index, target) && '/' !in run.id
      requires AllFound(ledger.View(), domain, scope, found)
      modifies ledger
      ensures ledger.Valid()
      ensures out.Died? ==> ledger.mortal
      ensures Gathers(old(ledger.View()), ledger.View(), session, domain, scope, found, out,
                      SubmissionSources(old(ledger.View()), domain, run, index, target))
    {
      ghost var st := ledger.View();
      LoadedChecks(st.observations, run, index);
      var checks := Contract(run.record.task, index).value.checks;
      ghost var facts := CheckSources(st.operations, st.project, domain, run, index, target, checks);
      ghost var notes := NoteSources(st.operations, domain, run, index, target);
      SubmissionGives(st, domain, run, index, target);
      NotesAreNoCheck(st.operations, st.project, domain, run, index, target, checks);
      out := AddChecks(scope, run, index, target, checks, found);
      ghost var checked := ledger.View();
      match out {
        case Done(some) =>
          SourcedStays(st, checked, scope, run, index, target);
          out := AddNotes(scope, run, index, target, some);
          GathersOn(st, checked, ledger.View(), session, domain, scope, found, some, out, facts, notes);
        case _ => GathersLess(st, checked, session, domain, scope, found, out, facts, facts + notes);
      }
    }

    /** The captured submission, if there is one yet. */
    method Target(run: string, index: nat) returns (out: Outcomes<Option<Evidence>>)
      ensures out.Err? <==> Uncaptured(ledger.observations, run, index)
      ensures out.Ok? ==> IsTheTarget(ledger.observations, run, index, out.value)
    {
      var row := RecordOnce.FirstRecord(ledger.observations, Named(SubmissionText(run, index)));
      if row.None? {
        return Ok(None);
      }
      if SUBMISSION !in ledger.observations[row.value].artifacts {
        return Err(InvalidInput);
      }
      out := Ok(Some(Captured(ledger.observations[row.value], SUBMISSION)));
    }

    method AddCaptured(scope: string, run: Run, index: nat, found: seq<Found>) returns (out: Attempted<seq<Found>>)
      requires ledger.Valid() && Loads(ledger.observations, run) && InScope(run, scope) && '/' !in run.id
      requires 1 <= index <= run.record.task.submissions && AllFound(ledger.View(), domain, scope, found)
      modifies ledger
      ensures ledger.Valid()
      ensures out.Died? ==> ledger.mortal
      ensures Gathers(old(ledger.View()), ledger.View(), session, domain, scope, found, out,
                      IndexSources(old(ledger.View()), domain, run, index))
    {
      var submitted := Target(run.id, index);
      match submitted {
        case Err(error) =>
          StopsAtCapture(ledger.View(), session, domain, scope, run, index);
          GathersNoMore(ledger.View(), session, domain, scope, found, error, IndexSources(ledger.View(), domain, run, index));
          out := Refused(error);
        case Ok(None) =>
          NothingSubmitted(ledger.View(), domain, run, index);
          GathersNothing(ledger.View(), session, domain, scope, found);
          out := Done(found);
        case Ok(Some(target)) =>
          SubmittedSources(ledger.View(), domain, run, index, target);
          out := AddSubmission(scope, run, index, target, found);
      }
    }

    method AddRun(scope: string, run: Run, found: seq<Found>) returns (out: Attempted<seq<Found>>)
      requires ledger.Valid() && Loads(ledger.observations, run) && InScope(run, scope) && '/' !in run.id
      requires AllFound(ledger.View(), domain, scope, found)
      modifies ledger
      ensures ledger.Valid()
      ensures out.Died? ==> ledger.mortal
      ensures Gathers(old(ledger.View()), ledger.View(), session, domain, scope, found, out,
                      RunSources(old(ledger.View()), domain, run, run.record.task.submissions))
    {
      ghost var st := ledger.View();
      out := Done(found);
      var k := 0;
      NoIndex(st, domain, run);
      GathersNothing(st, session, domain, scope, found);
      while k < run.record.task.submissions && out.Done?
        invariant ledger.Valid() && k <= run.record.task.submissions
        invariant out.Died? ==> ledger.mortal
        invariant Gathers(st, ledger.View(), session, domain, scope, found, out, RunSources(st, domain, run, k))
        decreases run.record.task.submissions - k
      {
        out := AddNext(scope, run, k, out.value, st, found);
        k := k + 1;
      }
      FewerIndices(st, domain, run, k, run.record.task.submissions);
      GathersLess(st, ledger.View(), session, domain, scope, found, out, RunSources(st, domain, run, k),
                  RunSources(st, domain, run, run.record.task.submissions));
    }

    method AddNext(scope: string, run: Run, k: nat, some: seq<Found>, ghost st: Spec.State, ghost found: seq<Found>)
      returns (out: Attempted<seq<Found>>)
      requires ledger.Valid() && Loads(st.observations, run) && InScope(run, scope) && '/' !in run.id
      requires k < run.record.task.submissions
      requires Gathers(st, ledger.View(), session, domain, scope, found, Done(some), RunSources(st, domain, run, k))
      modifies ledger
      ensures ledger.Valid()
      ensures out.Died? ==> ledger.mortal
      ensures Gathers(st, ledger.View(), session, domain, scope, found, out, RunSources(st, domain, run, k + 1))
    {
      ghost var before := ledger.View();
      LoadsStays(st, before, run);
      out := AddCaptured(scope, run, k + 1, some);
      NextIndex(st, before, ledger.View(), session, domain, scope, run, k, found, some, out);
    }

    /** Every run of the scope that a run-spec names, once for each that does. */
    method AddRuns(scope: string) returns (out: Attempted<seq<Found>>)
      requires ledger.Valid()
      modifies ledger
      ensures ledger.Valid() && FoundAll(old(ledger.View()), ledger.View(), session, domain, scope, out)
      ensures out.Died? ==> ledger.mortal
    {
      ghost var st := ledger.View();
      var runs := ledger.observations;
      var some: seq<Found> := [];
      NoneWalked(st, session, domain, scope);
      for k := 0 to |runs|
        invariant ledger.Valid() && WalkedTo(st, ledger.View(), session, domain, scope, Done(some), k)
      {
        var more := AddNextRun(scope, runs[k], k, some, st);
        if !more.Done? {
          WalkedAll(st, ledger.View(), session, domain, scope, more, k + 1);
          return more;
        }
        some := more.value;
      }
      out := Done(some);
      WalkedAll(st, ledger.View(), session, domain, scope, out, |runs|);
    }

    method AddNextRun(scope: string, o: Observation, ghost k: nat, some: seq<Found>, ghost st: Spec.State)
      returns (out: Attempted<seq<Found>>)
      requires ledger.Valid() && k < |st.observations| && o == st.observations[k]
      requires WalkedTo(st, ledger.View(), session, domain, scope, Done(some), k)
      modifies ledger
      ensures ledger.Valid() && WalkedTo(st, ledger.View(), session, domain, scope, out, k + 1)
      ensures out.Died? ==> ledger.mortal
    {
      ghost var before := ledger.View();
      StillCaptured(st, before, o);
      out := AddNamed(scope, o, some);
      NextRun(st, before, ledger.View(), session, domain, scope, k, some, out);
    }

    /** The run a capture names, when it is a run-spec and of the scope. */
    method AddNamed(scope: string, o: Observation, found: seq<Found>) returns (out: Attempted<seq<Found>>)
      requires ledger.Valid() && o in ledger.observations && AllFound(ledger.View(), domain, scope, found)
      modifies ledger
      ensures ledger.Valid()
      ensures out.Died? ==> ledger.mortal
      ensures Gathers(old(ledger.View()), ledger.View(), session, domain, scope, found, out,
                      NamedSources(old(ledger.View()), domain, scope, o))
    {
      ghost var st := ledger.View();
      var name := RunName(o.origin.operationId);
      if o.origin.kind != RUN_SPEC {
        assert NamedSources(st, domain, scope, o) == iset{};
        GathersNothing(st, session, domain, scope, found);
        return Done(found);
      }
      var loaded := None;
      if name.Some? {
        loaded := Load(name.value);
      }
      match loaded {
        case None =>
          StopsAtSpec(st, session, domain, scope, o);
          GathersNoMore(st, session, domain, scope, found, InvalidInput, NamedSources(st, domain, scope, o));
          out := Refused(InvalidInput);
        case Some(run) => out := AddLoaded(scope, o, run, found);
      }
    }

    method AddLoaded(scope: string, o: Observation, run: Run, found: seq<Found>) returns (out: Attempted<seq<Found>>)
      requires ledger.Valid() && AllFound(ledger.View(), domain, scope, found)
      requires NamesRun(o, run.id) && Loads(ledger.observations, run)
      modifies ledger
      ensures ledger.Valid()
      ensures out.Died? ==> ledger.mortal
      ensures Gathers(old(ledger.View()), ledger.View(), session, domain, scope, found, out,
                      NamedSources(old(ledger.View()), domain, scope, o))
    {
      if InScope(run, scope) {
        OfThisRun(ledger.View(), domain, scope, o, run);
        out := AddRun(scope, run, found);
      } else {
        OtherScope(ledger.View(), domain, scope, o, run);
        GathersNothing(ledger.View(), session, domain, scope, found);
        out := Done(found);
      }
    }

    // ---- Assessing what was found ----

    /** One entry, assessed against the files of now. */
    method Assessed(scope: string, f: Found, now: Files, current: map<string, Evidence>) returns (out: Outcomes<MemoryEntry>)
      requires ledger.Valid() && FoundAt(ledger.View(), domain, scope, f)
      requires VersionsAt(ledger.View(), domain, now, now.Keys, current)
      ensures out.Err? ==> !VersionsOk(ledger.View(), Given(current)) || Unassessed(ledger.View(), f.source)
      ensures out.Ok? ==> EntryOf(ledger.View(), f.source, now, out.value)
    {
      var claims := new ClaimLog(ledger, proofs);
      var assessment := claims.Assess(f.claim, Given(current));
      ghost var graph :| GraphOf(ledger.View(), proofs, graph)
        && (assessment.Some? <==>
              VersionsOk(ledger.View(), Given(current)) && forall to | Reaches(graph, f.claim, to) :: to in graph)
        && (assessment.Some? ==> assessment.value.applicability == Support(graph, Given(current), f.claim));
      EntryClaimIsReadable(ledger.View(), proofs, domain, scope, f, graph);
      var accepted := Accepted(f.source.target);
      if assessment.None? || accepted.Err? {
        return Err(InvalidInput);
      }
      SupportIsApplies(ledger.View(), proofs, domain, scope, f, now, current, graph);
      var split := SplitOf(f.source.run.campaign);
      if split.None? {
        return Err(InvalidInput);
      }
      out := Ok(MemoryEntry(f.source.run.id, f.source.run.record.task.id, f.source.index, f.source.name, f.source.items,
                            accepted.value, assessment.value.applicability, f.capture.sequence,
                            Captured(f.capture, ENTRY), split.value));
    }

    method AssessAll(scope: string, found: seq<Found>, now: Files, current: map<string, Evidence>)
      returns (out: Outcomes<seq<MemoryEntry>>)
      requires ledger.Valid() && AllFound(ledger.View(), domain, scope, found)
      requires VersionsAt(ledger.View(), domain, now, now.Keys, current)
      ensures out.Err? ==> !VersionsOk(ledger.View(), Given(current)) || SomeUnassessed(ledger.View(), found)
      ensures out.Ok? ==> |out.value| == |found| && EntriesOf(ledger.View(), found, now, out.value)
    {
      var entries: seq<MemoryEntry> := [];
      for k := 0 to |found|
        invariant |entries| == k && EntriesOf(ledger.View(), found, now, entries)
      {
        assert found[k] in found;
        var entry := Assessed(scope, found[k], now, current);
        if entry.Err? {
          return Err(entry.error);
        }
        OneMoreEntryOf(ledger.View(), found, now, entries, entry.value);
        entries := entries + [entry.value];
      }
      out := Ok(entries);
    }

    /** What was found, assessed against the files of now. */
    method Assess(scope: string, found: seq<Found>, now: Files) returns (out: Attempted<seq<MemoryEntry>>)
      requires ledger.Valid() && AllFound(ledger.View(), domain, scope, found)
      modifies ledger
      ensures ledger.Valid() && OnlyBookkeeping(old(ledger.View()), ledger.View())
      ensures out.Died? ==> ledger.mortal
      ensures VersionsKept(old(ledger.View()), domain, now, now.Keys) ==> ledger.View() == old(ledger.View())
      ensures out.Refused? ==>
        || VersionBlocked(ledger.View(), session) || !Comparable(ledger.View(), domain, now)
        || SomeUnassessed(ledger.View(), found)
      ensures out.Done? ==> VersionsKept(ledger.View(), domain, now, now.Keys)
      ensures out.Done? ==> |out.value| == |found| && EntriesOf(ledger.View(), found, now, out.value)
    {
      ghost var st := ledger.View();
      var current :- VersionsFor(now, now.Keys);
      AllStay(st, ledger.View(), domain, scope, found);
      VersionsAreOne(ledger.View(), domain, now, now.Keys, current, current);
      var assessed := AssessAll(scope, found, now, current);
      out := From(assessed);
    }

    /** Every entry of the task's scope, newest first, assessed against the task's files:
        each is of a source the ledger holds, and each source has one, or one more for every
        further run-spec that names its run. Only bookkeeping is recorded: no operation, so no
        check is run and no decision changes; and once it is, the next call records nothing. */
    method Entries(task: Task) returns (out: Attempted<seq<MemoryEntry>>)
      requires ledger.Valid()
      modifies ledger
      ensures ledger.Valid() && OnlyBookkeeping(old(ledger.View()), ledger.View())
      ensures out.Died? ==> ledger.mortal
      ensures task.memory.None? ==> out == Done([])
      ensures out.Done? && task.memory.Some? ==>
        EntriesOfScope(old(ledger.View()), ledger.View(), domain, task.memory.value.scope, AllFiles(task), out.value)
      ensures out.Refused? ==>
        task.memory.Some? && Explained(old(ledger.View()), ledger.View(), session, domain, task.memory.value.scope)
      ensures out.Done? ==> UpToDate(ledger.View(), domain, task)
      ensures UpToDate(old(ledger.View()), domain, task) ==> ledger.View() == old(ledger.View())
    {
      if task.memory.None? {
        return Done([]);
      }
      ghost var st := ledger.View();
      var scope := task.memory.value.scope;
      var walked := AddRuns(scope);
      if walked.IsFailure() {
        if walked.Refused? {
          ExplainsStop(st, ledger.View(), session, domain, scope);
        }
        return walked.PropagateFailure();
      }
      out := AssessFound(scope, walked.Extract(), task, st);
    }

    /** What the walk found, assessed and in order. */
    method AssessFound(scope: string, found: seq<Found>, task: Task, ghost st: Spec.State)
      returns (out: Attempted<seq<MemoryEntry>>)
      requires ledger.Valid() && Inv(st) && task.memory.Some? && scope == task.memory.value.scope
      requires FoundAll(st, ledger.View(), session, domain, scope, Done(found))
      modifies ledger
      ensures ledger.Valid() && OnlyBookkeeping(st, ledger.View())
      ensures out.Died? ==> ledger.mortal
      ensures VersionsKept(old(ledger.View()), domain, AllFiles(task), AllFiles(task).Keys) ==> ledger.View() == old(ledger.View())
      ensures out.Refused? ==> Explained(st, ledger.View(), session, domain, scope)
      ensures out.Done? ==>
        && EntriesOfScope(st, ledger.View(), domain, scope, AllFiles(task), out.value)
        && UpToDate(ledger.View(), domain, task)
    {
      ghost var recorded := ledger.View();
      var assessed := Assess(scope, found, AllFiles(task));
      BookkeepingTransitive(st, recorded, ledger.View());
      if assessed.Done? {
        var sorted := SortNewest(assessed.value);
        AssessedAll(st, recorded, ledger.View(), session, domain, task, found, assessed.value, sorted);
        return Done(sorted);
      }
      if assessed.Refused? {
        ExplainsAssess(st, ledger.View(), session, domain, scope, AllFiles(task), found);
      }
      out := assessed.PropagateFailure();
    }

    /** The memory file a new run of the split shows its worker, taken from these entries. */
    method TakeSnapshot(task: Task, split: Option<string>, size: Json -> nat)
      returns (out: Attempted<Shown>, ghost entries: seq<MemoryEntry>)
      requires ledger.Valid() && task.memory.Some?
      modifies ledger
      ensures ledger.Valid() && OnlyBookkeeping(old(ledger.View()), ledger.View())
      ensures out.Died? ==> ledger.mortal
      ensures out.Refused? ==> Explained(old(ledger.View()), ledger.View(), session, domain, task.memory.value.scope)
      ensures out.Done? ==>
        && EntriesOfScope(old(ledger.View()), ledger.View(), domain, task.memory.value.scope, AllFiles(task), entries)
        && out.value.facts == Fit(Candidates(entries, split), size)
        && out.value.withheld.stale == Lapsed(entries, split, Outdated)
        && out.value.withheld.unknown == Lapsed(entries, split, Undetermined)
        && |out.value.facts| + out.value.withheld.overLimit == |Candidates(entries, split)|
    {
      entries := [];
      var derived :- Entries(task);
      var facts, withheld := Snapshot(derived, split, size);
      out, entries := Done(Shown(facts, withheld)), derived;
    }
  }

  /** What a fact shown to a new run of a split rests on. */
  ghost predicate RestsOn(st: Spec.State, now: Files, split: Option<string>, s: Source, fact: Fact) {
    && HasContract(s) && fact.entry.run == s.run.id && fact.entry.submission == s.index && fact.entry.source == s.name
    && fact.body in s.items
    && SplitOf(s.run.campaign) == Some(split)
    && AcceptedBy(st.operations, s.target)
    && Applies(FilesOf(s), Depends(s), now) == Current
  }

  /** Every fact a snapshot shows comes from a recorded source: its run-spec records the
      same split, a completed decision accepted its submission, and every file its results
      depend on has the same bytes now. */
  lemma ShownIsSeparate(st: Spec.State, later: Spec.State, domain: Domain, scope: string, now: Files,
                        entries: seq<MemoryEntry>, split: Option<string>, size: Json -> nat, fact: Fact)
    requires EntriesFor(later, AllSources(st, domain, scope), now, entries)
    requires fact in Fit(Candidates(entries, split), size)
    ensures exists s :: Sourced(st, domain, scope, s) && RestsOn(later, now, split, s, fact)
  {
    CandidatesAre(entries, split, fact);
    assert IsEntry(later, AllSources(st, domain, scope), now, fact.entry);
    var s :| s in AllSources(st, domain, scope) && EntryOf(later, s, now, fact.entry);
    EntryRests(later, now, split, s, fact.entry, fact.body);
  }

  /** Nothing else is left out: whatever rests on such a source is a candidate, so it is
      shown unless it does not fit. */
  lemma NothingElseIsWithheld(st: Spec.State, later: Spec.State, domain: Domain, scope: string, now: Files,
                              entries: seq<MemoryEntry>, split: Option<string>, s: Source, body: Json)
    requires EntriesFor(later, AllSources(st, domain, scope), now, entries) && Sourced(st, domain, scope, s)
    requires HasContract(s) && SplitOf(s.run.campaign) == Some(split) && AcceptedBy(later.operations, s.target)
    requires Applies(FilesOf(s), Depends(s), now) == Current && body in s.items
    ensures exists fact | fact in Candidates(entries, split) :: fact.body == body && RestsOn(later, now, split, s, fact)
  {
    assert s in AllSources(st, domain, scope);
    var e := EntryOfSource(later, s, now, entries);
    EntryRests(later, now, split, s, e, body);
    CandidatesAre(entries, split, Fact(e, body));
  }

  lemma EntryOfSource(st: Spec.State, s: Source, now: Files, entries: seq<MemoryEntry>) returns (e: MemoryEntry)
    requires HasEntry(st, s, now, entries)
    ensures e in entries && EntryOf(st, s, now, e)
  {
    e :| e in entries && EntryOf(st, s, now, e);
  }

  lemma EntryRests(st: Spec.State, now: Files, split: Option<string>, s: Source, e: MemoryEntry, body: Json)
    requires EntryOf(st, s, now, e)
    ensures RestsOn(st, now, split, s, Fact(e, body)) <==> Eligible(e, split) && body in e.items
  {
  }
}
