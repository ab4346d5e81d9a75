/** Captured evidence by name, and the inputs a request cites. */
module Evidences {
  import opened Records
  import opened Names
  import opened LedgerSpec
  import opened LedgerInvariant

  /** One channel of a capture, under its evidence name. */
  function Captured(observation: Observation, channel: string): Evidence
    requires channel in observation.artifacts
  {
    Evidence(EvidenceName(observation.sequence, channel), observation.artifacts[channel])
  }

  /** The channel names of one capture are the ones of no other capture. */
  lemma CaptureIsUnique(st: State, i: nat, j: nat, a: string, b: string)
    requires Inv(st) && i < |st.observations| && j < |st.observations|
    requires a in st.observations[i].artifacts && b in st.observations[j].artifacts
    requires Captured(st.observations[i], a).name == Captured(st.observations[j], b).name
    ensures i == j && a == b
  {
    assert ObservationOk(st, i) && ObservationOk(st, j);
    EvidenceNameInjective(i + 1, a, j + 1, b);
  }

  /** No snapshot of the project has the name of a capture, so no name it gives hides one. */
  predicate PlainSnapshots(project: Project) {
    forall name | name in project.snapshots :: ParseName(name).None?
  }

  lemma CaptureResolves(st: State, i: nat, channel: string)
    requires Inv(st) && PlainSnapshots(st.project) && i < |st.observations| && channel in st.observations[i].artifacts
    ensures var e := Captured(st.observations[i], channel); Resolve(st, e.name) == Some(e.artifact)
  {
    assert ObservationOk(st, i);
    assert !Blank(channel);
    ParsePrintedName(i + 1, channel);
  }

  /** No name stands for two artifacts. */
  ghost predicate Consistent(cited: set<Evidence>) {
    forall a, b | a in cited && b in cited && a.name == b.name :: a == b
  }

  /** The input map that cites exactly this evidence. */
  ghost predicate Cites(inputs: Artifacts, cited: set<Evidence>) {
    && (forall e | e in cited :: e.name in inputs && inputs[e.name] == e.artifact)
    && (forall name | name in inputs :: Evidence(name, inputs[name]) in cited)
  }

  ghost function InputsOf(cited: set<Evidence>): (inputs: Artifacts)
    requires Consistent(cited)
    ensures Cites(inputs, cited)
  {
    map name | name in Cited(cited) :: ArtifactOf(cited, name)
  }

  function Cited(cited: set<Evidence>): set<string> {
    set e | e in cited :: e.name
  }

  ghost function ArtifactOf(cited: set<Evidence>, name: string): ArtifactRef
    requires name in Cited(cited)
  {
    var e :| e in cited && e.name == name;
    e.artifact
  }

  lemma InputsAreUnique(cited: set<Evidence>, inputs: Artifacts)
    requires Cites(inputs, cited)
    ensures Consistent(cited) && inputs == InputsOf(cited)
  {
    forall name
      ensures name in inputs <==> name in InputsOf(cited)
      ensures name in inputs ==> inputs[name] == InputsOf(cited)[name]
    {
      if name in inputs {
        assert Evidence(name, inputs[name]) in cited;
      }
    }
  }

  // ---- Evidence the ledger holds ----

  ghost predicate OnLedger(st: State, e: Evidence) {
    Resolve(st, e.name) == Some(e.artifact)
  }

  ghost predicate AllOnLedger(st: State, cited: set<Evidence>) {
    forall e | e in cited :: OnLedger(st, e)
  }

  /** Evidence that is on the ledger is consistent, and citing it is matched. */
  lemma OnLedgerIsCitable(st: State, cited: set<Evidence>)
    requires AllOnLedger(st, cited)
    ensures Consistent(cited)
    ensures forall name | name in InputsOf(cited) :: Resolve(st, name) == Some(InputsOf(cited)[name])
  {
    var inputs := InputsOf(cited);
    forall name | name in inputs
      ensures Resolve(st, name) == Some(inputs[name])
    {
      assert Evidence(name, inputs[name]) in cited;
    }
  }

  lemma SettledOnLedger(st: State, op: Operation, channel: string)
    requires Inv(st) && PlainSnapshots(st.project) && op in st.operations && op.completion.Some?
    requires channel in op.completion.value.observation.artifacts
    ensures OnLedger(st, Captured(op.completion.value.observation, channel))
  {
    assert OperationOk(st, op);
    CaptureResolves(st, op.completion.value.observation.sequence - 1, channel);
  }

  function Elements(cited: seq<Evidence>): set<Evidence> {
    set e | e in cited
  }

  /** The loop that collects cited evidence, refusing conflicting references. */
  method Collect(cited: seq<Evidence>) returns (inputs: Option<Artifacts>)
    ensures inputs.Some? <==> Consistent(Elements(cited))
    ensures inputs.Some? ==> inputs.value == InputsOf(Elements(cited))
  {
    var collected: Artifacts := map[];
    for i := 0 to |cited|
      invariant Cites(collected, Elements(cited[..i]))
    {
      assert cited[..i + 1] == cited[..i] + [cited[i]];
      var e := cited[i];
      if e.name in collected && collected[e.name] != e.artifact {
        assert Evidence(e.name, collected[e.name]) in cited && e in cited;
        return None;
      }
      collected := collected[e.name := e.artifact];
    }
    assert cited[..|cited|] == cited;
    InputsAreUnique(Elements(cited), collected);
    inputs := Some(collected);
  }

  function Channels(observation: Observation): set<Evidence> {
    set channel | channel in observation.artifacts :: Captured(observation, channel)
  }

  /** Cite every channel of one more capture. */
  method AddCapture(collected: Artifacts, ghost cited: set<Evidence>, observation: Observation) returns (sum: Artifacts)
    requires Cites(collected, cited) && Consistent(cited + Channels(observation))
    ensures Cites(sum, cited + Channels(observation))
  {
    sum := collected;
    ghost var done := cited;
    var channels := observation.artifacts.Keys;
    while channels != {}
      invariant channels <= observation.artifacts.Keys && Cites(sum, done)
      invariant cited <= done <= cited + Channels(observation)
      invariant forall channel | channel in observation.artifacts && channel !in channels :: Captured(observation, channel) in done
      decreases channels
    {
      var channel :| channel in channels;
      var e := Captured(observation, channel);
      assert e in Channels(observation);
      CiteOne(sum, done, cited + Channels(observation), e);
      sum := sum[e.name := e.artifact];
      done := done + {e};
      channels := channels - {channel};
    }
    assert done == cited + Channels(observation);
  }

  lemma CiteOne(inputs: Artifacts, cited: set<Evidence>, all: set<Evidence>, e: Evidence)
    requires Cites(inputs, cited) && cited <= all && e in all && Consistent(all)
    ensures Cites(inputs[e.name := e.artifact], cited + {e})
  {
    if e.name in inputs {
      assert Evidence(e.name, inputs[e.name]) in all;
    }
  }
}
