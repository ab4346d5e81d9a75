/** Binding a host-authored record to one stable identity, including its bytes. */
module RecordOnce {
  import opened Records
  import Spec = LedgerSpec
  import opened LedgerInvariant
  import opened LedgerSafety
  import opened LedgerStore

  /** The first capture under an ID. */
  function FirstRecord(observations: seq<Observation>, id: OpId): (row: Option<nat>)
    ensures row.None? ==> forall o | o in observations :: o.origin.operationId != id
    ensures row.Some? ==> row.value < |observations| && observations[row.value].origin.operationId == id
    ensures row.Some? ==> forall k | 0 <= k < row.value :: observations[k].origin.operationId != id
  {
    if observations == [] then None
    else
      var n := |observations| - 1;
      var earlier := FirstRecord(observations[..n], id);
      if earlier.Some? then earlier
      else if observations[n].origin.operationId == id then Some(n)
      else None
  }

  lemma FirstRecordStays(before: seq<Observation>, after: seq<Observation>, id: OpId)
    requires before <= after && FirstRecord(before, id).Some?
    ensures FirstRecord(after, id) == FirstRecord(before, id)
  {
    var i := FirstRecord(before, id).value;
    assert after[i].origin.operationId == id;
    assert after[i] in after;
  }

  /** An ID names one capture, of this origin and these bytes. */
  ghost predicate IsRecord(st: Spec.State, row: nat, origin: Origin, raw: Artifacts) {
    && row < |st.observations|
    && st.observations[row].origin == origin && st.observations[row].artifacts == raw
    && forall k | 0 <= k < |st.observations| && k != row ::
         st.observations[k].origin.operationId != origin.operationId
  }

  ghost function Step(st: Spec.State, session: string, origin: Origin, raw: Artifacts): Spec.Step<Observation> {
    var found := Spec.Lookup(st, Request(origin, st.project));
    if found.Err? then Spec.Step(st, Err(found.error))
    else
      match FirstRecord(st.observations, origin.operationId)
      case None => Spec.Record(st, session, origin, raw, None)
      case Some(row) =>
        if IsRecord(st, row, origin, raw) then Spec.Step(st, Ok(st.observations[row]))
        else Spec.Step(st, Err(Conflict))
  }

  lemma NoOperation(st: Spec.State, id: OpId)
    requires forall op | op in st.operations :: op.Id() != id
    ensures !Spec.Has(st.operations, id)
  {
    forall k | 0 <= k < |st.operations|
      ensures st.operations[k].Id() != id
    {
      assert st.operations[k] in st.operations;
    }
  }

  /** What cites evidence that is there is recorded, or found, where its ID is free or its own. */
  lemma RecordsOrFinds(st: Spec.State, session: string, origin: Origin, raw: Artifacts)
    requires session in st.sessions && !Spec.Has(st.operations, origin.operationId) && Spec.OriginMatches(st, origin)
    requires raw != map[] && NamesOk(raw)
    requires var row := FirstRecord(st.observations, origin.operationId); row.Some? ==> IsRecord(st, row.value, origin, raw)
    ensures Step(st, session, origin, raw).out.Ok?
  {
  }

  lemma StepKeeps(st: Spec.State, session: string, origin: Origin, raw: Artifacts)
    requires Inv(st)
    ensures Inv(Step(st, session, origin, raw).st)
  {
    RecordKeeps(st, session, origin, raw, None);
  }

  lemma StepExtends(st: Spec.State, session: string, origin: Origin, raw: Artifacts)
    ensures var step := Step(st, session, origin, raw);
      && Extends(st, step.st) && step.st.operations == st.operations
      && step.st.scopes == st.scopes && step.st.clock == st.clock
  {
  }

  lemma CaptureIsRecord(st: Spec.State, capture: Observation)
    requires FirstRecord(st.observations, capture.origin.operationId).None?
    ensures IsRecord(st.(observations := st.observations + [capture]), |st.observations|, capture.origin, capture.artifacts)
  {
    assert forall k | 0 <= k < |st.observations| :: st.observations[k] in st.observations;
  }

  /** A record is either already there, or is the one new capture; either way it is the
      only capture under its ID. */
  lemma StepEffect(st: Spec.State, session: string, origin: Origin, raw: Artifacts)
    requires Inv(st)
    ensures var step := Step(st, session, origin, raw);
      && (step.out.Err? ==> step.st == st)
      && (step.st != st ==> step.st.observations == st.observations + [Spec.Capture(st, session, origin, raw, None)])
      && (step.out.Ok? ==>
            && 0 < step.out.value.sequence <= |step.st.observations|
            && step.st.observations[step.out.value.sequence - 1] == step.out.value
            && IsRecord(step.st, step.out.value.sequence - 1, origin, raw))
  {
    var row := FirstRecord(st.observations, origin.operationId);
    if row.Some? {
      assert ObservationOk(st, row.value);
    } else {
      CaptureIsRecord(st, Spec.Capture(st, session, origin, raw, None));
    }
  }

  /** Recording the same evidence again returns it, and changes nothing. */
  lemma StepAgain(st: Spec.State, session: string, origin: Origin, raw: Artifacts, row: nat)
    requires Inv(st) && IsRecord(st, row, origin, raw) && !Spec.Has(st.operations, origin.operationId)
    ensures Step(st, session, origin, raw) == Spec.Step(st, Ok(st.observations[row]))
  {
    assert ObservationOk(st, row);
    OriginGrows(st.(observations := st.observations[..row]), st, origin);
    assert st.observations[row] in st.observations;
    var first := FirstRecord(st.observations, origin.operationId);
    assert first == Some(row);
  }

  method Record(ledger: Ledger, session: string, origin: Origin, raw: Artifacts) returns (out: Outcomes<Observation>)
    requires ledger.Valid()
    modifies ledger
    ensures ledger.Valid()
    ensures ledger.View() == Step(old(ledger.View()), session, origin, raw).st
    ensures out == Step(old(ledger.View()), session, origin, raw).out
  {
    var found := ledger.LookupRow(Request(origin, ledger.project));
    if found.Err? {
      return Err(found.error);
    }
    var matched: seq<nat> := [];
    for i := 0 to |ledger.observations|
      invariant forall k: nat :: k in matched <==> k < i && ledger.observations[k].origin.operationId == origin.operationId
      invariant matched != [] ==> matched[|matched| - 1] < i
      invariant forall k | 0 <= k < |matched| - 1 :: matched[k] < matched[k + 1]
    {
      if ledger.observations[i].origin.operationId == origin.operationId {
        matched := matched + [i];
      }
    }
    ghost var first := FirstRecord(ledger.observations, origin.operationId);
    if matched == [] {
      forall k | 0 <= k < |ledger.observations|
        ensures ledger.observations[k].origin.operationId != origin.operationId
      {
        assert k !in matched;
      }
      out := ledger.Record(session, origin, raw, None);
      return;
    }
    var row := matched[0];
    assert row in matched && ledger.observations[row] in ledger.observations;
    assert first.value in matched;
    if |matched| != 1 || ledger.observations[row].origin != origin || ledger.observations[row].artifacts != raw {
      if |matched| != 1 {
        assert matched[1] in matched && matched[0] < matched[1];
        assert !IsRecord(ledger.View(), first.value, origin, raw);
      }
      return Err(Conflict);
    }
    out := Ok(ledger.observations[row]);
  }
}
