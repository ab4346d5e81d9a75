/** Settling an operation whose outcome is unknown, without executing it again. */
module OperationsReconcile {
  import opened Records
  import opened LedgerSpec
  import opened LedgerInvariant
  import opened LedgerBudget
  import opened LedgerSafety
  import opened LedgerStore
  import opened Evidences
  import opened Batches
  import opened OperationsSpec
  import opened OperationsSafety
  import OperationsHost

  /** What is recorded of an effect-free operation that was interrupted. */
  function UnmeasuredRaw(): Artifacts {
    map[UNMEASURED := Encode(Obj(map["reason" := Str("the host died during an effect-free operation")])),
        SHOWN := Encode(Null)]
  }

  // ---- What an operation was asked ----

  /** The files and arguments an operation was requested with. */
  datatype Context = Context(files: map<string, Blob>, arguments: Json)

  predicate NamesInput(names: Json, inputs: Artifacts, name: string) {
    names.Obj? && name in names.fields && names.fields[name].Str? && names.fields[name].text in inputs
  }

  function FileOf(names: Json, inputs: Artifacts, name: string): Blob
    requires NamesInput(names, inputs, name)
  {
    inputs[names.fields[name].text]
  }

  /** The files an operation names, under the evidence that stood for them; `None` where
      reading one fails. */
  function FilesFrom(names: Json, inputs: Artifacts, wanted: seq<(string, Evidence)>): Option<map<string, Blob>> {
    if wanted == [] then Some(map[])
    else
      var name := wanted[|wanted| - 1].0;
      match FilesFrom(names, inputs, wanted[..|wanted| - 1])
      case None => None
      case Some(files) =>
        if NamesInput(names, inputs, name) then Some(files[name := FileOf(names, inputs, name)]) else None
  }

  /** Read back from what the request cites; `None` where reading fails. */
  ghost function ContextOf(inputs: Artifacts, declared: Declared): Option<Context> {
    var arguments, names := CitedChannel(inputs, ARGUMENTS), CitedChannel(inputs, INPUTS);
    if arguments.None? || names.None? || !arguments.value.Doc? || !names.value.Doc? then None
    else
      match FilesFrom(names.value.value, inputs, declared.inputs)
      case None => None
      case Some(files) => Some(Context(files, arguments.value.value))
  }

  method ReadContext(inputs: Artifacts, declared: Declared) returns (context: Option<Context>)
    ensures context == ContextOf(inputs, declared)
  {
    var arguments := OperationsHost.FindCited(inputs, ARGUMENTS);
    var names := OperationsHost.FindCited(inputs, INPUTS);
    if arguments.None? || names.None? || !arguments.value.Doc? || !names.value.Doc? {
      return None;
    }
    var files := ReadFiles(names.value.value, inputs, declared.inputs);
    context := if files.None? then None else Some(Context(files.value, arguments.value.value));
  }

  method ReadFiles(names: Json, inputs: Artifacts, wanted: seq<(string, Evidence)>) returns (files: Option<map<string, Blob>>)
    ensures files == FilesFrom(names, inputs, wanted)
  {
    var found: map<string, Blob> := map[];
    for k := 0 to |wanted|
      invariant FilesFrom(names, inputs, wanted[..k]) == Some(found)
    {
      assert wanted[..k + 1][..k] == wanted[..k];
      if !NamesInput(names, inputs, wanted[k].0) {
        FilesFail(names, inputs, wanted, k + 1);
        return None;
      }
      found := found[wanted[k].0 := FileOf(names, inputs, wanted[k].0)];
    }
    assert wanted[..|wanted|] == wanted;
    files := Some(found);
  }

  lemma {:induction false} FilesFail(names: Json, inputs: Artifacts, wanted: seq<(string, Evidence)>, k: nat)
    requires k <= |wanted| && FilesFrom(names, inputs, wanted[..k]).None?
    ensures FilesFrom(names, inputs, wanted).None?
    decreases |wanted|
  {
    if k == |wanted| {
      assert wanted[..k] == wanted;
    } else {
      assert wanted[..|wanted| - 1][..k] == wanted[..k];
      FilesFail(names, inputs, wanted[..|wanted| - 1], k);
    }
  }

  /** Reading the files back gives each the bytes its evidence stood for. */
  lemma {:induction false} FilesReadBack(names: Json, inputs: Artifacts, wanted: seq<(string, Evidence)>,
                                         declared: seq<(string, Evidence)>, files: map<string, Evidence>)
    requires |wanted| == |declared| && forall k | 0 <= k < |wanted| :: wanted[k].0 == declared[k].0
    requires forall k | 0 <= k < |declared| :: declared[k].0 in files
    requires forall name | name in files :: NamesInput(names, inputs, name) && FileOf(names, inputs, name) == files[name].artifact
    ensures FilesFrom(names, inputs, wanted).Some?
    ensures FilesFrom(names, inputs, wanted).value.Keys == Files(declared).Keys
    ensures forall name | name in Files(declared) ::
      name in files && FilesFrom(names, inputs, wanted).value[name] == files[name].artifact
  {
    if wanted != [] {
      var n := |wanted| - 1;
      FilesReadBack(names, inputs, wanted[..n], declared[..n], files);
    }
  }

  lemma {:induction false} FilesNamed(inputs: seq<(string, Evidence)>, k: nat)
    requires k < |inputs|
    ensures inputs[k].0 in Files(inputs)
  {
    var n := |inputs| - 1;
    if k < n {
      FilesNamed(inputs[..n], k);
    }
  }

  lemma {:induction false} FileIsOne(inputs: seq<(string, Evidence)>, name: string) returns (k: nat)
    requires name in Files(inputs)
    ensures k < |inputs| && inputs[k].1 == Files(inputs)[name]
  {
    k := |inputs| - 1;
    if name != inputs[k].0 {
      k := FileIsOne(inputs[..k], name);
    }
  }

  function NamesJson(plan: Plan): Json
    requires plan.Run?
  {
    var files := Files(plan.declared.inputs);
    Obj(map n | n in files :: Str(files[n].name))
  }

  lemma NamesReadBack(batch: Batch, plan: Plan, capture: Observation, inputs: Artifacts)
    requires plan.Run? && HasInput(capture) && PlainlyCited(batch, plan, capture)
    requires inputs == Cite(CitedEvidence(batch, plan, capture))
    ensures var files := Files(plan.declared.inputs);
      forall name | name in files ::
        NamesInput(NamesJson(plan), inputs, name) && FileOf(NamesJson(plan), inputs, name) == files[name].artifact
  {
    var files := Files(plan.declared.inputs);
    ItemNames(batch, plan, capture, INPUTS);
    forall name | name in files
      ensures NamesInput(NamesJson(plan), inputs, name) && FileOf(NamesJson(plan), inputs, name) == files[name].artifact
    {
      var k := FileIsOne(plan.declared.inputs, name);
    }
  }

  /** An operation of an item is settled over exactly the arguments it was requested with and
      the bytes of the files it cited then, whatever is declared by the run that settles it,
      while no declared file takes the place of what the host wrote. */
  lemma ContextIsItsOwn(st: State, batch: Batch, i: nat, plan: Plan, capture: Observation, declared: Declared)
    requires Inv(st) && PlainSnapshots(st.project) && plan.Run? && CitesLedger(st, batch, plan, capture)
    requires capture.artifacts == InputRaw(plan)
    requires OwnComesFirst(plan, capture, ARGUMENTS) && OwnComesFirst(plan, capture, INPUTS)
    requires |declared.inputs| == |plan.declared.inputs|
    requires forall k | 0 <= k < |declared.inputs| :: declared.inputs[k].0 == plan.declared.inputs[k].0
    ensures var context := ContextOf(ItemRequest(batch, st.project, i, plan, capture).origin.inputs, declared);
      && context.Some? && context.value.arguments == plan.arguments
      && context.value.files.Keys == Files(plan.declared.inputs).Keys
      && forall name | name in context.value.files ::
           context.value.files[name] == Files(plan.declared.inputs)[name].artifact
  {
    LedgerIsPlain(st, batch, plan, capture);
    OwnAreCited(batch, st.project, i, plan, capture);
    NamesReadBack(batch, plan, capture, Cite(CitedEvidence(batch, plan, capture)));
    ContextFrom(Cite(CitedEvidence(batch, plan, capture)), plan, declared);
  }

  lemma ContextFrom(inputs: Artifacts, plan: Plan, declared: Declared)
    requires plan.Run? && |declared.inputs| == |plan.declared.inputs|
    requires forall k | 0 <= k < |declared.inputs| :: declared.inputs[k].0 == plan.declared.inputs[k].0
    requires CitedChannel(inputs, ARGUMENTS) == Some(Encode(plan.arguments))
    requires CitedChannel(inputs, INPUTS) == Some(Encode(NamesJson(plan)))
    requires var files := Files(plan.declared.inputs);
      forall name | name in files ::
        NamesInput(NamesJson(plan), inputs, name) && FileOf(NamesJson(plan), inputs, name) == files[name].artifact
    ensures var context := ContextOf(inputs, declared);
      && context.Some? && context.value.arguments == plan.arguments
      && context.value.files.Keys == Files(plan.declared.inputs).Keys
      && forall name | name in context.value.files ::
           context.value.files[name] == Files(plan.declared.inputs)[name].artifact
  {
    forall k | 0 <= k < |plan.declared.inputs|
      ensures plan.declared.inputs[k].0 in Files(plan.declared.inputs)
    {
      FilesNamed(plan.declared.inputs, k);
    }
    FilesReadBack(NamesJson(plan), inputs, declared.inputs, plan.declared.inputs, Files(plan.declared.inputs));
  }

  lemma OwnAreCited(batch: Batch, project: Project, i: nat, plan: Plan, capture: Observation)
    requires plan.Run? && HasInput(capture) && capture.artifacts == InputRaw(plan) && PlainlyCited(batch, plan, capture)
    requires OwnComesFirst(plan, capture, ARGUMENTS) && OwnComesFirst(plan, capture, INPUTS)
    ensures var inputs := Cite(CitedEvidence(batch, plan, capture));
      && CitedChannel(inputs, ARGUMENTS) == Some(Encode(plan.arguments))
      && CitedChannel(inputs, INPUTS) == Some(Encode(NamesJson(plan)))
  {
    OwnChannelCited(batch, project, i, plan, capture, ARGUMENTS);
    OwnChannelCited(batch, project, i, plan, capture, INPUTS);
    assert capture.artifacts[INPUTS] == Encode(NamesJson(plan));
  }

  // ---- Settling ----

  /** What settles an interrupted operation. */
  datatype Settlement = Settlement(result: Result, raw: Artifacts)

  /** The result of an execution found out from a receipt. */
  function ReceiptResult(produced: Produced, size: Json -> nat): Settlement {
    var oversized := size(produced.shown) > SHOWN_LIMIT;
    Settlement(Result(SettledOutcome(produced, oversized), produced.usage, 0), EvidenceOf(produced, oversized))
  }

  /** How an unknown operation is settled: an effect-free one at its full reservation; any
      other only by what its own receipt says of the files and arguments it was requested
      with. `Ok(None)` leaves it unknown. */
  method ReconcileOperation(ledger: Ledger, catalogue: map<string, Declared>, request: Request, size: Json -> nat)
    returns (out: Outcomes<Option<Settlement>>)
    requires ledger.Valid()
    ensures out == Reconciled(ledger.View(), catalogue, request, size)
  {
    if request.origin.kind != OPERATION || request.origin.producer !in catalogue
      || catalogue[request.origin.producer].version != request.origin.version {
      return Ok(None);
    }
    var declared := catalogue[request.origin.producer];
    if declared.effectFree {
      var found := ledger.LookupRow(request);
      if found.Err? {
        return Err(found.error);
      }
      if found.value.None? {
        return Err(InvalidInput);
      }
      var reservation := ledger.operations[found.value.value].reservation;
      return Ok(Some(Settlement(Result(InfrastructureFailure, reservation, 0), UnmeasuredRaw())));
    }
    if declared.receipt.None? {
      return Ok(None);
    }
    var context := ReadContext(request.origin.inputs, declared);
    if context.None? {
      return Err(InvalidInput);
    }
    var produced := declared.receipt.value(context.value.files, context.value.arguments);
    out := Ok(if produced.None? then None else Some(ReceiptResult(produced.value, size)));
  }

  ghost function Reconciled(st: State, catalogue: map<string, Declared>, request: Request, size: Json -> nat)
    : Outcomes<Option<Settlement>>
  {
    if request.origin.kind != OPERATION || request.origin.producer !in catalogue
       || catalogue[request.origin.producer].version != request.origin.version then Ok(None)
    else if catalogue[request.origin.producer].effectFree then
      match Lookup(st, request)
      case Err(error) => Err(error)
      case Ok(None) => Err(InvalidInput)
      case Ok(Some(row)) =>
        Ok(Some(Settlement(Result(InfrastructureFailure, st.operations[row].reservation, 0), UnmeasuredRaw())))
    else
      FromReceipt(request, catalogue[request.origin.producer], size)
  }

  ghost function FromReceipt(request: Request, declared: Declared, size: Json -> nat): Outcomes<Option<Settlement>> {
    if declared.receipt.None? then Ok(None)
    else
      match ContextOf(request.origin.inputs, declared)
      case None => Err(InvalidInput)
      case Some(context) =>
        match declared.receipt.value(context.files, context.arguments)
        case None => Ok(None)
        case Some(produced) => Ok(Some(ReceiptResult(produced, size)))
  }

  lemma SettledByContext(st: State, batch: Batch, i: nat, plan: Plan, capture: Observation,
                         catalogue: map<string, Declared>, size: Json -> nat)
    requires plan.Run? && HasInput(capture) && plan.name in catalogue && catalogue[plan.name] == plan.declared
    requires !plan.declared.effectFree
    ensures var request := ItemRequest(batch, st.project, i, plan, capture);
      Reconciled(st, catalogue, request, size) == FromReceipt(request, plan.declared, size)
  {
  }

  /** What the receipt of an operation says of one plan's arguments and files. */
  function ReceiptOf(plan: Plan): Option<Produced>
    requires plan.Run? && plan.declared.receipt.Some?
  {
    var files := Files(plan.declared.inputs);
    plan.declared.receipt.value(map n | n in files :: files[n].artifact, plan.arguments)
  }

  /** An item's operation with an external effect is settled exactly by what its receipt
      says of the item's own arguments and files. */
  lemma SettledByItsReceipt(st: State, batch: Batch, i: nat, plan: Plan, capture: Observation,
                            catalogue: map<string, Declared>, size: Json -> nat)
    requires Inv(st) && PlainSnapshots(st.project) && plan.Run? && CitesLedger(st, batch, plan, capture)
    requires capture.artifacts == InputRaw(plan)
    requires OwnComesFirst(plan, capture, ARGUMENTS) && OwnComesFirst(plan, capture, INPUTS)
    requires plan.name in catalogue && catalogue[plan.name] == plan.declared
    requires !plan.declared.effectFree && plan.declared.receipt.Some?
    ensures var produced := ReceiptOf(plan);
      Reconciled(st, catalogue, ItemRequest(batch, st.project, i, plan, capture), size)
      == Ok(if produced.None? then None else Some(ReceiptResult(produced.value, size)))
  {
    ContextIsItsOwn(st, batch, i, plan, capture, plan.declared);
    SettledByContext(st, batch, i, plan, capture, catalogue, size);
    var context := ContextOf(ItemRequest(batch, st.project, i, plan, capture).origin.inputs, plan.declared);
    var files := Files(plan.declared.inputs);
    assert context.value.files == map n | n in files :: files[n].artifact;
  }

  lemma UnmeasuredIsNamed()
    ensures UnmeasuredRaw() != map[] && NamesOk(UnmeasuredRaw())
  {
    assert UNMEASURED in UnmeasuredRaw() && 'u' in UNMEASURED && 's' in SHOWN;
  }

  /** Every known session can settle an effect-free unknown operation that way, which moves
      its reservation to spending, in every scope and unit, breaches nothing, and leaves
      nothing to reuse. */
  lemma ReconciledInFull(st: State, session: string, catalogue: map<string, Declared>, request: Request, size: Json -> nat,
                         settlement: Settlement, scope: Option<string>, unit: string, key: ArtifactRef)
    requires Inv(st) && Reconciled(st, catalogue, request, size) == Ok(Some(settlement))
    requires request.origin.producer in catalogue && catalogue[request.origin.producer].effectFree
    requires Find(st.operations, request.origin.operationId).Some?
    requires st.operations[Find(st.operations, request.origin.operationId).value].Unknown()
    requires session in st.sessions
    ensures var step := Complete(st, session, request, settlement.result, settlement.raw);
      var row := Find(st.operations, request.origin.operationId).value;
      && step.out.Ok? && step.out.value.breaches == {}
      && Charges(step.st.operations, scope, unit) == Charges(st.operations, scope, unit)
      && row < |step.st.operations| && !Reusable(step.st.operations[row], key)
  {
    UnmeasuredIsNamed();
    FullChargeConserves(st, session, request, settlement.result, settlement.raw, scope, unit);
  }
}
