/** How far an episode is on a ledger that others use as well. */
module WorkerStanding {
  import opened Records
  import opened Names
  import opened Slots
  import Spec = LedgerSpec
  import opened LedgerInvariant
  import opened LedgerSafety
  import opened Calls
  import opened Evidences
  import opened Touching
  import RecordOnce
  import Operations = OperationsSpec
  import opened OperationsHost
  import opened WorkerSpec
  import opened WorkerReplay
  import opened WorkerSteps
  import opened WorkerHost
  import opened WorkerBatches
  import opened WorkerRun

  /** How far the episode is, with its batches and its receipt. */
  ghost predicate Stands(episode: Episode, st: Spec.State, known: Option<Artifacts>, responses: seq<Exchange>) {
    && Progress(episode, st, known, responses)
    && Batched(episode, st, responses)
    && (known.Some? ==> ReceiptHolds(episode, known.value, st))
  }

  lemma SameTablesStand(episode: Episode, st: Spec.State, later: Spec.State, known: Option<Artifacts>, responses: seq<Exchange>)
    requires UniqueIds(later.operations) && Extends(st, later) && Stands(episode, st, known, responses)
    requires later.operations == st.operations && later.observations == st.observations
    ensures Stands(episode, later, known, responses)
  {
    SameTablesProgress(episode, st, later, known, responses);
    if known.Some? {
      ReceiptHoldsOn(episode, known.value, st, later);
    }
    SparedStaysBatched(episode, st, later, responses);
  }

  // ---- The receipt ----

  ghost predicate HasReceipt(episode: Episode, st: Spec.State) {
    RecordOnce.FirstRecord(st.observations, ReceiptId(episode.prefix)).Some?
  }

  /** The evidence of an episode depends only on the outcomes under it. */
  lemma {:induction false} EvidenceSame(episode: Episode, inputs: Artifacts, a: seq<Operation>, b: seq<Operation>)
    requires |a| <= |b|
    requires forall i | 0 <= i < |a| ::
      b[i].Id() == a[i].Id() && (Under(episode.prefix, a[i].Id()) ==> b[i].completion == a[i].completion)
    requires forall i | |a| <= i < |b| :: !Under(episode.prefix, b[i].Id()) || b[i].completion.None?
    ensures EpisodeEvidence(episode, inputs, b) == EpisodeEvidence(episode, inputs, a)
  {
    if b != [] {
      var n := |b| - 1;
      if |a| == |b| {
        EvidenceSame(episode, inputs, a[..n], b[..n]);
      } else {
        EvidenceSame(episode, inputs, a, b[..n]);
      }
    }
  }

  lemma ReceiptHoldsOn(episode: Episode, inputs: Artifacts, st: Spec.State, later: Spec.State)
    requires ReceiptHolds(episode, inputs, st) && st.observations <= later.observations
    requires forall i | Added(st, later, i) :: later.observations[i].origin.operationId != ReceiptId(episode.prefix)
    requires EpisodeEvidence(episode, inputs, later.operations) == EpisodeEvidence(episode, inputs, st.operations)
             || !HasReceipt(episode, st)
    ensures ReceiptHolds(episode, inputs, later)
  {
    forall o | o in later.observations && o.origin.operationId == ReceiptId(episode.prefix)
      ensures Evidences.Cites(o.origin.inputs, EpisodeEvidence(episode, inputs, later.operations))
    {
      var i :| 0 <= i < |later.observations| && later.observations[i] == o;
      assert i < |st.observations| || Added(st, later, i);
      assert o in st.observations;
    }
  }

  /** Only a complete run has a receipt, and then everything under it is done. */
  lemma ReceiptIsComplete(episode: Episode, inputs: Artifacts, st: Spec.State, responses: seq<Exchange>)
    requires UniqueIds(st.operations) && Traced(episode, inputs, st, responses) && Batched(episode, st, responses)
    requires HasReceipt(episode, st)
    ensures Complete(episode, responses) && AttemptsDone(episode.prefix, st.operations)
  {
    var row := RecordOnce.FirstRecord(st.observations, ReceiptId(episode.prefix)).value;
    assert st.observations[row] in st.observations;
    CompleteIsDone(episode, inputs, st, responses);
  }

  /** Settling an operation changes no evidence a receipt cites. */
  lemma CompleteStaysReceipt(episode: Episode, inputs: Artifacts, st: Spec.State, responses: seq<Exchange>, session: string,
                             request: Request, result: Result, raw: Artifacts)
    requires Inv(st) && Traced(episode, inputs, st, responses) && Batched(episode, st, responses)
    requires ReceiptHolds(episode, inputs, st)
    ensures ReceiptHolds(episode, inputs, Spec.Complete(st, session, request, result, raw).st)
  {
    var later := Spec.Complete(st, session, request, result, raw).st;
    if later != st {
      var row := Spec.Find(st.operations, request.origin.operationId).value;
      assert st.operations[row] in st.operations;
      assert IsRecordId(episode.prefix, ReceiptId(episode.prefix));
      if HasReceipt(episode, st) {
        ReceiptIsComplete(episode, inputs, st, responses);
        EvidenceSame(episode, inputs, st.operations, later.operations);
      }
      ReceiptHoldsOn(episode, inputs, st, later);
    }
  }

  lemma BeginStaysReceipt(episode: Episode, inputs: Artifacts, st: Spec.State, session: string, request: Request)
    requires ReceiptHolds(episode, inputs, st)
    ensures ReceiptHolds(episode, inputs, Spec.Begin(st, session, request).st)
  {
    var later := Spec.Begin(st, session, request).st;
    if later != st {
      EvidenceSame(episode, inputs, st.operations, later.operations);
    }
  }

  // ---- What others do ----

  /** Settling any operation keeps what is known of an episode, or adds to it. */
  lemma CompleteProgress(episode: Episode, st: Spec.State, known: Option<Artifacts>, responses: seq<Exchange>,
                         session: string, request: Request, result: Result, raw: Artifacts)
    returns (later: seq<Exchange>)
    requires UniqueIds(st.operations) && Progress(episode, st, known, responses)
    ensures Answered(responses, later)
    ensures Progress(episode, Spec.Complete(st, session, request, result, raw).st, known, later)
  {
    var step := Spec.Complete(st, session, request, result, raw);
    later := responses;
    if step.st != st {
      var op := st.operations[Spec.Find(st.operations, request.origin.operationId).value];
      assert !IsRecordId(episode.prefix, op.Id());
      if known.Some? {
        CompleteStepTraced(episode, known.value, st, responses, session, request, result, raw);
        CompleteStaysOpened(episode, known.value, st, session, request, result, raw);
        later := After(episode, responses, request.origin.operationId, step.out.value);
      }
    }
  }

  lemma CompleteStands(episode: Episode, st: Spec.State, known: Option<Artifacts>, responses: seq<Exchange>,
                       session: string, request: Request, result: Result, raw: Artifacts)
    returns (later: seq<Exchange>)
    requires Inv(st) && Stands(episode, st, known, responses)
    ensures Answered(responses, later)
    ensures Stands(episode, Spec.Complete(st, session, request, result, raw).st, known, later)
  {
    var settled := Spec.Complete(st, session, request, result, raw).st;
    later := CompleteProgress(episode, st, known, responses, session, request, result, raw);
    CompleteKeeps(st, session, request, result, raw);
    CompletePhases(st, session, request, result, raw);
    PhasesStayBatched(episode, st, settled, responses);
    if known.Some? {
      CompleteStaysReceipt(episode, known.value, st, responses, session, request, result, raw);
    }
    if later != responses {
      assert later == responses + [Unshown(later[|responses|].done)];
      AnswerStaysBatched(episode, settled, responses, later[|responses|].done);
    }
  }

  lemma EpisodeStepStaysReceipt(episode: Episode, st: Spec.State, session: string, known: Option<Artifacts>)
    requires Inv(st)
    requires match known
      case None => Untouched(episode, st)
      case Some(inputs) => ReceiptHolds(episode, inputs, st)
    ensures var step := RecordOnce.Step(st, session, EpisodeOrigin(episode), EpisodeRaw(episode));
      step.out.Ok? && EPISODE_FILE in step.out.value.artifacts ==>
        forall inputs | known.None? || inputs == known.value :: ReceiptHolds(episode, inputs, step.st)
  {
    var step := RecordOnce.Step(st, session, EpisodeOrigin(episode), EpisodeRaw(episode));
    RecordOnce.StepEffect(st, session, EpisodeOrigin(episode), EpisodeRaw(episode));
    RecordOnce.StepExtends(st, session, EpisodeOrigin(episode), EpisodeRaw(episode));
    RecordIdsDiffer(episode.prefix, Model, 0);
    assert IsRecordId(episode.prefix, ReceiptId(episode.prefix));
    forall inputs | known.None? || inputs == known.value
      ensures ReceiptHolds(episode, inputs, step.st)
    {
      ReceiptHoldsOn(episode, inputs, st, step.st);
    }
  }

  /** Recording the episode, or finding it recorded, touches no batch. */
  lemma EpisodeStepStands(episode: Episode, st: Spec.State, session: string, known: Option<Artifacts>, responses: seq<Exchange>)
    requires Inv(st) && Stands(episode, st, known, responses)
    ensures var step := RecordOnce.Step(st, session, EpisodeOrigin(episode), EpisodeRaw(episode));
      if step.out.Err? then step.st == st
      else
        && EPISODE_FILE in step.out.value.artifacts
        && var inputs := One(Captured(step.out.value, EPISODE_FILE));
        && Stands(episode, step.st, Some(inputs), responses)
        && (known.Some? ==> known.value == inputs)
  {
    EpisodeStepProgress(episode, st, session, known, responses);
    StepTouches(st, session, EpisodeOrigin(episode), EpisodeRaw(episode), JournalIds(episode.prefix));
    RecordOnce.StepKeeps(st, session, EpisodeOrigin(episode), EpisodeRaw(episode));
    EpisodeStepStaysReceipt(episode, st, session, known);
    JournalStaysBatched(episode, st, RecordOnce.Step(st, session, EpisodeOrigin(episode), EpisodeRaw(episode)).st, responses);
  }

  /** Every ID the host of an episode uses, for its journal and for its batches, is the
      episode's own or below it; no other host uses any of these. */
  predicate IsOwn(prefix: string, id: OpId) {
    id == EpisodeId(prefix) || Under(prefix, id)
  }

  lemma Below(prefix: string, rest: string, tail: string)
    requires rest != "" && rest[0] == '/'
    ensures Under(prefix, Named(prefix + rest)) && Under(prefix, Named(prefix + rest + tail))
  {
    assert prefix + rest == (prefix + "/") + rest[1..];
    Begins(prefix + rest, tail);
  }

  lemma JournalIdIsOwn(prefix: string, id: OpId)
    requires id in JournalIds(prefix)
    ensures IsOwn(prefix, id)
  {
    if IsSlot(prefix, id) {
      var kind: Kind, index: nat :| id == SlotId(prefix, kind, index);
      Below(prefix, "/" + KindName(kind) + "/" + Decimal(index), "");
    } else if IsInput(prefix, id) {
      var kind: Kind, index: nat :| id == InputId(prefix, kind, index);
      Below(prefix, "/" + KindName(kind) + "/" + Decimal(index), "/request");
    } else {
      Below(prefix, "/finished", "");
    }
  }

  lemma BatchIdIsOwn(prefix: string, index: nat, id: OpId)
    requires id in BatchIdsAt(prefix, index)
    ensures IsOwn(prefix, id)
  {
    var base := BatchBase(prefix, index);
    BatchIdBegins(base, id);
    assert base == prefix + ("/" + ("request/" + Decimal(index) + "/"));
    assert prefix + "/" <= base;
  }

  ghost function BatchIdsAt(prefix: string, index: nat): iset<OpId> {
    Operations.BatchIds(BatchBase(prefix, index))
  }

  /** A transaction of anyone but this episode's own host: it records nothing and
      reserves nothing under the episode's IDs. It may begin or settle what it likes. */
  ghost predicate Foreign(episode: Episode, event: Spec.Event) {
    match event
    case RecordEvent(_, origin, _, _) => !IsOwn(episode.prefix, origin.operationId)
    case ReserveEvent(_, request, _, _) => !IsOwn(episode.prefix, request.origin.operationId)
    case _ => true
  }

  /** The ledger grew, and nothing under the episode's IDs was added or changed. */
  ghost predicate KeepsOff(prefix: string, st: Spec.State, later: Spec.State) {
    && Extends(st, later) && UniqueIds(later.operations)
    && (forall i | Added(st, later, i) :: !IsOwn(prefix, later.observations[i].origin.operationId))
    && (forall i | 0 <= i < |later.operations| ::
          (i < |st.operations| && later.operations[i] == st.operations[i]) || !IsOwn(prefix, later.operations[i].Id()))
  }

  lemma OthersChanged(prefix: string, st: Spec.State, later: Spec.State, op: Operation)
    requires Inv(st) && KeepsOff(prefix, st, later)
    ensures op in later.operations && op !in st.operations ==> !IsOwn(prefix, op.Id())
    ensures op in st.operations && op.completion.Some? ==> op in later.operations
  {
    if op in st.operations && op.completion.Some? {
      var i :| 0 <= i < |st.operations| && st.operations[i] == op;
      assert OperationOk(st, op) && Advances(op, later.operations[i]);
      assert later.operations[i] == op;
    }
  }

  lemma OffProgress(episode: Episode, st: Spec.State, later: Spec.State, known: Option<Artifacts>, responses: seq<Exchange>)
    requires Inv(st) && Progress(episode, st, known, responses) && KeepsOff(episode.prefix, st, later)
    ensures Progress(episode, later, known, responses)
  {
    OthersAreApart(episode.prefix);
    forall op: Operation
      ensures op in later.operations && op !in st.operations ==> !IsOwn(episode.prefix, op.Id())
      ensures op in st.operations && op.completion.Some? ==> op in later.operations
    {
      OthersChanged(episode.prefix, st, later, op);
    }
    if known.Some? {
      assert AddsFresh(episode, st, later);
      OpenedStays(episode, known.value, st, later);
      TraceStays(episode, known.value, st, later, responses);
    } else {
      forall o | o in later.observations
        ensures !IsRecordId(episode.prefix, o.origin.operationId)
      {
        var i :| 0 <= i < |later.observations| && later.observations[i] == o;
        assert i < |st.observations| || Added(st, later, i);
      }
    }
  }

  lemma BeginProgress(episode: Episode, st: Spec.State, known: Option<Artifacts>, responses: seq<Exchange>,
                      session: string, request: Request)
    requires UniqueIds(st.operations) && Progress(episode, st, known, responses)
    ensures Progress(episode, Spec.Begin(st, session, request).st, known, responses)
  {
    var later := Spec.Begin(st, session, request).st;
    BeginGrows(st, session, request);
    if known.Some? {
      BeginStepTraced(episode, known.value, st, responses, session, request);
      SameCaptures(episode, known.value, st, later);
    }
  }

  /** What happens under no ID of the episode keeps it as it is. */
  lemma OffStands(episode: Episode, st: Spec.State, later: Spec.State, known: Option<Artifacts>, responses: seq<Exchange>)
    requires Inv(st) && Stands(episode, st, known, responses) && KeepsOff(episode.prefix, st, later)
    ensures Stands(episode, later, known, responses)
  {
    OffProgress(episode, st, later, known, responses);
    if known.Some? {
      OffReceipt(episode, known.value, st, later);
    }
    OffBatched(episode, st, later, responses);
  }

  lemma OffReceipt(episode: Episode, inputs: Artifacts, st: Spec.State, later: Spec.State)
    requires ReceiptHolds(episode, inputs, st) && KeepsOff(episode.prefix, st, later)
    ensures ReceiptHolds(episode, inputs, later)
  {
    OthersAreApart(episode.prefix);
    forall i | 0 <= i < |st.operations|
      ensures later.operations[i].Id() == st.operations[i].Id()
    {
      assert Advances(st.operations[i], later.operations[i]);
    }
    EvidenceSame(episode, inputs, st.operations, later.operations);
    ReceiptHoldsOn(episode, inputs, st, later);
  }

  lemma OffBatched(episode: Episode, st: Spec.State, later: Spec.State, responses: seq<Exchange>)
    requires Batched(episode, st, responses) && KeepsOff(episode.prefix, st, later)
    ensures Batched(episode, later, responses)
  {
    forall t: nat
      ensures Spares(st, later, Operations.BatchIds(BatchBase(episode.prefix, t)))
    {
      OthersSpare(episode, st, later, t);
    }
    SparedStaysBatched(episode, st, later, responses);
  }

  lemma OthersSpare(episode: Episode, st: Spec.State, later: Spec.State, t: nat)
    requires KeepsOff(episode.prefix, st, later)
    ensures Spares(st, later, Operations.BatchIds(BatchBase(episode.prefix, t)))
  {
    forall id | id in Operations.BatchIds(BatchBase(episode.prefix, t))
      ensures IsOwn(episode.prefix, id)
    {
      BatchIdIsOwn(episode.prefix, t, id);
    }
    forall i | |st.observations| <= i < |later.observations|
      ensures later.observations[i].origin.operationId !in Operations.BatchIds(BatchBase(episode.prefix, t))
    {
      assert Added(st, later, i);
    }
  }

  lemma OthersAreApart(prefix: string)
    ensures forall id | !IsOwn(prefix, id) :: !IsRecordId(prefix, id) && !IsSlot(prefix, id)
    ensures forall id | !IsOwn(prefix, id) :: id != ReceiptId(prefix)
  {
    forall id | !IsOwn(prefix, id)
      ensures !IsRecordId(prefix, id) && !IsSlot(prefix, id)
    {
      if id in JournalIds(prefix) {
        JournalIdIsOwn(prefix, id);
      }
    }
    assert IsRecordId(prefix, ReceiptId(prefix));
  }

  lemma ReserveAdds(st: Spec.State, session: string, request: Request, reservation: Amounts, scope: string)
    ensures var step := Spec.Reserve(st, session, request, reservation, scope);
      || step.st == st
      || (step.out.Ok? && step.st == st.(operations := st.operations + [step.out.value])
          && step.out.value.Id() == request.origin.operationId)
  {
  }

  lemma SessionStands(episode: Episode, st: Spec.State, known: Option<Artifacts>, responses: seq<Exchange>, id: string)
    requires Inv(st) && Stands(episode, st, known, responses)
    ensures Stands(episode, Spec.StartSession(st, id).st, known, responses)
  {
    SameTablesStand(episode, st, Spec.StartSession(st, id).st, known, responses);
  }

  lemma ScopeSameTables(st: Spec.State, session: string, scope: string, caps: Amounts)
    ensures var later := Spec.OpenScope(st, session, scope, caps).st;
      Extends(st, later) && later.operations == st.operations && later.observations == st.observations
  {
  }

  lemma ScopeStands(episode: Episode, st: Spec.State, known: Option<Artifacts>, responses: seq<Exchange>,
                    session: string, scope: string, caps: Amounts)
    requires Inv(st) && Stands(episode, st, known, responses)
    ensures Stands(episode, Spec.OpenScope(st, session, scope, caps).st, known, responses)
  {
    ScopeSameTables(st, session, scope, caps);
    SameTablesStand(episode, st, Spec.OpenScope(st, session, scope, caps).st, known, responses);
  }

  lemma RecordStands(episode: Episode, st: Spec.State, known: Option<Artifacts>, responses: seq<Exchange>,
                     session: string, origin: Origin, raw: Artifacts, supersedes: Option<nat>)
    requires Inv(st) && Stands(episode, st, known, responses) && !IsOwn(episode.prefix, origin.operationId)
    ensures Stands(episode, Spec.Record(st, session, origin, raw, supersedes).st, known, responses)
  {
    OffStands(episode, st, Spec.Record(st, session, origin, raw, supersedes).st, known, responses);
  }

  lemma ReserveStands(episode: Episode, st: Spec.State, known: Option<Artifacts>, responses: seq<Exchange>,
                      session: string, request: Request, reservation: Amounts, scope: string)
    requires Inv(st) && Stands(episode, st, known, responses) && !IsOwn(episode.prefix, request.origin.operationId)
    ensures Stands(episode, Spec.Reserve(st, session, request, reservation, scope).st, known, responses)
  {
    var later := Spec.Reserve(st, session, request, reservation, scope).st;
    ReserveAdds(st, session, request, reservation, scope);
    if later != st {
      ReserveKeeps(st, session, request, reservation, scope);
      ReserveExtends(st, session, request, reservation, scope);
      OffStands(episode, st, later, known, responses);
    }
  }

  lemma BeginStands(episode: Episode, st: Spec.State, known: Option<Artifacts>, responses: seq<Exchange>,
                    session: string, request: Request)
    requires Inv(st) && Stands(episode, st, known, responses)
    ensures Stands(episode, Spec.Begin(st, session, request).st, known, responses)
  {
    BeginProgress(episode, st, known, responses, session, request);
    BeginPhases(st, session, request);
    NextKeeps(st, Spec.BeginEvent(session, request));
    if known.Some? {
      BeginStaysReceipt(episode, known.value, st, session, request);
    }
    PhasesStayBatched(episode, st, Spec.Begin(st, session, request).st, responses);
  }

  /** Whatever other hosts do between two runs of an episode, its progress is kept, its
      batches included; only a host settling its unknown attempt adds an exchange. */
  lemma EventKeepsProgress(episode: Episode, st: Spec.State, known: Option<Artifacts>, responses: seq<Exchange>, event: Spec.Event)
    returns (later: seq<Exchange>)
    requires Inv(st) && Stands(episode, st, known, responses) && Foreign(episode, event)
    ensures Answered(responses, later) && Stands(episode, Spec.Next(st, event), known, later)
    ensures !event.CompleteEvent? ==> later == responses
  {
    later := responses;
    match event {
      case StartSessionEvent(id) => SessionStands(episode, st, known, responses, id);
      case OpenScopeEvent(session, scope, caps) => ScopeStands(episode, st, known, responses, session, scope, caps);
      case RecordEvent(session, origin, raw, supersedes) =>
        RecordStands(episode, st, known, responses, session, origin, raw, supersedes);
      case ReserveEvent(session, request, reservation, scope) =>
        ReserveStands(episode, st, known, responses, session, request, reservation, scope);
      case BeginEvent(session, request) => BeginStands(episode, st, known, responses, session, request);
      case CompleteEvent(session, request, result, raw) =>
        later := CompleteStands(episode, st, known, responses, session, request, result, raw);
    }
  }

  /** Over any run of transactions by others, its progress is kept and grows at most by
      the outcome of an attempt left unknown. */
  lemma {:induction false} OthersKeepProgress(episode: Episode, st: Spec.State, known: Option<Artifacts>,
                                              responses: seq<Exchange>, events: seq<Spec.Event>)
    returns (later: seq<Exchange>)
    requires Inv(st) && Stands(episode, st, known, responses)
    requires forall event | event in events :: Foreign(episode, event)
    ensures Inv(Spec.Run(st, events)) && Stands(episode, Spec.Run(st, events), known, later)
    ensures Grew(episode, responses, later)
  {
    later := responses;
    if events != [] {
      var n := |events| - 1;
      var before := OthersKeepProgress(episode, st, known, responses, events[..n]);
      var reached := Spec.Run(st, events[..n]);
      NextKeeps(reached, events[n]);
      later := EventKeepsProgress(episode, reached, known, before, events[n]);
      GrewTransitive(episode, responses, before, later);
    }
  }

  // ---- Other episodes ----

  ghost function OwnIds(prefix: string): iset<OpId> {
    iset id | IsOwn(prefix, id)
  }

  lemma WorkIsOwn(prefix: string)
    ensures JournalIds(prefix) <= OwnIds(prefix) && WorkIds(prefix) <= OwnIds(prefix)
  {
    forall id | id in JournalIds(prefix)
      ensures IsOwn(prefix, id)
    {
      JournalIdIsOwn(prefix, id);
    }
    forall id | id in WorkIds(prefix)
      ensures IsOwn(prefix, id)
    {
      if id !in AttemptIds(prefix) {
        var t: nat :| id in Operations.BatchIds(BatchBase(prefix, t));
        BatchIdIsOwn(prefix, t, id);
      }
    }
  }

  /** Neither episode is the other, or below it. */
  predicate Apart(a: string, b: string) {
    a != b && !(a + "/" <= b) && !(b + "/" <= a)
  }

  lemma BelowHasSlash(a: string, b: string)
    ensures ("episode/" + a) + "/" <= "episode/" + b ==> '/' in b
  {
    var x, y := "episode/" + a, "episode/" + b;
    assert x[8..] == a && y[8..] == b;
    assert x + "/" <= y ==> |a| < |b| && b[|a|] == (x + "/")[|x|];
  }

  /** Episode names have no slash, so different episodes are apart. */
  lemma EpisodesAreApart(a: string, b: string)
    requires '/' !in a && '/' !in b && a != b
    ensures Apart("episode/" + a, "episode/" + b)
  {
    assert ("episode/" + a)[8..] == a && ("episode/" + b)[8..] == b;
    BelowHasSlash(a, b);
    BelowHasSlash(b, a);
  }

  lemma PrefixesAlign(a: string, b: string, text: string)
    requires a + "/" <= text && b + "/" <= text
    ensures a == b || a + "/" <= b || b + "/" <= a
  {
    assert a == text[..|a|] && b == text[..|b|];
    if |a| < |b| {
      assert b[..|a| + 1] == text[..|a| + 1] == a + "/";
    } else if |b| < |a| {
      assert a[..|b| + 1] == text[..|b| + 1] == b + "/";
    }
  }

  lemma OwnIdsApart(a: string, b: string, id: OpId)
    requires Apart(a, b) && IsOwn(a, id)
    ensures !IsOwn(b, id)
  {
    if Under(a, id) && Under(b, id) {
      PrefixesAlign(a, b, id.text);
    }
  }

  lemma TouchesKeepsOff(prefix: string, st: Spec.State, later: Spec.State, mine: iset<OpId>)
    requires Touches(st, later, mine) && UniqueIds(later.operations) && forall id | id in mine :: !IsOwn(prefix, id)
    ensures KeepsOff(prefix, st, later)
  {
    forall i | 0 <= i < |later.operations|
      ensures (i < |st.operations| && later.operations[i] == st.operations[i]) || !IsOwn(prefix, later.operations[i].Id())
    {
      if i < |st.operations| {
        assert Advances(st.operations[i], later.operations[i]);
      }
    }
  }

  /** Sessions were started and unknown operations settled, and nothing else. */
  ghost predicate Settles(st: Spec.State, later: Spec.State) {
    exists events: seq<Spec.Event> :: AllSettle(events) && Spec.Run(st, events) == later
  }

  predicate AllSettle(events: seq<Spec.Event>) {
    forall event | event in events :: event.StartSessionEvent? || event.CompleteEvent?
  }

  lemma SettlesNothing(st: Spec.State)
    ensures Settles(st, st)
  {
    assert AllSettle([]) && Spec.Run(st, []) == st;
  }

  lemma SettlesNext(st: Spec.State, now: Spec.State, event: Spec.Event)
    requires Settles(st, now) && (event.StartSessionEvent? || event.CompleteEvent?)
    ensures Settles(st, Spec.Next(now, event))
  {
    var events :| AllSettle(events) && Spec.Run(st, events) == now;
    assert (events + [event])[..|events|] == events;
    assert AllSettle(events + [event]) && Spec.Run(st, events + [event]) == Spec.Next(now, event);
  }

  /** What a run of an episode does to the ledger: it may settle what was unknown, and then
      all it adds or changes is under its own IDs. */
  ghost predicate Works(prefix: string, st: Spec.State, later: Spec.State) {
    exists settled :: Settles(st, settled) && Touches(settled, later, OwnIds(prefix))
  }

  /** A run of one episode keeps every other, batches and receipt included; it adds to the
      other's exchanges at most the outcome of an attempt left unknown. */
  lemma WorkKeepsOthers(prefix: string, other: Episode, st: Spec.State, later: Spec.State, known: Option<Artifacts>,
                        responses: seq<Exchange>) returns (more: seq<Exchange>)
    requires Inv(st) && Inv(later) && Works(prefix, st, later) && Apart(prefix, other.prefix)
    requires Stands(other, st, known, responses)
    ensures Stands(other, later, known, more) && Grew(other, responses, more)
  {
    var settled :| Settles(st, settled) && Touches(settled, later, OwnIds(prefix));
    var events :| AllSettle(events) && Spec.Run(st, events) == settled;
    more := OthersKeepProgress(other, st, known, responses, events);
    forall id | id in OwnIds(prefix)
      ensures !IsOwn(other.prefix, id)
    {
      OwnIdsApart(prefix, other.prefix, id);
    }
    TouchesKeepsOff(other.prefix, settled, later, OwnIds(prefix));
    OffStands(other, settled, later, known, more);
  }

  /** On a ledger nobody has used, every episode can start. */
  lemma FreshStart(project: Project, episode: Episode)
    ensures Inv(Spec.Init(project)) && Stands(episode, Spec.Init(project), None, []) && Called([], Spec.Init(project))
  {
    Reachable(project, []);
  }

  /** Once the responses so far lead to a result, nothing is ever added to them: every
      later run of the episode ends with the same result. */
  lemma FinishedIsFinal(episode: Episode, inputs: Artifacts, st: Spec.State, responses: seq<Exchange>, later: seq<Exchange>)
    requires ResultAfter(episode, responses).Some? && Grew(episode, responses, later) && Traced(episode, inputs, st, later)
    ensures later == responses
  {
    if Awaiting(episode, responses) {
      AwaitingHasNoReply(episode, responses);
    }
    assert later[..|responses|] == responses;
    if |responses| < |later| {
      SettledHasTurn(episode, inputs, st, later, |responses|);
    }
  }

  lemma FinalResult(episode: Episode, st: Spec.State, now: Option<Artifacts>, responses: seq<Exchange>,
                    later: seq<Exchange>, result: Json)
    requires Progress(episode, st, now, later) && Grew(episode, responses, later) && ResultAfter(episode, later) == Some(result)
    ensures Uninterrupted(episode, [], later) == Some(result)
    ensures ResultAfter(episode, responses).Some? ==> ResultAfter(episode, responses) == Some(result)
  {
    ResultIsUninterrupted(episode, later, 0);
    assert later[0..] == later;
    if ResultAfter(episode, responses).Some? && now.Some? {
      FinishedIsFinal(episode, now.value, st, responses, later);
    }
  }
}
