/** The host that runs an episode, crashes, and runs it again. */
module WorkerHost {
  import opened Records
  import opened Names
  import opened Slots
  import Spec = LedgerSpec
  import opened LedgerInvariant
  import opened LedgerBudget
  import opened LedgerSafety
  import opened LedgerStore
  import opened Calls
  import opened Attested
  import opened Evidences
  import RecordOnce
  import opened Batches
  import opened WorkerSpec
  import opened WorkerReplay
  import opened WorkerSteps
  import opened Touching

  /** The model service and the worker's container: one external attempt per call, with
      any outcome, or an exception. What was called and what came back outlive every crash
      of the host. */
  class Boundary {
    /** Whether a call may raise, and a delivery fail. */
    const faulty: bool
    ghost var calls: seq<OpId>
    ghost var log: Log
    ghost var told: Told
    ghost var asked: set<OpId>

    /** Every call was made under a dispatch marker of its own, with the payload that was
        captured for it, and whatever outcome the ledger has of an attempt came back so. */
    ghost predicate Tracks(st: Spec.State)
      reads this
    {
      Called(calls, st) && Attests(log, told, calls, st)
    }

    method Attempt(request: Request, payload: Blob) returns (response: Option<AttemptResult>)
      modifies `calls, `log
      ensures calls == old(calls) + [request.origin.operationId]
      ensures log == old(log)[request.origin.operationId := Sent(request, payload, response)]
      ensures response.None? ==> faulty
    {
      var answer: AttemptResult := *;
      if {
        case faulty => response := None;
        case true => response := Some(answer);
      }
      calls := calls + [request.origin.operationId];
      log := log[request.origin.operationId := Sent(request, payload, response)];
    }

    /** Find out how an attempt with an unknown outcome ended, without making it again. */
    method Ask(request: Request) returns (response: Option<AttemptResult>)
      modifies `told, `asked
      ensures told == old(told) + if response.Some? then {(request.origin.operationId, response.value)} else {}
      ensures asked == old(asked) + {request.origin.operationId}
    {
      response := *;
      asked := asked + {request.origin.operationId};
      if response.Some? {
        told := told + {(request.origin.operationId, response.value)};
      }
    }

    /** What another host settles an operation with is what that host was told. */
    ghost method Hear(event: Spec.Event, st: Spec.State)
      requires Tracks(st)
      modifies `told
      ensures Tracks(Spec.Next(st, event))
      ensures !event.CompleteEvent? ==> told == old(told)
    {
      if event.CompleteEvent? {
        var response := (event.request.origin.operationId, AttemptResult(event.result, event.raw));
        AttestsMore(log, told, told + {response}, calls, st);
        told := told + {response};
      }
      NextTracked(this, st, event);
    }

    /** Put an item's files beside the worker. Delivery is idempotent, so a rerun repeats
        it until it holds. */
    method Deliver(delivery: Delivery) returns (delivered: bool)
      ensures delivered || faulty
    {
      delivered := *;
      delivered := delivered || !faulty;
    }
  }

  /** A run may end without a result of its own accord: its host may die, or what it calls
      may fail it. */
  predicate MayDie(ledger: Ledger, boundary: Boundary) {
    ledger.mortal || boundary.faulty
  }

  lemma TracksStays(boundary: Boundary, st: Spec.State, later: Spec.State)
    requires boundary.Tracks(st) && Extends(st, later) && SettlesNoAttempt(st, later)
    ensures boundary.Tracks(later)
  {
    CalledStays(boundary.calls, st, later);
    AttestsStays(boundary.log, boundary.told, boundary.calls, st, later);
  }

  /** Any transaction keeps track, if what it settles an operation with was told. */
  lemma NextTracked(boundary: Boundary, st: Spec.State, event: Spec.Event)
    requires boundary.Tracks(st)
    requires event.CompleteEvent? ==>
      (event.request.origin.operationId, AttemptResult(event.result, event.raw)) in boundary.told
    ensures boundary.Tracks(Spec.Next(st, event))
  {
    var later := Spec.Next(st, event);
    NextExtends(st, event);
    match event
    case CompleteEvent(session, request, result, raw) =>
      CalledStays(boundary.calls, st, later);
      CompleteAttests(boundary.log, boundary.told, boundary.calls, st, session, request, result, raw);
    case BeginEvent(session, request) =>
      BeginSettlesNone(st, session, request);
      TracksStays(boundary, st, later);
    case ReserveEvent(session, request, reservation, scope) =>
      ReserveSettlesNone(st, session, request, reservation, scope);
      TracksStays(boundary, st, later);
    case _ => TracksStays(boundary, st, later);
  }

  // ---- Progress of an episode ----

  /** How far the episode is: untouched, or opened with these responses recorded. */
  ghost predicate Progress(episode: Episode, st: Spec.State, known: Option<Artifacts>, responses: seq<Exchange>) {
    match known
    case None => Untouched(episode, st) && responses == []
    case Some(inputs) => Opened(episode, inputs, st) && Traced(episode, inputs, st, responses)
  }

  lemma SameTablesProgress(episode: Episode, st: Spec.State, later: Spec.State, known: Option<Artifacts>, responses: seq<Exchange>)
    requires Progress(episode, st, known, responses)
    requires later.project == st.project && later.operations == st.operations && later.observations == st.observations
    ensures Progress(episode, later, known, responses)
  {
    if known.Some? {
      OpenedStays(episode, known.value, st, later);
      TraceStays(episode, known.value, st, later, responses);
    }
  }

  lemma OpenedOnce(episode: Episode, st: Spec.State, a: Artifacts, b: Artifacts)
    requires Opened(episode, a, st) && Opened(episode, b, st)
    ensures a == b
  {
  }

  /** Recording the episode opens it, or finds it open. */
  lemma EpisodeStepProgress(episode: Episode, st: Spec.State, session: string, known: Option<Artifacts>, responses: seq<Exchange>)
    requires Inv(st) && Progress(episode, st, known, responses)
    ensures var step := RecordOnce.Step(st, session, EpisodeOrigin(episode), EpisodeRaw(episode));
      if step.out.Err? then step.st == st
      else
        && EPISODE_FILE in step.out.value.artifacts
        && var inputs := One(Captured(step.out.value, EPISODE_FILE));
        && Progress(episode, step.st, Some(inputs), responses)
        && (known.Some? ==> known.value == inputs)
  {
    var step := RecordOnce.Step(st, session, EpisodeOrigin(episode), EpisodeRaw(episode));
    RecordOnce.StepEffect(st, session, EpisodeOrigin(episode), EpisodeRaw(episode));
    RecordOnce.StepExtends(st, session, EpisodeOrigin(episode), EpisodeRaw(episode));
    if step.out.Ok? {
      var inputs := One(Captured(step.out.value, EPISODE_FILE));
      assert Opened(episode, inputs, step.st);
      RecordIdsDiffer(episode.prefix, Model, 0);
      if known.None? {
        assert Traced(episode, inputs, step.st, responses);
      } else {
        assert AddsFresh(episode, st, step.st);
        OpenedStays(episode, known.value, st, step.st);
        OpenedOnce(episode, step.st, inputs, known.value);
        TraceStays(episode, inputs, st, step.st, responses);
      }
    }
  }

  /** The exchange is what came back to exactly the payload its agent sent, under the
      request its capture records, or what the host was told of the attempt. */
  ghost predicate ExchangeCameBack(episode: Episode, responses: seq<Exchange>, k: nat, log: Log, told: Told)
    requires k < |responses|
  {
    var turn, done := NextTurn(episode, responses[..k]), responses[k].done;
    turn.Some? && var id := TurnId(episode, turn.value);
      || (id in log && log[id].request.origin == done.observation.origin && log[id].payload == Encode(turn.value.payload)
          && log[id].response == Some(AttemptResult(done.result, done.observation.artifacts)))
      || (id, AttemptResult(done.result, done.observation.artifacts)) in told
  }

  ghost predicate AllCameBack(episode: Episode, responses: seq<Exchange>, log: Log, told: Told) {
    forall k | 0 <= k < |responses| :: ExchangeCameBack(episode, responses, k, log, told)
  }

  lemma ExchangesCameBack(episode: Episode, st: Spec.State, known: Option<Artifacts>, responses: seq<Exchange>, boundary: Boundary)
    requires Inv(st) && Progress(episode, st, known, responses) && boundary.Tracks(st)
    ensures AllCameBack(episode, responses, boundary.log, boundary.told)
  {
    forall k | 0 <= k < |responses|
      ensures ExchangeCameBack(episode, responses, k, boundary.log, boundary.told)
    {
      OneCameBack(episode, known.value, st, responses, k, boundary);
    }
  }

  lemma OneCameBack(episode: Episode, inputs: Artifacts, st: Spec.State, responses: seq<Exchange>, k: nat, boundary: Boundary)
    requires Inv(st) && Traced(episode, inputs, st, responses) && boundary.Tracks(st) && k < |responses|
    ensures ExchangeCameBack(episode, responses, k, boundary.log, boundary.told)
  {
    var row, op := SettledAttempt(episode, inputs, st, responses, k);
    var turn := NextTurn(episode, responses[..k]).value;
    AttemptCameBack(st, boundary, turn, op, episode);
    if TurnId(episode, turn) in boundary.log {
      LoggedIsTheTurn(episode, inputs, st, turn, row, op, boundary.log[TurnId(episode, turn)]);
    }
  }

  lemma AttemptCameBack(st: Spec.State, boundary: Boundary, turn: Turn, op: Operation, episode: Episode)
    requires Inv(st) && boundary.Tracks(st) && op in st.operations && op.completion.Some?
    requires op.Id() == TurnId(episode, turn)
    ensures CameBack(boundary.log, boundary.told, TurnId(episode, turn), op.completion.value)
    ensures op.completion.value.observation.origin == op.request.origin
  {
    assert IsAttempt(op.Id()) && OperationOk(st, op);
  }

  /** What was sent under a turn's ID is the turn's request and payload. */
  lemma LoggedIsTheTurn(episode: Episode, inputs: Artifacts, st: Spec.State, turn: Turn, row: nat, op: Operation, sent: Sent)
    requires UniqueIds(st.operations) && op in st.operations && op.Id() == TurnId(episode, turn)
    requires RecordOnce.IsRecord(st, row, InputOrigin(episode, inputs, turn), InputRaw(turn))
    requires WasSent(st, TurnId(episode, turn), sent)
    ensures sent.request == op.request && sent.payload == Encode(turn.payload)
  {
    var other :| other in st.operations && other.request == sent.request;
    assert other.Id() == op.Id();
    var id := TurnId(episode, turn);
    var o :| o in st.observations && o.origin.operationId == Named(id.text + "/request")
             && "request.json" in o.artifacts && o.artifacts["request.json"] == sent.payload;
    var i :| 0 <= i < |st.observations| && st.observations[i] == o;
    assert i == row;
  }

  // ---- What can hinder an attempt ----

  /** The ID of the turn's payload names something else. */
  ghost predicate PayloadIsTaken(episode: Episode, inputs: Artifacts, st: Spec.State, turn: Turn) {
    var row := RecordOnce.FirstRecord(st.observations, InputId(episode.prefix, turn.kind, turn.index));
    row.Some? && !RecordOnce.IsRecord(st, row.value, InputOrigin(episode, inputs, turn), InputRaw(turn))
  }

  /** The attempt cites something the ledger does not hold. */
  ghost predicate TurnCitesMissing(episode: Episode, inputs: Artifacts, st: Spec.State, turn: Turn) {
    || !Spec.OriginMatches(st, InputOrigin(episode, inputs, turn))
    || exists row: nat ::
         && RecordOnce.IsRecord(st, row, InputOrigin(episode, inputs, turn), InputRaw(turn))
         && !Spec.OriginMatches(st, TurnRequest(episode, st.project, inputs, turn, st.observations[row]).origin)
  }

  /** There is no reservation to make, or it names units or a scope there are not. */
  predicate TurnAsksBadly(episode: Episode, st: Spec.State, turn: Turn) {
    var reservation := Reservation(episode, turn, st.project.allowances);
    reservation.None? || !Spec.ScopeKnown(st, episode.scope) || !(reservation.value.Keys <= st.project.allowances.Keys)
  }

  /** The budget falls short of an attempt that has nothing reserved yet. */
  ghost predicate TurnIsShort(episode: Episode, st: Spec.State, turn: Turn) {
    var reservation := Reservation(episode, turn, st.project.allowances);
    reservation.Some? && !Spec.Has(st.operations, TurnId(episode, turn)) && Short(st, episode.scope, reservation.value)
  }

  /** The attempt is reserved, and either its outcome is unknown or it may not be dispatched. */
  ghost predicate TurnIsHeldUp(episode: Episode, st: Spec.State, turn: Turn) {
    exists op | op in st.operations :: op.Id() == TurnId(episode, turn) && op.completion.None?
      && (op.dispatch.Some? || Awaits(st, episode.scope) || Closed(st, episode.scope))
  }

  /** Why an attempt is not made, or its outcome not recorded. */
  ghost predicate TurnHindered(episode: Episode, inputs: Artifacts, st: Spec.State, turn: Turn) {
    || PayloadIsTaken(episode, inputs, st, turn) || TurnCitesMissing(episode, inputs, st, turn)
    || TurnAsksBadly(episode, st, turn) || TurnIsShort(episode, st, turn) || TurnIsHeldUp(episode, st, turn)
  }

  /** The payload of the next turn is captured unless its ID is taken or it cites what is
      not there. */
  lemma InputOrHindered(episode: Episode, inputs: Artifacts, st: Spec.State, responses: seq<Exchange>, session: string, turn: Turn)
    requires Inv(st) && session in st.sessions && Traced(episode, inputs, st, responses)
    ensures var step := RecordOnce.Step(st, session, InputOrigin(episode, inputs, turn), InputRaw(turn));
      step.out.Err? ==> step.st == st && TurnHindered(episode, inputs, st, turn)
  {
    var origin, raw := InputOrigin(episode, inputs, turn), InputRaw(turn);
    RecordOnce.StepEffect(st, session, origin, raw);
    assert IsRecordId(episode.prefix, origin.operationId);
    if Spec.OriginMatches(st, origin) && !PayloadIsTaken(episode, inputs, st, turn) {
      RecordOnce.NoOperation(st, origin.operationId);
      assert REQUEST_FILE in raw && REQUEST_FILE[0] in REQUEST_FILE;
      RecordOnce.RecordsOrFinds(st, session, origin, raw);
    }
  }

  /** Its attempt is reserved, now or before, unless something hinders it. */
  lemma ReservedOrHindered(episode: Episode, inputs: Artifacts, st: Spec.State, responses: seq<Exchange>, session: string,
                           turn: Turn, row: nat, reservation: Amounts)
    requires Inv(st) && session in st.sessions && Traced(episode, inputs, st, responses)
    requires NextTurn(episode, responses) == Some(turn) && Reservation(episode, turn, st.project.allowances) == Some(reservation)
    requires RecordOnce.IsRecord(st, row, InputOrigin(episode, inputs, turn), InputRaw(turn))
    ensures var request := TurnRequest(episode, st.project, inputs, turn, st.observations[row]);
      var step := Spec.Reserve(st, session, request, reservation, episode.scope);
      if step.out.Err? then step.st == st && TurnHindered(episode, inputs, st, turn)
      else step.out.value.request == request && step.out.value.completion.None? && OpenIn(step.st, request, episode.scope)
  {
    var request := TurnRequest(episode, st.project, inputs, turn, st.observations[row]);
    ReserveDecides(st, session, request, reservation, episode.scope);
    var step := Spec.Reserve(st, session, request, reservation, episode.scope);
    if Spec.Has(st.operations, TurnId(episode, turn)) {
      var found := Spec.Find(st.operations, TurnId(episode, turn)).value;
      assert st.operations[found] in st.operations;
      NextIsOpen(episode, inputs, st, responses, st.operations[found]);
      assert IsSlot(episode.prefix, TurnId(episode, turn));
      OpenIsFrontier(episode, inputs, st, responses, st.operations[found]);
      FrontierIsTheRequest(episode, inputs, st, turn, row, st.operations[found]);
    }
    if step.out.Ok? && step.st != st {
      assert step.st.operations[|st.operations|] == step.out.value;
      OriginGrows(st, step.st, request.origin);
      assert KnownRequest(step.st, request, |st.operations|);
    }
  }

  /** The request has an operation in the scope, without an outcome. */
  ghost predicate OpenIn(st: Spec.State, request: Request, scope: string) {
    exists row: nat ::
      KnownRequest(st, request, row) && st.operations[row].completion.None? && st.operations[row].scope == scope
  }

  lemma FrontierIsTheRequest(episode: Episode, inputs: Artifacts, st: Spec.State, turn: Turn, row: nat, op: Operation)
    requires Attempts(episode, inputs, st, turn, op)
    requires RecordOnce.IsRecord(st, row, InputOrigin(episode, inputs, turn), InputRaw(turn))
    ensures op.request == TurnRequest(episode, st.project, inputs, turn, st.observations[row])
  {
    var other: nat :| RecordOnce.IsRecord(st, other, InputOrigin(episode, inputs, turn), InputRaw(turn))
                      && op.request == TurnRequest(episode, st.project, inputs, turn, st.observations[other]);
    OneRecord(st, row, other, InputOrigin(episode, inputs, turn), InputRaw(turn));
  }

  /** A reserved attempt is dispatched unless something holds it up. */
  lemma BegunOrHeldUp(episode: Episode, st: Spec.State, session: string, turn: Turn, request: Request)
    requires Inv(st) && session in st.sessions && OpenIn(st, request, episode.scope)
    requires request.origin.operationId == TurnId(episode, turn)
    ensures var step := Spec.Begin(st, session, request);
      if step.out == Ok(true) then IsSent(step.st, request) else step.st == st && TurnIsHeldUp(episode, st, turn)
    ensures Awaits(st, episode.scope) ==> TurnIsHeldUp(episode, st, turn)
    ensures Spec.ScopeKnown(st, episode.scope)
  {
    var row: nat :|
      KnownRequest(st, request, row) && st.operations[row].completion.None? && st.operations[row].scope == episode.scope;
    BeginAt(st, session, request, row);
    assert st.operations[row] in st.operations && st.operations[row].Id() == TurnId(episode, turn);
    assert OperationOk(st, st.operations[row]);
    if Dispatchable(st, session, request, row) {
      OriginGrows(st, Marked(st, session, row), request.origin);
      assert KnownRequest(Marked(st, session, row), request, row);
    }
  }

  /** An outcome is recorded, unless it lacks output, names or usage. */
  lemma CompletedOrNot(st: Spec.State, session: string, request: Request, response: AttemptResult)
    requires Inv(st) && session in st.sessions && IsSent(st, request)
    ensures var step := Spec.Complete(st, session, request, response.result, response.raw);
      step.out.Err? ==> step.st == st && IsUnrecordable(st, request.origin.operationId, response)
  {
    var row: nat :|
      KnownRequest(st, request, row) && st.operations[row].dispatch.Some? && st.operations[row].completion.None?;
    CompleteDecides(st, session, request, response.result, response.raw, row);
    assert st.operations[row] in st.operations;
  }

  /** What came back cannot be recorded as the outcome of its operation. */
  ghost predicate IsUnrecordable(st: Spec.State, id: OpId, response: AttemptResult) {
    exists op | op in st.operations :: op.Id() == id && !Acceptable(op, response.result, response.raw)
  }

  lemma SentIsHeldUp(episode: Episode, st: Spec.State, turn: Turn, request: Request)
    requires IsSent(st, request) && request.origin.operationId == TurnId(episode, turn)
    ensures TurnIsHeldUp(episode, st, turn)
  {
    var row: nat :|
      KnownRequest(st, request, row) && st.operations[row].dispatch.Some? && st.operations[row].completion.None?;
    assert st.operations[row] in st.operations && st.operations[row].Id() == TurnId(episode, turn);
  }

  /** At most one exchange was added, and its batch, if it asks for one, is still to come. */
  predicate Answered(responses: seq<Exchange>, later: seq<Exchange>) {
    later == responses
    || (|later| == |responses| + 1 && responses <= later && later[|responses|].shown.None?)
  }

  /** An outcome, a refusal, or the end of the run: the host died, or the attempt raised. */
  datatype Call = Returned(done: Completion) | Refused(error: Error) | Crashed

  /** One host writer, stable attempt slots, and exact raw completions. */
  class Journal {
    const ledger: Ledger
    const boundary: Boundary
    const episode: Episode
    const session: string
    const inputs: Artifacts

    constructor (ledger: Ledger, boundary: Boundary, episode: Episode, session: string, inputs: Artifacts)
      ensures this.ledger == ledger && this.boundary == boundary && this.episode == episode
      ensures this.session == session && this.inputs == inputs
    {
      this.ledger, this.boundary, this.episode, this.session, this.inputs := ledger, boundary, episode, session, inputs;
    }

    ghost predicate Live(responses: seq<Exchange>)
      reads ledger, boundary
    {
      && ledger.Valid() && session in ledger.sessions
      && Opened(episode, inputs, ledger.View()) && Traced(episode, inputs, ledger.View(), responses)
      && boundary.Tracks(ledger.View())
    }

    /** Record something of the episode that keeps its trajectory. */
    method Add(origin: Origin, raw: Artifacts, ghost step: Spec.Step<Observation>, ghost responses: seq<Exchange>)
      returns (out: Outcomes<Observation>)
      requires Live(responses) && step == RecordOnce.Step(ledger.View(), session, origin, raw)
      requires Opened(episode, inputs, step.st) && Traced(episode, inputs, step.st, responses)
      requires Extends(ledger.View(), step.st) && session in step.st.sessions && step.st.operations == ledger.operations
      modifies ledger
      ensures Live(responses) && ledger.View() == step.st && out == step.out
    {
      ghost var st := ledger.View();
      RecordOnce.StepKeeps(st, session, origin, raw);
      out := RecordOnce.Record(ledger, session, origin, raw);
      TracksStays(boundary, st, ledger.View());
    }

    /** Record the payload of a turn; an answered turn's payload is already there. */
    method RecordInput(turn: Turn, ghost responses: seq<Exchange>, ghost k: nat) returns (out: Outcomes<Observation>)
      requires Live(responses) && k <= |responses| && NextTurn(episode, responses[..k]) == Some(turn)
      modifies ledger
      ensures Live(responses) && Touches(old(ledger.View()), ledger.View(), AttemptIds(episode.prefix))
      ensures k < |responses| ==> out.Ok? && ledger.View() == old(ledger.View())
      ensures out.Err? ==> TurnHindered(episode, inputs, ledger.View(), turn)
      ensures out.Ok? ==>
        && REQUEST_FILE in out.value.artifacts
        && 0 < out.value.sequence <= |ledger.observations| && ledger.observations[out.value.sequence - 1] == out.value
        && RecordOnce.IsRecord(ledger.View(), out.value.sequence - 1, InputOrigin(episode, inputs, turn), InputRaw(turn))
    {
      ghost var step := InputStepLive(episode, inputs, ledger.View(), responses, session, turn, k);
      out := Add(InputOrigin(episode, inputs, turn), InputRaw(turn), step, responses);
    }

    /** Reserve the attempt of a turn; an answered turn's operation comes back as it is. */
    method ReserveTurn(turn: Turn, capture: Observation, ghost responses: seq<Exchange>, ghost k: nat)
      returns (out: Outcomes<Operation>)
      requires Live(responses) && k <= |responses| && NextTurn(episode, responses[..k]) == Some(turn)
      requires REQUEST_FILE in capture.artifacts
      requires 0 < capture.sequence <= |ledger.observations| && ledger.observations[capture.sequence - 1] == capture
      requires RecordOnce.IsRecord(ledger.View(), capture.sequence - 1, InputOrigin(episode, inputs, turn), InputRaw(turn))
      modifies ledger
      ensures Live(responses) && Touches(old(ledger.View()), ledger.View(), AttemptIds(episode.prefix))
      ensures ledger.observations == old(ledger.observations)
      ensures k < |responses| ==>
        out.Ok? && out.value.completion == Some(responses[k].done) && ledger.View() == old(ledger.View())
      ensures out.Ok? && k == |responses| ==>
        && out.value.completion.None? && out.value.Id() == TurnId(episode, turn)
        && OpenIn(ledger.View(), out.value.request, episode.scope)
      ensures out.Err? ==> TurnHindered(episode, inputs, ledger.View(), turn)
    {
      ghost var st := ledger.View();
      var reservation := Reservation(episode, turn, ledger.project.allowances);
      ghost var step := TurnReserved(episode, inputs, st, responses, session, turn, k, capture);
      if reservation.None? {
        return Err(InvalidInput);
      }
      var request := TurnRequest(episode, ledger.project, inputs, turn, capture);
      out := ledger.Reserve(session, request, reservation.value, episode.scope);
      TracksStays(boundary, st, ledger.View());
    }

    /** Commit the dispatch marker; refused while anything unknown blocks the scope. */
    method Grant(ghost turn: Turn, request: Request, ghost responses: seq<Exchange>) returns (out: Outcomes<()>)
      requires Live(responses) && request.origin.operationId == TurnId(episode, turn)
      requires OpenIn(ledger.View(), request, episode.scope)
      modifies ledger
      ensures Live(responses) && Touches(old(ledger.View()), ledger.View(), AttemptIds(episode.prefix))
      ensures ledger.observations == old(ledger.observations)
      ensures out.Ok? ==> Called(boundary.calls + [request.origin.operationId], ledger.View())
      ensures out.Ok? ==> IsSent(ledger.View(), request)
      ensures out.Err? ==> TurnIsHeldUp(episode, ledger.View(), turn)
      ensures Awaits(old(ledger.View()), episode.scope) ==> out.Err? && ledger.View() == old(ledger.View())
    {
      ghost var st := ledger.View();
      BegunOrHeldUp(episode, st, session, turn, request);
      var blocking := ledger.Unresolved(episode.scope);
      if blocking.Err? || blocking.value != [] {
        assert blocking.value[0] in blocking.value;
        TouchesNothing(st, AttemptIds(episode.prefix));
        return Err(UnknownOutcome);
      }
      assert forall op | op in st.operations :: op !in blocking.value;
      out := Mark(turn, request, responses);
    }

    /** Commit the marker where nothing blocks. */
    method Mark(ghost turn: Turn, request: Request, ghost responses: seq<Exchange>) returns (out: Outcomes<()>)
      requires Live(responses) && request.origin.operationId == TurnId(episode, turn)
      requires OpenIn(ledger.View(), request, episode.scope)
      modifies ledger
      ensures Live(responses) && Touches(old(ledger.View()), ledger.View(), AttemptIds(episode.prefix))
      ensures ledger.observations == old(ledger.observations)
      ensures out.Ok? ==> Called(boundary.calls + [request.origin.operationId], ledger.View())
      ensures out.Ok? ==> IsSent(ledger.View(), request)
      ensures out.Err? ==> TurnIsHeldUp(episode, ledger.View(), turn)
    {
      ghost var st := ledger.View();
      BegunOrHeldUp(episode, st, session, turn, request);
      GrantStep(episode, inputs, st, responses, session, turn, request);
      var begun := ledger.Begin(session, request);
      TracksStays(boundary, st, ledger.View());
      if begun == Ok(true) {
        GrantIsFresh(boundary.calls, st, session, request);
        out := Ok(());
      } else {
        out := Err(if begun.Err? then begun.error else UnknownOutcome);
      }
    }

    /** Capture the outcome of the turn just attempted. */
    method Settle(turn: Turn, request: Request, response: AttemptResult, ghost responses: seq<Exchange>)
      returns (out: Outcomes<Completion>)
      requires Live(responses) && NextTurn(episode, responses) == Some(turn) && request.origin.operationId == TurnId(episode, turn)
      requires TurnId(episode, turn) in boundary.log && boundary.log[TurnId(episode, turn)].response == Some(response)
      modifies ledger
      ensures out.Ok? ==> AnswerOf(out.value) == response
      ensures ledger.View() == Spec.Complete(old(ledger.View()), session, request, response.result, response.raw).st
      ensures out == Spec.Complete(old(ledger.View()), session, request, response.result, response.raw).out
      ensures Live(if out.Ok? then responses + [Unshown(out.value)] else responses)
      ensures Touches(old(ledger.View()), ledger.View(), AttemptIds(episode.prefix))
    {
      ghost var st := ledger.View();
      ghost var step := TurnSettled(episode, inputs, st, responses, session, turn, request, response, boundary);
      out := ledger.Complete(session, request, response.result, response.raw);
    }

    /** Make the attempt of the next turn: at most one call, under a marker of its own. An
        exception or a crash leaves its outcome unknown and its reservation intact. */
    method Dispatch(turn: Turn, request: Request, ghost responses: seq<Exchange>) returns (out: Call, ghost later: seq<Exchange>)
      requires Live(responses) && NextTurn(episode, responses) == Some(turn) && request.origin.operationId == TurnId(episode, turn)
      requires InputIsThere(episode, inputs, ledger.View(), turn) && OpenIn(ledger.View(), request, episode.scope)
      modifies ledger, boundary`calls, boundary`log
      ensures Live(later) && Touches(old(ledger.View()), ledger.View(), AttemptIds(episode.prefix))
      ensures out.Returned? ==> later == responses + [Unshown(out.done)]
      ensures out.Returned? ==>
        && TurnId(episode, turn) in boundary.log
        && boundary.log[TurnId(episode, turn)] == Sent(request, Encode(turn.payload), Some(AnswerOf(out.done)))
      ensures out.Refused? ==> TurnHindered(episode, inputs, ledger.View(), turn) && later == responses
      ensures out.Crashed? ==> MayDie(ledger, boundary)
      ensures out.Refused? && boundary.calls != old(boundary.calls) ==>
        && TurnId(episode, turn) in boundary.log && boundary.log[TurnId(episode, turn)].response.Some?
        && IsUnrecordable(ledger.View(), TurnId(episode, turn), boundary.log[TurnId(episode, turn)].response.value)
      ensures Answered(responses, later)
    {
      later := responses;
      ghost var st := ledger.View();
      TurnTouches(episode, turn);
      var granted := Grant(turn, request, responses);
      if granted.Err? {
        return Refused(granted.error), later;
      }
      if {
        case ledger.mortal => return Crashed, later;
        case true =>
      }
      ghost var sent := ledger.View();
      InputIsStillThere(episode, inputs, st, sent, turn);
      var response := Send(turn, request, sent);
      if response.None? {
        return Crashed, later;
      }
      out, later := Conclude(turn, request, response.value, responses);
      TouchesTransitive(st, sent, ledger.View(), AttemptIds(episode.prefix));
    }

    /** One call, under a dispatch marker of its own. */
    method Send(turn: Turn, request: Request, ghost st: Spec.State) returns (response: Option<AttemptResult>)
      requires InputIsThere(episode, inputs, st, turn) && request.origin.operationId == TurnId(episode, turn)
      requires IsSent(st, request) && Called(boundary.calls + [TurnId(episode, turn)], st)
      requires Attests(boundary.log, boundary.told, boundary.calls, st)
      modifies boundary`calls, boundary`log
      ensures boundary.Tracks(st)
      ensures TurnId(episode, turn) in boundary.log
      ensures boundary.log[TurnId(episode, turn)] == Sent(request, Encode(turn.payload), response)
      ensures response.None? ==> boundary.faulty
    {
      ghost var calls, log := boundary.calls, boundary.log;
      response := boundary.Attempt(request, Encode(turn.payload));
      TurnWasSent(episode, inputs, st, turn, request, response);
      AttemptAttests(log, boundary.told, calls, st, TurnId(episode, turn), Sent(request, Encode(turn.payload), response));
    }

    /** Record what came back, unless it cannot be, or the host dies. */
    method Conclude(turn: Turn, request: Request, response: AttemptResult, ghost responses: seq<Exchange>)
      returns (out: Call, ghost later: seq<Exchange>)
      requires Live(responses) && NextTurn(episode, responses) == Some(turn) && request.origin.operationId == TurnId(episode, turn)
      requires TurnId(episode, turn) in boundary.log && boundary.log[TurnId(episode, turn)].response == Some(response)
      requires IsSent(ledger.View(), request)
      modifies ledger
      ensures Live(later) && Touches(old(ledger.View()), ledger.View(), AttemptIds(episode.prefix))
      ensures out.Returned? ==> later == responses + [Unshown(out.done)] && AnswerOf(out.done) == response
      ensures out.Refused? ==>
        && IsUnrecordable(ledger.View(), TurnId(episode, turn), response) && TurnIsHeldUp(episode, ledger.View(), turn)
        && later == responses
      ensures out.Crashed? ==> ledger.mortal
      ensures Answered(responses, later)
    {
      CompletedOrNot(ledger.View(), session, request, response);
      SentIsHeldUp(episode, ledger.View(), turn, request);
      var settled := Settle(turn, request, response, responses);
      if settled.Err? {
        return Refused(settled.error), responses;
      }
      later := responses + [Unshown(settled.value)];
      if {
        case ledger.mortal => return Crashed, later;
        case true =>
      }
      out := Returned(settled.value);
    }

    /** Everything of an attempt that comes before its dispatch. */
    method Prepare(turn: Turn, ghost responses: seq<Exchange>, ghost k: nat) returns (op: Option<Operation>, stop: Call)
      requires Live(responses) && k <= |responses| && NextTurn(episode, responses[..k]) == Some(turn)
      modifies ledger
      ensures Live(responses) && Touches(old(ledger.View()), ledger.View(), AttemptIds(episode.prefix))
      ensures k < |responses| ==> ledger.View() == old(ledger.View()) && (op.Some? || stop == Crashed)
      ensures op.None? ==> !stop.Returned? && (stop.Crashed? ==> ledger.mortal)
      ensures op.Some? ==> op.value.completion == if k < |responses| then Some(responses[k].done) else None
      ensures op.Some? && k == |responses| ==>
        && op.value.Id() == TurnId(episode, turn) && InputIsThere(episode, inputs, ledger.View(), turn)
        && OpenIn(ledger.View(), op.value.request, episode.scope)
      ensures stop.Refused? ==> TurnHindered(episode, inputs, ledger.View(), turn)
    {
      ghost var st := ledger.View();
      var capture := RecordInput(turn, responses, k);
      if capture.Err? {
        return None, Refused(capture.error);
      }
      if {
        case ledger.mortal => return None, Crashed;
        case true =>
      }
      ghost var recorded := ledger.View();
      assert InputIsThere(episode, inputs, recorded, turn);
      var reserved := ReserveTurn(turn, capture.value, responses, k);
      InputIsStillThere(episode, inputs, recorded, ledger.View(), turn);
      TouchesTransitive(st, recorded, ledger.View(), AttemptIds(episode.prefix));
      if reserved.Err? {
        return None, Refused(reserved.error);
      }
      op, stop := Some(reserved.value), Crashed;
    }

    /** One attempt, new or answered before. The host may die between any two steps. */
    method Attempt(turn: Turn, ghost responses: seq<Exchange>, ghost k: nat) returns (out: Call, ghost later: seq<Exchange>)
      requires Live(responses) && k <= |responses| && NextTurn(episode, responses[..k]) == Some(turn)
      modifies ledger, boundary`calls, boundary`log
      ensures Live(later) && Touches(old(ledger.View()), ledger.View(), AttemptIds(episode.prefix))
      ensures Answered(responses, later) && (k < |responses| ==> later == responses)
      ensures out.Returned? ==> k < |later| && out.done == later[k].done
      ensures k < |responses| ==> out == Crashed || out == Returned(responses[k].done)
      ensures k < |responses| ==> ledger.View() == old(ledger.View()) && boundary.calls == old(boundary.calls)
      ensures k == |responses| && out.Returned? ==>
        && TurnId(episode, turn) in boundary.log && boundary.log[TurnId(episode, turn)].payload == Encode(turn.payload)
        && boundary.log[TurnId(episode, turn)].response == Some(AnswerOf(out.done))
      ensures out.Refused? ==> later == responses && TurnHindered(episode, inputs, ledger.View(), turn)
      ensures out.Crashed? ==> MayDie(ledger, boundary)
    {
      later := responses;
      ghost var st := ledger.View();
      var op, stop := Prepare(turn, responses, k);
      if op.None? {
        return stop, later;
      }
      if {
        case ledger.mortal => return Crashed, later;
        case true =>
      }
      if op.value.completion.Some? {
        return Returned(op.value.completion.value), later;
      }
      assert responses[..k] == responses;
      ghost var prepared := ledger.View();
      out, later := Dispatch(turn, op.value.request, responses);
      TouchesTransitive(st, prepared, ledger.View(), AttemptIds(episode.prefix));
    }

    /** The evidence of every attempt; refused while one is unfinished. */
    method CompletionInputs() returns (out: Outcomes<Artifacts>)
      requires ledger.Valid() && Opened(episode, inputs, ledger.View())
      ensures out.Ok? <==> AttemptsDone(episode.prefix, ledger.operations)
      ensures out.Ok? ==> Evidences.Cites(out.value, EpisodeEvidence(episode, inputs, ledger.operations))
    {
      var collected := inputs;
      for i := 0 to |ledger.operations|
        invariant AttemptsDone(episode.prefix, ledger.operations[..i])
        invariant Evidences.Cites(collected, EpisodeEvidence(episode, inputs, ledger.operations[..i]))
      {
        assert ledger.operations[..i + 1][..i] == ledger.operations[..i];
        var op := ledger.operations[i];
        if Under(episode.prefix, op.Id()) {
          OwnLookup(ledger.View(), op);
          var looked := ledger.LookupRow(op.request);
          if looked.Err? || op.completion.None? {
            return Err(UnknownOutcome);
          }
          EvidenceIsCaptured(episode, inputs, ledger.View(), i + 1);
          CapturesAreConsistent(ledger.View(), EpisodeEvidence(episode, inputs, ledger.operations[..i + 1]));
          collected := AddCapture(collected, EpisodeEvidence(episode, inputs, ledger.operations[..i]), op.completion.value.observation);
        }
      }
      assert ledger.operations[..|ledger.operations|] == ledger.operations;
      out := Ok(collected);
    }

    /** The receipt of a finished episode: its result, exactly while every attempt is done
        and its evidence is what the receipt cites. */
    method Receipt(ghost responses: seq<Exchange>) returns (out: Outcomes<Option<Json>>)
      requires Live(responses)
      ensures out.Ok? && out.value.Some? ==> out.value == ResultAfter(episode, responses)
      ensures out == Ok(None) <==> RecordOnce.FirstRecord(ledger.observations, ReceiptId(episode.prefix)).None?
      ensures out.Ok? && out.value.Some? <==> ReceiptReads(episode, inputs, ledger.View())
    {
      var row := RecordOnce.FirstRecord(ledger.observations, ReceiptId(episode.prefix));
      if row.None? {
        return Ok(None);
      }
      var receipt := ledger.observations[row.value];
      assert receipt in ledger.observations;
      var collected := CompletionInputs();
      if collected.Err? || collected.value != receipt.origin.inputs {
        if collected.Ok? && ReceiptReads(episode, inputs, ledger.View()) {
          InputsAreUnique(EpisodeEvidence(episode, inputs, ledger.operations), collected.value);
          InputsAreUnique(EpisodeEvidence(episode, inputs, ledger.operations), receipt.origin.inputs);
        }
        return Err(UnknownOutcome);
      }
      ReceiptIsFound(episode, inputs, ledger.View(), responses, row.value);
      var looked := ledger.LookupRow(Request(receipt.origin, ledger.project));
      if looked.Err? {
        return Err(UnknownOutcome);
      }
      out := Ok(Some(receipt.artifacts["result.json"].value));
    }

    /** Record the result the agent ended with, over the evidence of every attempt. */
    method Close(history: seq<Reply>, result: Json, ghost responses: seq<Exchange>) returns (out: Outcomes<Observation>)
      requires Live(responses) && ResultAfter(episode, responses) == Some(result)
      modifies ledger
      ensures Live(responses) && Touches(old(ledger.View()), ledger.View(), JournalIds(episode.prefix))
      ensures ledger.operations == old(ledger.operations)
      ensures ReceiptHolds(episode, inputs, old(ledger.View())) ==> ReceiptHolds(episode, inputs, ledger.View())
      ensures out.Ok? ==> RecordOnce.FirstRecord(ledger.observations, ReceiptId(episode.prefix)).Some?
      ensures out.Err? ==> ledger.View() == old(ledger.View())
      ensures CanClose(episode, old(ledger.View())) ==> out.Ok?
    {
      ghost var st := ledger.View();
      var collected := CompletionInputs();
      if collected.Err? {
        return Err(collected.error);
      }
      var origin := ReceiptOrigin(episode, collected.value);
      var raw := ReceiptRaw(episode, history, result);
      ghost var step := ReceiptStepLive(episode, inputs, st, responses, session, history, collected.value, result);
      out := Add(origin, raw, step, responses);
    }
  }

  /** Recording the payload of an answered turn changes nothing. */
  lemma AnsweredInputAgain(episode: Episode, inputs: Artifacts, st: Spec.State, responses: seq<Exchange>, session: string,
                           turn: Turn, k: nat)
    requires Inv(st) && Traced(episode, inputs, st, responses)
    requires k < |responses| && NextTurn(episode, responses[..k]) == Some(turn)
    ensures var step := RecordOnce.Step(st, session, InputOrigin(episode, inputs, turn), InputRaw(turn));
      step.st == st && step.out.Ok?
  {
    var row, op := SettledAttempt(episode, inputs, st, responses, k);
    InputRecordedAgain(episode, inputs, st, session, turn, row);
  }

  lemma InputStepLive(episode: Episode, inputs: Artifacts, st: Spec.State, responses: seq<Exchange>, session: string, turn: Turn,
                      k: nat)
    returns (step: Spec.Step<Observation>)
    requires Inv(st) && session in st.sessions && Opened(episode, inputs, st) && Traced(episode, inputs, st, responses)
    requires k <= |responses| && NextTurn(episode, responses[..k]) == Some(turn)
    ensures step == RecordOnce.Step(st, session, InputOrigin(episode, inputs, turn), InputRaw(turn))
    ensures Opened(episode, inputs, step.st) && Traced(episode, inputs, step.st, responses)
    ensures Touches(st, step.st, AttemptIds(episode.prefix)) && step.st.sessions == st.sessions
    ensures step.st.operations == st.operations
    ensures k < |responses| ==> step.st == st && step.out.Ok?
    ensures step.out.Err? ==> TurnHindered(episode, inputs, step.st, turn)
    ensures step.out.Ok? ==>
      && 0 < step.out.value.sequence <= |step.st.observations|
      && step.st.observations[step.out.value.sequence - 1] == step.out.value
      && RecordOnce.IsRecord(step.st, step.out.value.sequence - 1, InputOrigin(episode, inputs, turn), InputRaw(turn))
  {
    step := RecordOnce.Step(st, session, InputOrigin(episode, inputs, turn), InputRaw(turn));
    if k < |responses| {
      AnsweredInputAgain(episode, inputs, st, responses, session, turn, k);
    }
    InputOrHindered(episode, inputs, st, responses, session, turn);
    InputStepKeeps(episode, inputs, st, responses, session, turn);
    InputTouches(episode, inputs, st, session, turn);
    InputIsRecorded(episode, inputs, st, session, turn);
  }

  lemma InputStepKeeps(episode: Episode, inputs: Artifacts, st: Spec.State, responses: seq<Exchange>, session: string, turn: Turn)
    requires Opened(episode, inputs, st) && Traced(episode, inputs, st, responses)
    ensures var later := RecordOnce.Step(st, session, InputOrigin(episode, inputs, turn), InputRaw(turn)).st;
      Opened(episode, inputs, later) && Traced(episode, inputs, later, responses)
  {
    InputStepTraced(episode, inputs, st, responses, session, turn);
    OpenedStays(episode, inputs, st, RecordOnce.Step(st, session, InputOrigin(episode, inputs, turn), InputRaw(turn)).st);
  }

  lemma InputIsRecorded(episode: Episode, inputs: Artifacts, st: Spec.State, session: string, turn: Turn)
    requires Inv(st)
    ensures var step := RecordOnce.Step(st, session, InputOrigin(episode, inputs, turn), InputRaw(turn));
      step.out.Ok? ==>
        && 0 < step.out.value.sequence <= |step.st.observations|
        && step.st.observations[step.out.value.sequence - 1] == step.out.value
        && RecordOnce.IsRecord(step.st, step.out.value.sequence - 1, InputOrigin(episode, inputs, turn), InputRaw(turn))
  {
    RecordOnce.StepEffect(st, session, InputOrigin(episode, inputs, turn), InputRaw(turn));
  }

  lemma InputTouches(episode: Episode, inputs: Artifacts, st: Spec.State, session: string, turn: Turn)
    ensures var step := RecordOnce.Step(st, session, InputOrigin(episode, inputs, turn), InputRaw(turn));
      && Touches(st, step.st, AttemptIds(episode.prefix)) && step.st.sessions == st.sessions
      && step.st.operations == st.operations
  {
    assert IsInput(episode.prefix, InputId(episode.prefix, turn.kind, turn.index));
    StepTouches(st, session, InputOrigin(episode, inputs, turn), InputRaw(turn), AttemptIds(episode.prefix));
  }

  /** The payload of the turn is captured. */
  ghost predicate InputIsThere(episode: Episode, inputs: Artifacts, st: Spec.State, turn: Turn) {
    exists row: nat :: RecordOnce.IsRecord(st, row, InputOrigin(episode, inputs, turn), InputRaw(turn))
  }

  lemma InputIsStillThere(episode: Episode, inputs: Artifacts, st: Spec.State, later: Spec.State, turn: Turn)
    requires InputIsThere(episode, inputs, st, turn) && later.observations == st.observations
    ensures InputIsThere(episode, inputs, later, turn)
  {
    var row: nat :| RecordOnce.IsRecord(st, row, InputOrigin(episode, inputs, turn), InputRaw(turn));
    assert RecordOnce.IsRecord(later, row, InputOrigin(episode, inputs, turn), InputRaw(turn));
  }

  /** Committing the dispatch marker of a turn, or not, keeps the trajectory. */
  lemma GrantStep(episode: Episode, inputs: Artifacts, st: Spec.State, responses: seq<Exchange>, session: string, turn: Turn,
                  request: Request)
    requires Inv(st) && Opened(episode, inputs, st) && Traced(episode, inputs, st, responses)
    requires request.origin.operationId == TurnId(episode, turn)
    ensures var later := Spec.Begin(st, session, request).st;
      && Opened(episode, inputs, later) && Traced(episode, inputs, later, responses)
      && Touches(st, later, AttemptIds(episode.prefix)) && SettlesNoAttempt(st, later)
      && later.observations == st.observations && later.sessions == st.sessions
  {
    TurnTouches(episode, turn);
    BeginStepTraced(episode, inputs, st, responses, session, request);
    BeginGrows(st, session, request);
    BeginTouches(st, session, request, AttemptIds(episode.prefix));
    BeginSettlesNone(st, session, request);
    SameCaptures(episode, inputs, st, Spec.Begin(st, session, request).st);
  }

  /** Settling the next turn with what came back keeps track, and adds its outcome. */
  lemma TurnSettled(episode: Episode, inputs: Artifacts, st: Spec.State, responses: seq<Exchange>, session: string, turn: Turn,
                    request: Request, response: AttemptResult, boundary: Boundary) returns (step: Spec.Step<Completion>)
    requires Inv(st) && Opened(episode, inputs, st) && Traced(episode, inputs, st, responses) && boundary.Tracks(st)
    requires NextTurn(episode, responses) == Some(turn) && request.origin.operationId == TurnId(episode, turn)
    requires TurnId(episode, turn) in boundary.log && boundary.log[TurnId(episode, turn)].response == Some(response)
    ensures step == Spec.Complete(st, session, request, response.result, response.raw)
    ensures Opened(episode, inputs, step.st) && Touches(st, step.st, AttemptIds(episode.prefix))
    ensures boundary.Tracks(step.st) && step.st.sessions == st.sessions
    ensures Traced(episode, inputs, step.st, if step.out.Ok? then responses + [Unshown(step.out.value)] else responses)
  {
    step := Spec.Complete(st, session, request, response.result, response.raw);
    CompleteTurn(episode, inputs, st, responses, session, request, response.result, response.raw);
    CompleteGrows(st, session, request, response.result, response.raw);
    TurnTouches(episode, turn);
    CompleteTouches(st, session, request, response.result, response.raw, AttemptIds(episode.prefix));
    CalledStays(boundary.calls, st, step.st);
    CompleteAttests(boundary.log, boundary.told, boundary.calls, st, session, request, response.result, response.raw);
  }

  lemma TurnWasSent(episode: Episode, inputs: Artifacts, st: Spec.State, turn: Turn, request: Request,
                    response: Option<AttemptResult>)
    requires InputIsThere(episode, inputs, st, turn)
    requires request.origin.operationId == TurnId(episode, turn) && IsSent(st, request)
    ensures WasSent(st, TurnId(episode, turn), Sent(request, Encode(turn.payload), response))
  {
    var row: nat :| RecordOnce.IsRecord(st, row, InputOrigin(episode, inputs, turn), InputRaw(turn));
    assert st.observations[row] in st.observations;
    var k: nat :| KnownRequest(st, request, k);
    assert st.operations[k] in st.operations;
  }

  lemma TurnTouches(episode: Episode, turn: Turn)
    ensures TurnId(episode, turn) in AttemptIds(episode.prefix)
  {
    assert IsSlot(episode.prefix, TurnId(episode, turn));
  }

  function ReceiptOrigin(episode: Episode, inputs: Artifacts): Origin {
    Origin(ReceiptId(episode.prefix), "episode-finished", WORKER, "1", inputs)
  }

  function ReceiptRaw(episode: Episode, history: seq<Reply>, result: Json): Artifacts {
    map["result.json" := Encode(result), "trajectory.json" := Encode(episode.trajectory(history))]
  }

  /** Recording the receipt over this evidence. */
  lemma ReceiptStepLive(episode: Episode, inputs: Artifacts, st: Spec.State, responses: seq<Exchange>, session: string,
                        history: seq<Reply>, collected: Artifacts, result: Json)
    returns (step: Spec.Step<Observation>)
    requires Inv(st) && session in st.sessions && Opened(episode, inputs, st) && Traced(episode, inputs, st, responses)
    requires ResultAfter(episode, responses) == Some(result)
    requires Evidences.Cites(collected, EpisodeEvidence(episode, inputs, st.operations))
    ensures step == RecordOnce.Step(st, session, ReceiptOrigin(episode, collected), ReceiptRaw(episode, history, result))
    ensures Opened(episode, inputs, step.st) && Traced(episode, inputs, step.st, responses)
    ensures Touches(st, step.st, JournalIds(episode.prefix)) && step.st.sessions == st.sessions
    ensures step.st.operations == st.operations
    ensures ReceiptHolds(episode, inputs, st) ==> ReceiptHolds(episode, inputs, step.st)
    ensures step.out.Ok? ==> RecordOnce.FirstRecord(step.st.observations, ReceiptId(episode.prefix)).Some?
    ensures step.out.Err? ==> step.st == st
    ensures CanRecord(episode, st) ==> step.out.Ok?
  {
    var origin, raw := ReceiptOrigin(episode, collected), ReceiptRaw(episode, history, result);
    step := RecordOnce.Step(st, session, origin, raw);
    ReceiptStepTraced(episode, inputs, st, responses, session, origin, raw, result);
    assert IsRecordId(episode.prefix, ReceiptId(episode.prefix));
    StepTouches(st, session, origin, raw, JournalIds(episode.prefix));
    RecordOnce.StepExtends(st, session, origin, raw);
    ReceiptStepHolds(episode, inputs, st, session, origin, raw);
    if CanRecord(episode, st) {
      ReceiptCanBeRecorded(episode, inputs, st, session, history, collected, result);
    }
    ReceiptIsThere(st, session, origin, raw);
  }

  lemma ReceiptStepHolds(episode: Episode, inputs: Artifacts, st: Spec.State, session: string, origin: Origin, raw: Artifacts)
    requires Inv(st) && Evidences.Cites(origin.inputs, EpisodeEvidence(episode, inputs, st.operations))
    ensures ReceiptHolds(episode, inputs, st) ==> ReceiptHolds(episode, inputs, RecordOnce.Step(st, session, origin, raw).st)
    ensures RecordOnce.Step(st, session, origin, raw).st.sessions == st.sessions
  {
    RecordOnce.StepEffect(st, session, origin, raw);
    RecordOnce.StepExtends(st, session, origin, raw);
  }

  lemma ReceiptCanBeRecorded(episode: Episode, inputs: Artifacts, st: Spec.State, session: string, history: seq<Reply>,
                             collected: Artifacts, result: Json)
    requires Inv(st) && session in st.sessions && Opened(episode, inputs, st) && CanRecord(episode, st)
    requires Evidences.Cites(collected, EpisodeEvidence(episode, inputs, st.operations))
    requires !Spec.Has(st.operations, ReceiptId(episode.prefix))
    ensures RecordOnce.Step(st, session, ReceiptOrigin(episode, collected), ReceiptRaw(episode, history, result)).out.Ok?
  {
    EvidenceResolves(episode, inputs, st, ReceiptOrigin(episode, collected));
    ReceiptNames(episode, history, result);
    ReceiptIsRecorded(st, session, ReceiptOrigin(episode, collected), ReceiptRaw(episode, history, result));
  }

  lemma ReceiptIsThere(st: Spec.State, session: string, origin: Origin, raw: Artifacts)
    requires Inv(st)
    ensures var step := RecordOnce.Step(st, session, origin, raw);
      && (step.out.Ok? ==> RecordOnce.FirstRecord(step.st.observations, origin.operationId).Some?)
      && (step.out.Err? ==> step.st == st)
  {
    var step := RecordOnce.Step(st, session, origin, raw);
    RecordOnce.StepEffect(st, session, origin, raw);
    if step.out.Ok? {
      assert step.st.observations[step.out.value.sequence - 1].origin == origin;
      assert step.st.observations[step.out.value.sequence - 1] in step.st.observations;
    }
  }

  lemma ReceiptNames(episode: Episode, history: seq<Reply>, result: Json)
    ensures var raw := ReceiptRaw(episode, history, result); raw != map[] && NamesOk(raw)
  {
    assert 'r' in "result.json" && 't' in "trajectory.json";
    assert "result.json" in ReceiptRaw(episode, history, result);
  }

  lemma ReceiptIsRecorded(st: Spec.State, session: string, origin: Origin, raw: Artifacts)
    requires Spec.OriginMatches(st, origin) && session in st.sessions && raw != map[] && NamesOk(raw)
    requires RecordOnce.FirstRecord(st.observations, origin.operationId).None?
    requires !Spec.Has(st.operations, origin.operationId)
    ensures RecordOnce.Step(st, session, origin, raw).out.Ok?
  {
  }

  lemma EvidenceResolves(episode: Episode, inputs: Artifacts, st: Spec.State, origin: Origin)
    requires Inv(st) && Opened(episode, inputs, st) && PlainSnapshots(st.project)
    requires Evidences.Cites(origin.inputs, EpisodeEvidence(episode, inputs, st.operations))
    ensures Spec.OriginMatches(st, origin)
  {
    EvidenceIsCaptured(episode, inputs, st, |st.operations|);
    assert st.operations[..|st.operations|] == st.operations;
    forall name | name in origin.inputs
      ensures Spec.Resolve(st, name) == Some(origin.inputs[name])
    {
      var e := Evidence(name, origin.inputs[name]);
      var i: nat, channel :| i < |st.observations| && channel in st.observations[i].artifacts
                             && e == Captured(st.observations[i], channel);
      CaptureResolves(st, i, channel);
    }
  }

  lemma ReceiptStepTraced(episode: Episode, inputs: Artifacts, st: Spec.State, responses: seq<Exchange>, session: string,
                          origin: Origin, raw: Artifacts, result: Json)
    requires Opened(episode, inputs, st) && Traced(episode, inputs, st, responses)
    requires ResultAfter(episode, responses) == Some(result)
    requires origin.operationId == ReceiptId(episode.prefix)
    requires "result.json" in raw && raw["result.json"] == Encode(result)
    ensures var later := RecordOnce.Step(st, session, origin, raw).st;
      Opened(episode, inputs, later) && Traced(episode, inputs, later, responses)
  {
    var later := RecordOnce.Step(st, session, origin, raw).st;
    RecordOnce.StepExtends(st, session, origin, raw);
    RecordIdsDiffer(episode.prefix, Model, 0);
    assert AddsFirst(episode, st, later);
    OpenedStays(episode, inputs, st, later);
    assert ReceiptOk(episode, later, responses);
    TraceStays(episode, inputs, st, later, responses);
  }

  lemma BeginGrows(st: Spec.State, session: string, request: Request)
    ensures var later := Spec.Begin(st, session, request).st;
      Extends(st, later) && later.observations == st.observations && later.sessions == st.sessions
  {
    BeginExtends(st, session, request);
  }

  lemma CompleteGrows(st: Spec.State, session: string, request: Request, result: Result, raw: Artifacts)
    ensures var later := Spec.Complete(st, session, request, result, raw).st;
      Extends(st, later) && later.sessions == st.sessions
  {
    CompleteExtends(st, session, request, result, raw);
  }

  /** Settling the next turn's attempt adds exactly its outcome. */
  lemma CompleteTurn(episode: Episode, inputs: Artifacts, st: Spec.State, responses: seq<Exchange>, session: string,
                     request: Request, result: Result, raw: Artifacts)
    requires UniqueIds(st.operations) && Opened(episode, inputs, st) && Traced(episode, inputs, st, responses)
    requires NextTurn(episode, responses).Some?
    requires request.origin.operationId == TurnId(episode, NextTurn(episode, responses).value)
    ensures var step := Spec.Complete(st, session, request, result, raw);
      && Opened(episode, inputs, step.st)
      && Traced(episode, inputs, step.st, if step.out.Ok? then responses + [Unshown(step.out.value)] else responses)
  {
    var step := Spec.Complete(st, session, request, result, raw);
    CompleteStepTraced(episode, inputs, st, responses, session, request, result, raw);
    if step.out.Ok? {
      var op := st.operations[Spec.Find(st.operations, request.origin.operationId).value];
      NextIsOpen(episode, inputs, st, responses, op);
      assert |step.st.observations| > |st.observations|;
    }
    CompleteStaysOpened(episode, inputs, st, session, request, result, raw);
  }

  lemma CompleteStaysOpened(episode: Episode, inputs: Artifacts, st: Spec.State, session: string,
                            request: Request, result: Result, raw: Artifacts)
    requires Opened(episode, inputs, st) && forall op | op in st.operations :: !IsRecordId(episode.prefix, op.Id())
    ensures Opened(episode, inputs, Spec.Complete(st, session, request, result, raw).st)
  {
    var later := Spec.Complete(st, session, request, result, raw).st;
    if later != st {
      var op := st.operations[Spec.Find(st.operations, request.origin.operationId).value];
      assert !IsRecordId(episode.prefix, op.Id());
      OpenedStays(episode, inputs, st, later);
    }
  }

  lemma OneRecord(st: Spec.State, i: nat, j: nat, origin: Origin, raw: Artifacts)
    requires RecordOnce.IsRecord(st, i, origin, raw) && RecordOnce.IsRecord(st, j, origin, raw)
    ensures i == j
  {
  }

  lemma ReservedTurnAgain(episode: Episode, inputs: Artifacts, st: Spec.State, responses: seq<Exchange>, session: string,
                          k: nat, capture: Observation)
    requires Inv(st) && session in st.sessions && Traced(episode, inputs, st, responses) && k < |responses|
    requires NextTurn(episode, responses[..k]).Some? && REQUEST_FILE in capture.artifacts
    requires 0 < capture.sequence <= |st.observations| && st.observations[capture.sequence - 1] == capture
    requires var turn := NextTurn(episode, responses[..k]).value;
      RecordOnce.IsRecord(st, capture.sequence - 1, InputOrigin(episode, inputs, turn), InputRaw(turn))
    ensures Reservation(episode, NextTurn(episode, responses[..k]).value, st.project.allowances).Some?
    ensures var turn := NextTurn(episode, responses[..k]).value;
      var step := Spec.Reserve(st, session, TurnRequest(episode, st.project, inputs, turn, capture),
                               Reservation(episode, turn, st.project.allowances).value, episode.scope);
      step.st == st && step.out.Ok? && step.out.value.completion == Some(responses[k].done)
  {
    var row, op := SettledAttempt(episode, inputs, st, responses, k);
    OneRecord(st, row, capture.sequence - 1, InputOrigin(episode, inputs, NextTurn(episode, responses[..k]).value),
              InputRaw(NextTurn(episode, responses[..k]).value));
    ReservedAgain(st, session, op);
  }

  /** What reserving the attempt of a turn does, whether it is answered or the next one. */
  lemma TurnReserved(episode: Episode, inputs: Artifacts, st: Spec.State, responses: seq<Exchange>, session: string,
                     turn: Turn, k: nat, capture: Observation)
    returns (step: Spec.Step<Operation>)
    requires Inv(st) && session in st.sessions && Opened(episode, inputs, st) && Traced(episode, inputs, st, responses)
    requires k <= |responses| && NextTurn(episode, responses[..k]) == Some(turn) && REQUEST_FILE in capture.artifacts
    requires 0 < capture.sequence <= |st.observations| && st.observations[capture.sequence - 1] == capture
    requires RecordOnce.IsRecord(st, capture.sequence - 1, InputOrigin(episode, inputs, turn), InputRaw(turn))
    ensures var reservation := Reservation(episode, turn, st.project.allowances);
      if reservation.Some? then
        step == Spec.Reserve(st, session, TurnRequest(episode, st.project, inputs, turn, capture), reservation.value, episode.scope)
      else step == Spec.Step(st, Err(InvalidInput))
    ensures Opened(episode, inputs, step.st) && Traced(episode, inputs, step.st, responses)
    ensures Touches(st, step.st, AttemptIds(episode.prefix)) && step.st.sessions == st.sessions
    ensures step.st.observations == st.observations && SettlesNoAttempt(st, step.st)
    ensures k < |responses| ==> step.st == st && step.out.Ok? && step.out.value.completion == Some(responses[k].done)
    ensures step.out.Ok? && k == |responses| ==>
      && step.out.value.completion.None? && step.out.value.Id() == TurnId(episode, turn)
      && OpenIn(step.st, step.out.value.request, episode.scope)
    ensures step.out.Err? ==> TurnHindered(episode, inputs, step.st, turn)
  {
    var reservation := Reservation(episode, turn, st.project.allowances);
    var request := TurnRequest(episode, st.project, inputs, turn, capture);
    step := if reservation.Some? then Spec.Reserve(st, session, request, reservation.value, episode.scope)
            else Spec.Step(st, Err(InvalidInput));
    TouchesNothing(st, AttemptIds(episode.prefix));
    if k < |responses| {
      ReservedTurnAgain(episode, inputs, st, responses, session, k, capture);
    } else if reservation.Some? {
      var row := capture.sequence - 1;
      assert responses[..k] == responses && st.observations[row] == capture;
      NextReserved(episode, inputs, st, responses, session, turn, row, reservation.value);
    }
  }

  lemma NextReserved(episode: Episode, inputs: Artifacts, st: Spec.State, responses: seq<Exchange>, session: string,
                     turn: Turn, row: nat, reservation: Amounts)
    requires Inv(st) && session in st.sessions && Opened(episode, inputs, st) && Traced(episode, inputs, st, responses)
    requires NextTurn(episode, responses) == Some(turn) && Reservation(episode, turn, st.project.allowances) == Some(reservation)
    requires RecordOnce.IsRecord(st, row, InputOrigin(episode, inputs, turn), InputRaw(turn))
    ensures var step := Spec.Reserve(st, session, TurnRequest(episode, st.project, inputs, turn, st.observations[row]),
                                     reservation, episode.scope);
      && Opened(episode, inputs, step.st) && Traced(episode, inputs, step.st, responses)
      && Touches(st, step.st, AttemptIds(episode.prefix)) && step.st.sessions == st.sessions
      && step.st.observations == st.observations && SettlesNoAttempt(st, step.st)
      && (step.out.Err? ==> TurnHindered(episode, inputs, step.st, turn))
      && (step.out.Ok? ==>
            && step.out.value.completion.None? && step.out.value.Id() == TurnId(episode, turn)
            && OpenIn(step.st, step.out.value.request, episode.scope))
  {
    var request := TurnRequest(episode, st.project, inputs, turn, st.observations[row]);
    ReserveStepTraced(episode, inputs, st, responses, session, row, reservation);
    ReserveGrows(st, session, request, reservation, episode.scope);
    ReserveSettlesNone(st, session, request, reservation, episode.scope);
    TurnTouches(episode, turn);
    ReserveTouches(st, session, request, reservation, episode.scope, AttemptIds(episode.prefix));
    SameCaptures(episode, inputs, st, Spec.Reserve(st, session, request, reservation, episode.scope).st);
    ReservedOrHindered(episode, inputs, st, responses, session, turn, row, reservation);
  }

  lemma ReserveGrows(st: Spec.State, session: string, request: Request, reservation: Amounts, scope: string)
    ensures var later := Spec.Reserve(st, session, request, reservation, scope).st;
      Extends(st, later) && later.observations == st.observations && later.sessions == st.sessions
  {
    ReserveExtends(st, session, request, reservation, scope);
  }

  lemma SameCaptures(episode: Episode, inputs: Artifacts, st: Spec.State, later: Spec.State)
    requires Opened(episode, inputs, st) && later.observations == st.observations
    ensures Opened(episode, inputs, later)
  {
    var row: nat :| RecordOnce.IsRecord(st, row, EpisodeOrigin(episode), EpisodeRaw(episode))
                    && inputs == One(Captured(st.observations[row], EPISODE_FILE));
    assert RecordOnce.IsRecord(later, row, EpisodeOrigin(episode), EpisodeRaw(episode));
  }

  // ---- The receipt ----

  /** The episode's own record, and every artifact of every attempt under it. */
  ghost function EpisodeEvidence(episode: Episode, inputs: Artifacts, operations: seq<Operation>): set<Evidence> {
    if operations == [] then set name | name in inputs :: Evidence(name, inputs[name])
    else
      var last := operations[|operations| - 1];
      EpisodeEvidence(episode, inputs, operations[..|operations| - 1])
      + if Under(episode.prefix, last.Id()) && last.completion.Some? then Channels(last.completion.value.observation) else {}
  }

  /** Whatever receipt there is cites exactly the evidence there is. */
  ghost predicate ReceiptHolds(episode: Episode, inputs: Artifacts, st: Spec.State) {
    forall o | o in st.observations && o.origin.operationId == ReceiptId(episode.prefix) ::
      Evidences.Cites(o.origin.inputs, EpisodeEvidence(episode, inputs, st.operations))
  }

  /** There is a receipt, every attempt is done, and their evidence is what it cites. */
  ghost predicate ReceiptReads(episode: Episode, inputs: Artifacts, st: Spec.State) {
    var row := RecordOnce.FirstRecord(st.observations, ReceiptId(episode.prefix));
    && row.Some? && AttemptsDone(episode.prefix, st.operations)
    && Evidences.Cites(st.observations[row.value].origin.inputs, EpisodeEvidence(episode, inputs, st.operations))
  }

  ghost predicate CanRecord(episode: Episode, st: Spec.State) {
    RecordOnce.FirstRecord(st.observations, ReceiptId(episode.prefix)).None? && PlainSnapshots(st.project)
  }

  /** Nothing keeps a result from being recorded. */
  ghost predicate CanClose(episode: Episode, st: Spec.State) {
    CanRecord(episode, st) && AttemptsDone(episode.prefix, st.operations)
  }

  lemma OwnLookup(st: Spec.State, op: Operation)
    requires Inv(st) && op in st.operations
    ensures Spec.Lookup(st, op.request).Ok?
  {
    assert OperationOk(st, op);
    var row := Spec.Find(st.operations, op.Id());
    assert Spec.Has(st.operations, op.Id());
    assert st.operations[row.value] == op;
  }

  lemma ReceiptIsFound(episode: Episode, inputs: Artifacts, st: Spec.State, responses: seq<Exchange>, row: nat)
    requires Inv(st) && Traced(episode, inputs, st, responses)
    requires row < |st.observations| && st.observations[row].origin.operationId == ReceiptId(episode.prefix)
    ensures Spec.Lookup(st, Request(st.observations[row].origin, st.project)).Ok?
  {
    assert ObservationOk(st, row);
    OriginGrows(st.(observations := st.observations[..row]), st, st.observations[row].origin);
    assert IsRecordId(episode.prefix, ReceiptId(episode.prefix));
  }

  lemma {:induction false} EvidenceIsCaptured(episode: Episode, inputs: Artifacts, st: Spec.State, n: nat)
    requires Inv(st) && Opened(episode, inputs, st) && n <= |st.operations|
    ensures AreCaptures(st, EpisodeEvidence(episode, inputs, st.operations[..n]))
  {
    if n > 0 {
      EvidenceIsCaptured(episode, inputs, st, n - 1);
      assert st.operations[..n][..n - 1] == st.operations[..n - 1];
      assert OperationOk(st, st.operations[n - 1]);
    }
  }

  ghost predicate AreCaptures(st: Spec.State, cited: set<Evidence>) {
    forall e | e in cited ::
      exists i: nat, channel | i < |st.observations| && channel in st.observations[i].artifacts ::
        e == Captured(st.observations[i], channel)
  }

  lemma CapturesAreConsistent(st: Spec.State, cited: set<Evidence>)
    requires Inv(st) && AreCaptures(st, cited)
    ensures Consistent(cited)
  {
    forall a, b | a in cited && b in cited && a.name == b.name
      ensures a == b
    {
      var i: nat, x :| i < |st.observations| && x in st.observations[i].artifacts && a == Captured(st.observations[i], x);
      var j: nat, y :| j < |st.observations| && y in st.observations[j].artifacts && b == Captured(st.observations[j], y);
      CaptureIsUnique(st, i, j, x, y);
    }
  }
}
