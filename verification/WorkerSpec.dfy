/** One episode: a deterministic agent whose every exchange goes through the ledger. */
module WorkerSpec {
  import opened Records
  import opened Slots
  import opened LedgerSpec
  import opened Evidences
  import RecordOnce
  import opened OutputText
  import opened Batches
  import Operations = OperationsSpec
  import opened Names

  // ---- Reading recorded responses ----

  /** What an agent gets back from one attempt. */
  datatype Reply =
    | Said(response: Blob, command: Option<string>)
    | Submitted(stdout: Blob)
    | Observed(stdout: Blob, stderr: Blob, outcome: Outcome, results: seq<Json>)

  /** The one nonempty command of a model response; otherwise a format error. */
  function CommandOf(response: Blob): Option<string> {
    if response.Doc? && response.value.Obj? && response.value.fields.Keys == {"command"}
      && response.value.fields["command"].Str? && !Blank(response.value.fields["command"].text)
    then Some(response.value.fields["command"].text)
    else None
  }

  /** `None` is a failed run: nothing is retried. */
  function ModelReply(done: Completion): Option<Reply> {
    var artifacts := done.observation.artifacts;
    if done.result.outcome != Succeeded || "response" !in artifacts then None
    else Some(Said(artifacts["response"], CommandOf(artifacts["response"])))
  }

  /** How the host reads what a tool attempt printed. */
  datatype Reading =
    | Unread
    | Submission(stdout: Blob)
    | Asking(text: Bytes, stdout: Blob, stderr: Blob)
    | Plain(stdout: Blob, stderr: Blob, errors: seq<Json>)

  function ReadTool(done: Completion): Reading {
    var artifacts := done.observation.artifacts;
    if "stdout" !in artifacts || "stderr" !in artifacts || done.result.outcome == InfrastructureFailure then Unread
    else
      var stdout, stderr := artifacts["stdout"], artifacts["stderr"];
      var lines := MarkedLines(stdout);
      var markers := Markers(lines);
      var first := if lines == [] then [] else Strip(lines[0]);
      var succeeded := done.result.outcome == Succeeded;
      if succeeded && first == SUBMIT && |markers| == 1 then Submission(stdout)
      else if succeeded && first in markers && |markers| == 2 then
        Plain(stdout, stderr, [Operations.ErrorShown("a command cannot both request operations and submit", None)])
      else if succeeded && first == REQUEST && stdout.Raw? then Asking(stdout.bytes, stdout, stderr)
      else Plain(stdout, stderr, [])
  }

  /** One answered attempt: its outcome and, for a batch of host requests, what the batch
      has shown once every item of it is decided. */
  datatype Exchange = Exchange(done: Completion, shown: Option<seq<Json>>)

  function Unshown(done: Completion): Exchange {
    Exchange(done, None)
  }

  /** What the host gives back to a request; `None` while its batch is not finished. */
  function HostResults(offer: Option<Offer>, text: Bytes, shown: Option<seq<Json>>): Option<seq<Json>> {
    if offer.None? then Some([Operations.ErrorShown("this task offers no operations", None)])
    else
      match ParseBatch(offer.value, text)
      case Malformed(message) => Some([Operations.ErrorShown(message, None)])
      case Items(_) => shown
  }

  function ReplyOf(offer: Option<Offer>, reading: Reading, outcome: Outcome, shown: Option<seq<Json>>): Option<Reply> {
    match reading
    case Unread => None
    case Submission(stdout) => Some(Submitted(stdout))
    case Plain(stdout, stderr, errors) => Some(Observed(stdout, stderr, outcome, errors))
    case Asking(text, stdout, stderr) =>
      match HostResults(offer, text, shown)
      case None => None
      case Some(results) => Some(Observed(stdout, stderr, outcome, results))
  }

  /** What a tool attempt gives the agent. */
  function ToolReply(offer: Option<Offer>, exchange: Exchange): Option<Reply> {
    ReplyOf(offer, ReadTool(exchange.done), exchange.done.result.outcome, exchange.shown)
  }

  // ---- The episode ----

  /** What the agent does next. */
  datatype Move = Query(messages: Json) | Execute(command: string) | Finish(result: Json)

  function Action(command: string): Json {
    Obj(map["command" := Str(command)])
  }

  /** A model service that bounds its own usage. */
  datatype Service = Service(units: set<string>, reservation: Json -> Amounts)

  datatype Episode = Episode(
    prefix: string,
    scope: string,
    context: Artifacts,
    spec: Json,
    producer: string,
    pin: Option<Evidence>,
    modelReservation: nat,
    toolReservation: nat,
    service: Option<Service>,
    offer: Option<Offer>,
    agent: seq<Reply> -> Move,
    trajectory: seq<Reply> -> Json,
    limit: nat)

  /** The step limit: the agent finishes within a bounded number of attempts. */
  ghost predicate Bounded(episode: Episode) {
    forall history: seq<Reply> | |history| >= episode.limit :: episode.agent(history).Finish?
  }

  /** One attempt: its slot, and the payload the agent derives for it. */
  datatype Turn = Turn(kind: Kind, index: nat, payload: Json)

  function TurnId(episode: Episode, turn: Turn): OpId {
    SlotId(episode.prefix, turn.kind, turn.index)
  }

  const TOKEN_UNITS: set<string> := {"prompt_tokens", "completion_tokens"}

  /** Enforced token units cannot be left out of a model reservation. */
  function ModelReservation(episode: Episode, payload: Json, allowances: Amounts): Option<Amounts> {
    var reservation :=
      if episode.service.Some? then episode.service.value.reservation(payload)
      else map["model" := episode.modelReservation];
    if episode.service.Some? && reservation.Keys != episode.service.value.units then None
    else if TOKEN_UNITS * allowances.Keys <= reservation.Keys then Some(reservation)
    else None
  }

  function Reservation(episode: Episode, turn: Turn, allowances: Amounts): Option<Amounts> {
    match turn.kind
    case Model => ModelReservation(episode, turn.payload, allowances)
    case Tool => Some(map["tool" := episode.toolReservation])
  }

  const EPISODE_FILE: string := "episode.json"
  const REQUEST_FILE: string := "request.json"
  const WORKER: string := "warranted-worker"

  function EpisodeOrigin(episode: Episode): Origin {
    Origin(EpisodeId(episode.prefix), "episode", WORKER, "1", episode.context)
  }

  function EpisodeRaw(episode: Episode): Artifacts {
    map[EPISODE_FILE := Encode(episode.spec)]
  }

  function InputOrigin(episode: Episode, inputs: Artifacts, turn: Turn): Origin {
    Origin(InputId(episode.prefix, turn.kind, turn.index), "attempt-input", WORKER, "1", inputs)
  }

  function InputRaw(turn: Turn): Artifacts {
    map[REQUEST_FILE := Encode(turn.payload)]
  }

  function One(evidence: Evidence): Artifacts {
    map[evidence.name := evidence.artifact]
  }

  /** The request of one attempt, over the capture of its payload. */
  function TurnRequest(episode: Episode, project: Project, inputs: Artifacts, turn: Turn, capture: Observation): Request
    requires REQUEST_FILE in capture.artifacts
  {
    var cited := inputs + One(Captured(capture, REQUEST_FILE));
    Request(
      Origin(TurnId(episode, turn), KindName(turn.kind),
             if turn.kind == Model then episode.producer else WORKER, "1",
             if turn.kind == Model && episode.pin.Some? then cited + One(episode.pin.value) else cited),
      project)
  }

  // ---- The trajectory ----

  function ReplyTo(episode: Episode, move: Move, exchange: Exchange): Option<Reply> {
    match move
    case Query(_) => ModelReply(exchange.done)
    case Execute(_) => ToolReply(episode.offer, exchange)
    case Finish(_) => None
  }

  /** What the agent has seen after these responses, each to the attempt it makes next;
      `None` when it would not have gone that far. */
  function Replies(episode: Episode, responses: seq<Exchange>): Option<seq<Reply>> {
    if responses == [] then Some([])
    else
      var n := |responses| - 1;
      match Replies(episode, responses[..n])
      case None => None
      case Some(history) =>
        match ReplyTo(episode, episode.agent(history), responses[n])
        case None => None
        case Some(reply) => Some(history + [reply])
  }

  /** How many of these exchanges were with the model. */
  function Queries(episode: Episode, responses: seq<Exchange>): (count: nat)
    ensures count <= |responses|
  {
    if responses == [] then 0
    else
      var n := |responses| - 1;
      var history := Replies(episode, responses[..n]);
      Queries(episode, responses[..n])
      + if history.Some? && episode.agent(history.value).Query? then 1 else 0
  }

  function TurnOf(move: Move, queries: nat, tools: nat): Option<Turn> {
    match move
    case Query(messages) => Some(Turn(Model, queries + 1, Obj(map["messages" := messages])))
    case Execute(command) => Some(Turn(Tool, tools + 1, Action(command)))
    case Finish(_) => None
  }

  /** The attempt the agent makes after these responses. */
  function NextTurn(episode: Episode, responses: seq<Exchange>): Option<Turn> {
    match Replies(episode, responses)
    case None => None
    case Some(history) =>
      var queries := Queries(episode, responses);
      TurnOf(episode.agent(history), queries, |responses| - queries)
  }

  /** The result the agent ends with after exactly these responses. */
  function ResultAfter(episode: Episode, responses: seq<Exchange>): Option<Json> {
    match Replies(episode, responses)
    case None => None
    case Some(history) =>
      match episode.agent(history)
      case Finish(result) => Some(result)
      case _ => None
  }

  /** An uninterrupted run of the agent, fed these responses one after another. */
  function Uninterrupted(episode: Episode, history: seq<Reply>, responses: seq<Exchange>): Option<Json>
    decreases |responses|
  {
    match episode.agent(history)
    case Finish(result) => if responses == [] then Some(result) else None
    case move =>
      if responses == [] then None
      else
        match ReplyTo(episode, move, responses[0])
        case None => None
        case Some(reply) => Uninterrupted(episode, history + [reply], responses[1..])
  }

  // ---- Batches of host requests ----

  function BatchBase(prefix: string, index: nat): string {
    prefix + "/request/" + Decimal(index) + "/"
  }

  /** The batch this tool attempt asks for, when its output asks for one. */
  function Asked(episode: Episode, done: Completion, index: nat): Option<Operations.Batch> {
    match ReadTool(done)
    case Asking(text, stdout, _) =>
      if episode.offer.None? then None
      else (
        match ParseBatch(episode.offer.value, text)
        case Malformed(_) => None
        case Items(items) =>
          Some(Operations.Batch(BatchBase(episode.prefix, index), episode.scope, Captured(done.observation, "stdout"),
                     episode.offer.value.catalogue, items)))
    case _ => None
  }

  /** The batch asked for by the k-th exchange, when it is one with a tool. */
  function BatchAt(episode: Episode, responses: seq<Exchange>, k: nat): Option<Operations.Batch>
    requires k < |responses|
  {
    var turn := NextTurn(episode, responses[..k]);
    if turn.Some? && turn.value.kind == Tool then Asked(episode, responses[k].done, turn.value.index) else None
  }

  /** The last exchange asks for a batch that has not been shown yet. */
  predicate Awaiting(episode: Episode, responses: seq<Exchange>) {
    responses != [] && BatchAt(episode, responses, |responses| - 1).Some? && responses[|responses| - 1].shown.None?
  }

  // ---- What the ledger holds of an episode ----

  /** This operation is the turn's attempt: its exact payload, request and reservation. */
  ghost predicate Attempts(episode: Episode, inputs: Artifacts, st: State, turn: Turn, op: Operation) {
    && op.scope == episode.scope
    && Reservation(episode, turn, st.project.allowances) == Some(op.reservation)
    && exists row: nat ::
         && RecordOnce.IsRecord(st, row, InputOrigin(episode, inputs, turn), InputRaw(turn))
         && op.request == TurnRequest(episode, st.project, inputs, turn, st.observations[row])
  }

  /** The k-th response is recorded, as the outcome of the k-th turn. */
  ghost predicate Settled(episode: Episode, inputs: Artifacts, st: State, responses: seq<Exchange>, k: nat)
    requires k < |responses|
  {
    var turn := NextTurn(episode, responses[..k]);
    && turn.Some?
    && exists op | op in st.operations ::
         Attempts(episode, inputs, st, turn.value, op) && op.completion == Some(responses[k].done)
  }

  /** Every attempt on the ledger is a turn already answered, or the one after them. */
  ghost predicate OnTrajectory(episode: Episode, inputs: Artifacts, st: State, responses: seq<Exchange>, op: Operation) {
    var next := NextTurn(episode, responses);
    || (next.Some? && op.completion.None? && Attempts(episode, inputs, st, next.value, op))
    || exists k | 0 <= k < |responses| ::
         NextTurn(episode, responses[..k]).Some? && op.Id() == TurnId(episode, NextTurn(episode, responses[..k]).value)
  }

  /** Every operation under the episode has its outcome. */
  ghost predicate AttemptsDone(prefix: string, operations: seq<Operation>) {
    forall op | op in operations && Under(prefix, op.Id()) :: op.completion.Some?
  }

  ghost predicate ReceiptOk(episode: Episode, st: State, responses: seq<Exchange>) {
    forall o | o in st.observations && o.origin.operationId == ReceiptId(episode.prefix) ::
      && ResultAfter(episode, responses).Some?
      && "result.json" in o.artifacts
      && o.artifacts["result.json"] == Encode(ResultAfter(episode, responses).value)
  }

  ghost predicate Opened(episode: Episode, inputs: Artifacts, st: State) {
    exists row: nat ::
      && RecordOnce.IsRecord(st, row, EpisodeOrigin(episode), EpisodeRaw(episode))
      && inputs == One(Captured(st.observations[row], EPISODE_FILE))
  }

  /** The ledger holds exactly these responses of the episode: a prefix of the one
      trajectory its agent takes, and at most the next attempt unanswered. */
  ghost predicate Traced(episode: Episode, inputs: Artifacts, st: State, responses: seq<Exchange>) {
    && (forall op | op in st.operations :: !IsRecordId(episode.prefix, op.Id()))
    && (forall k | 0 <= k < |responses| :: Settled(episode, inputs, st, responses, k))
    && (forall op | op in st.operations && IsSlot(episode.prefix, op.Id()) ::
          OnTrajectory(episode, inputs, st, responses, op))
    && ReceiptOk(episode, st, responses)
  }

  /** Nothing of the episode is recorded yet. */
  ghost predicate Untouched(episode: Episode, st: State) {
    && (forall op | op in st.operations :: !IsRecordId(episode.prefix, op.Id()) && !IsSlot(episode.prefix, op.Id()))
    && (forall o | o in st.observations :: !IsRecordId(episode.prefix, o.origin.operationId))
  }
}
