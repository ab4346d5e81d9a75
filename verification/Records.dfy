/** The immutable values the host stores and passes around.

    SHA-256 and canonical JSON are taken to be injective and stored bytes to stay
    intact, so a reference to an artifact is the content it names and reading it
    always succeeds. */
module Records {

  datatype Option<+T> = None | Some(value: T)

  newtype byte = x: int | 0 <= x < 256
  type Bytes = seq<byte>

  /** A JSON value. Text that is an operation ID, the digest of stored bytes, or the
      digest of a whole request is kept as what it stands for. */
  datatype Json =
    | Null
    | Bool(flag: bool)
    | Int(number: int)
    | Str(text: string)
    | Id(id: OpId)
    | Digest(of: Blob)
    | RequestDigest(request: Request)
    | List(items: seq<Json>)
    | Obj(fields: map<string, Json>)

  /** Stored bytes: the text of one JSON value, or bytes that are not JSON. `layout`
      tells apart different texts of the same value; the host's compact encoding is
      layout 0 and its indented one layout 1. */
  datatype Blob = Raw(bytes: Bytes) | Doc(value: Json, layout: nat)

  type ArtifactRef = Blob
  type Amounts = map<string, nat>
  type Artifacts = map<string, ArtifactRef>

  /** The host's compact, key-sorted encoding. */
  function Encode(value: Json): Blob {
    Doc(value, 0)
  }

  /** Text the host refuses where it needs a name. */
  predicate Blank(text: string) {
    forall c | c in text :: c in " \t\n\r"
  }

  predicate NamesOk(raw: Artifacts) {
    forall name | name in raw :: !Blank(name)
  }

  /** A plain operation ID, or one of the form `kind/digest` over a JSON value. */
  datatype OpId = Named(text: string) | Hashed(kind: string, value: Json)

  datatype Project = Project(
    id: string,
    allowances: Amounts,
    snapshots: Artifacts)

  datatype Origin = Origin(
    operationId: OpId,
    kind: string,
    producer: string,
    version: string,
    inputs: Artifacts)

  datatype Observation = Observation(
    sequence: nat,
    session: string,
    origin: Origin,
    artifacts: Artifacts,
    supersedes: Option<nat>)

  datatype Request = Request(origin: Origin, context: Project)

  /** How an attempt ended. The process exit code is part of the outcome: zero on
      success, the given code on failure, none when the host failed. */
  datatype Outcome = Succeeded | Failed(exitCode: int) | InfrastructureFailure

  datatype Result = Result(outcome: Outcome, usage: Amounts, elapsed: nat)

  datatype Completion = Completion(
    observation: Observation,
    result: Result,
    breaches: set<string>)

  /** The dispatch marker; `at` is its position in the order of dispatches. */
  datatype Dispatch = Dispatch(session: string, at: nat)

  datatype Operation = Operation(
    request: Request,
    session: string,
    reservation: Amounts,
    dispatch: Option<Dispatch>,
    completion: Option<Completion>,
    scope: string)
  {
    function Id(): OpId {
      request.origin.operationId
    }

    predicate Pending() {
      completion.None? && dispatch.None?
    }

    predicate Unknown() {
      completion.None? && dispatch.Some?
    }

    /** pending, unknown, completed as 1, 2, 3; an operation not reserved is 0. */
    function Phase(): nat {
      if completion.Some? then 3 else if dispatch.Some? then 2 else 1
    }
  }

  datatype Error = InvalidInput | Conflict | BudgetExceeded | UnknownOutcome

  datatype Outcomes<+T> = Ok(value: T) | Err(error: Error)

  function Get(amounts: Amounts, unit: string): nat {
    if unit in amounts then amounts[unit] else 0
  }

  datatype Status =
    | Passed
    | Excepted
    | Accepted
    | Rejected
    | Missing
    | Stale
    | Unknown
    | Unproved
    | Unsupported
    | HostFailure

  /** A named, exact piece of captured evidence. */
  datatype Evidence = Evidence(name: string, artifact: ArtifactRef)

  function EvidenceJson(evidence: Evidence): Json {
    Obj(map["name" := Str(evidence.name), "artifact" := Digest(evidence.artifact)])
  }

  function RestoreEvidence(value: Json): Option<Evidence> {
    if value.Obj? && value.fields.Keys == {"name", "artifact"}
      && value.fields["name"].Str? && value.fields["artifact"].Digest?
    then Some(Evidence(value.fields["name"].text, value.fields["artifact"].of))
    else None
  }
}
