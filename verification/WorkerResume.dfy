/** Running and resuming an episode, over any number of crashes. */
module WorkerResume {
  import opened Records
  import opened Slots
  import Spec = LedgerSpec
  import opened LedgerInvariant
  import opened LedgerBudget
  import opened LedgerSafety
  import opened LedgerStore
  import opened Calls
  import opened Attested
  import opened Evidences
  import opened Touching
  import RecordOnce
  import opened OperationsHost
  import opened WorkerSpec
  import opened WorkerReplay
  import opened WorkerHost
  import opened WorkerBatches
  import opened WorkerRun
  import opened WorkerStanding

  /** Every call and every execution so far was under a dispatch marker of its own, and
      every attempt's outcome is what came back or was told. */
  ghost predicate Counted(boundary: Boundary, executor: Executor, st: Spec.State)
    reads boundary, executor
  {
    boundary.Tracks(st) && Called(executor.calls, st)
  }

  lemma CountedStays(boundary: Boundary, executor: Executor, st: Spec.State, later: Spec.State)
    requires Counted(boundary, executor, st) && Extends(st, later) && SettlesNoAttempt(st, later)
    ensures Counted(boundary, executor, later)
  {
    TracksStays(boundary, st, later);
    CalledStays(executor.calls, st, later);
  }

  /** Nothing with an unknown outcome blocks the scope. */
  ghost predicate Unblocked(st: Spec.State, scope: string) {
    Spec.ScopeKnown(st, scope) && forall op | op in st.operations :: !(op.Unknown() && Spec.In(op, scope))
  }

  lemma UnblockedStays(st: Spec.State, later: Spec.State, scope: string)
    requires Unblocked(st, scope) && Extends(st, later) && later.operations == st.operations
    ensures Unblocked(later, scope)
  {
  }

  /** The episode cannot be recorded: its context is not on the ledger, or its ID is taken. */
  ghost predicate EpisodeIsRefused(episode: Episode, st: Spec.State) {
    || !Spec.OriginMatches(st, EpisodeOrigin(episode))
    || var row := RecordOnce.FirstRecord(st.observations, EpisodeId(episode.prefix));
       row.Some? && !RecordOnce.IsRecord(st, row.value, EpisodeOrigin(episode), EpisodeRaw(episode))
  }

  /** Why a run ends without a result while its host lives: something unknown blocks it, the
      episode cannot be recorded, its next exchange is hindered, or its result cannot cite
      its evidence because a snapshot is named like a capture. */
  ghost predicate IsStuck(episode: Episode, st: Spec.State, known: Option<Artifacts>, responses: seq<Exchange>) {
    || !Unblocked(st, episode.scope) || EpisodeIsRefused(episode, st) || !PlainSnapshots(st.project)
    || (known.Some? && exists k :: StuckAt(episode, known.value, st, responses, k))
  }

  /** The ledger has this outcome of the operation. */
  ghost predicate IsTaken(st: Spec.State, id: OpId, response: AttemptResult) {
    exists op | op in st.operations :: op.Id() == id && op.completion.Some? && AnswerOf(op.completion.value) == response
  }

  /** The host was told an outcome the ledger did not take. */
  ghost predicate IsUntaken(told: Told, st: Spec.State) {
    exists id, response | (id, response) in told :: !IsTaken(st, id, response)
  }

  /** Whatever the host was told since, the ledger has. */
  ghost predicate AllTaken(before: Told, told: Told, st: Spec.State) {
    forall id, response | (id, response) in told && (id, response) !in before :: IsTaken(st, id, response)
  }

  ghost predicate HasAsked(unknown: seq<Operation>, n: nat, asked: set<OpId>) {
    forall k | 0 <= k < n && k < |unknown| :: unknown[k].Id() in asked
  }

  /** The host asked how everything unknown in the scope or in root ended. */
  ghost predicate AllAsked(st: Spec.State, scope: string, asked: set<OpId>) {
    Spec.ScopeKnown(st, scope) ==>
      forall op | op in st.operations && op.Unknown() && Spec.In(op, scope) :: op.Id() in asked
  }

  /** The host asked how everything that blocks the scope ended, and the ledger has whatever
      it was told; or the run halted because the ledger refuses what it was told, or does
      not know the scope. */
  ghost predicate HasReconciled(halted: bool, st: Spec.State, now: Spec.State, scope: string, before: Told, told: Told,
                                asked: set<OpId>)
  {
    || (halted && (!Spec.ScopeKnown(now, scope) || IsUntaken(told, now)))
    || IsReconciled(st, now, scope, before, told, asked)
  }

  ghost predicate IsReconciled(st: Spec.State, now: Spec.State, scope: string, before: Told, told: Told, asked: set<OpId>) {
    AllAsked(st, scope, asked) && AllTaken(before, told, now)
  }

  lemma ReconciledStays(st: Spec.State, now: Spec.State, later: Spec.State, scope: string, before: Told, told: Told,
                        asked: set<OpId>)
    requires IsReconciled(st, now, scope, before, told, asked) && Extends(now, later)
    ensures IsReconciled(st, later, scope, before, told, asked)
  {
    TakenStays(before, told, now, later);
  }

  lemma AskedIsAll(st: Spec.State, scope: string, unknown: seq<Operation>, asked: set<OpId>)
    requires forall op :: op in unknown <==> op in st.operations && op.Unknown() && Spec.In(op, scope)
    ensures HasAsked(unknown, |unknown|, asked) ==> AllAsked(st, scope, asked)
  {
  }

  lemma TakenStays(before: Told, told: Told, st: Spec.State, later: Spec.State)
    requires AllTaken(before, told, st) && Extends(st, later)
    ensures AllTaken(before, told, later)
  {
    forall id, response | (id, response) in told && (id, response) !in before
      ensures IsTaken(later, id, response)
    {
      var op :| op in st.operations && op.Id() == id && op.completion.Some? && AnswerOf(op.completion.value) == response;
      var k :| 0 <= k < |st.operations| && st.operations[k] == op;
      assert Advances(op, later.operations[k]);
      assert later.operations[k] in later.operations;
    }
  }

  /** Why a whole run ends without a result while its host lives: besides, the checkpoint may
      say that work is done that is not, or the host was told an outcome the ledger refuses. */
  ghost predicate EndsStuck(episode: Episode, st: Spec.State, known: Option<Artifacts>, responses: seq<Exchange>,
                            checkpointed: bool, reconcile: bool, told: Told)
  {
    || IsStuck(episode, st, known, responses)
    || (checkpointed && !HasReceipt(episode, st))
    || (reconcile && IsUntaken(told, st))
  }

  /** Nothing but the death of the host stops the run. */
  predicate OnlyDies(stop: Option<Ended>) {
    stop.Some? ==> stop.value.Died?
  }

  // ---- Sessions ----

  /** A name no session has yet, standing for a fresh UUID. */
  method FreshName(used: set<string>) returns (name: string)
    ensures name !in used
  {
    name := *;
    if name !in used {
      return;
    }
    name := "s";
    var rest := used;
    while rest != {}
      invariant rest <= used && name != ""
      invariant forall other | other in used && other !in rest :: |other| < |name|
      decreases rest
    {
      var other :| other in rest;
      name, rest := name + other, rest - {other};
    }
  }

  method StartSession(ledger: Ledger, ghost episode: Episode, ghost known: Option<Artifacts>, ghost responses: seq<Exchange>)
    returns (session: string)
    requires ledger.Valid() && Stands(episode, ledger.View(), known, responses)
    modifies ledger
    ensures ledger.Valid() && Stands(episode, ledger.View(), known, responses) && session in ledger.sessions
    ensures Touches(old(ledger.View()), ledger.View(), OwnIds(episode.prefix))
    ensures Settled(old(ledger.View()), ledger.View())
    ensures ledger.operations == old(ledger.operations) && ledger.observations == old(ledger.observations)
  {
    ghost var st := ledger.View();
    SettlesNothing(st);
    session := FreshName(ledger.sessions);
    SettledNext(st, st, Spec.StartSessionEvent(session));
    var started := ledger.StartSession(session);
    SameTablesStand(episode, st, ledger.View(), known, responses);
  }

  /** Let the host settle unknown operations of this scope or root from what it knows. */
  method Reconcile(ledger: Ledger, boundary: Boundary, episode: Episode, session: string, ghost start: Spec.State,
                   ghost known: Option<Artifacts>, ghost responses: seq<Exchange>)
    returns (stop: Option<Ended>, ghost later: seq<Exchange>)
    requires ledger.Valid() && Stands(episode, ledger.View(), known, responses) && Settled(start, ledger.View())
    requires boundary.Tracks(ledger.View()) && session in ledger.sessions
    modifies ledger, boundary`told, boundary`asked
    ensures ledger.Valid() && Stands(episode, ledger.View(), known, later) && Grew(episode, responses, later)
    ensures Settled(start, ledger.View()) && boundary.Tracks(ledger.View())
    ensures stop.Some? ==> !stop.value.Finished? && (stop.value.Died? ==> ledger.mortal)
    ensures stop.None? ==>
      && AllTaken(old(boundary.told), boundary.told, ledger.View())
      && AllAsked(old(ledger.View()), episode.scope, boundary.asked)
    ensures stop == Some(Halted) ==> !Spec.ScopeKnown(ledger.View(), episode.scope) || IsUntaken(boundary.told, ledger.View())
    ensures Unblocked(old(ledger.View()), episode.scope) ==> ledger.View() == old(ledger.View()) && OnlyDies(stop)
  {
    ghost var st := ledger.View();
    if {
      case ledger.mortal => return Some(Ended.Died), responses;
      case true =>
    }
    var unknown := ledger.Unresolved(episode.scope);
    if unknown.Err? {
      return Some(Halted), responses;
    }
    if unknown.value == [] {
      return None, responses;
    }
    assert unknown.value[0] in unknown.value;
    stop, later := ReconcileEach(ledger, boundary, episode, session, unknown.value, start, known, responses);
    AskedIsAll(st, episode.scope, unknown.value, boundary.asked);
  }

  /** Settle each operation with the outcome the host is told of, if it is told of one. */
  method ReconcileEach(ledger: Ledger, boundary: Boundary, ghost episode: Episode, session: string, unknown: seq<Operation>,
                       ghost start: Spec.State, ghost known: Option<Artifacts>, ghost responses: seq<Exchange>)
    returns (stop: Option<Ended>, ghost later: seq<Exchange>)
    requires ledger.Valid() && Stands(episode, ledger.View(), known, responses) && Settled(start, ledger.View())
    requires boundary.Tracks(ledger.View()) && session in ledger.sessions
    requires forall op | op in unknown :: op in ledger.operations
    modifies ledger, boundary`told, boundary`asked
    ensures ledger.Valid() && Stands(episode, ledger.View(), known, later) && Grew(episode, responses, later)
    ensures Settled(start, ledger.View()) && boundary.Tracks(ledger.View())
    ensures stop.Some? ==> !stop.value.Finished? && (stop.value.Died? ==> ledger.mortal)
    ensures stop == Some(Halted) ==> IsUntaken(boundary.told, ledger.View())
    ensures stop.None? ==>
      AllTaken(old(boundary.told), boundary.told, ledger.View()) && HasAsked(unknown, |unknown|, boundary.asked)
  {
    ghost var st, before := ledger.View(), boundary.told;
    later := responses;
    for i := 0 to |unknown|
      invariant ledger.Valid() && Stands(episode, ledger.View(), known, later) && Grew(episode, responses, later)
      invariant Settled(start, ledger.View())
      invariant boundary.Tracks(ledger.View()) && Extends(st, ledger.View())
      invariant AllTaken(before, boundary.told, ledger.View()) && HasAsked(unknown, i, boundary.asked)
    {
      if {
        case ledger.mortal => return Some(Ended.Died), later;
        case true =>
      }
      stop, later := ReconcileOne(ledger, boundary, episode, session, unknown, i, st, start, known, responses, later, before);
      if stop.Some? {
        return;
      }
    }
    stop := None;
  }

  method ReconcileOne(ledger: Ledger, boundary: Boundary, ghost episode: Episode, session: string, unknown: seq<Operation>, i: nat,
                      ghost entry: Spec.State, ghost start: Spec.State, ghost known: Option<Artifacts>,
                      ghost first: seq<Exchange>, ghost responses: seq<Exchange>, ghost before: Told)
    returns (stop: Option<Ended>, ghost later: seq<Exchange>)
    requires ledger.Valid() && Stands(episode, ledger.View(), known, responses) && Grew(episode, first, responses)
    requires AllTaken(before, boundary.told, ledger.View()) && i < |unknown| && HasAsked(unknown, i, boundary.asked)
    requires Settled(start, ledger.View()) && boundary.Tracks(ledger.View())
    requires Extends(entry, ledger.View()) && unknown[i] in entry.operations && session in entry.sessions
    modifies ledger, boundary`told, boundary`asked
    ensures ledger.Valid() && Stands(episode, ledger.View(), known, later) && Grew(episode, first, later)
    ensures Settled(start, ledger.View()) && boundary.Tracks(ledger.View()) && Extends(entry, ledger.View())
    ensures stop.Some? ==> stop == Some(Halted) && IsUntaken(boundary.told, ledger.View())
    ensures HasAsked(unknown, i + 1, boundary.asked)
    ensures stop.None? ==> AllTaken(before, boundary.told, ledger.View())
  {
    stop, later := None, responses;
    var op := unknown[i];
    ghost var told := boundary.told;
    var response := AskOutcome(boundary, op.request, ledger.View());
    if response.Some? {
      var settled;
      settled, later := SettleKnown(ledger, boundary, episode, session, op, response.value, entry, start, known, first,
                                    responses, before, told);
      if !settled {
        NotTaken(entry, ledger.View(), session, op, response.value, boundary.told);
        stop := Some(Halted);
      }
    }
  }

  /** What the host is told of a request besides leaves everything attested. */
  method AskOutcome(boundary: Boundary, request: Request, ghost st: Spec.State) returns (response: Option<AttemptResult>)
    requires boundary.Tracks(st)
    modifies boundary`told, boundary`asked
    ensures boundary.Tracks(st) && boundary.asked == old(boundary.asked) + {request.origin.operationId}
    ensures boundary.told == old(boundary.told) + if response.Some? then {(request.origin.operationId, response.value)} else {}
  {
    ghost var told := boundary.told;
    response := boundary.Ask(request);
    AttestsMore(boundary.log, told, boundary.told, boundary.calls, st);
  }

  method SettleKnown(ledger: Ledger, ghost boundary: Boundary, ghost episode: Episode, session: string, op: Operation,
                     response: AttemptResult, ghost entry: Spec.State, ghost start: Spec.State,
                     ghost known: Option<Artifacts>, ghost first: seq<Exchange>, ghost responses: seq<Exchange>,
                     ghost before: Told, ghost told: Told)
    returns (settled: bool, ghost later: seq<Exchange>)
    requires ledger.Valid() && Stands(episode, ledger.View(), known, responses) && Grew(episode, first, responses)
    requires Settled(start, ledger.View()) && boundary.Tracks(ledger.View())
    requires Extends(entry, ledger.View()) && op in entry.operations && session in entry.sessions
    requires AllTaken(before, told, ledger.View()) && boundary.told == told + {(op.Id(), response)}
    modifies ledger
    ensures ledger.Valid() && Stands(episode, ledger.View(), known, later) && Grew(episode, first, later)
    ensures Settled(start, ledger.View()) && boundary.Tracks(ledger.View()) && Extends(entry, ledger.View())
    ensures settled == Spec.Complete(old(ledger.View()), session, op.request, response.result, response.raw).out.Ok?
    ensures if settled then AllTaken(before, boundary.told, ledger.View()) else ledger.View() == old(ledger.View())
  {
    ghost var st := ledger.View();
    later := KnownStands(episode, st, session, op.request, response, known, first, responses);
    KnownSettles(boundary, st, session, op.request, response, entry, start);
    KnownIsTaken(before, told, boundary.told, st, session, op.request, response);
    var done := ledger.Complete(session, op.request, response.result, response.raw);
    settled := done.Ok?;
  }

  /** An outcome the ledger takes leaves everything told besides taken. */
  lemma KnownIsTaken(before: Told, told: Told, more: Told, st: Spec.State, session: string, request: Request,
                     response: AttemptResult)
    requires Inv(st) && AllTaken(before, told, st) && more == told + {(request.origin.operationId, response)}
    ensures var step := Spec.Complete(st, session, request, response.result, response.raw);
      step.out.Ok? ==> AllTaken(before, more, step.st)
  {
    var step := Spec.Complete(st, session, request, response.result, response.raw);
    CompleteExtends(st, session, request, response.result, response.raw);
    TakenStays(before, told, st, step.st);
    if step.out.Ok? {
      var row := Spec.Find(st.operations, request.origin.operationId).value;
      assert step.st.operations[row] in step.st.operations;
      assert IsTaken(step.st, request.origin.operationId, response);
    }
  }

  lemma KnownStands(episode: Episode, st: Spec.State, session: string, request: Request, response: AttemptResult,
                    known: Option<Artifacts>, first: seq<Exchange>, responses: seq<Exchange>)
    returns (later: seq<Exchange>)
    requires Inv(st) && Stands(episode, st, known, responses) && Grew(episode, first, responses)
    ensures Stands(episode, Spec.Complete(st, session, request, response.result, response.raw).st, known, later)
    ensures Grew(episode, first, later)
  {
    later := CompleteStands(episode, st, known, responses, session, request, response.result, response.raw);
    GrewTransitive(episode, first, responses, later);
  }

  lemma KnownSettles(boundary: Boundary, st: Spec.State, session: string, request: Request, response: AttemptResult,
                     entry: Spec.State, start: Spec.State)
    requires Inv(st) && Extends(entry, st) && Settled(start, st) && boundary.Tracks(st)
    requires (request.origin.operationId, response) in boundary.told
    ensures var later := Spec.Complete(st, session, request, response.result, response.raw).st;
      Settled(start, later) && boundary.Tracks(later) && Extends(entry, later)
  {
    SettledNext(start, st, Spec.CompleteEvent(session, request, response.result, response.raw));
    CompleteTracked(boundary, st, session, request, response);
    CompleteExtends(st, session, request, response.result, response.raw);
    ExtendsTransitive(entry, st, Spec.Complete(st, session, request, response.result, response.raw).st);
  }

  /** An outcome the ledger refuses for an operation of its own is not the one it has. */
  lemma NotTaken(st: Spec.State, now: Spec.State, session: string, op: Operation, response: AttemptResult, told: Told)
    requires Inv(now) && Extends(st, now) && op in st.operations && session in st.sessions
    requires (op.Id(), response) in told
    requires Spec.Complete(now, session, op.request, response.result, response.raw).out.Err?
    ensures IsUntaken(told, now)
  {
    var k :| 0 <= k < |st.operations| && st.operations[k] == op;
    assert Advances(op, now.operations[k]) && OperationOk(now, now.operations[k]);
    KnownIsFound(now, op.request, k);
    forall other | other in now.operations && other.Id() == op.Id() && other.completion.Some?
      ensures AnswerOf(other.completion.value) != response
    {
      assert other == now.operations[k];
      assert ObservationOk(now, other.completion.value.observation.sequence - 1);
    }
  }

  lemma CompleteTracked(boundary: Boundary, st: Spec.State, session: string, request: Request, response: AttemptResult)
    requires boundary.Tracks(st) && (request.origin.operationId, response) in boundary.told
    ensures boundary.Tracks(Spec.Complete(st, session, request, response.result, response.raw).st)
  {
    CompleteExtends(st, session, request, response.result, response.raw);
    CalledStays(boundary.calls, st, Spec.Complete(st, session, request, response.result, response.raw).st);
    CompleteAttests(boundary.log, boundary.told, boundary.calls, st, session, request, response.result, response.raw);
  }

  /** Started sessions and settled operations, and what that grew the ledger by. */
  ghost predicate Settled(st: Spec.State, later: Spec.State) {
    Settles(st, later) && Extends(st, later)
  }

  lemma SettledNext(st: Spec.State, now: Spec.State, event: Spec.Event)
    requires Inv(now) && Settled(st, now) && (event.StartSessionEvent? || event.CompleteEvent?)
    ensures Settled(st, Spec.Next(now, event))
  {
    SettlesNext(st, now, event);
    NextExtends(now, event);
    ExtendsTransitive(st, now, Spec.Next(now, event));
  }

  method StartAndReconcile(ledger: Ledger, boundary: Boundary, executor: Executor, episode: Episode,
                           ghost known: Option<Artifacts>, ghost responses: seq<Exchange>)
    returns (stop: Option<Ended>, ghost later: seq<Exchange>)
    requires ledger.Valid()
    requires Stands(episode, ledger.View(), known, responses) && Counted(boundary, executor, ledger.View())
    modifies ledger, boundary`told, boundary`asked
    ensures ledger.Valid() && Stands(episode, ledger.View(), known, later) && Counted(boundary, executor, ledger.View())
    ensures Settled(old(ledger.View()), ledger.View()) && Grew(episode, responses, later)
    ensures stop.Some? ==> !stop.value.Finished? && (stop.value.Died? ==> ledger.mortal)
    ensures stop == Some(Halted) ==> !Spec.ScopeKnown(ledger.View(), episode.scope) || IsUntaken(boundary.told, ledger.View())
    ensures stop.None? ==>
      && AllTaken(old(boundary.told), boundary.told, ledger.View())
      && AllAsked(old(ledger.View()), episode.scope, boundary.asked)
    ensures CanFinish(episode, old(ledger.View()), known, responses) ==>
      && CanFinish(episode, ledger.View(), known, later) && later == responses && OnlyDies(stop)
      && (HasReceipt(episode, old(ledger.View())) ==> HasReceipt(episode, ledger.View()))
  {
    ghost var st := ledger.View();
    var session := StartSession(ledger, episode, known, responses);
    ghost var ends := CanFinish(episode, st, known, responses);
    if ends {
      CanFinishStays(episode, st, ledger.View(), known, responses);
    }
    TracksStays(boundary, st, ledger.View());
    stop, later := Reconcile(ledger, boundary, episode, session, st, known, responses);
    CalledStays(executor.calls, st, ledger.View());
    if ends {
      StillComplete(episode, known.value, ledger.View(), responses, later);
    }
  }

  // ---- The journal of one session ----

  /** Open the episode in a session of its own: record it, or find it recorded. An episode
      that is open already always opens again, unless the host dies. */
  method OpenJournal(ledger: Ledger, boundary: Boundary, executor: Executor, episode: Episode,
                     ghost known: Option<Artifacts>, ghost responses: seq<Exchange>)
    returns (journal: Option<Journal>, stop: Ended, ghost now: Option<Artifacts>)
    requires ledger.Valid() && Stands(episode, ledger.View(), known, responses) && Counted(boundary, executor, ledger.View())
    modifies ledger
    ensures ledger.Valid() && Stands(episode, ledger.View(), now, responses) && Counted(boundary, executor, ledger.View())
    ensures Touches(old(ledger.View()), ledger.View(), OwnIds(episode.prefix)) && ledger.operations == old(ledger.operations)
    ensures known.Some? ==>
      && now == known && ledger.observations == old(ledger.observations)
      && (journal.None? ==> stop == Ended.Died)
    ensures journal.None? ==> !stop.Finished? && (stop.Died? ==> ledger.mortal)
    ensures journal.None? && stop.Halted? ==> EpisodeIsRefused(episode, ledger.View())
    ensures journal.Some? ==>
      && journal.value.ledger == ledger && journal.value.boundary == boundary && journal.value.episode == episode
      && now == Some(journal.value.inputs) && Hosted(journal.value, executor, responses)
  {
    journal, stop, now := None, Ended.Died, known;
    ghost var st := ledger.View();
    var session := StartSession(ledger, episode, known, responses);
    ghost var started := ledger.View();
    CountedStays(boundary, executor, st, started);
    if {
      case ledger.mortal => return;
      case true =>
    }
    var spec;
    spec, now := RecordEpisode(ledger, episode, session, known, responses);
    TouchesTransitive(st, started, ledger.View(), OwnIds(episode.prefix));
    CountedStays(boundary, executor, started, ledger.View());
    if spec.Err? {
      stop := Halted;
      return;
    }
    var live := new Journal(ledger, boundary, episode, session, One(Captured(spec.value, EPISODE_FILE)));
    journal := Some(live);
  }

  method RecordEpisode(ledger: Ledger, episode: Episode, session: string,
                       ghost known: Option<Artifacts>, ghost responses: seq<Exchange>)
    returns (spec: Outcomes<Observation>, ghost now: Option<Artifacts>)
    requires ledger.Valid() && session in ledger.sessions && Stands(episode, ledger.View(), known, responses)
    modifies ledger
    ensures ledger.Valid() && session in ledger.sessions && Stands(episode, ledger.View(), now, responses)
    ensures Touches(old(ledger.View()), ledger.View(), OwnIds(episode.prefix)) && ledger.operations == old(ledger.operations)
    ensures known.Some? ==> now == known && ledger.observations == old(ledger.observations) && spec.Ok?
    ensures spec.Err? ==> EpisodeIsRefused(episode, ledger.View())
    ensures spec.Ok? ==>
      EPISODE_FILE in spec.value.artifacts && now == Some(One(Captured(spec.value, EPISODE_FILE)))
  {
    ghost var st := ledger.View();
    EpisodeStepStands(episode, st, session, known, responses);
    if known.Some? {
      EpisodeRecordedAgain(episode, known.value, st, session, responses);
    }
    RecordedOrRefused(episode, st, session, known, responses);
    RecordOnce.StepExtends(st, session, EpisodeOrigin(episode), EpisodeRaw(episode));
    StepTouches(st, session, EpisodeOrigin(episode), EpisodeRaw(episode), OwnIds(episode.prefix));
    RecordOnce.StepKeeps(st, session, EpisodeOrigin(episode), EpisodeRaw(episode));
    spec := RecordOnce.Record(ledger, session, EpisodeOrigin(episode), EpisodeRaw(episode));
    now := if spec.Ok? then Some(One(Captured(spec.value, EPISODE_FILE))) else known;
  }

  lemma RecordedOrRefused(episode: Episode, st: Spec.State, session: string, known: Option<Artifacts>, responses: seq<Exchange>)
    requires Inv(st) && session in st.sessions && Progress(episode, st, known, responses)
    ensures var step := RecordOnce.Step(st, session, EpisodeOrigin(episode), EpisodeRaw(episode));
      step.out.Err? ==> step.st == st && EpisodeIsRefused(episode, st)
  {
    var origin, raw := EpisodeOrigin(episode), EpisodeRaw(episode);
    RecordOnce.StepEffect(st, session, origin, raw);
    assert IsRecordId(episode.prefix, origin.operationId);
    if !EpisodeIsRefused(episode, st) {
      RecordOnce.NoOperation(st, origin.operationId);
      assert EPISODE_FILE in raw && EPISODE_FILE[0] in EPISODE_FILE;
      RecordOnce.RecordsOrFinds(st, session, origin, raw);
    }
  }

  lemma EpisodeRecordedAgain(episode: Episode, inputs: Artifacts, st: Spec.State, session: string, responses: seq<Exchange>)
    requires Inv(st) && Progress(episode, st, Some(inputs), responses)
    ensures var step := RecordOnce.Step(st, session, EpisodeOrigin(episode), EpisodeRaw(episode));
      step.st == st && step.out.Ok?
  {
    var row: nat :| RecordOnce.IsRecord(st, row, EpisodeOrigin(episode), EpisodeRaw(episode))
                    && inputs == One(Captured(st.observations[row], EPISODE_FILE));
    assert IsRecordId(episode.prefix, EpisodeId(episode.prefix));
    RecordOnce.StepAgain(st, session, EpisodeOrigin(episode), EpisodeRaw(episode), row);
  }

  // ---- One run ----

  method Blocked(ledger: Ledger, scope: string) returns (blocked: bool)
    requires ledger.Valid()
    ensures blocked <==> !Unblocked(ledger.View(), scope)
  {
    var unknown := ledger.Unresolved(scope);
    if unknown.Ok? && unknown.value != [] {
      assert unknown.value[0] in unknown.value;
    }
    blocked := unknown.Err? || unknown.value != [];
  }

  /** Recording the result touches no batch. */
  method CloseBeside(journal: Journal, executor: Executor, history: seq<Reply>, result: Json, ghost responses: seq<Exchange>)
    returns (out: Outcomes<Observation>)
    requires Hosted(journal, executor, responses) && ResultAfter(journal.episode, responses) == Some(result)
    modifies journal.ledger
    ensures Hosted(journal, executor, responses) && Touches(old(journal.ledger.View()), journal.ledger.View(), OwnIds(journal.episode.prefix))
    ensures journal.ledger.operations == old(journal.ledger.operations)
    ensures ReceiptHolds(journal.episode, journal.inputs, old(journal.ledger.View())) ==>
      ReceiptHolds(journal.episode, journal.inputs, journal.ledger.View())
    ensures out.Ok? ==> HasReceipt(journal.episode, journal.ledger.View())
    ensures out.Err? ==> journal.ledger.View() == old(journal.ledger.View())
    ensures CanClose(journal.episode, old(journal.ledger.View())) ==> out.Ok?
  {
    ghost var st := journal.ledger.View();
    out := journal.Close(history, result, responses);
    WorkIsOwn(journal.episode.prefix);
    TouchesWider(st, journal.ledger.View(), JournalIds(journal.episode.prefix), OwnIds(journal.episode.prefix));
    JournalKeepsBatches(journal.episode, st, journal.ledger.View(), responses, responses);
    CalledStays(executor.calls, st, journal.ledger.View());
  }

  /** The run leaves no receipt of its own behind. */
  lemma WorkLeavesNoReceipt(episode: Episode, inputs: Artifacts, st: Spec.State, later: Spec.State)
    requires Touches(st, later, WorkIds(episode.prefix)) && !HasReceipt(episode, st)
    ensures !HasReceipt(episode, later) && ReceiptHolds(episode, inputs, later)
  {
    ReceiptIsNoWork(episode.prefix);
    forall k | 0 <= k < |later.observations|
      ensures later.observations[k].origin.operationId != ReceiptId(episode.prefix)
    {
      assert k < |st.observations| ==> st.observations[k] in st.observations;
    }
  }

  /** Run the agent and record the result it ends with. A run that has nothing left to do
      records its result, unless the host dies or a delivery fails. */
  method RunAndClose(journal: Journal, executor: Executor, ghost responses: seq<Exchange>)
    returns (stop: Option<Ended>, ghost later: seq<Exchange>)
    requires Hosted(journal, executor, responses) && Bounded(journal.episode)
    requires !HasReceipt(journal.episode, journal.ledger.View())
    modifies journal.ledger, journal.boundary`calls, journal.boundary`log, executor
    ensures Hosted(journal, executor, later) && Grew(journal.episode, responses, later)
    ensures Touches(old(journal.ledger.View()), journal.ledger.View(), OwnIds(journal.episode.prefix))
    ensures ReceiptHolds(journal.episode, journal.inputs, journal.ledger.View())
    ensures stop.None? ==> HasReceipt(journal.episode, journal.ledger.View())
    ensures stop.Some? ==> !stop.value.Finished? && (stop.value.Died? ==> MayDie(journal.ledger, journal.boundary))
    ensures stop == Some(Halted) ==> IsStuck(journal.episode, journal.ledger.View(), Some(journal.inputs), later)
    ensures Complete(journal.episode, responses) ==>
      && later == responses && journal.ledger.operations == old(journal.ledger.operations)
      && (PlainSnapshots(journal.ledger.project) ==> OnlyDies(stop))
  {
    ghost var st := journal.ledger.View();
    var out, history;
    out, history, later := RunAgent(journal, executor, responses);
    ghost var ended := journal.ledger.View();
    WorkLeavesNoReceipt(journal.episode, journal.inputs, st, ended);
    WorkIsOwn(journal.episode.prefix);
    TouchesWider(st, ended, WorkIds(journal.episode.prefix), OwnIds(journal.episode.prefix));
    if !out.Finished? {
      return Some(out), later;
    }
    if {
      case journal.ledger.mortal => return Some(Ended.Died), later;
      case true =>
    }
    CompleteIsDone(journal.episode, journal.inputs, ended, later);
    var closed := CloseBeside(journal, executor, history, out.result, later);
    TouchesTransitive(st, ended, journal.ledger.View(), OwnIds(journal.episode.prefix));
    stop := if closed.Err? then Some(Halted) else None;
  }

  /** Nothing keeps a run from ending with its recorded result. */
  ghost predicate CanFinish(episode: Episode, st: Spec.State, known: Option<Artifacts>, responses: seq<Exchange>) {
    && known.Some? && Complete(episode, responses) && Unblocked(st, episode.scope)
    && (HasReceipt(episode, st) || PlainSnapshots(st.project))
  }

  /** The same, when the checkpoint may say that the work is done. */
  ghost predicate CanEnd(episode: Episode, st: Spec.State, known: Option<Artifacts>, responses: seq<Exchange>, checkpointed: bool) {
    CanFinish(episode, st, known, responses) && (checkpointed ==> HasReceipt(episode, st))
  }

  /** Nothing keeps the recorded result from being read. */
  ghost predicate CanRead(episode: Episode, st: Spec.State, known: Option<Artifacts>) {
    known.Some? && HasReceipt(episode, st) && Unblocked(st, episode.scope)
  }

  lemma CanFinishStays(episode: Episode, st: Spec.State, later: Spec.State, known: Option<Artifacts>, responses: seq<Exchange>)
    requires CanFinish(episode, st, known, responses) && Extends(st, later) && later.operations == st.operations
    ensures CanFinish(episode, later, known, responses)
    ensures HasReceipt(episode, st) ==> HasReceipt(episode, later)
  {
    UnblockedStays(st, later, episode.scope);
    if HasReceipt(episode, st) {
      RecordOnce.FirstRecordStays(st.observations, later.observations, ReceiptId(episode.prefix));
    }
  }

  lemma FinishedReads(episode: Episode, inputs: Artifacts, st: Spec.State, responses: seq<Exchange>)
    requires UniqueIds(st.operations) && Traced(episode, inputs, st, responses) && Batched(episode, st, responses)
    requires ReceiptHolds(episode, inputs, st)
    ensures HasReceipt(episode, st) ==> ReceiptReads(episode, inputs, st)
  {
    if HasReceipt(episode, st) {
      ReceiptIsComplete(episode, inputs, st, responses);
      var row := RecordOnce.FirstRecord(st.observations, ReceiptId(episode.prefix)).value;
      assert st.observations[row] in st.observations;
    }
  }

  /** The checkpointed step: a finished episode is only read; otherwise its agent runs. */
  method Work(ledger: Ledger, boundary: Boundary, executor: Executor, episode: Episode,
              ghost known: Option<Artifacts>, ghost responses: seq<Exchange>)
    returns (stop: Option<Ended>, ghost now: Option<Artifacts>, ghost later: seq<Exchange>)
    requires ledger.Valid() && Bounded(episode)
    requires Stands(episode, ledger.View(), known, responses) && Counted(boundary, executor, ledger.View())
    modifies ledger, boundary`calls, boundary`log, executor
    ensures ledger.Valid() && Stands(episode, ledger.View(), now, later) && Counted(boundary, executor, ledger.View())
    ensures Touches(old(ledger.View()), ledger.View(), OwnIds(episode.prefix))
    ensures Grew(episode, responses, later) && (known.Some? ==> now == known)
    ensures stop.None? ==> now.Some? && HasReceipt(episode, ledger.View())
    ensures stop.Some? ==> !stop.value.Finished? && (stop.value.Died? ==> MayDie(ledger, boundary))
    ensures stop == Some(Halted) ==> IsStuck(episode, ledger.View(), now, later)
    ensures CanFinish(episode, old(ledger.View()), known, responses) ==>
      later == responses && ledger.operations == old(ledger.operations) && OnlyDies(stop)
  {
    ghost var st := ledger.View();
    now, later := known, responses;
    TouchesNothing(st, OwnIds(episode.prefix));
    var blocked := Blocked(ledger, episode.scope);
    if blocked {
      return Some(Halted), now, later;
    }
    var live, failed;
    live, failed, now := OpenJournal(ledger, boundary, executor, episode, known, responses);
    if live.None? {
      return Some(failed), now, later;
    }
    ghost var ready := ledger.View();
    if {
      case ledger.mortal =>
        stop := Some(Ended.Died);
      case true =>
        stop, later := ReadOrRun(live.value, executor, responses);
        TouchesTransitive(st, ready, ledger.View(), OwnIds(episode.prefix));
    }
  }

  /** The recorded result, which can always be read while the receipt holds. */
  method FindResult(journal: Journal, ghost executor: Executor, ghost responses: seq<Exchange>) returns (result: Option<Json>)
    requires Hosted(journal, executor, responses) && ReceiptHolds(journal.episode, journal.inputs, journal.ledger.View())
    ensures result.Some? <==> HasReceipt(journal.episode, journal.ledger.View())
    ensures result.Some? ==> result == ResultAfter(journal.episode, responses)
  {
    FinishedReads(journal.episode, journal.inputs, journal.ledger.View(), responses);
    var receipt := journal.Receipt(responses);
    result := if receipt.Ok? then receipt.value else None;
  }

  method ReadOrRun(journal: Journal, executor: Executor, ghost responses: seq<Exchange>)
    returns (stop: Option<Ended>, ghost later: seq<Exchange>)
    requires Hosted(journal, executor, responses) && Bounded(journal.episode)
    requires ReceiptHolds(journal.episode, journal.inputs, journal.ledger.View())
    modifies journal.ledger, journal.boundary`calls, journal.boundary`log, executor
    ensures Hosted(journal, executor, later) && Grew(journal.episode, responses, later)
    ensures ReceiptHolds(journal.episode, journal.inputs, journal.ledger.View())
    ensures Touches(old(journal.ledger.View()), journal.ledger.View(), OwnIds(journal.episode.prefix))
    ensures stop.None? ==> HasReceipt(journal.episode, journal.ledger.View())
    ensures stop.Some? ==> !stop.value.Finished? && (stop.value.Died? ==> MayDie(journal.ledger, journal.boundary))
    ensures stop == Some(Halted) ==> IsStuck(journal.episode, journal.ledger.View(), Some(journal.inputs), later)
    ensures Complete(journal.episode, responses) ==>
      && later == responses && journal.ledger.operations == old(journal.ledger.operations)
      && (HasReceipt(journal.episode, old(journal.ledger.View())) || PlainSnapshots(journal.ledger.project) ==>
            OnlyDies(stop))
  {
    stop, later := None, responses;
    TouchesNothing(journal.ledger.View(), OwnIds(journal.episode.prefix));
    var recorded := FindResult(journal, executor, responses);
    if recorded.None? {
      stop, later := RunAndClose(journal, executor, responses);
    }
  }

  /** What the host returns in the end is read from the ledger once more. */
  method ReadResult(ledger: Ledger, boundary: Boundary, executor: Executor, episode: Episode,
                    ghost known: Option<Artifacts>, ghost responses: seq<Exchange>)
    returns (out: Ended, ghost now: Option<Artifacts>)
    requires ledger.Valid()
    requires Stands(episode, ledger.View(), known, responses) && Counted(boundary, executor, ledger.View())
    modifies ledger
    ensures ledger.Valid() && Stands(episode, ledger.View(), now, responses) && Counted(boundary, executor, ledger.View())
    ensures Touches(old(ledger.View()), ledger.View(), OwnIds(episode.prefix)) && (known.Some? ==> now == known)
    ensures out.Finished? ==> ResultAfter(episode, responses) == Some(out.result)
    ensures out.Halted? ==> IsStuck(episode, ledger.View(), now, responses) || !HasReceipt(episode, ledger.View())
    ensures out.Died? ==> ledger.mortal
    ensures CanRead(episode, old(ledger.View()), known) ==> out == Ended.Died || out.Finished?
  {
    now := known;
    TouchesNothing(ledger.View(), OwnIds(episode.prefix));
    if {
      case ledger.mortal => return Ended.Died, now;
      case true =>
    }
    var blocked := Blocked(ledger, episode.scope);
    if blocked {
      return Halted, now;
    }
    var live, failed;
    live, failed, now := OpenJournal(ledger, boundary, executor, episode, known, responses);
    if live.None? {
      return failed, now;
    }
    var recorded := FindResult(live.value, executor, responses);
    out := if recorded.Some? then Finished(recorded.value) else Halted;
  }

  /** Go on with the episode, unless something unknown blocks its scope. A checkpoint that
      says its work is done only skips that work: the result is read from the ledger. */
  method Advance(ledger: Ledger, boundary: Boundary, executor: Executor, episode: Episode, checkpointed: bool,
                 ghost known: Option<Artifacts>, ghost responses: seq<Exchange>)
    returns (out: Ended, ghost now: Option<Artifacts>, ghost later: seq<Exchange>)
    requires ledger.Valid() && Bounded(episode)
    requires Stands(episode, ledger.View(), known, responses) && Counted(boundary, executor, ledger.View())
    modifies ledger, boundary`calls, boundary`log, executor
    ensures ledger.Valid() && Stands(episode, ledger.View(), now, later) && Counted(boundary, executor, ledger.View())
    ensures Touches(old(ledger.View()), ledger.View(), OwnIds(episode.prefix))
    ensures Grew(episode, responses, later) && (known.Some? ==> now == known)
    ensures out.Finished? ==> ResultAfter(episode, later) == Some(out.result)
    ensures out.Halted? ==> IsStuck(episode, ledger.View(), now, later) || (checkpointed && !HasReceipt(episode, ledger.View()))
    ensures out.Died? ==> MayDie(ledger, boundary)
    ensures !Unblocked(old(ledger.View()), episode.scope) ==>
      out == Halted && ledger.View() == old(ledger.View()) && boundary.calls == old(boundary.calls)
      && executor.calls == old(executor.calls)
    ensures CanEnd(episode, old(ledger.View()), known, responses, checkpointed) ==>
      later == responses && (out == Ended.Died || out.Finished?)
  {
    now, later := known, responses;
    ghost var st := ledger.View();
    TouchesNothing(st, OwnIds(episode.prefix));
    var blocked := Blocked(ledger, episode.scope);
    if blocked {
      return Halted, now, later;
    }
    var live, failed;
    live, failed, now := OpenJournal(ledger, boundary, executor, episode, known, responses);
    if live.None? {
      return failed, now, later;
    }
    if CanEnd(episode, st, known, responses, checkpointed) {
      CanFinishStays(episode, st, ledger.View(), known, responses);
    }
    if {
      case ledger.mortal => return Ended.Died, now, later;
      case true =>
    }
    ghost var ready := ledger.View();
    out, now, later := WorkAndRead(ledger, boundary, executor, episode, checkpointed, now, responses);
    TouchesTransitive(st, ready, ledger.View(), OwnIds(episode.prefix));
  }

  /** The work, unless a checkpoint says it is done, and then the result. */
  method WorkAndRead(ledger: Ledger, boundary: Boundary, executor: Executor, episode: Episode, checkpointed: bool,
                     ghost known: Option<Artifacts>, ghost responses: seq<Exchange>)
    returns (out: Ended, ghost now: Option<Artifacts>, ghost later: seq<Exchange>)
    requires ledger.Valid() && Bounded(episode)
    requires Stands(episode, ledger.View(), known, responses) && Counted(boundary, executor, ledger.View())
    modifies ledger, boundary`calls, boundary`log, executor
    ensures ledger.Valid() && Stands(episode, ledger.View(), now, later) && Counted(boundary, executor, ledger.View())
    ensures Touches(old(ledger.View()), ledger.View(), OwnIds(episode.prefix))
    ensures Grew(episode, responses, later) && (known.Some? ==> now == known)
    ensures out.Finished? ==> ResultAfter(episode, later) == Some(out.result)
    ensures out.Halted? ==> IsStuck(episode, ledger.View(), now, later) || (checkpointed && !HasReceipt(episode, ledger.View()))
    ensures out.Died? ==> MayDie(ledger, boundary)
    ensures CanEnd(episode, old(ledger.View()), known, responses, checkpointed) ==>
      later == responses && (out == Ended.Died || out.Finished?)
  {
    ghost var st := ledger.View();
    var stop;
    stop, now, later := WorkUnless(ledger, boundary, executor, episode, checkpointed, known, responses);
    ghost var worked := ledger.View();
    TouchesNothing(worked, OwnIds(episode.prefix));
    if stop.Some? {
      out := stop.value;
    } else {
      out, now := ReadResult(ledger, boundary, executor, episode, now, later);
    }
    TouchesTransitive(st, worked, ledger.View(), OwnIds(episode.prefix));
  }

  method WorkUnless(ledger: Ledger, boundary: Boundary, executor: Executor, episode: Episode, done: bool,
                    ghost known: Option<Artifacts>, ghost responses: seq<Exchange>)
    returns (stop: Option<Ended>, ghost now: Option<Artifacts>, ghost later: seq<Exchange>)
    requires ledger.Valid() && Bounded(episode)
    requires Stands(episode, ledger.View(), known, responses) && Counted(boundary, executor, ledger.View())
    modifies ledger, boundary`calls, boundary`log, executor
    ensures ledger.Valid() && Stands(episode, ledger.View(), now, later) && Counted(boundary, executor, ledger.View())
    ensures Touches(old(ledger.View()), ledger.View(), OwnIds(episode.prefix))
    ensures Grew(episode, responses, later) && (known.Some? ==> now == known)
    ensures stop.Some? ==> !stop.value.Finished? && (stop.value.Died? ==> MayDie(ledger, boundary))
    ensures stop == Some(Halted) ==> IsStuck(episode, ledger.View(), now, later)
    ensures stop.None? ==> done || HasReceipt(episode, ledger.View())
    ensures CanEnd(episode, old(ledger.View()), known, responses, done) ==>
      later == responses && OnlyDies(stop) && (stop.None? ==> CanRead(episode, ledger.View(), now))
  {
    ghost var st := ledger.View();
    if done {
      TouchesNothing(st, OwnIds(episode.prefix));
      return None, known, responses;
    }
    stop, now, later := Work(ledger, boundary, executor, episode, known, responses);
    if CanFinish(episode, st, known, responses) {
      NowReadable(episode, st, ledger.View(), known, responses);
    }
  }

  lemma NowReadable(episode: Episode, st: Spec.State, later: Spec.State, known: Option<Artifacts>, responses: seq<Exchange>)
    requires CanFinish(episode, st, known, responses) && Extends(st, later) && later.operations == st.operations
    ensures HasReceipt(episode, later) ==> CanRead(episode, later, known)
  {
    UnblockedStays(st, later, episode.scope);
  }

  /** Run or resume one bounded episode: after any number of crashed runs before it, every
      slot has been called at most once, the recorded exchanges have only been added to,
      each is what came back to exactly its payload or what the host was told when it
      reconciled, and a result is the one an uninterrupted run of the agent gives on them.
      Once they lead to a result, every unblocked run ends with it, unless the host dies or
      a delivery fails. */
  method RunWorkflow(ledger: Ledger, boundary: Boundary, executor: Executor, episode: Episode, reconcile: bool, checkpointed: bool,
                     ghost known: Option<Artifacts>, ghost responses: seq<Exchange>)
    returns (out: Ended, ghost now: Option<Artifacts>, ghost later: seq<Exchange>)
    requires ledger.Valid() && Bounded(episode)
    requires Stands(episode, ledger.View(), known, responses) && Counted(boundary, executor, ledger.View())
    modifies ledger, boundary`calls, boundary`log, executor, if reconcile then {boundary} else {}
    ensures ledger.Valid() && Stands(episode, ledger.View(), now, later) && Counted(boundary, executor, ledger.View())
    ensures Works(episode.prefix, old(ledger.View()), ledger.View())
    ensures Grew(episode, responses, later) && (known.Some? ==> now == known)
    ensures out.Finished? ==>
      ResultAfter(episode, later) == Some(out.result) && Uninterrupted(episode, [], later) == Some(out.result)
    ensures out.Halted? ==> EndsStuck(episode, ledger.View(), now, later, checkpointed, reconcile, boundary.told)
    ensures out.Died? ==> MayDie(ledger, boundary)
    ensures reconcile && !out.Died? ==>
      HasReconciled(out.Halted?, old(ledger.View()), ledger.View(), episode.scope, old(boundary.told), boundary.told, boundary.asked)
    ensures AllCameBack(episode, later, boundary.log, boundary.told)
    ensures out.Finished? && Complete(episode, responses) ==> Some(out.result) == ResultAfter(episode, responses)
    ensures !reconcile && !Unblocked(old(ledger.View()), episode.scope) ==>
      out == Halted && ledger.View() == old(ledger.View()) && boundary.calls == old(boundary.calls)
      && executor.calls == old(executor.calls)
    ensures CanEnd(episode, old(ledger.View()), known, responses, checkpointed) ==>
      out == Ended.Died || out == Finished(ResultAfter(episode, responses).value)
  {
    out, now, later := Resume(ledger, boundary, executor, episode, reconcile, checkpointed, known, responses);
    ExchangesCameBack(episode, ledger.View(), now, later, boundary);
    if out.Finished? {
      FinalResult(episode, ledger.View(), now, responses, later, out.result);
    }
  }

  /** Go on from a ledger that was only settled since `start`. */
  method AdvanceFrom(ledger: Ledger, boundary: Boundary, executor: Executor, episode: Episode, checkpointed: bool,
                     ghost start: Spec.State, ghost known: Option<Artifacts>, ghost responses: seq<Exchange>, ghost before: Told)
    returns (out: Ended, ghost now: Option<Artifacts>, ghost later: seq<Exchange>)
    requires ledger.Valid() && Bounded(episode)
    requires Stands(episode, ledger.View(), known, responses) && Counted(boundary, executor, ledger.View())
    requires IsReconciled(start, ledger.View(), episode.scope, before, boundary.told, boundary.asked)
    modifies ledger, boundary`calls, boundary`log, executor
    ensures ledger.Valid() && Stands(episode, ledger.View(), now, later) && Counted(boundary, executor, ledger.View())
    ensures Touches(old(ledger.View()), ledger.View(), OwnIds(episode.prefix))
    ensures Grew(episode, responses, later) && (known.Some? ==> now == known)
    ensures out.Finished? ==> ResultAfter(episode, later) == Some(out.result)
    ensures out.Halted? ==> IsStuck(episode, ledger.View(), now, later) || (checkpointed && !HasReceipt(episode, ledger.View()))
    ensures out.Died? ==> MayDie(ledger, boundary)
    ensures IsReconciled(start, ledger.View(), episode.scope, before, boundary.told, boundary.asked)
    ensures CanEnd(episode, old(ledger.View()), known, responses, checkpointed) ==>
      later == responses && (out == Ended.Died || out.Finished?)
  {
    ghost var ready := ledger.View();
    out, now, later := Advance(ledger, boundary, executor, episode, checkpointed, known, responses);
    ReconciledStays(start, ready, ledger.View(), episode.scope, before, boundary.told, boundary.asked);
  }

  method SettleAndAdvance(ledger: Ledger, boundary: Boundary, executor: Executor, episode: Episode, checkpointed: bool,
                          ghost known: Option<Artifacts>, ghost responses: seq<Exchange>)
    returns (out: Ended, ghost now: Option<Artifacts>, ghost later: seq<Exchange>)
    requires ledger.Valid() && Bounded(episode)
    requires Stands(episode, ledger.View(), known, responses) && Counted(boundary, executor, ledger.View())
    modifies ledger, boundary, executor
    ensures ledger.Valid() && Stands(episode, ledger.View(), now, later) && Counted(boundary, executor, ledger.View())
    ensures Works(episode.prefix, old(ledger.View()), ledger.View())
    ensures Grew(episode, responses, later) && (known.Some? ==> now == known)
    ensures out.Finished? ==> ResultAfter(episode, later) == Some(out.result)
    ensures out.Halted? ==> EndsStuck(episode, ledger.View(), now, later, checkpointed, true, boundary.told)
    ensures out.Died? ==> MayDie(ledger, boundary)
    ensures !out.Died? ==>
      HasReconciled(out.Halted?, old(ledger.View()), ledger.View(), episode.scope, old(boundary.told), boundary.told, boundary.asked)
    ensures CanEnd(episode, old(ledger.View()), known, responses, checkpointed) ==>
      later == responses && (out == Ended.Died || out.Finished?)
  {
    ghost var st, told := ledger.View(), boundary.told;
    var stop;
    stop, later := StartAndReconcile(ledger, boundary, executor, episode, known, responses);
    if stop.Some? {
      TouchesNothing(ledger.View(), OwnIds(episode.prefix));
      WorksAfter(episode.prefix, st, ledger.View(), ledger.View());
      return stop.value, known, later;
    }
    ghost var settled, ready := later, ledger.View();
    out, now, later := AdvanceFrom(ledger, boundary, executor, episode, checkpointed, st, known, settled, told);
    WorksAfter(episode.prefix, st, ready, ledger.View());
    GrewTransitive(episode, responses, settled, later);
  }

  method Resume(ledger: Ledger, boundary: Boundary, executor: Executor, episode: Episode, reconcile: bool, checkpointed: bool,
                ghost known: Option<Artifacts>, ghost responses: seq<Exchange>)
    returns (out: Ended, ghost now: Option<Artifacts>, ghost later: seq<Exchange>)
    requires ledger.Valid() && Bounded(episode)
    requires Stands(episode, ledger.View(), known, responses) && Counted(boundary, executor, ledger.View())
    modifies ledger, boundary`calls, boundary`log, executor, if reconcile then {boundary} else {}
    ensures ledger.Valid() && Stands(episode, ledger.View(), now, later) && Counted(boundary, executor, ledger.View())
    ensures Works(episode.prefix, old(ledger.View()), ledger.View())
    ensures Grew(episode, responses, later) && (known.Some? ==> now == known)
    ensures out.Finished? ==> ResultAfter(episode, later) == Some(out.result)
    ensures out.Halted? ==> EndsStuck(episode, ledger.View(), now, later, checkpointed, reconcile, boundary.told)
    ensures out.Died? ==> MayDie(ledger, boundary)
    ensures reconcile && !out.Died? ==>
      HasReconciled(out.Halted?, old(ledger.View()), ledger.View(), episode.scope, old(boundary.told), boundary.told, boundary.asked)
    ensures !reconcile && !Unblocked(old(ledger.View()), episode.scope) ==>
      out == Halted && ledger.View() == old(ledger.View()) && boundary.calls == old(boundary.calls)
      && executor.calls == old(executor.calls)
    ensures CanEnd(episode, old(ledger.View()), known, responses, checkpointed) ==>
      later == responses && (out == Ended.Died || out.Finished?)
  {
    if reconcile {
      out, now, later := SettleAndAdvance(ledger, boundary, executor, episode, checkpointed, known, responses);
    } else {
      ghost var st := ledger.View();
      out, now, later := Advance(ledger, boundary, executor, episode, checkpointed, known, responses);
      SettlesNothing(st);
      WorksAfter(episode.prefix, st, st, ledger.View());
    }
  }

  lemma WorksAfter(prefix: string, st: Spec.State, settled: Spec.State, later: Spec.State)
    requires Settles(st, settled) && Touches(settled, later, OwnIds(prefix))
    ensures Works(prefix, st, later)
  {
  }

  lemma StillComplete(episode: Episode, inputs: Artifacts, st: Spec.State, responses: seq<Exchange>, later: seq<Exchange>)
    requires Complete(episode, responses) && Grew(episode, responses, later) && Stands(episode, st, Some(inputs), later)
    ensures later == responses
  {
    FinishedIsFinal(episode, inputs, st, responses, later);
  }
}
