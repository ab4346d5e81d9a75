/** Running the agent of an episode from the start, as often as it takes. */
module WorkerRun {
  import opened Records
  import opened Names
  import opened Slots
  import Spec = LedgerSpec
  import opened LedgerInvariant
  import opened LedgerSafety
  import opened LedgerStore
  import opened Calls
  import opened Evidences
  import opened WorkerSpec
  import opened WorkerReplay
  import opened WorkerSteps
  import opened Touching
  import opened Batches
  import Operations = OperationsSpec
  import opened OperationsHost
  import Rules = OperationsRules
  import opened WorkerHost
  import opened WorkerBatches

  /** What a query or an action gives the agent, or why the run stops there: an
      exception or a refusal, or the death of the host. */
  datatype Answer = Heard(reply: Reply) | Stopped | Cut

  function Answering(reply: Option<Reply>): Answer {
    if reply.Some? then Heard(reply.value) else Stopped
  }

  /** The tool output asks for a batch, and one of its items is hindered. */
  ghost predicate AskIsStuck(episode: Episode, st: Spec.State, done: Completion, index: nat) {
    var batch := Asked(episode, done, index);
    batch.Some? && BatchIsStuck(st, batch.value)
  }

  ghost predicate BatchIsStuck(st: Spec.State, batch: Operations.Batch) {
    exists i: nat :: Operations.Runs(batch, i) && Rules.Hindered(st, batch, i)
  }

  /** Why a run stops after these exchanges: its next attempt is hindered, or the last one
      gave nothing to go on with, because it failed or its batch is hindered. */
  ghost predicate StuckAt(episode: Episode, inputs: Artifacts, st: Spec.State, responses: seq<Exchange>, k: nat) {
    && k <= |responses| && NextTurn(episode, responses[..k]).Some?
    && var turn := NextTurn(episode, responses[..k]).value;
    && if k == |responses| then TurnHindered(episode, inputs, st, turn)
       else match turn.kind
            case Model => ModelReply(responses[k].done).None?
            case Tool => ReadTool(responses[k].done).Unread? || AskIsStuck(episode, st, responses[k].done, turn.index)
  }

  lemma AnsweredPrefix(responses: seq<Exchange>, later: seq<Exchange>, k: nat)
    requires Answered(responses, later) && k <= |responses|
    ensures k <= |later| && later[..k] == responses[..k]
  {
  }

  /** One recorded raw response per query, no retry loop. */
  class WorkerModel {
    const journal: Journal
    var index: nat

    constructor (journal: Journal)
      ensures this.journal == journal && index == 0
    {
      this.journal, index := journal, 0;
    }

    method Query(messages: Json, ghost responses: seq<Exchange>, ghost k: nat) returns (out: Answer, ghost later: seq<Exchange>)
      requires journal.Live(responses) && index <= k <= |responses|
      requires NextTurn(journal.episode, responses[..k]) == TurnOf(Move.Query(messages), index, k - index)
      modifies this, journal.ledger, journal.boundary`calls, journal.boundary`log
      ensures index == old(index) + 1
      ensures journal.Live(later)
      ensures Touches(old(journal.ledger.View()), journal.ledger.View(), AttemptIds(journal.episode.prefix))
      ensures Answered(responses, later) && (k < |responses| ==> later == responses)
      ensures out.Heard? ==> k < |later| && ModelReply(later[k].done) == Some(out.reply)
      ensures out.Stopped? ==> StuckAt(journal.episode, journal.inputs, journal.ledger.View(), later, k)
      ensures out.Cut? ==> MayDie(journal.ledger, journal.boundary)
      ensures k < |responses| ==>
        && journal.ledger.View() == old(journal.ledger.View()) && journal.boundary.calls == old(journal.boundary.calls)
        && (out == Cut || out == Answering(ModelReply(responses[k].done)))
    {
      index := index + 1;
      out, later := Ask(Turn(Model, index, Obj(map["messages" := messages])), responses, k);
    }

    method Ask(turn: Turn, ghost responses: seq<Exchange>, ghost k: nat) returns (out: Answer, ghost later: seq<Exchange>)
      requires journal.Live(responses) && k <= |responses|
      requires NextTurn(journal.episode, responses[..k]) == Some(turn) && turn.kind == Model
      modifies journal.ledger, journal.boundary`calls, journal.boundary`log
      ensures journal.Live(later)
      ensures Touches(old(journal.ledger.View()), journal.ledger.View(), AttemptIds(journal.episode.prefix))
      ensures Answered(responses, later) && (k < |responses| ==> later == responses)
      ensures out.Heard? ==> k < |later| && ModelReply(later[k].done) == Some(out.reply)
      ensures out.Stopped? ==> StuckAt(journal.episode, journal.inputs, journal.ledger.View(), later, k)
      ensures out.Cut? ==> MayDie(journal.ledger, journal.boundary)
      ensures k < |responses| ==>
        && journal.ledger.View() == old(journal.ledger.View()) && journal.boundary.calls == old(journal.boundary.calls)
        && (out == Cut || out == Answering(ModelReply(responses[k].done)))
    {
      var call;
      call, later := journal.Attempt(turn, responses, k);
      if call.Crashed? {
        return Cut, later;
      }
      AnsweredPrefix(responses, later, k);
      if !call.Returned? || call.done.result.outcome != Succeeded || "response" !in call.done.observation.artifacts {
        return Stopped, later;
      }
      var raw := call.done.observation.artifacts["response"];
      out := Heard(Said(raw, CommandOf(raw)));
    }
  }

  // ---- Batches beside the journal ----

  /** The journal is live, the batches are as their host left them, and every execution
      was under a dispatch marker of its own. */
  ghost predicate Hosted(journal: Journal, executor: Executor, responses: seq<Exchange>)
    reads journal.ledger, journal.boundary, executor
  {
    && journal.Live(responses)
    && Batched(journal.episode, journal.ledger.View(), responses)
    && Called(executor.calls, journal.ledger.View())
  }

  /** What the journal did leaves the batches as they are. */
  lemma JournalKeepsBatches(episode: Episode, st: Spec.State, later: Spec.State, responses: seq<Exchange>, now: seq<Exchange>)
    requires UniqueIds(later.operations) && Touches(st, later, JournalIds(episode.prefix))
    requires forall op | op in later.operations :: !IsRecordId(episode.prefix, op.Id())
    requires Batched(episode, st, responses) && Answered(responses, now)
    ensures Batched(episode, later, now)
  {
    JournalStaysBatched(episode, st, later, responses);
    if now != responses {
      AnswerStaysBatched(episode, later, responses, now[|responses|].done);
      assert now == responses + [Unshown(now[|responses|].done)];
    }
  }

  /** What an attempt did leaves the batches as they are. */
  lemma AttemptKeepsBatches(episode: Episode, st: Spec.State, later: Spec.State, responses: seq<Exchange>, now: seq<Exchange>)
    requires UniqueIds(later.operations) && Touches(st, later, AttemptIds(episode.prefix))
    requires forall op | op in later.operations :: !IsRecordId(episode.prefix, op.Id())
    requires Batched(episode, st, responses) && Answered(responses, now)
    ensures Batched(episode, later, now) && Touches(st, later, WorkIds(episode.prefix))
  {
    AttemptsAreNoReceipts(episode.prefix);
    AttemptIsWork(episode.prefix);
    TouchesWider(st, later, AttemptIds(episode.prefix), JournalIds(episode.prefix));
    TouchesWider(st, later, AttemptIds(episode.prefix), WorkIds(episode.prefix));
    JournalKeepsBatches(episode, st, later, responses, now);
  }

  /** Only the last exchange can still await its batch. */
  lemma EarlierIsShown(episode: Episode, inputs: Artifacts, st: Spec.State, responses: seq<Exchange>, k: nat)
    requires Traced(episode, inputs, st, responses) && k < |responses|
    requires BatchAt(episode, responses, k).Some? && responses[k].shown.None?
    ensures Awaiting(episode, responses) && k == |responses| - 1
  {
    if k < |responses| - 1 {
      SettledHasTurn(episode, inputs, st, responses, k + 1);
      AwaitedPrefix(episode, responses, k);
    }
  }

  ghost predicate IsToolTurn(episode: Episode, responses: seq<Exchange>, k: nat, index: nat)
    requires k <= |responses|
  {
    var turn := NextTurn(episode, responses[..k]);
    turn.Some? && turn.value.kind == Tool && turn.value.index == index
  }

  predicate Asks(done: Completion, text: Bytes) {
    ReadTool(done).Asking? && ReadTool(done).text == text
  }

  /** A request asks for a batch, which is what it shows; or it is answered at once. */
  lemma AskedOrAnswered(episode: Episode, done: Completion, text: Bytes, index: nat, shown: Option<seq<Json>>)
    requires Asks(done, text)
    ensures var answer := HostResults(episode.offer, text, shown);
      if Asked(episode, done, index).Some? then episode.offer.Some? && answer == shown
      else answer.Some? && answer == HostResults(episode.offer, text, None)
  {
  }

  /** An attempt touches no batch. */
  method AttemptBeside(journal: Journal, ghost executor: Executor, turn: Turn, ghost responses: seq<Exchange>, ghost k: nat)
    returns (out: Call, ghost later: seq<Exchange>)
    requires Hosted(journal, executor, responses) && k <= |responses|
    requires NextTurn(journal.episode, responses[..k]) == Some(turn)
    modifies journal.ledger, journal.boundary`calls, journal.boundary`log
    ensures Hosted(journal, executor, later) && Touches(old(journal.ledger.View()), journal.ledger.View(), WorkIds(journal.episode.prefix))
    ensures Answered(responses, later) && (k < |responses| ==> later == responses)
    ensures out.Returned? ==> k < |later| && out.done == later[k].done
    ensures out.Refused? ==> later == responses && TurnHindered(journal.episode, journal.inputs, journal.ledger.View(), turn)
    ensures out.Crashed? ==> MayDie(journal.ledger, journal.boundary)
    ensures k < |responses| ==>
      && (out == Crashed || out == Returned(responses[k].done))
      && journal.ledger.View() == old(journal.ledger.View()) && journal.boundary.calls == old(journal.boundary.calls)
  {
    ghost var st := journal.ledger.View();
    out, later := journal.Attempt(turn, responses, k);
    AttemptKeepsBatches(journal.episode, st, journal.ledger.View(), responses, later);
    CalledStays(executor.calls, st, journal.ledger.View());
  }

  /** Submissions and requests are read only after their capture. */
  class WorkerEnvironment {
    const journal: Journal
    const executor: Executor
    var index: nat

    constructor (journal: Journal, executor: Executor)
      ensures this.journal == journal && this.executor == executor && index == 0
    {
      this.journal, this.executor, index := journal, executor, 0;
    }

    ghost predicate Serving(batch: Operations.Batch)
      reads journal.ledger, executor
    {
      && journal.ledger.Valid() && journal.session in journal.ledger.sessions
      && Operations.BatchOk(journal.ledger.View(), batch) && Called(executor.calls, journal.ledger.View())
    }

    /** The host's service for one batch, which shows `known` already, if anything. */
    method Serve(batch: Operations.Batch, offer: Offer, ghost known: Option<seq<Operations.ItemResult>>)
      returns (display: Display, ended: Ending, ghost results: seq<Operations.ItemResult>)
      requires Serving(batch) && (known.Some? ==> FullyShown(journal.ledger.View(), batch, known.value))
      modifies journal.ledger, executor
      ensures Serving(batch) && Touches(old(journal.ledger.View()), journal.ledger.View(), Operations.IdsOf(batch))
      ensures display == Displayed(offer, index, results)
      ensures ended.Whole? ==> FullyShown(journal.ledger.View(), batch, results)
      ensures ended.Partial? ==> BatchIsStuck(journal.ledger.View(), batch)
      ensures ended.Dead? ==> journal.ledger.mortal
      ensures known.Some? ==>
        && journal.ledger.View() == old(journal.ledger.View()) && executor.calls == old(executor.calls) && !ended.Partial?
    {
      var requests := new Requests(journal.ledger, executor, journal.session, batch, offer, index);
      ghost var refused;
      display, ended, results, refused := requests.Handle(known);
    }

    /** The same for the batch of one exchange, which shows what the exchange has shown. */
    method ServeAgain(batch: Operations.Batch, offer: Offer, ghost responses: seq<Exchange>, ghost k: nat)
      returns (display: Display, ended: Ending, ghost results: seq<Operations.ItemResult>)
      requires journal.ledger.Valid() && journal.session in journal.ledger.sessions
      requires Called(executor.calls, journal.ledger.View()) && Batched(journal.episode, journal.ledger.View(), responses)
      requires k < |responses| && BatchAt(journal.episode, responses, k) == Some(batch)
      modifies journal.ledger, executor
      ensures Serving(batch) && Touches(old(journal.ledger.View()), journal.ledger.View(), Operations.IdsOf(batch))
      ensures display == Displayed(offer, index, results)
      ensures ended.Whole? ==> FullyShown(journal.ledger.View(), batch, results)
      ensures ended.Partial? ==> BatchIsStuck(journal.ledger.View(), batch)
      ensures ended.Dead? ==> journal.ledger.mortal
      ensures responses[k].shown.Some? ==>
        && journal.ledger.View() == old(journal.ledger.View()) && executor.calls == old(executor.calls) && !ended.Partial?
    {
      ghost var known := KnownResults(journal.episode, journal.ledger.View(), responses, k);
      display, ended, results := Serve(batch, offer, known);
    }

    /** Serving a batch keeps the recorded trajectory and the other batches, and shows what
        it has shown already. */
    method ServeBeside(batch: Operations.Batch, offer: Offer, ghost responses: seq<Exchange>, ghost k: nat)
      returns (display: Display, ended: Ending, ghost results: seq<Operations.ItemResult>)
      requires Hosted(journal, executor, responses) && k < |responses| && BatchAt(journal.episode, responses, k) == Some(batch)
      modifies journal.ledger, executor
      ensures Hosted(journal, executor, responses) && Operations.BatchOk(journal.ledger.View(), batch)
      ensures Touches(old(journal.ledger.View()), journal.ledger.View(), WorkIds(journal.episode.prefix))
      ensures display == Displayed(offer, index, results)
      ensures ended.Whole? ==> FullyShown(journal.ledger.View(), batch, results)
      ensures ended.Partial? ==> BatchIsStuck(journal.ledger.View(), batch)
      ensures ended.Dead? ==> journal.ledger.mortal
      ensures responses[k].shown.Some? ==>
        && journal.ledger.View() == old(journal.ledger.View()) && executor.calls == old(executor.calls) && !ended.Partial?
    {
      ghost var st := journal.ledger.View();
      display, ended, results := ServeAgain(batch, offer, responses, k);
      BatchHandled(journal.episode, journal.inputs, st, journal.ledger.View(), responses, k, batch);
      BatchHasIndex(journal.episode, responses, k);
      HandlingSettlesNoAttempt(journal.episode.prefix, NextTurn(journal.episode, responses[..k]).value.index, batch,
                               st, journal.ledger.View());
      TracksStays(journal.boundary, st, journal.ledger.View());
    }

    /** Handle the batch of one exchange, from wherever earlier runs left it. */
    method HandleBatch(batch: Operations.Batch, offer: Offer, ghost responses: seq<Exchange>, ghost k: nat)
      returns (display: Display, ended: Ending, ghost later: seq<Exchange>)
      requires Hosted(journal, executor, responses) && k < |responses|
      requires BatchAt(journal.episode, responses, k) == Some(batch) && journal.episode.offer == Some(offer)
      requires IsToolTurn(journal.episode, responses, k, index)
      modifies journal.ledger, executor
      ensures Hosted(journal, executor, later) && Touches(old(journal.ledger.View()), journal.ledger.View(), WorkIds(journal.episode.prefix))
      ensures Grew(journal.episode, responses, later) && |later| == |responses| && later[k].done == responses[k].done
      ensures ended.Whole? ==> later[k].shown == Some(display.results)
      ensures ended.Partial? ==> BatchIsStuck(journal.ledger.View(), batch)
      ensures ended.Dead? ==> journal.ledger.mortal
      ensures responses[k].shown.Some? ==>
        !ended.Partial? && later == responses && TrailOf(journal, executor) == old(TrailOf(journal, executor))
    {
      ghost var results;
      display, ended, results := ServeBeside(batch, offer, responses, k);
      later := AfterBatch(journal.episode, journal.inputs, journal.ledger.View(), responses, k, batch, offer, index,
                          ended.Whole?, results);
    }

    method DeliverAll(deliveries: seq<Delivery>) returns (delivered: bool)
      ensures delivered || journal.boundary.faulty
    {
      for i := 0 to |deliveries| {
        var ok := journal.boundary.Deliver(deliveries[i]);
        if !ok {
          return false;
        }
      }
      delivered := true;
    }

    /** What a batch that ended so gives, once its files are delivered. */
    method Delivered(display: Display, ended: Ending) returns (answer: Option<seq<Json>>, died: bool)
      ensures answer.Some? ==> ended.Whole? && answer.value == display.results
      ensures answer.None? ==> died != ended.Partial?
      ensures died ==> ended.Dead? || journal.boundary.faulty
    {
      match ended {
        case Partial => answer, died := None, false;
        case Dead => answer, died := None, true;
        case Whole =>
          var delivered := DeliverAll(display.deliveries);
          answer, died := if delivered then Some(display.results) else None, !delivered;
      }
    }

    /** The batch of one exchange, and the delivery of its files. */
    method AnswerBatch(batch: Operations.Batch, offer: Offer, ghost responses: seq<Exchange>, ghost k: nat)
      returns (answer: Option<seq<Json>>, died: bool, ghost later: seq<Exchange>)
      requires Hosted(journal, executor, responses) && k < |responses|
      requires BatchAt(journal.episode, responses, k) == Some(batch) && journal.episode.offer == Some(offer)
      requires IsToolTurn(journal.episode, responses, k, index)
      modifies journal.ledger, executor
      ensures Hosted(journal, executor, later) && Touches(old(journal.ledger.View()), journal.ledger.View(), WorkIds(journal.episode.prefix))
      ensures Grew(journal.episode, responses, later) && |later| == |responses| && later[k].done == responses[k].done
      ensures answer.Some? ==> later[k].shown == answer
      ensures answer.None? && !died ==> BatchIsStuck(journal.ledger.View(), batch)
      ensures died ==> MayDie(journal.ledger, journal.boundary)
      ensures responses[k].shown.Some? ==>
        && (died || answer == responses[k].shown)
        && later == responses && TrailOf(journal, executor) == old(TrailOf(journal, executor))
    {
      var display, ended;
      display, ended, later := HandleBatch(batch, offer, responses, k);
      answer, died := Delivered(display, ended);
    }

    /** Answer a request for host operations: what every item shows, or why there is none. */
    method Answer(done: Completion, text: Bytes, ghost responses: seq<Exchange>, ghost k: nat)
      returns (answer: Option<seq<Json>>, died: bool, ghost later: seq<Exchange>)
      requires Hosted(journal, executor, responses) && k < |responses| && done == responses[k].done
      requires IsToolTurn(journal.episode, responses, k, index) && Asks(done, text)
      modifies journal.ledger, executor
      ensures Hosted(journal, executor, later) && Touches(old(journal.ledger.View()), journal.ledger.View(), WorkIds(journal.episode.prefix))
      ensures Grew(journal.episode, responses, later) && |later| == |responses| && later[k].done == responses[k].done
      ensures answer.Some? ==> HostResults(journal.episode.offer, text, later[k].shown) == answer
      ensures answer.None? && !died ==> AskIsStuck(journal.episode, journal.ledger.View(), done, index)
      ensures died ==> MayDie(journal.ledger, journal.boundary)
      ensures HostResults(journal.episode.offer, text, responses[k].shown).Some? ==>
        && (died || answer == HostResults(journal.episode.offer, text, responses[k].shown))
        && journal.ledger.View() == old(journal.ledger.View()) && executor.calls == old(executor.calls) && later == responses
    {
      var batch := Asked(journal.episode, done, index);
      AskedOrAnswered(journal.episode, done, text, index, responses[k].shown);
      TouchesNothing(journal.ledger.View(), WorkIds(journal.episode.prefix));
      if batch.None? {
        answer, died, later := HostResults(journal.episode.offer, text, None), false, responses;
      } else {
        answer, died, later := AnswerBatch(batch.value, journal.episode.offer.value, responses, k);
        AskedOrAnswered(journal.episode, done, text, index, later[k].shown);
      }
    }

    /** What the agent is given of a tool attempt, read from its capture. */
    method Observe(done: Completion, reading: Reading, ghost responses: seq<Exchange>, ghost k: nat)
      returns (out: Answer, ghost later: seq<Exchange>)
      requires Hosted(journal, executor, responses) && k < |responses| && done == responses[k].done
      requires IsToolTurn(journal.episode, responses, k, index) && (reading.Asking? ==> Asks(done, reading.text))
      modifies journal.ledger, executor
      ensures Hosted(journal, executor, later) && Touches(old(journal.ledger.View()), journal.ledger.View(), WorkIds(journal.episode.prefix))
      ensures Grew(journal.episode, responses, later) && |later| == |responses| && later[k].done == responses[k].done
      ensures out.Heard? ==> ReplyOf(journal.episode.offer, reading, done.result.outcome, later[k].shown) == Some(out.reply)
      ensures out.Stopped? ==> reading.Unread? || AskIsStuck(journal.episode, journal.ledger.View(), done, index)
      ensures out.Cut? ==> MayDie(journal.ledger, journal.boundary)
      ensures ReplyOf(journal.episode.offer, reading, done.result.outcome, responses[k].shown).Some? ==>
        && (out == Cut || out == Answering(ReplyOf(journal.episode.offer, reading, done.result.outcome, responses[k].shown)))
        && journal.ledger.View() == old(journal.ledger.View()) && executor.calls == old(executor.calls) && later == responses
    {
      later := responses;
      match reading {
        case Unread => out := Stopped;
        case Submission(stdout) => out := Heard(Submitted(stdout));
        case Plain(stdout, stderr, errors) => out := Heard(Observed(stdout, stderr, done.result.outcome, errors));
        case Asking(text, stdout, stderr) =>
          var answer, died;
          answer, died, later := Answer(done, text, responses, k);
          out := if answer.Some? then Heard(Observed(stdout, stderr, done.result.outcome, answer.value))
                 else if died then Cut else Stopped;
      }
    }

    /** Read a tool attempt and answer what it asks for. */
    method Respond(done: Completion, ghost responses: seq<Exchange>, ghost k: nat) returns (out: Answer, ghost later: seq<Exchange>)
      requires Hosted(journal, executor, responses) && k < |responses| && done == responses[k].done
      requires IsToolTurn(journal.episode, responses, k, index)
      modifies journal.ledger, executor
      ensures Hosted(journal, executor, later) && Touches(old(journal.ledger.View()), journal.ledger.View(), WorkIds(journal.episode.prefix))
      ensures Grew(journal.episode, responses, later) && |later| == |responses| && later[k].done == done
      ensures out.Heard? ==> ToolReply(journal.episode.offer, later[k]) == Some(out.reply)
      ensures out.Stopped? ==> ReadTool(done).Unread? || AskIsStuck(journal.episode, journal.ledger.View(), done, index)
      ensures out.Cut? ==> MayDie(journal.ledger, journal.boundary)
      ensures ToolReply(journal.episode.offer, responses[k]).Some? ==>
        && (out == Cut || out == Answering(ToolReply(journal.episode.offer, responses[k])))
        && journal.ledger.View() == old(journal.ledger.View()) && executor.calls == old(executor.calls) && later == responses
    {
      var reading := ReadTool(done);
      out, later := Observe(done, reading, responses, k);
    }

    /** One action: the next tool attempt, read only from its capture. An exchange the
        agent has already had is given again with no call, no execution and no change. */
    method Execute(command: string, ghost responses: seq<Exchange>, ghost k: nat) returns (out: Answer, ghost later: seq<Exchange>)
      requires Hosted(journal, executor, responses) && index <= k <= |responses|
      requires NextTurn(journal.episode, responses[..k]) == TurnOf(Move.Execute(command), k - index, index)
      modifies this, journal.ledger, journal.boundary`calls, journal.boundary`log, executor
      ensures index == old(index) + 1
      ensures Hosted(journal, executor, later) && Touches(old(journal.ledger.View()), journal.ledger.View(), WorkIds(journal.episode.prefix))
      ensures Grew(journal.episode, responses, later) && |later| <= if k == |responses| then k + 1 else |responses|
      ensures out.Heard? ==> k < |later| && ToolReply(journal.episode.offer, later[k]) == Some(out.reply)
      ensures out.Stopped? ==> StuckAt(journal.episode, journal.inputs, journal.ledger.View(), later, k)
      ensures out.Cut? ==> MayDie(journal.ledger, journal.boundary)
      ensures k < |responses| ==> journal.boundary.calls == old(journal.boundary.calls)
      ensures k < |responses| && ToolReply(journal.episode.offer, responses[k]).Some? ==>
        && (out == Cut || out == Answering(ToolReply(journal.episode.offer, responses[k])))
        && journal.ledger.View() == old(journal.ledger.View()) && executor.calls == old(executor.calls) && later == responses
    {
      index := index + 1;
      out, later := Act(Turn(Tool, index, Action(command)), responses, k);
    }

    method Act(turn: Turn, ghost responses: seq<Exchange>, ghost k: nat) returns (out: Answer, ghost later: seq<Exchange>)
      requires Hosted(journal, executor, responses) && k <= |responses|
      requires NextTurn(journal.episode, responses[..k]) == Some(turn) && turn.kind == Tool && turn.index == index
      modifies journal.ledger, journal.boundary`calls, journal.boundary`log, executor
      ensures Hosted(journal, executor, later) && Touches(old(journal.ledger.View()), journal.ledger.View(), WorkIds(journal.episode.prefix))
      ensures Grew(journal.episode, responses, later) && |later| <= if k == |responses| then k + 1 else |responses|
      ensures out.Heard? ==> k < |later| && ToolReply(journal.episode.offer, later[k]) == Some(out.reply)
      ensures out.Stopped? ==> StuckAt(journal.episode, journal.inputs, journal.ledger.View(), later, k)
      ensures out.Cut? ==> MayDie(journal.ledger, journal.boundary)
      ensures k < |responses| ==> journal.boundary.calls == old(journal.boundary.calls)
      ensures k < |responses| && ToolReply(journal.episode.offer, responses[k]).Some? ==>
        && (out == Cut || out == Answering(ToolReply(journal.episode.offer, responses[k])))
        && journal.ledger.View() == old(journal.ledger.View()) && executor.calls == old(executor.calls) && later == responses
    {
      ghost var st := journal.ledger.View();
      var call;
      call, later := AttemptBeside(journal, executor, turn, responses, k);
      if !call.Returned? {
        return if call.Crashed? then Cut else Stopped, later;
      }
      assert later[..k] == responses[..k];
      out, later := RespondAfter(call.done, st, responses, later, k);
    }

    /** Read the tool attempt that was just made, or found answered. */
    method RespondAfter(done: Completion, ghost start: Spec.State, ghost first: seq<Exchange>, ghost responses: seq<Exchange>,
                        ghost k: nat) returns (out: Answer, ghost later: seq<Exchange>)
      requires Hosted(journal, executor, responses) && k < |responses| && done == responses[k].done
      requires IsToolTurn(journal.episode, responses, k, index) && Grew(journal.episode, first, responses)
      requires Touches(start, journal.ledger.View(), WorkIds(journal.episode.prefix))
      modifies journal.ledger, executor
      ensures Hosted(journal, executor, later) && Touches(start, journal.ledger.View(), WorkIds(journal.episode.prefix))
      ensures Grew(journal.episode, first, later) && |later| == |responses|
      ensures out.Heard? ==> ToolReply(journal.episode.offer, later[k]) == Some(out.reply)
      ensures out.Stopped? ==> StuckAt(journal.episode, journal.inputs, journal.ledger.View(), later, k)
      ensures out.Cut? ==> MayDie(journal.ledger, journal.boundary)
      ensures ToolReply(journal.episode.offer, responses[k]).Some? ==>
        && (out == Cut || out == Answering(ToolReply(journal.episode.offer, responses[k])))
        && journal.ledger.View() == old(journal.ledger.View()) && executor.calls == old(executor.calls) && later == responses
    {
      ghost var attempted := journal.ledger.View();
      out, later := Respond(done, responses, k);
      if out.Stopped? {
        ToolIsStuck(journal.episode, journal.inputs, journal.ledger.View(), responses, later, k, index);
      }
      TouchesTransitive(start, attempted, journal.ledger.View(), WorkIds(journal.episode.prefix));
      GrewTransitive(journal.episode, first, responses, later);
    }
  }

  lemma ToolIsStuck(episode: Episode, inputs: Artifacts, st: Spec.State, answered: seq<Exchange>, later: seq<Exchange>,
                    k: nat, index: nat)
    requires k < |answered| == |later| && IsToolTurn(episode, answered, k, index) && Grew(episode, answered, later)
    requires ReadTool(later[k].done).Unread? || AskIsStuck(episode, st, later[k].done, index)
    ensures StuckAt(episode, inputs, st, later, k)
  {
    GrewSame(answered, later, k);
  }

  /** Working on a batch keeps the trajectory and the other batches. */
  lemma BatchHandled(episode: Episode, inputs: Artifacts, st: Spec.State, later: Spec.State, responses: seq<Exchange>,
                     k: nat, batch: Operations.Batch)
    requires Inv(st) && Inv(later) && Opened(episode, inputs, st) && Traced(episode, inputs, st, responses)
    requires Batched(episode, st, responses) && k < |responses| && BatchAt(episode, responses, k) == Some(batch)
    requires Touches(st, later, Operations.IdsOf(batch)) && Operations.BatchOk(later, batch)
    ensures Opened(episode, inputs, later) && Traced(episode, inputs, later, responses) && Batched(episode, later, responses)
    ensures Touches(st, later, WorkIds(episode.prefix))
  {
    BatchHasIndex(episode, responses, k);
    BatchIsWork(episode.prefix, NextTurn(episode, responses[..k]).value.index, batch);
    TouchesWider(st, later, Operations.IdsOf(batch), Operations.BatchIds(batch.base));
    TouchesWider(st, later, Operations.IdsOf(batch), WorkIds(episode.prefix));
    HandlingStaysTraced(episode, inputs, st, later, responses, NextTurn(episode, responses[..k]).value.index);
    HandlingStaysBatched(episode, st, later, responses, k);
  }

  /** A batch that was handled to its end is shown. */
  lemma AfterBatch(episode: Episode, inputs: Artifacts, st: Spec.State, responses: seq<Exchange>, k: nat,
                   batch: Operations.Batch, offer: Offer, index: nat, whole: bool, results: seq<Operations.ItemResult>)
    returns (now: seq<Exchange>)
    requires Traced(episode, inputs, st, responses) && Batched(episode, st, responses)
    requires k < |responses| && BatchAt(episode, responses, k) == Some(batch)
    requires episode.offer == Some(offer) && IsToolTurn(episode, responses, k, index)
    requires Operations.BatchOk(st, batch) && (whole ==> FullyShown(st, batch, results))
    ensures Traced(episode, inputs, st, now) && Batched(episode, st, now)
    ensures Grew(episode, responses, now) && |now| == |responses| && now[k].done == responses[k].done
    ensures whole ==> now[k].shown == Some(Displayed(offer, index, results).results)
    ensures responses[k].shown.Some? ==> now == responses
  {
    BatchHasIndex(episode, responses, k);
    now := responses;
    if whole {
      now := BatchShown(episode, inputs, st, responses, k, batch, results);
    }
  }

  /** What the batch of an exchange has shown already, if anything. */
  lemma KnownResults(episode: Episode, st: Spec.State, responses: seq<Exchange>, k: nat)
    returns (known: Option<seq<Operations.ItemResult>>)
    requires k < |responses| && BatchAt(episode, responses, k).Some? && Batched(episode, st, responses)
    ensures Operations.BatchOk(st, BatchAt(episode, responses, k).value)
    ensures known.Some? <==> responses[k].shown.Some?
    ensures known.Some? ==> FullyShown(st, BatchAt(episode, responses, k).value, known.value)
  {
    assert HeldAt(episode, st, responses, k);
    BatchHasIndex(episode, responses, k);
    known := None;
    if responses[k].shown.Some? {
      var batch, index := BatchAt(episode, responses, k).value, NextTurn(episode, responses[..k]).value.index;
      var results :| FullyShown(st, batch, results)
                     && responses[k].shown.value == Displayed(episode.offer.value, index, results).results;
      known := Some(results);
    }
  }

  /** Once every item is decided the exchange shows them, now and ever after. */
  lemma BatchShown(episode: Episode, inputs: Artifacts, st: Spec.State, responses: seq<Exchange>, k: nat,
                   batch: Operations.Batch, results: seq<Operations.ItemResult>)
    returns (now: seq<Exchange>)
    requires Traced(episode, inputs, st, responses) && Batched(episode, st, responses)
    requires k < |responses| && BatchAt(episode, responses, k) == Some(batch)
    requires Operations.BatchOk(st, batch) && FullyShown(st, batch, results)
    ensures Traced(episode, inputs, st, now) && Batched(episode, st, now)
    ensures Grew(episode, responses, now) && |now| == |responses| && now[k].done == responses[k].done
    ensures episode.offer.Some? && NextTurn(episode, responses[..k]).Some?
    ensures now[k].shown
         == Some(Displayed(episode.offer.value, NextTurn(episode, responses[..k]).value.index, results).results)
    ensures responses[k].shown.Some? ==> now == responses
  {
    BatchHasIndex(episode, responses, k);
    var offer, index := episode.offer.value, NextTurn(episode, responses[..k]).value.index;
    now := responses;
    assert HeldAt(episode, st, responses, k);
    if responses[k].shown.Some? {
      ShownOnce(st, offer, batch, index, responses[k].shown.value, results);
    } else {
      EarlierIsShown(episode, inputs, st, responses, k);
      ShownIsHeld(st, offer, batch, index, results);
      var shown := Displayed(offer, index, results).results;
      now := Fill(responses, shown);
      FillStaysTraced(episode, inputs, st, responses, shown);
      FillStaysBatched(episode, st, responses, shown);
      assert now[..k] == responses[..k];
    }
  }

  lemma ShownOnce(st: Spec.State, offer: Offer, batch: Operations.Batch, index: nat, shown: seq<Json>,
                  results: seq<Operations.ItemResult>)
    requires Held(st, offer, batch, index, Some(shown)) && FullyShown(st, batch, results)
    ensures shown == Displayed(offer, index, results).results
  {
    var held :| FullyShown(st, batch, held) && shown == Displayed(offer, index, held).results;
    FullyShownOnce(st, batch, held, results);
  }

  lemma OneMoreReply(episode: Episode, responses: seq<Exchange>, k: nat, history: seq<Reply>, reply: Reply)
    requires k < |responses| && Replies(episode, responses[..k]) == Some(history)
    requires ReplyTo(episode, episode.agent(history), responses[k]) == Some(reply)
    ensures Replies(episode, responses[..k + 1]) == Some(history + [reply])
    ensures Queries(episode, responses[..k + 1])
         == Queries(episode, responses[..k]) + if episode.agent(history).Query? then 1 else 0
  {
    assert responses[..k + 1][..k] == responses[..k];
  }

  lemma SettledHasTurn(episode: Episode, inputs: Artifacts, st: Spec.State, responses: seq<Exchange>, k: nat)
    requires Traced(episode, inputs, st, responses) && k < |responses|
    ensures NextTurn(episode, responses[..k]).Some?
  {
    assert Settled(episode, inputs, st, responses, k);
  }

  /** The agent has seen the first of these responses, and its indices count them. */
  ghost predicate Seen(episode: Episode, responses: seq<Exchange>, history: seq<Reply>, queries: nat, actions: nat) {
    && |history| <= |responses|
    && Replies(episode, responses[..|history|]) == Some(history)
    && queries == Queries(episode, responses[..|history|])
    && actions == |history| - queries
  }

  lemma AwaitedIsNotSeen(episode: Episode, responses: seq<Exchange>, history: seq<Reply>, queries: nat, actions: nat)
    requires Seen(episode, responses, history, queries, actions) && Replies(episode, responses).None?
    ensures |history| < |responses|
  {
    assert responses[..|responses|] == responses;
  }

  lemma SeenPrefix(episode: Episode, responses: seq<Exchange>, later: seq<Exchange>, history: seq<Reply>,
                   queries: nat, actions: nat)
    requires Seen(episode, responses, history, queries, actions)
    requires |history| <= |later| && later[..|history|] == responses[..|history|]
    ensures Seen(episode, later, history, queries, actions)
  {
  }

  lemma GrewSame(responses: seq<Exchange>, later: seq<Exchange>, n: nat)
    requires responses <= later || FilledIn(responses, later)
    requires n <= |responses| && (n == |responses| ==> responses <= later)
    ensures n <= |later| && later[..n] == responses[..n]
  {
    if responses <= later {
      PrefixOf(responses, later, n);
    } else {
      SamePrefix(later, responses, |responses| - 1, n);
    }
  }

  lemma SeenStays(episode: Episode, responses: seq<Exchange>, later: seq<Exchange>, history: seq<Reply>,
                  queries: nat, actions: nat)
    requires Seen(episode, responses, history, queries, actions) && Grew(episode, responses, later)
    ensures Seen(episode, later, history, queries, actions)
  {
    if FilledIn(responses, later) && Awaiting(episode, responses) {
      AwaitingHasNoReply(episode, responses);
      AwaitedIsNotSeen(episode, responses, history, queries, actions);
    }
    GrewSame(responses, later, |history|);
    SeenPrefix(episode, responses, later, history, queries, actions);
  }

  lemma SeenOneMore(episode: Episode, responses: seq<Exchange>, history: seq<Reply>, queries: nat, actions: nat, reply: Reply)
    requires Seen(episode, responses, history, queries, actions) && |history| < |responses|
    requires Replies(episode, responses[..|history| + 1]) == Some(history + [reply])
    requires Queries(episode, responses[..|history| + 1])
          == queries + if episode.agent(history).Query? then 1 else 0
    ensures var queried := episode.agent(history).Query?;
      Seen(episode, responses, history + [reply],
           if queried then queries + 1 else queries, if queried then actions else actions + 1)
  {
    assert |history + [reply]| == |history| + 1;
  }

  lemma HeardOneMore(episode: Episode, responses: seq<Exchange>, later: seq<Exchange>, history: seq<Reply>,
                     queries: nat, actions: nat, reply: Reply)
    requires Seen(episode, responses, history, queries, actions) && Grew(episode, responses, later)
    requires |history| < |later| && ReplyTo(episode, episode.agent(history), later[|history|]) == Some(reply)
    ensures var queried := episode.agent(history).Query?;
      Seen(episode, later, history + [reply],
           if queried then queries + 1 else queries, if queried then actions else actions + 1)
  {
    SeenStays(episode, responses, later, history, queries, actions);
    OneMoreReply(episode, later, |history|, history, reply);
    SeenOneMore(episode, later, history, queries, actions, reply);
  }

  /** An agent that finishes has seen everything the ledger holds of the episode. */
  lemma SeenToTheEnd(episode: Episode, inputs: Artifacts, st: Spec.State, responses: seq<Exchange>, history: seq<Reply>,
                     queries: nat, actions: nat)
    requires Traced(episode, inputs, st, responses) && Seen(episode, responses, history, queries, actions)
    requires episode.agent(history).Finish?
    ensures ResultAfter(episode, responses) == Some(episode.agent(history).result)
  {
    if |history| < |responses| {
      SettledHasTurn(episode, inputs, st, responses, |history|);
    }
    assert responses[..|history|] == responses;
  }

  /** In a complete run a move that is not the last has been answered and shown. */
  lemma CompleteIsAnswered(episode: Episode, responses: seq<Exchange>, history: seq<Reply>, queries: nat, actions: nat)
    requires Seen(episode, responses, history, queries, actions) && !episode.agent(history).Finish?
    ensures Complete(episode, responses) ==>
      |history| < |responses| && ReplyTo(episode, episode.agent(history), responses[|history|]).Some?
  {
    assert responses[..|responses|] == responses;
    var k := |history|;
    if Complete(episode, responses) && k < |responses| {
      RepliesOfPrefix(episode, responses, k + 1);
      assert responses[..k + 1][..k] == responses[..k];
    }
  }

  /** One move of the agent, answered from the ledger or by a new attempt. */
  method Move(model: WorkerModel, environment: WorkerEnvironment, history: seq<Reply>, ghost responses: seq<Exchange>)
    returns (out: Answer, ghost later: seq<Exchange>)
    requires model.journal == environment.journal && Hosted(model.journal, environment.executor, responses)
    requires Seen(model.journal.episode, responses, history, model.index, environment.index)
    requires !model.journal.episode.agent(history).Finish?
    modifies model, environment, model.journal.ledger, model.journal.boundary`calls, model.journal.boundary`log, environment.executor
    ensures Hosted(model.journal, environment.executor, later) && Grew(model.journal.episode, responses, later)
    ensures Touches(old(model.journal.ledger.View()), model.journal.ledger.View(), WorkIds(model.journal.episode.prefix))
    ensures |history| < |responses| ==> model.journal.boundary.calls == old(model.journal.boundary.calls)
    ensures |history| < |responses| && ReplyTo(model.journal.episode, model.journal.episode.agent(history), responses[|history|]).Some? ==>
      && model.journal.ledger.View() == old(model.journal.ledger.View())
      && environment.executor.calls == old(environment.executor.calls) && later == responses && !out.Stopped?
    ensures out.Heard? ==>
      |history| < |later| && ReplyTo(model.journal.episode, model.journal.episode.agent(history), later[|history|]) == Some(out.reply)
    ensures if model.journal.episode.agent(history).Query? then
        model.index == old(model.index) + 1 && environment.index == old(environment.index)
      else model.index == old(model.index) && environment.index == old(environment.index) + 1
    ensures out.Stopped? ==> StuckAt(model.journal.episode, model.journal.inputs, model.journal.ledger.View(), later, |history|)
    ensures out.Cut? ==> MayDie(model.journal.ledger, model.journal.boundary)
  {
    match model.journal.episode.agent(history) {
      case Query(messages) => out, later := QueryBeside(model, environment.executor, messages, responses, |history|);
      case Execute(command) => out, later := environment.Execute(command, responses, |history|);
    }
  }

  /** A query touches no batch. */
  method QueryBeside(model: WorkerModel, ghost executor: Executor, messages: Json, ghost responses: seq<Exchange>, ghost k: nat)
    returns (out: Answer, ghost later: seq<Exchange>)
    requires Hosted(model.journal, executor, responses) && model.index <= k <= |responses|
    requires NextTurn(model.journal.episode, responses[..k]) == TurnOf(WorkerSpec.Move.Query(messages), model.index, k - model.index)
    modifies model, model.journal.ledger, model.journal.boundary`calls, model.journal.boundary`log
    ensures model.index == old(model.index) + 1
    ensures Hosted(model.journal, executor, later)
    ensures Touches(old(model.journal.ledger.View()), model.journal.ledger.View(), WorkIds(model.journal.episode.prefix))
    ensures Answered(responses, later) && (k < |responses| ==> later == responses)
    ensures out.Heard? ==> k < |later| && ModelReply(later[k].done) == Some(out.reply)
    ensures out.Stopped? ==> StuckAt(model.journal.episode, model.journal.inputs, model.journal.ledger.View(), later, k)
    ensures out.Cut? ==> MayDie(model.journal.ledger, model.journal.boundary)
    ensures k < |responses| ==>
      && model.journal.ledger.View() == old(model.journal.ledger.View())
      && model.journal.boundary.calls == old(model.journal.boundary.calls)
      && (out == Cut || out == Answering(ModelReply(responses[k].done)))
  {
    ghost var st := model.journal.ledger.View();
    out, later := model.Query(messages, responses, k);
    AttemptKeepsBatches(model.journal.episode, st, model.journal.ledger.View(), responses, later);
    CalledStays(executor.calls, st, model.journal.ledger.View());
  }

  /** The run ended with a result; or at an exception or a refusal; or with the death of
      the host or a delivery that failed. */
  datatype Ended = Finished(result: Json) | Halted | Died

  /** Everything a run leaves behind it. */
  datatype Trail = Trail(st: Spec.State, calls: seq<OpId>, executions: seq<OpId>)

  ghost function TrailOf(journal: Journal, executor: Executor): Trail
    reads journal.ledger, journal.boundary, executor
  {
    Trail(journal.ledger.View(), journal.boundary.calls, executor.calls)
  }

  /** Go one move further, from a run that began at `start` with the exchanges `first`. */
  method TakeTurn(model: WorkerModel, environment: WorkerEnvironment, history: seq<Reply>,
                  ghost start: Spec.State, ghost first: seq<Exchange>, ghost responses: seq<Exchange>)
    returns (out: Answer, ghost later: seq<Exchange>)
    requires model.journal == environment.journal && Hosted(model.journal, environment.executor, responses)
    requires Seen(model.journal.episode, responses, history, model.index, environment.index)
    requires !model.journal.episode.agent(history).Finish?
    requires Touches(start, model.journal.ledger.View(), WorkIds(model.journal.episode.prefix)) && Grew(model.journal.episode, first, responses)
    modifies model, environment, model.journal.ledger, model.journal.boundary`calls, model.journal.boundary`log, environment.executor
    ensures Hosted(model.journal, environment.executor, later)
    ensures Touches(start, model.journal.ledger.View(), WorkIds(model.journal.episode.prefix)) && Grew(model.journal.episode, first, later)
    ensures Complete(model.journal.episode, responses) ==>
      && later == responses && !out.Stopped?
      && TrailOf(model.journal, environment.executor) == old(TrailOf(model.journal, environment.executor))
    ensures out.Heard? ==> Seen(model.journal.episode, later, history + [out.reply], model.index, environment.index)
    ensures out.Stopped? ==> StuckAt(model.journal.episode, model.journal.inputs, model.journal.ledger.View(), later, |history|)
    ensures out.Cut? ==> MayDie(model.journal.ledger, model.journal.boundary)
  {
    ghost var st, queries, actions := model.journal.ledger.View(), model.index, environment.index;
    CompleteIsAnswered(model.journal.episode, responses, history, queries, actions);
    out, later := Move(model, environment, history, responses);
    if out.Heard? {
      HeardOneMore(model.journal.episode, responses, later, history, queries, actions, out.reply);
    }
    TouchesTransitive(start, st, model.journal.ledger.View(), WorkIds(model.journal.episode.prefix));
    GrewTransitive(model.journal.episode, first, responses, later);
  }

  /** The agent's moves, one after another, from a model and environment not used yet. */
  method TakeTurns(model: WorkerModel, environment: WorkerEnvironment, ghost responses: seq<Exchange>)
    returns (out: Ended, history: seq<Reply>, ghost later: seq<Exchange>)
    requires model.journal == environment.journal && model.index == environment.index == 0
    requires Hosted(model.journal, environment.executor, responses) && Bounded(model.journal.episode)
    modifies model, environment, model.journal.ledger, model.journal.boundary`calls, model.journal.boundary`log, environment.executor
    ensures Hosted(model.journal, environment.executor, later) && Grew(model.journal.episode, responses, later)
    ensures Touches(old(model.journal.ledger.View()), model.journal.ledger.View(), WorkIds(model.journal.episode.prefix))
    ensures out.Finished? ==> ResultAfter(model.journal.episode, later) == Some(out.result)
    ensures out.Halted? ==> exists k :: StuckAt(model.journal.episode, model.journal.inputs, model.journal.ledger.View(), later, k)
    ensures out.Died? ==> MayDie(model.journal.ledger, model.journal.boundary)
    ensures Complete(model.journal.episode, responses) ==>
      && later == responses && !out.Halted?
      && TrailOf(model.journal, environment.executor) == old(TrailOf(model.journal, environment.executor))
  {
    ghost var st := model.journal.ledger.View();
    var agent := model.journal.episode.agent;
    history, later := [], responses;
    TouchesNothing(st, WorkIds(model.journal.episode.prefix));
    while !agent(history).Finish?
      invariant Hosted(model.journal, environment.executor, later) && Grew(model.journal.episode, responses, later)
      invariant Touches(st, model.journal.ledger.View(), WorkIds(model.journal.episode.prefix))
      invariant Complete(model.journal.episode, responses) ==>
        later == responses && TrailOf(model.journal, environment.executor) == old(TrailOf(model.journal, environment.executor))
      invariant Seen(model.journal.episode, later, history, model.index, environment.index)
      decreases model.journal.episode.limit - |history|
    {
      var answer;
      answer, later := TakeTurn(model, environment, history, st, responses, later);
      match answer {
        case Cut => return Ended.Died, history, later;
        case Stopped => return Ended.Halted, history, later;
        case Heard(reply) => history := history + [reply];
      }
    }
    SeenToTheEnd(model.journal.episode, model.journal.inputs, model.journal.ledger.View(), later, history,
                 model.index, environment.index);
    out := Finished(agent(history).result);
  }

  /** Run the agent from the start. Every exchange already recorded is replayed from the
      ledger; at the end of them it goes on, one recorded attempt at a time. When the
      recorded exchanges lead to a result, replaying them calls, executes and adds nothing. */
  method RunAgent(journal: Journal, executor: Executor, ghost responses: seq<Exchange>)
    returns (out: Ended, history: seq<Reply>, ghost later: seq<Exchange>)
    requires Hosted(journal, executor, responses) && Bounded(journal.episode)
    modifies journal.ledger, journal.boundary`calls, journal.boundary`log, executor
    ensures Hosted(journal, executor, later) && Grew(journal.episode, responses, later)
    ensures Touches(old(journal.ledger.View()), journal.ledger.View(), WorkIds(journal.episode.prefix))
    ensures out.Finished? ==> ResultAfter(journal.episode, later) == Some(out.result)
    ensures out.Halted? ==> exists k :: StuckAt(journal.episode, journal.inputs, journal.ledger.View(), later, k)
    ensures out.Died? ==> MayDie(journal.ledger, journal.boundary)
    ensures AllCameBack(journal.episode, later, journal.boundary.log, journal.boundary.told)
    ensures Complete(journal.episode, responses) ==>
      && later == responses && TrailOf(journal, executor) == old(TrailOf(journal, executor))
      && (out == Ended.Died || out == Finished(ResultAfter(journal.episode, responses).value))
  {
    var model := new WorkerModel(journal);
    var environment := new WorkerEnvironment(journal, executor);
    out, history, later := TakeTurns(model, environment, responses);
    ExchangesCameBack(journal.episode, journal.ledger.View(), Some(journal.inputs), later, journal.boundary);
  }
}
