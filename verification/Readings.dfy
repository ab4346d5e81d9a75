/** What recorded output and requests are read as, said of the bytes and values themselves. */
module Readings {
  import opened Records
  import opened OutputText
  import opened OperationsSpec
  import opened OperationsRules
  import opened Batches
  import opened WorkerSpec
  import LedgerSpec

  // ---- Lines ----

  function Joined(lines: seq<Bytes>): Bytes {
    if lines == [] then [] else lines[0] + Joined(lines[1..])
  }

  /** A line with at most one terminator, at its end: a line feed, a carriage return, or
      both in this order. */
  predicate IsLine(line: Bytes) {
    && line != []
    && (forall k | 0 <= k < |line| - 1 :: line[k] != 10)
    && (forall k | 0 <= k < |line| - 1 && line[k] == 13 :: k == |line| - 2 && line[k + 1] == 10)
  }

  /** The line is ended before what comes next. */
  predicate EndsBefore(line: Bytes, rest: Bytes)
    requires line != []
  {
    rest != [] ==> line[|line| - 1] == 10 || (line[|line| - 1] == 13 && rest[0] != 10)
  }

  lemma {:induction false} FirstLineIs(bytes: Bytes)
    requires bytes != []
    ensures IsLine(bytes[..LineEnd(bytes)]) && EndsBefore(bytes[..LineEnd(bytes)], bytes[LineEnd(bytes)..])
  {
    if bytes[0] != 10 && bytes[0] != 13 && |bytes| > 1 {
      FirstLineIs(bytes[1..]);
      var end := LineEnd(bytes[1..]);
      assert bytes[..LineEnd(bytes)] == [bytes[0]] + bytes[1..][..end];
      assert bytes[LineEnd(bytes)..] == bytes[1..][end..];
    }
  }

  /** The lines of a text are its bytes, cut after every terminator and nowhere else. */
  lemma {:induction false} LinesAreCut(bytes: Bytes, k: nat)
    ensures Joined(Lines(bytes)) == bytes
    ensures k < |Lines(bytes)| ==> IsLine(Lines(bytes)[k])
    ensures k + 1 < |Lines(bytes)| ==> Lines(bytes)[k + 1] != [] && EndsBefore(Lines(bytes)[k], Lines(bytes)[k + 1])
  {
    if bytes != [] {
      var end := LineEnd(bytes);
      FirstLineIs(bytes);
      LinesAreCut(bytes[end..], if k == 0 then 0 else k - 1);
      assert bytes[..end] + bytes[end..] == bytes;
      assert Lines(bytes)[0] == bytes[..end] && Lines(bytes)[1..] == Lines(bytes[end..]);
      if bytes[end..] != [] {
        assert Lines(bytes[end..])[0][0] == bytes[end..][0];
      }
    }
  }

  /** Stripping takes the white space off both ends, and nothing else. */
  lemma {:induction false} StripIs(bytes: Bytes) returns (from: nat, to: nat)
    ensures from <= to <= |bytes| && Strip(bytes) == bytes[from..to]
    ensures forall k | 0 <= k < |bytes| && !(from <= k < to) :: bytes[k] == 32 || 9 <= bytes[k] <= 13
    ensures from < to ==> !Space(bytes[from]) && !Space(bytes[to - 1])
  {
    from, to := 0, |bytes|;
    if bytes != [] && Space(bytes[0]) {
      from, to := StripIs(bytes[1..]);
      from, to := from + 1, to + 1;
    } else if bytes != [] && Space(bytes[|bytes| - 1]) {
      from, to := StripIs(bytes[..|bytes| - 1]);
    }
  }

  // ---- What a command printed ----

  predicate Begins(stdout: Bytes, marker: string) {
    Lines(stdout) != [] && Strip(Lines(stdout)[0]) == Ascii(marker)
  }

  predicate Prints(stdout: Bytes, marker: string) {
    exists line | line in Lines(stdout) :: Strip(line) == Ascii(marker)
  }

  lemma MarkersAre(stdout: Blob)
    requires stdout.Raw?
    ensures SUBMIT != REQUEST
    ensures var markers := Markers(MarkedLines(stdout));
      && (SUBMIT in markers <==> Prints(stdout.bytes, "COMPLETE_TASK_AND_SUBMIT_FINAL_OUTPUT"))
      && (REQUEST in markers <==> Prints(stdout.bytes, "WARRANTED_REQUEST"))
      && |markers| == (if SUBMIT in markers then 1 else 0) + (if REQUEST in markers then 1 else 0)
  {
    assert |SUBMIT| == 37 && |REQUEST| == 17;
    var markers := Markers(MarkedLines(stdout));
    var expected := (if SUBMIT in markers then {SUBMIT} else {}) + (if REQUEST in markers then {REQUEST} else {});
    assert markers == expected;
  }

  /** The streams of a tool attempt the host can read. */
  predicate IsReadable(done: Completion) {
    "stdout" in done.observation.artifacts && "stderr" in done.observation.artifacts
    && done.result.outcome != InfrastructureFailure
  }

  /** The command succeeded, and the first line it printed is the marker. */
  predicate BeginsWith(done: Completion, marker: string) {
    IsReadable(done) && done.result.outcome == Succeeded
    && done.observation.artifacts["stdout"].Raw? && Begins(done.observation.artifacts["stdout"].bytes, marker)
  }

  lemma BeginningIs(stdout: Blob)
    ensures var lines := MarkedLines(stdout);
      var first := if lines == [] then [] else Strip(lines[0]);
      && (first == SUBMIT <==> stdout.Raw? && Begins(stdout.bytes, "COMPLETE_TASK_AND_SUBMIT_FINAL_OUTPUT"))
      && (first == REQUEST <==> stdout.Raw? && Begins(stdout.bytes, "WARRANTED_REQUEST"))
      && (first == SUBMIT ==> SUBMIT in Markers(lines)) && (first == REQUEST ==> REQUEST in Markers(lines))
      && Markers(lines) <= {SUBMIT, REQUEST}
  {
    assert |SUBMIT| == 37 && |REQUEST| == 17;
    if MarkedLines(stdout) != [] {
      assert MarkedLines(stdout)[0] in MarkedLines(stdout);
    }
  }

  /** A command submits exactly when it succeeded, the first line it printed is the submit
      marker and no line is the request marker. */
  lemma SubmissionIs(done: Completion, stdout: Blob)
    ensures ReadTool(done) == Submission(stdout) <==>
      && BeginsWith(done, "COMPLETE_TASK_AND_SUBMIT_FINAL_OUTPUT") && stdout == done.observation.artifacts["stdout"]
      && !Prints(stdout.bytes, "WARRANTED_REQUEST")
  {
    if IsReadable(done) {
      BeginningIs(done.observation.artifacts["stdout"]);
      if done.observation.artifacts["stdout"].Raw? {
        MarkersAre(done.observation.artifacts["stdout"]);
      }
    }
  }

  /** A command asks for operations exactly when it succeeded, the first line it printed is
      the request marker and no line is the submit marker. */
  lemma AskingIs(done: Completion, text: Bytes, stdout: Blob, stderr: Blob)
    ensures ReadTool(done) == Asking(text, stdout, stderr) <==>
      && BeginsWith(done, "WARRANTED_REQUEST") && stdout == done.observation.artifacts["stdout"] && text == stdout.bytes
      && stderr == done.observation.artifacts["stderr"] && !Prints(text, "COMPLETE_TASK_AND_SUBMIT_FINAL_OUTPUT")
  {
    if IsReadable(done) {
      BeginningIs(done.observation.artifacts["stdout"]);
      if done.observation.artifacts["stdout"].Raw? {
        MarkersAre(done.observation.artifacts["stdout"]);
      }
    }
  }

  /** Anything else a readable command printed is only shown, with an error exactly when it
      begins with one marker and prints the other. */
  lemma PlainIs(done: Completion, stdout: Blob, stderr: Blob, errors: seq<Json>)
    ensures ReadTool(done) == Plain(stdout, stderr, errors) <==>
      var submit, request := "COMPLETE_TASK_AND_SUBMIT_FINAL_OUTPUT", "WARRANTED_REQUEST";
      && IsReadable(done)
      && stdout == done.observation.artifacts["stdout"] && stderr == done.observation.artifacts["stderr"]
      && if BeginsWith(done, submit) then Prints(stdout.bytes, request) && errors == [Confused()]
         else if BeginsWith(done, request) then Prints(stdout.bytes, submit) && errors == [Confused()]
         else errors == []
  {
    if IsReadable(done) {
      BeginningIs(done.observation.artifacts["stdout"]);
      if done.observation.artifacts["stdout"].Raw? {
        MarkersAre(done.observation.artifacts["stdout"]);
      }
    }
    assert ErrorShown("a command cannot both request operations and submit", None) == Confused();
  }

  function Confused(): Json {
    Obj(map["status" := Str("error"), "error" := Str("a command cannot both request operations and submit")])
  }

  // ---- What a model answered ----

  /** A model's answer is a command exactly when it is the one-field object of a text that
      is not blank. */
  lemma CommandIs(response: Blob, command: string)
    ensures CommandOf(response) == Some(command) <==>
      response.Doc? && response.value == Obj(map["command" := Str(command)]) && !Blank(command)
  {
    if CommandOf(response) == Some(command) {
      assert response.value.fields == map["command" := Str(command)];
    }
  }

  /** An agent gets a model's answer exactly when the attempt succeeded and captured one,
      and what it gets is that capture. */
  lemma ModelIsRead(done: Completion, reply: Reply)
    ensures ModelReply(done) == Some(reply) <==>
      && done.result.outcome == Succeeded && "response" in done.observation.artifacts
      && reply.Said? && reply.response == done.observation.artifacts["response"]
      && (match reply.command
          case Some(command) =>
            !Blank(command) && reply.response.Doc? && reply.response.value == Obj(map["command" := Str(command)])
          case None =>
            forall command :: reply.response.Doc? && reply.response.value == Obj(map["command" := Str(command)]) ==> Blank(command))
  {
    if "response" in done.observation.artifacts {
      var response := done.observation.artifacts["response"];
      forall command
        ensures CommandOf(response) == Some(command) <==>
          response.Doc? && response.value == Obj(map["command" := Str(command)]) && !Blank(command)
      {
        CommandIs(response, command);
      }
    }
  }

  // ---- What an attempt reserves and is numbered ----

  /** A model attempt reserves what its service says, in exactly the units the service
      declares, or else its own number of calls; and never without an enforced token unit. */
  lemma TokensAreReserved(episode: Episode, payload: Json, allowances: Amounts, reservation: Amounts)
    ensures ModelReservation(episode, payload, allowances) == Some(reservation) <==>
      && (match episode.service
          case Some(service) => reservation == service.reservation(payload) && reservation.Keys == service.units
          case None => reservation == map["model" := episode.modelReservation])
      && ("prompt_tokens" in allowances ==> "prompt_tokens" in reservation)
      && ("completion_tokens" in allowances ==> "completion_tokens" in reservation)
  {
    assert TOKEN_UNITS * allowances.Keys <= reservation.Keys <==>
      forall unit | unit in TOKEN_UNITS :: unit in allowances ==> unit in reservation;
  }

  /** How many of the attempts so far were of this kind. */
  function Earlier(episode: Episode, responses: seq<Exchange>, kind: Slots.Kind): nat {
    if responses == [] then 0
    else
      var n := |responses| - 1;
      var turn := NextTurn(episode, responses[..n]);
      Earlier(episode, responses[..n], kind) + if turn.Some? && turn.value.kind == kind then 1 else 0
  }

  lemma {:induction false} EarlierCounted(episode: Episode, responses: seq<Exchange>)
    requires Replies(episode, responses).Some?
    ensures Earlier(episode, responses, Slots.Model) == Queries(episode, responses)
    ensures Earlier(episode, responses, Slots.Tool) == |responses| - Queries(episode, responses)
  {
    if responses != [] {
      var n := |responses| - 1;
      EarlierCounted(episode, responses[..n]);
    }
  }

  /** The next attempt is for what the agent does next, numbered after the earlier attempts
      of its kind. */
  lemma TurnIsNumbered(episode: Episode, responses: seq<Exchange>)
    requires NextTurn(episode, responses).Some?
    ensures var turn := NextTurn(episode, responses).value;
      && turn.index == Earlier(episode, responses, turn.kind) + 1
      && match episode.agent(Replies(episode, responses).value)
         case Query(messages) => turn.kind == Slots.Model && turn.payload == Obj(map["messages" := messages])
         case Execute(command) => turn.kind == Slots.Tool && turn.payload == Obj(map["command" := Str(command)])
         case Finish(_) => false
  {
    EarlierCounted(episode, responses);
  }

  // ---- A batch of requests ----

  /** What follows the first line feed. */
  lemma {:induction false} BodyIs(stdout: Bytes) returns (head: nat)
    ensures head <= |stdout| && forall k | 0 <= k < head :: stdout[k] != 10
    ensures if head < |stdout| then stdout[head] == 10 && Body(stdout) == stdout[head + 1..] else Body(stdout) == []
  {
    head := 0;
    if stdout != [] && stdout[0] != NEWLINE {
      head := BodyIs(stdout[1..]);
      head := head + 1;
    }
  }

  /** A batch is read exactly when no line is the submit marker and what follows the first
      line feed is at most 1 MiB and decodes to the one-field object of 1 to 32 items. */
  lemma BatchIs(offer: Offer, stdout: Bytes, items: seq<Json>)
    ensures ParseBatch(offer, stdout) == Items(items) <==>
      && !Prints(stdout, "COMPLETE_TASK_AND_SUBMIT_FINAL_OUTPUT")
      && |Body(stdout)| <= 1024 * 1024 && 1 <= |items| <= 32
      && offer.decode(Body(stdout)) == Some(Obj(map["requests" := List(items)]))
  {
    if ParseBatch(offer, stdout) == Items(items) {
      assert offer.decode(Body(stdout)).value.fields == map["requests" := List(items)];
    }
  }

  /** An item runs an operation exactly when it is the two-field object that names one of
      the catalogue, whose own parsing accepts its arguments. */
  lemma PlanIs(batch: Batch, i: nat, name: string, declared: Declared, arguments: Json)
    requires i < |batch.items|
    ensures PlanOf(batch, i) == Run(name, declared, arguments) <==>
      exists given: Json ::
        && batch.items[i] == Obj(map["operation" := Str(name), "arguments" := given])
        && name in batch.catalogue && batch.catalogue[name] == declared && declared.parse(given) == Some(arguments)
  {
    var item := batch.items[i];
    if PlanOf(batch, i) == Run(name, declared, arguments) {
      assert item.fields == map["operation" := Str(name), "arguments" := item.fields["arguments"]];
    }
  }

  /** A measured result was not the host's failure. */
  predicate IsMeasured(produced: Produced, oversized: bool) {
    !oversized && produced.outcome != InfrastructureFailure
  }

  /** What a recorded result shows of what the code gave back: its outcome, its value unless
      the host failed, and where it was reused from. */
  lemma ProducedIsShown(name: string, done: Completion, produced: Produced, oversized: bool, source: Option<OpId>)
    requires RecordsProduced(done, produced, oversized)
    ensures Seen(name, done, source).Some? && Seen(name, done, source).value.shown.Obj?
    ensures var fields, measured := Seen(name, done, source).value.shown.fields, IsMeasured(produced, oversized);
      && fields.Keys == {"status", "operation"} + (if source.Some? then {"reused_from"} else {})
                        + (if measured then {"result"} else {})
      && fields["operation"] == Str(name)
      && fields["status"] == Str(if !measured then "infrastructure_failure"
                                 else if produced.outcome == Succeeded then "succeeded" else "failed")
      && (source.Some? ==> fields["reused_from"] == Id(source.value))
      && (measured ==> fields["result"] == produced.shown)
  {
    assert "shown.json"[0] != "files/"[0];
  }

  lemma FileIs(produced: Produced, file: string)
    ensures IsFileOf(produced, "files/" + file) <==> file in produced.files
  {
    if IsFileOf(produced, "files/" + file) {
      var name :| name in produced.files && "files/" + file == "files/" + name;
      assert ("files/" + file)[6..] == file && ("files/" + name)[6..] == name;
    }
  }

  /** A measured result delivers the files the code gave back as they are, beside raw output
      of that name, and nothing else. */
  lemma ProducedArrives(name: string, done: Completion, produced: Produced, oversized: bool, source: Option<OpId>, file: string)
    requires RecordsProduced(done, produced, oversized)
    ensures Seen(name, done, source).Some?
    ensures var files := Seen(name, done, source).value.files;
      && (file in files <==> IsMeasured(produced, oversized) && (file in produced.files || "files/" + file in produced.raw))
      && (file in files && file in produced.files ==> files[file] == produced.files[file])
  {
    assert "shown.json"[0] != "files/"[0] && "oversized-shown.json"[0] != "files/"[0];
    FileIs(produced, file);
    assert ("files/" + file)[6..] == file;
    var artifacts := done.observation.artifacts;
    if Seen(name, done, source).Some? && file in Seen(name, done, source).value.files {
      var channel :| channel in artifacts && FILES <= channel && channel[|FILES|..] == file;
      assert channel == "files/" + file;
    }
  }
}
