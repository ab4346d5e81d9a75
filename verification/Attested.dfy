/** What came back from the outside, and that the ledger records nothing else. */
module Attested {
  import opened Records
  import opened Names
  import opened Slots
  import opened LedgerSpec
  import opened LedgerSafety
  import opened Calls

  /** What an external attempt gives back: its outcome, and its raw output. */
  datatype AttemptResult = AttemptResult(result: Result, raw: Artifacts)

  /** One external attempt: what was asked and sent, and what came back unless it raised. */
  datatype Sent = Sent(request: Request, payload: Blob, response: Option<AttemptResult>)

  type Log = map<OpId, Sent>

  /** Outcomes of operations the host learned of without making the attempt. */
  type Told = set<(OpId, AttemptResult)>

  /** The slot of an attempt, of whatever episode. */
  ghost predicate IsAttempt(id: OpId) {
    exists prefix: string, kind: Kind, index: nat :: id == SlotId(prefix, kind, index)
  }

  function AnswerOf(done: Completion): AttemptResult {
    AttemptResult(done.result, done.observation.artifacts)
  }

  /** The recorded outcome and output are exactly what the attempt gave back, or what the
      host was told of it. */
  ghost predicate CameBack(log: Log, told: Told, id: OpId, done: Completion) {
    (id in log && log[id].response == Some(AnswerOf(done))) || (id, AnswerOf(done)) in told
  }

  /** If the operation is an attempt and has an outcome, that came back. */
  ghost predicate IsAnswered(log: Log, told: Told, op: Operation) {
    op.completion.Some? && IsAttempt(op.Id()) ==> CameBack(log, told, op.Id(), op.completion.value)
  }

  /** The payload sent is the one captured for the attempt, and the request is the one its
      operation has. */
  ghost predicate WasSent(st: State, id: OpId, sent: Sent) {
    && id.Named? && sent.request.origin.operationId == id
    && (exists op | op in st.operations :: op.request == sent.request)
    && (exists o | o in st.observations ::
          o.origin.operationId == Named(id.text + "/request")
          && "request.json" in o.artifacts && o.artifacts["request.json"] == sent.payload)
  }

  /** Every attempt with an outcome came back so, and everything sent is on the ledger. */
  ghost predicate Attests(log: Log, told: Told, calls: seq<OpId>, st: State) {
    && (forall op | op in st.operations :: IsAnswered(log, told, op))
    && (forall id | id in log :: id in calls && WasSent(st, id, log[id]))
  }

  /** No attempt got its outcome in between. */
  ghost predicate SettlesNoAttempt(st: State, later: State) {
    forall op | op in later.operations && op.completion.Some? && IsAttempt(op.Id()) :: op in st.operations
  }

  lemma WasSentStays(st: State, later: State, id: OpId, sent: Sent)
    requires Extends(st, later) && WasSent(st, id, sent)
    ensures WasSent(later, id, sent)
  {
    var op :| op in st.operations && op.request == sent.request;
    var i :| 0 <= i < |st.operations| && st.operations[i] == op;
    assert Advances(op, later.operations[i]);
    assert later.operations[i] in later.operations;
    var o :| o in st.observations && o.origin.operationId == Named(id.text + "/request")
             && "request.json" in o.artifacts && o.artifacts["request.json"] == sent.payload;
    assert o in later.observations;
  }

  lemma AttestsStays(log: Log, told: Told, calls: seq<OpId>, st: State, later: State)
    requires Attests(log, told, calls, st) && Extends(st, later) && SettlesNoAttempt(st, later)
    ensures Attests(log, told, calls, later)
  {
    forall id | id in log
      ensures WasSent(later, id, log[id])
    {
      WasSentStays(st, later, id, log[id]);
    }
    forall op | op in later.operations
      ensures IsAnswered(log, told, op)
    {
      assert op in st.operations ==> IsAnswered(log, told, op);
    }
  }

  /** What the host is told besides leaves everything attested. */
  lemma AttestsMore(log: Log, told: Told, more: Told, calls: seq<OpId>, st: State)
    requires Attests(log, told, calls, st) && told <= more
    ensures Attests(log, more, calls, st)
  {
    forall op | op in st.operations
      ensures IsAnswered(log, more, op)
    {
      assert IsAnswered(log, told, op);
    }
  }

  /** An attempt made under a fresh marker is logged beside the earlier ones. */
  lemma AttemptAttests(log: Log, told: Told, calls: seq<OpId>, st: State, id: OpId, sent: Sent)
    requires Attests(log, told, calls, st) && Called(calls + [id], st) && WasSent(st, id, sent)
    ensures Attests(log[id := sent], told, calls + [id], st)
  {
    forall i | 0 <= i < |calls|
      ensures calls[i] != id
    {
      assert (calls + [id])[i] == calls[i] && (calls + [id])[|calls|] == id;
    }
    assert id !in log;
    forall op | op in st.operations
      ensures IsAnswered(log[id := sent], told, op)
    {
      assert IsAnswered(log, told, op);
    }
  }

  /** Settling with what came back, or was told, keeps everything attested. */
  lemma CompleteAttests(log: Log, told: Told, calls: seq<OpId>, st: State, session: string, request: Request,
                        result: Result, raw: Artifacts)
    requires Attests(log, told, calls, st)
    requires var id := request.origin.operationId;
      (id in log && log[id].response == Some(AttemptResult(result, raw))) || (id, AttemptResult(result, raw)) in told
    ensures Attests(log, told, calls, Complete(st, session, request, result, raw).st)
  {
    var step := Complete(st, session, request, result, raw);
    CompleteExtends(st, session, request, result, raw);
    forall id | id in log
      ensures WasSent(step.st, id, log[id])
    {
      WasSentStays(st, step.st, id, log[id]);
    }
    CompletedAs(st, session, request, result, raw);
    forall op | op in step.st.operations
      ensures IsAnswered(log, told, op)
    {
      assert op in st.operations ==> IsAnswered(log, told, op);
    }
  }

  /** Whatever got an outcome got this one. */
  lemma CompletedAs(st: State, session: string, request: Request, result: Result, raw: Artifacts)
    ensures forall op | op in Complete(st, session, request, result, raw).st.operations && op !in st.operations ::
      op.Id() == request.origin.operationId && op.completion.Some?
      && AnswerOf(op.completion.value) == AttemptResult(result, raw)
  {
  }

  lemma BeginSettlesNone(st: State, session: string, request: Request)
    ensures SettlesNoAttempt(st, Begin(st, session, request).st)
  {
  }

  lemma ReserveSettlesNone(st: State, session: string, request: Request, reservation: Amounts, scope: string)
    ensures SettlesNoAttempt(st, Reserve(st, session, request, reservation, scope).st)
  {
  }

  // ---- No other ID is an attempt's ----

  predicate Digits(text: string) {
    forall c | c in text :: IsDigit(c)
  }

  lemma NoSlashAfter(text: string, i: nat, j: nat)
    requires i < j < |text| && Digits(text[i + 1..])
    ensures text[j] != '/'
  {
    assert text[i + 1..][j - i - 1] == text[j];
    assert text[j] in text[i + 1..];
  }

  /** The last slash of a text is where only digits follow it. */
  lemma LastSlash(text: string, i: nat, j: nat)
    requires i < |text| && j < |text| && text[i] == '/' && text[j] == '/'
    requires Digits(text[i + 1..]) && Digits(text[j + 1..])
    ensures i == j
  {
    if i < j {
      NoSlashAfter(text, i, j);
    } else if j < i {
      NoSlashAfter(text, j, i);
    }
  }

  /** The character before a number that ends an attempt's ID is a letter. */
  lemma BeforeTheNumber(head: string, digits: string)
    requires head != "" && Digits(digits) && IsAttempt(Named(head + "/" + digits))
    ensures head[|head| - 1] == 'l'
  {
    var prefix: string, kind: Kind, index: nat :| Named(head + "/" + digits) == SlotId(prefix, kind, index);
    var text, name := SlotText(prefix, kind, index), prefix + ("/" + KindName(kind));
    SplitAt(head, digits, text);
    SlotSplits(prefix, kind, index);
    LastSlash(text, |head|, |name|);
    assert text[|head| - 1] == text[|name| - 1];
  }

  lemma SplitAt(head: string, digits: string, text: string)
    requires text == head + "/" + digits
    ensures |head| < |text| && text[|head|] == '/' && text[|head| + 1..] == digits
    ensures head != "" ==> text[|head| - 1] == head[|head| - 1]
  {
  }

  lemma SlotSplits(prefix: string, kind: Kind, index: nat)
    ensures var text, k := SlotText(prefix, kind, index), |prefix| + 1 + |KindName(kind)|;
      k < |text| && text[k] == '/' && text[k - 1] == 'l' && text[k + 1..] == Decimal(index)
  {
    var name := prefix + ("/" + KindName(kind));
    assert SlotText(prefix, kind, index) == name + "/" + Decimal(index);
    SplitAt(name, Decimal(index), SlotText(prefix, kind, index));
    assert name[|name| - 1] == KindName(kind)[|KindName(kind)| - 1] == 'l';
  }

  /** A number below another number is nobody's attempt. */
  lemma NumberIsNoAttempt(head: string, m: nat, n: nat)
    ensures !IsAttempt(Named(head + Decimal(m) + "/" + Decimal(n)))
  {
    var number := head + Decimal(m);
    assert number[|number| - 1] == Decimal(m)[|Decimal(m)| - 1];
    if IsAttempt(Named(number + "/" + Decimal(n))) {
      BeforeTheNumber(number, Decimal(n));
    }
  }

  /** An attempt's ID ends in a digit. */
  lemma AttemptEndsInDigit(text: string)
    requires IsAttempt(Named(text))
    ensures text != "" && IsDigit(text[|text| - 1])
  {
    var prefix: string, kind: Kind, index: nat :| Named(text) == SlotId(prefix, kind, index);
    SlotEndsInDigit(prefix, kind, index);
  }
}
