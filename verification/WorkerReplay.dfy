/** Why a rerun agent finds its own past on the ledger. */
module WorkerReplay {
  import opened Records
  import opened Slots
  import opened LedgerSpec
  import opened LedgerInvariant
  import opened LedgerSafety
  import Evidences
  import RecordOnce
  import opened WorkerSpec

  // ---- Turns ----

  lemma {:induction false} QueriesGrow(episode: Episode, responses: seq<Exchange>, j: nat, k: nat)
    requires j <= k <= |responses|
    ensures Queries(episode, responses[..j]) <= Queries(episode, responses[..k])
    ensures j - Queries(episode, responses[..j]) <= k - Queries(episode, responses[..k])
  {
    if j < k {
      QueriesGrow(episode, responses, j, k - 1);
      assert responses[..k][..k - 1] == responses[..k - 1];
    }
  }

  /** Each attempt of a run has a slot of its own. */
  lemma TurnsDiffer(episode: Episode, responses: seq<Exchange>, j: nat, k: nat)
    requires j < k <= |responses|
    requires NextTurn(episode, responses[..j]).Some? && NextTurn(episode, responses[..k]).Some?
    ensures var a, b := NextTurn(episode, responses[..j]).value, NextTurn(episode, responses[..k]).value;
      && TurnId(episode, a) != TurnId(episode, b)
      && InputId(episode.prefix, a.kind, a.index) != InputId(episode.prefix, b.kind, b.index)
  {
    var a, b := NextTurn(episode, responses[..j]).value, NextTurn(episode, responses[..k]).value;
    assert responses[..j + 1][..j] == responses[..j];
    QueriesGrow(episode, responses, j + 1, k);
    SlotsDiffer(episode.prefix, a.kind, a.index, b.kind, b.index);
  }

  /** Reading the trajectory off the ledger and running the agent from scratch on the
      recorded responses give the same result. */
  lemma {:induction false} ResultIsUninterrupted(episode: Episode, responses: seq<Exchange>, k: nat)
    requires k <= |responses| && ResultAfter(episode, responses).Some?
    ensures Replies(episode, responses[..k]).Some?
    ensures Uninterrupted(episode, Replies(episode, responses[..k]).value, responses[k..])
         == ResultAfter(episode, responses)
    decreases |responses| - k
  {
    if k == |responses| {
      assert responses[..k] == responses;
    } else {
      ResultIsUninterrupted(episode, responses, k + 1);
      assert responses[..k + 1][..k] == responses[..k];
      assert responses[k..][1..] == responses[k + 1..];
    }
  }

  // ---- Records stay ----

  ghost predicate Added(st: State, later: State, i: int) {
    |st.observations| <= i < |later.observations|
  }

  lemma RecordStays(st: State, later: State, row: nat, origin: Origin, raw: Artifacts)
    requires st.observations <= later.observations && RecordOnce.IsRecord(st, row, origin, raw)
    requires forall i | Added(st, later, i) :: later.observations[i].origin.operationId != origin.operationId
    ensures RecordOnce.IsRecord(later, row, origin, raw)
  {
    forall k | 0 <= k < |later.observations| && k != row
      ensures later.observations[k].origin.operationId != origin.operationId
    {
      assert k < |st.observations| || Added(st, later, k);
    }
  }

  /** Captures added under an episode's record IDs are the first ones there. */
  ghost predicate AddsFirst(episode: Episode, st: State, later: State) {
    && st.observations <= later.observations
    && forall i | Added(st, later, i) ::
         var id := later.observations[i].origin.operationId;
         IsRecordId(episode.prefix, id) ==> RecordOnce.FirstRecord(st.observations, id).None?
  }

  ghost predicate AddsNoReceipt(episode: Episode, st: State, later: State) {
    forall i | Added(st, later, i) :: later.observations[i].origin.operationId != ReceiptId(episode.prefix)
  }

  ghost predicate AddsFresh(episode: Episode, st: State, later: State) {
    AddsFirst(episode, st, later) && AddsNoReceipt(episode, st, later)
  }

  lemma AttemptStays(episode: Episode, inputs: Artifacts, st: State, later: State, turn: Turn, op: Operation)
    requires later.project == st.project && AddsFirst(episode, st, later) && Attempts(episode, inputs, st, turn, op)
    ensures Attempts(episode, inputs, later, turn, op)
  {
    var row: nat :| RecordOnce.IsRecord(st, row, InputOrigin(episode, inputs, turn), InputRaw(turn))
                    && op.request == TurnRequest(episode, st.project, inputs, turn, st.observations[row]);
    var id := InputId(episode.prefix, turn.kind, turn.index);
    assert st.observations[row] in st.observations;
    assert IsRecordId(episode.prefix, id);
    RecordStays(st, later, row, InputOrigin(episode, inputs, turn), InputRaw(turn));
  }

  lemma OpenedStays(episode: Episode, inputs: Artifacts, st: State, later: State)
    requires AddsFirst(episode, st, later) && Opened(episode, inputs, st)
    ensures Opened(episode, inputs, later)
  {
    var row: nat :| RecordOnce.IsRecord(st, row, EpisodeOrigin(episode), EpisodeRaw(episode))
                    && inputs == One(Evidences.Captured(st.observations[row], EPISODE_FILE));
    assert st.observations[row] in st.observations;
    RecordStays(st, later, row, EpisodeOrigin(episode), EpisodeRaw(episode));
  }

  lemma SettledStays(episode: Episode, inputs: Artifacts, st: State, later: State, responses: seq<Exchange>, k: nat)
    requires later.project == st.project && AddsFirst(episode, st, later)
    requires forall op | op in st.operations && op.completion.Some? :: op in later.operations
    requires k < |responses| && Settled(episode, inputs, st, responses, k)
    ensures Settled(episode, inputs, later, responses, k)
  {
    var turn := NextTurn(episode, responses[..k]).value;
    var op :| op in st.operations && Attempts(episode, inputs, st, turn, op) && op.completion == Some(responses[k].done);
    AttemptStays(episode, inputs, st, later, turn, op);
  }

  lemma OnTrajectoryStays(episode: Episode, inputs: Artifacts, st: State, later: State, responses: seq<Exchange>, op: Operation)
    requires later.project == st.project && AddsFirst(episode, st, later)
    requires OnTrajectory(episode, inputs, st, responses, op)
    ensures OnTrajectory(episode, inputs, later, responses, op)
  {
    var next := NextTurn(episode, responses);
    if next.Some? && op.completion.None? && Attempts(episode, inputs, st, next.value, op) {
      AttemptStays(episode, inputs, st, later, next.value, op);
    }
  }

  lemma ReceiptStays(episode: Episode, st: State, later: State, responses: seq<Exchange>)
    requires AddsFresh(episode, st, later) && ReceiptOk(episode, st, responses)
    ensures ReceiptOk(episode, later, responses)
  {
    forall o | o in later.observations && o.origin.operationId == ReceiptId(episode.prefix)
      ensures o in st.observations
    {
      var i :| 0 <= i < |later.observations| && later.observations[i] == o;
      assert i < |st.observations| || Added(st, later, i);
    }
  }

  /** The operation attempts the next turn and has no outcome yet. */
  ghost predicate Frontier(episode: Episode, inputs: Artifacts, st: State, responses: seq<Exchange>, op: Operation) {
    && NextTurn(episode, responses).Some?
    && op.completion.None?
    && Attempts(episode, inputs, st, NextTurn(episode, responses).value, op)
  }

  /** Anything may happen on the ledger as long as it completes nothing of the episode
      and touches no slot but the next one: the trace is the same. */
  lemma TraceStays(episode: Episode, inputs: Artifacts, st: State, later: State, responses: seq<Exchange>)
    requires Traced(episode, inputs, st, responses)
    requires later.project == st.project && AddsFirst(episode, st, later)
    requires AddsNoReceipt(episode, st, later) || ReceiptOk(episode, later, responses)
    requires forall op | op in st.operations && op.completion.Some? :: op in later.operations
    requires forall op | op in later.operations && op !in st.operations ::
      && !IsRecordId(episode.prefix, op.Id())
      && (IsSlot(episode.prefix, op.Id()) ==> Frontier(episode, inputs, later, responses, op))
    ensures Traced(episode, inputs, later, responses)
  {
    forall k | 0 <= k < |responses|
      ensures Settled(episode, inputs, later, responses, k)
    {
      SettledStays(episode, inputs, st, later, responses, k);
    }
    forall op | op in later.operations && IsSlot(episode.prefix, op.Id())
      ensures OnTrajectory(episode, inputs, later, responses, op)
    {
      if op in st.operations {
        OnTrajectoryStays(episode, inputs, st, later, responses, op);
      }
    }
    if AddsNoReceipt(episode, st, later) {
      ReceiptStays(episode, st, later, responses);
    }
  }

  lemma LongerTrajectory(episode: Episode, inputs: Artifacts, st: State, responses: seq<Exchange>, done: Completion, op: Operation)
    requires NextTurn(episode, responses).Some?
    requires op.Id() == TurnId(episode, NextTurn(episode, responses).value)
          || OnTrajectory(episode, inputs, st, responses, op)
    requires op.completion.None? && Attempts(episode, inputs, st, NextTurn(episode, responses).value, op) ==>
      op.Id() == TurnId(episode, NextTurn(episode, responses).value)
    ensures OnTrajectory(episode, inputs, st, responses + [Unshown(done)], op)
  {
    var longer := responses + [Unshown(done)];
    assert longer[..|responses|] == responses;
    if op.Id() != TurnId(episode, NextTurn(episode, responses).value) {
      var k :| 0 <= k < |responses| && NextTurn(episode, responses[..k]).Some?
               && op.Id() == TurnId(episode, NextTurn(episode, responses[..k]).value);
      assert longer[..k] == responses[..k];
    }
  }

  lemma AttemptHasTurnId(episode: Episode, inputs: Artifacts, st: State, turn: Turn, op: Operation)
    requires Attempts(episode, inputs, st, turn, op)
    ensures op.Id() == TurnId(episode, turn)
  {
  }

  /** Completing the next attempt adds its outcome to the trace, and nothing else. */
  lemma TraceGrows(episode: Episode, inputs: Artifacts, st: State, later: State, responses: seq<Exchange>,
                   op: Operation, done: Completion)
    requires Traced(episode, inputs, st, responses)
    requires later.project == st.project && AddsFresh(episode, st, later)
    requires Frontier(episode, inputs, st, responses, op)
    requires op.(completion := Some(done)) in later.operations
    requires forall other | other in st.operations && other.completion.Some? :: other in later.operations
    requires forall other | other in later.operations ::
      other == op.(completion := Some(done)) || other in st.operations
    ensures Traced(episode, inputs, later, responses + [Unshown(done)])
  {
    var longer, turn := responses + [Unshown(done)], NextTurn(episode, responses).value;
    var settled := op.(completion := Some(done));
    assert longer[..|responses|] == responses;
    AttemptStays(episode, inputs, st, later, turn, op);
    assert Attempts(episode, inputs, later, turn, settled);
    AttemptHasTurnId(episode, inputs, st, turn, op);
    SlotIsNoRecord(episode.prefix, turn.kind, turn.index);
    forall k | 0 <= k < |longer|
      ensures Settled(episode, inputs, later, longer, k)
    {
      assert longer[..k] == responses[..k];
      if k < |responses| {
        SettledStays(episode, inputs, st, later, responses, k);
      }
    }
    forall other | other in later.operations && IsSlot(episode.prefix, other.Id())
      ensures OnTrajectory(episode, inputs, later, longer, other)
    {
      if other != settled {
        OnTrajectoryStays(episode, inputs, st, later, responses, other);
      }
      if Attempts(episode, inputs, later, turn, other) {
        AttemptHasTurnId(episode, inputs, later, turn, other);
      }
      LongerTrajectory(episode, inputs, later, responses, done, other);
    }
    assert forall o | o in st.observations :: o.origin.operationId != ReceiptId(episode.prefix);
    ReceiptStays(episode, st, later, responses);
    NoReceipt(episode, st, later);
  }

  lemma NoReceipt(episode: Episode, st: State, later: State)
    requires AddsFresh(episode, st, later)
    requires forall o | o in st.observations :: o.origin.operationId != ReceiptId(episode.prefix)
    ensures forall o | o in later.observations :: o.origin.operationId != ReceiptId(episode.prefix)
  {
    forall o | o in later.observations
      ensures o.origin.operationId != ReceiptId(episode.prefix)
    {
      var i :| 0 <= i < |later.observations| && later.observations[i] == o;
      assert i < |st.observations| || Added(st, later, i);
    }
  }
}
