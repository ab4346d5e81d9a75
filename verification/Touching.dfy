/** Whose IDs a stretch of transactions touched. */
module Touching {
  import opened Records
  import opened LedgerSpec
  import opened LedgerSafety
  import RecordOnce

  /** The ledger grew, and everything that was recorded, reserved, dispatched or settled on
      it is under these IDs. */
  ghost predicate Touches(st: State, later: State, mine: iset<OpId>) {
    && Extends(st, later)
    && (forall k | |st.observations| <= k < |later.observations| :: later.observations[k].origin.operationId in mine)
    && (forall k | |st.operations| <= k < |later.operations| :: later.operations[k].Id() in mine)
    && (forall k | 0 <= k < |st.operations| :: later.operations[k] == st.operations[k] || st.operations[k].Id() in mine)
  }

  lemma TouchesNothing(st: State, mine: iset<OpId>)
    ensures Touches(st, st, mine)
  {
  }

  lemma TouchesTransitive(a: State, b: State, c: State, mine: iset<OpId>)
    requires Touches(a, b, mine) && Touches(b, c, mine)
    ensures Touches(a, c, mine)
  {
    ExtendsTransitive(a, b, c);
    forall k | |a.observations| <= k < |c.observations|
      ensures c.observations[k].origin.operationId in mine
    {
      if k < |b.observations| {
        assert c.observations[k] == b.observations[k];
      }
    }
    forall k | |a.operations| <= k < |c.operations|
      ensures c.operations[k].Id() in mine
    {
      if k < |b.operations| {
        assert Advances(b.operations[k], c.operations[k]);
      }
    }
    forall k | 0 <= k < |a.operations|
      ensures c.operations[k] == a.operations[k] || a.operations[k].Id() in mine
    {
      assert Advances(a.operations[k], b.operations[k]);
    }
  }

  lemma TouchesWider(st: State, later: State, mine: iset<OpId>, ids: iset<OpId>)
    requires Touches(st, later, mine) && mine <= ids
    ensures Touches(st, later, ids)
  {
  }

  lemma StepTouches(st: State, session: string, origin: Origin, raw: Artifacts, mine: iset<OpId>)
    requires origin.operationId in mine
    ensures Touches(st, RecordOnce.Step(st, session, origin, raw).st, mine)
  {
    RecordOnce.StepExtends(st, session, origin, raw);
  }

  lemma ReserveTouches(st: State, session: string, request: Request, reservation: Amounts, scope: string, mine: iset<OpId>)
    requires request.origin.operationId in mine
    ensures Touches(st, Reserve(st, session, request, reservation, scope).st, mine)
  {
    ReserveExtends(st, session, request, reservation, scope);
  }

  lemma BeginTouches(st: State, session: string, request: Request, mine: iset<OpId>)
    requires request.origin.operationId in mine
    ensures Touches(st, Begin(st, session, request).st, mine)
  {
    BeginExtends(st, session, request);
  }

  lemma CompleteTouches(st: State, session: string, request: Request, result: Result, raw: Artifacts, mine: iset<OpId>)
    requires request.origin.operationId in mine
    ensures Touches(st, Complete(st, session, request, result, raw).st, mine)
  {
    CompleteExtends(st, session, request, result, raw);
  }
}
