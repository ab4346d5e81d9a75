/** Calls to the outside, counted across every crash of the host. */
module Calls {
  import opened Records
  import Spec = LedgerSpec
  import opened LedgerInvariant
  import opened LedgerSafety

  /** Every call was made under a dispatch marker of its own. */
  ghost predicate Called(calls: seq<OpId>, st: Spec.State) {
    && Distinct(calls)
    && forall id | id in calls :: exists op | op in st.operations :: op.Id() == id && op.dispatch.Some?
  }

  lemma CalledStays(calls: seq<OpId>, st: Spec.State, later: Spec.State)
    requires Called(calls, st) && Extends(st, later)
    ensures Called(calls, later)
  {
    forall id | id in calls
      ensures exists op | op in later.operations :: op.Id() == id && op.dispatch.Some?
    {
      var op :| op in st.operations && op.Id() == id && op.dispatch.Some?;
      var i :| 0 <= i < |st.operations| && st.operations[i] == op;
      assert Advances(op, later.operations[i]);
      assert later.operations[i] in later.operations;
    }
  }

  /** A dispatch that was granted has not been used for a call before. */
  lemma GrantIsFresh(calls: seq<OpId>, st: Spec.State, session: string, request: Request)
    requires UniqueIds(st.operations) && Called(calls, st) && Spec.Begin(st, session, request).out == Ok(true)
    ensures Called(calls + [request.origin.operationId], Spec.Begin(st, session, request).st)
  {
    var later := Spec.Begin(st, session, request).st;
    var id := request.origin.operationId;
    var row := Spec.Find(st.operations, id).value;
    NextExtends(st, Spec.BeginEvent(session, request));
    CalledStays(calls, st, later);
    assert later.operations[row] in later.operations;
    forall op | op in st.operations && op.Id() == id
      ensures op.dispatch.None?
    {
      assert op == st.operations[row];
    }
    assert id !in calls;
  }
}
