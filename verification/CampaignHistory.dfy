/** Everything that ever happens to a project's campaigns. */
module CampaignHistory {
  import opened Records
  import Spec = LedgerSpec
  import opened LedgerInvariant
  import opened LedgerSafety
  import opened LedgerStore
  import opened CampaignSpecs
  import opened CampaignHost

  /** A campaign is planned, or another host commits a transaction. */
  datatype Round = Planning(session: string, spec: CampaignSpec) | Other(event: Spec.Event)

  predicate IsAway(origin: Origin) {
    origin.kind != CAMPAIGN_PLAN && (origin.operationId.Named? ==> !("campaign/" <= origin.operationId.text))
  }

  /** The transaction neither captures nor reserves anything under a campaign's ID. */
  predicate Away(event: Spec.Event) {
    match event
    case RecordEvent(_, origin, _, _) => IsAway(origin)
    case ReserveEvent(_, request, _, _) => IsAway(request.origin)
    case CompleteEvent(_, request, _, _) => IsAway(request.origin)
    case _ => true
  }

  predicate Fair(rounds: seq<Round>) {
    forall round | round in rounds :: if round.Planning? then ValidSpec(round.spec) else Away(round.event)
  }

  lemma AwayIsNoCampaign(origin: Origin)
    requires IsAway(origin)
    ensures origin.kind != CAMPAIGN_PLAN && !IsCampaignId(origin.operationId)
  {
  }

  /** A new ledger has no plans. */
  lemma NoPlansYet(project: Project)
    ensures CampaignsOk(Spec.Init(project))
  {
  }

  lemma EventIsAway(st: Spec.State, event: Spec.Event)
    requires Away(event)
    ensures var later := Spec.Next(st, event);
      && (forall k | |st.observations| <= k < |later.observations| :: IsAway(later.observations[k].origin))
      && (forall k | 0 <= k < |later.operations| ::
            IsAway(later.operations[k].request.origin)
            || (k < |st.operations| && later.operations[k].request == st.operations[k].request))
  {
  }

  lemma EventKeepsPlans(st: Spec.State, event: Spec.Event)
    requires CampaignsOk(st) && Away(event)
    ensures CampaignsOk(Spec.Next(st, event))
  {
    var later := Spec.Next(st, event);
    NextExtends(st, event);
    EventIsAway(st, event);
    forall k | |st.observations| <= k < |later.observations|
      ensures later.observations[k].origin.kind != CAMPAIGN_PLAN && !IsCampaignId(later.observations[k].origin.operationId)
    {
      AwayIsNoCampaign(later.observations[k].origin);
    }
    forall op | op in later.operations
      ensures !IsCampaignId(op.Id())
    {
      var k :| 0 <= k < |later.operations| && later.operations[k] == op;
      if IsAway(op.request.origin) {
        AwayIsNoCampaign(op.request.origin);
      } else {
        assert st.operations[k] in st.operations;
      }
    }
    OthersKeepPlans(st, later);
  }

  ghost predicate IsPinned(st: Spec.State, plan: Plan) {
    exists row :: PlanAt(st, row, plan)
  }

  lemma AllPinnedStay(st: Spec.State, later: Spec.State, plans: seq<Plan>)
    requires Extends(st, later) && forall plan | plan in plans :: IsPinned(st, plan)
    ensures forall plan | plan in plans :: IsPinned(later, plan)
  {
    forall plan | plan in plans
      ensures IsPinned(later, plan)
    {
      var row :| PlanAt(st, row, plan);
      PinnedStays(st, later, row, plan);
    }
  }

  /** From a new ledger, over any sequence of plannings, refused or not, and of other
      transactions: every plan returned is still pinned, plans of the same campaign are the
      same plan, and across all of them a task and a memory scope keep one split. */
  method Live(ledger: Ledger, rounds: seq<Round>) returns (plans: seq<Plan>)
    requires ledger.View() == Spec.Init(ledger.project) && Fair(rounds)
    modifies ledger
    ensures ledger.Valid() && CampaignsOk(ledger.View())
    ensures forall plan | plan in plans :: IsPinned(ledger.View(), plan)
    ensures forall a, b | a in plans && b in plans :: PlansApart(a, b) && (a.id == b.id ==> a == b)
  {
    Reachable(ledger.project, []);
    NoPlansYet(ledger.project);
    plans := [];
    for i := 0 to |rounds|
      invariant ledger.Valid() && CampaignsOk(ledger.View())
      invariant forall plan | plan in plans :: IsPinned(ledger.View(), plan)
    {
      plans := LiveOn(ledger, rounds[i], plans);
    }
    PinnedAreApart(ledger.View(), plans);
  }

  method LiveOn(ledger: Ledger, round: Round, plans: seq<Plan>) returns (more: seq<Plan>)
    requires ledger.Valid() && CampaignsOk(ledger.View()) && Fair([round])
    requires forall plan | plan in plans :: IsPinned(ledger.View(), plan)
    modifies ledger
    ensures ledger.Valid() && CampaignsOk(ledger.View()) && Extends(old(ledger.View()), ledger.View())
    ensures forall plan | plan in more :: IsPinned(ledger.View(), plan)
  {
    ghost var st := ledger.View();
    assert round in [round];
    more := plans;
    match round {
      case Planning(session, spec) =>
        var out := PlanCampaign(ledger, session, spec);
        AllPinnedStay(st, ledger.View(), plans);
        if out.Ok? {
          more := plans + [out.value];
        }
      case Other(event) =>
        EventKeepsPlans(st, event);
        NextExtends(st, event);
        ledger.Apply(event);
        AllPinnedStay(st, ledger.View(), plans);
    }
  }

  lemma PinnedAreApart(st: Spec.State, plans: seq<Plan>)
    requires CampaignsOk(st) && forall plan | plan in plans :: IsPinned(st, plan)
    ensures forall a, b | a in plans && b in plans :: PlansApart(a, b) && (a.id == b.id ==> a == b)
  {
    forall a, b | a in plans && b in plans
      ensures PlansApart(a, b) && (a.id == b.id ==> a == b)
    {
      var i :| PlanAt(st, i, a);
      var j :| PlanAt(st, j, b);
      if a.id == b.id {
        PlanIsOne(st, i, j, a, b);
      }
    }
  }
}
