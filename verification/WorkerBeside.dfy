/** What the other hosts of a project do beside the episodes of its workers. */
module WorkerBeside {
  import opened Records
  import opened Slots
  import opened LedgerSpec
  import opened LedgerInvariant
  import opened LedgerSafety
  import opened Touching
  import opened WorkerSpec
  import opened WorkerReplay
  import opened WorkerStanding
  import AcceptanceCommit
  import Claims
  import CampaignSpecs
  import MemoryRecords

  const EPISODES: string := "episode/"

  /** An ID of no episode. */
  predicate IsElsewhere(id: OpId) {
    id.Named? ==> !(EPISODES <= id.text)
  }

  lemma ElsewhereIsNotOwn(name: string, id: OpId)
    requires IsElsewhere(id)
    ensures !IsOwn(EPISODES + name, id)
  {
    assert (EPISODES + name)[..|EPISODES|] == EPISODES;
    if Under(EPISODES + name, id) {
      BelowAnEpisode(name, id.text);
    }
  }

  lemma BelowAnEpisode(name: string, text: string)
    requires EPISODES + name + "/" <= text
    ensures EPISODES <= text
  {
    assert text[..|EPISODES|] == (EPISODES + name + "/")[..|EPISODES|] == EPISODES;
  }

  /** Captures elsewhere, and operations of nobody, keep off every episode. */
  lemma CapturesKeepOff(name: string, st: State, later: State)
    requires Inv(later) && Extends(st, later) && later.operations == st.operations
    requires forall i | Added(st, later, i) :: IsElsewhere(later.observations[i].origin.operationId)
    ensures KeepsOff(EPISODES + name, st, later)
  {
    forall i | Added(st, later, i)
      ensures !IsOwn(EPISODES + name, later.observations[i].origin.operationId)
    {
      ElsewhereIsNotOwn(name, later.observations[i].origin.operationId);
    }
  }

  /** Recording a claim keeps every episode as it is. */
  lemma ClaimKeepsEpisodes(name: string, episode: Episode, st: State, later: State, body: Claims.Body,
                           known: Option<Artifacts>, responses: seq<Exchange>)
    requires episode.prefix == EPISODES + name && Inv(st) && Inv(later) && Stands(episode, st, known, responses)
    requires Extends(st, later) && Claims.AddsOnly(st, later, Hashed("claim", Claims.BodyJson(body)))
    ensures Stands(episode, later, known, responses)
  {
    CapturesKeepOff(name, st, later);
    OffStands(episode, st, later, known, responses);
  }

  /** Deriving memory keeps every episode as it is. */
  lemma MemoryKeepsEpisodes(name: string, episode: Episode, st: State, later: State, known: Option<Artifacts>,
                            responses: seq<Exchange>)
    requires episode.prefix == EPISODES + name && Inv(st) && Stands(episode, st, known, responses)
    requires MemoryRecords.OnlyBookkeeping(st, later)
    ensures Stands(episode, later, known, responses)
  {
    forall i | Added(st, later, i)
      ensures IsElsewhere(later.observations[i].origin.operationId)
    {
      BookkeepingIsElsewhere(later.observations[i].origin.operationId);
    }
    CapturesKeepOff(name, st, later);
    OffStands(episode, st, later, known, responses);
  }

  lemma BookkeepingIsElsewhere(id: OpId)
    requires MemoryRecords.IsBookkeeping(id)
    ensures IsElsewhere(id)
  {
    if id.Named? {
      var run, index, source :| '/' !in run && id == Named(MemoryRecords.EntryText(run, index, source));
      assert id.text[0] == 'r' && EPISODES[0] == 'e';
    }
  }

  /** Planning a campaign keeps every episode as it is. */
  lemma PlanKeepsEpisodes(name: string, episode: Episode, st: State, later: State, campaign: string,
                          known: Option<Artifacts>, responses: seq<Exchange>)
    requires episode.prefix == EPISODES + name && Inv(st) && Inv(later) && Stands(episode, st, known, responses)
    requires Touches(st, later, iset{CampaignSpecs.CampaignId(campaign)})
    ensures Stands(episode, later, known, responses)
  {
    assert ("campaign/" + campaign)[0] == 'c' && EPISODES[0] == 'e';
    ElsewhereIsNotOwn(name, CampaignSpecs.CampaignId(campaign));
    TouchesKeepsOff(episode.prefix, st, later, iset{CampaignSpecs.CampaignId(campaign)});
    OffStands(episode, st, later, known, responses);
  }

  /** Committing a decision or an exception, or dying on the way, keeps every episode as it
      is. */
  lemma DecisionKeepsEpisodes(name: string, episode: Episode, st: State, later: State, request: Request, raw: Artifacts,
                              known: Option<Artifacts>, responses: seq<Exchange>)
    requires episode.prefix == EPISODES + name && Inv(st) && Stands(episode, st, known, responses)
    requires AcceptanceCommit.SettlesOnly(st, later, request, raw) && IsElsewhere(request.origin.operationId)
    ensures Stands(episode, later, known, responses)
  {
    ElsewhereIsNotOwn(name, request.origin.operationId);
    forall i | 0 <= i < |later.operations|
      ensures (i < |st.operations| && later.operations[i] == st.operations[i]) || !IsOwn(episode.prefix, later.operations[i].Id())
    {
      ChangedIsTheDecision(st, later, request, raw, i);
    }
    forall i | Added(st, later, i)
      ensures !IsOwn(episode.prefix, later.observations[i].origin.operationId)
    {
      AddedIsTheDecision(st, later, request, raw, i);
    }
    OffStands(episode, st, later, known, responses);
  }

  lemma ChangedIsTheDecision(st: State, later: State, request: Request, raw: Artifacts, i: nat)
    requires Inv(st) && AcceptanceCommit.SettlesOnly(st, later, request, raw) && i < |later.operations|
    ensures (i < |st.operations| && later.operations[i] == st.operations[i]) || later.operations[i].request == request
  {
    var op := later.operations[i];
    assert op in later.operations;
    if op in st.operations {
      var j :| 0 <= j < |st.operations| && st.operations[j] == op;
      assert Advances(st.operations[j], later.operations[j]);
      assert later.operations[j].Id() == later.operations[i].Id();
    }
  }

  lemma AddedIsTheDecision(st: State, later: State, request: Request, raw: Artifacts, i: nat)
    requires Inv(st) && AcceptanceCommit.SettlesOnly(st, later, request, raw) && Added(st, later, i)
    ensures later.observations[i].origin == request.origin
  {
    var o := later.observations[i];
    assert o in later.observations && ObservationOk(later, i);
    forall j | 0 <= j < |st.observations|
      ensures st.observations[j] != o
    {
      assert ObservationOk(st, j);
    }
  }
}
