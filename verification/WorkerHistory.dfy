/** Everything that ever happens to some episodes: their runs, and what others do between. */
module WorkerHistory {
  import opened Records
  import Spec = LedgerSpec
  import opened LedgerInvariant
  import opened LedgerSafety
  import opened LedgerStore
  import opened Calls
  import opened Attested
  import opened OperationsHost
  import opened WorkerSpec
  import opened WorkerHost
  import opened WorkerBatches
  import opened WorkerRun
  import opened WorkerStanding
  import opened WorkerResume

  /** One of the episodes is run or resumed, or another host commits a transaction. */
  datatype Round = Rerun(which: nat, reconcile: bool, checkpointed: bool) | Other(event: Spec.Event)

  /** What is known of an episode: its recorded inputs, once there are any, and its exchanges. */
  datatype Standing = Standing(known: Option<Artifacts>, exchanges: seq<Exchange>)

  /** The episode stands further than before. */
  ghost predicate StandsOn(episode: Episode, st: Spec.State, before: Standing, after: Standing) {
    && Stands(episode, st, after.known, after.exchanges) && Grew(episode, before.exchanges, after.exchanges)
    && (before.known.Some? ==> after.known == before.known)
  }

  ghost predicate GoesOn(episode: Episode, st: Spec.State, before: Standing) {
    exists after :: StandsOn(episode, st, before, after)
  }

  ghost predicate AllStand(episodes: seq<Episode>, st: Spec.State, standings: seq<Standing>) {
    && |standings| == |episodes|
    && forall k | 0 <= k < |episodes| :: Stands(episodes[k], st, standings[k].known, standings[k].exchanges)
  }

  ghost predicate AllStandOn(episodes: seq<Episode>, st: Spec.State, before: seq<Standing>, after: seq<Standing>) {
    && |before| == |after| == |episodes|
    && forall k | 0 <= k < |episodes| :: StandsOn(episodes[k], st, before[k], after[k])
  }

  ghost function Further(episode: Episode, st: Spec.State, before: Standing): (after: Standing)
    requires GoesOn(episode, st, before)
    ensures StandsOn(episode, st, before, after)
  {
    var after :| StandsOn(episode, st, before, after);
    after
  }

  lemma AllGoOn(episodes: seq<Episode>, st: Spec.State, before: seq<Standing>) returns (after: seq<Standing>)
    requires |before| == |episodes| && forall k | 0 <= k < |episodes| :: GoesOn(episodes[k], st, before[k])
    ensures AllStandOn(episodes, st, before, after)
  {
    after := seq(|episodes|, k requires 0 <= k < |episodes| => Further(episodes[k], st, before[k]));
  }

  /** Every result so far is the one the exchanges lead to. */
  predicate Agree(episode: Episode, responses: seq<Exchange>, results: seq<Json>) {
    forall result | result in results :: ResultAfter(episode, responses) == Some(result)
  }

  ghost predicate AllAgree(episodes: seq<Episode>, standings: seq<Standing>, results: seq<seq<Json>>) {
    && |standings| == |results| == |episodes|
    && forall k | 0 <= k < |episodes| :: Agree(episodes[k], standings[k].exchanges, results[k])
  }

  lemma AgreeStays(episode: Episode, st: Spec.State, before: Standing, after: Standing, results: seq<Json>)
    requires Agree(episode, before.exchanges, results) && StandsOn(episode, st, before, after)
    ensures Agree(episode, after.exchanges, results)
  {
    if results != [] {
      assert results[0] in results;
      if after.known.Some? {
        FinishedIsFinal(episode, after.known.value, st, before.exchanges, after.exchanges);
      }
    }
  }

  lemma AllAgreeStays(episodes: seq<Episode>, st: Spec.State, before: seq<Standing>, after: seq<Standing>,
                      results: seq<seq<Json>>)
    requires AllAgree(episodes, before, results) && AllStandOn(episodes, st, before, after)
    ensures AllAgree(episodes, after, results)
  {
    forall k | 0 <= k < |episodes|
      ensures Agree(episodes[k], after[k].exchanges, results[k])
    {
      AgreeStays(episodes[k], st, before[k], after[k], results[k]);
    }
  }

  /** No episode is another, or below one. */
  predicate AllApart(episodes: seq<Episode>) {
    forall i, j | 0 <= i < |episodes| && 0 <= j < |episodes| && i != j :: Apart(episodes[i].prefix, episodes[j].prefix)
  }

  ghost predicate AllForeign(episodes: seq<Episode>, event: Spec.Event) {
    forall k | 0 <= k < |episodes| :: Foreign(episodes[k], event)
  }

  ghost predicate Playable(episodes: seq<Episode>, round: Round) {
    match round
    case Rerun(which, _, _) => which < |episodes|
    case Other(event) => AllForeign(episodes, event)
  }

  /** A run of one episode leaves all others standing. */
  lemma RunKeepsAll(episodes: seq<Episode>, which: nat, st: Spec.State, later: Spec.State, before: seq<Standing>, mine: Standing)
    returns (after: seq<Standing>)
    requires Inv(st) && Inv(later) && AllStand(episodes, st, before) && AllApart(episodes) && which < |episodes|
    requires Works(episodes[which].prefix, st, later) && StandsOn(episodes[which], later, before[which], mine)
    ensures AllStandOn(episodes, later, before, after) && after[which] == mine
  {
    forall k | 0 <= k < |episodes|
      ensures GoesOn(episodes[k], later, before[k])
    {
      if k == which {
        assert StandsOn(episodes[k], later, before[k], mine);
      } else {
        var more := WorkKeepsOthers(episodes[which].prefix, episodes[k], st, later, before[k].known, before[k].exchanges);
        assert StandsOn(episodes[k], later, before[k], Standing(before[k].known, more));
      }
    }
    after := AllGoOn(episodes, later, before);
    after := after[which := mine];
  }

  lemma EventKeepsAll(episodes: seq<Episode>, st: Spec.State, before: seq<Standing>, event: Spec.Event)
    returns (after: seq<Standing>)
    requires Inv(st) && AllStand(episodes, st, before) && AllForeign(episodes, event)
    ensures AllStandOn(episodes, Spec.Next(st, event), before, after)
  {
    var later := Spec.Next(st, event);
    forall k | 0 <= k < |episodes|
      ensures GoesOn(episodes[k], later, before[k])
    {
      var more := EventKeepsProgress(episodes[k], st, before[k].known, before[k].exchanges, event);
      assert StandsOn(episodes[k], later, before[k], Standing(before[k].known, more));
    }
    after := AllGoOn(episodes, later, before);
  }

  /** From a ledger nobody has used, over any sequence of runs of any number of episodes,
      interleaved in any way, each with or without settling and wherever it died, and of
      transactions by others in between: no slot was called twice and no host operation
      executed twice, every exchange is what came back to its payload or what a host was
      told where one settled what was unknown, and all results the runs of an episode ended
      with are the one result an uninterrupted run gives on its exchanges. */
  method Live(ledger: Ledger, boundary: Boundary, executor: Executor, episodes: seq<Episode>, rounds: seq<Round>)
    returns (results: seq<seq<Json>>, ghost standings: seq<Standing>)
    requires ledger.View() == Spec.Init(ledger.project) && boundary.calls == [] && executor.calls == []
    requires boundary.log == map[] && boundary.told == {}
    requires AllApart(episodes) && forall episode | episode in episodes :: Bounded(episode)
    requires forall round | round in rounds :: Playable(episodes, round)
    modifies ledger, boundary, executor
    ensures ledger.Valid() && Counted(boundary, executor, ledger.View())
    ensures AllStand(episodes, ledger.View(), standings) && |results| == |episodes|
    ensures forall k | 0 <= k < |episodes| ::
      AllCameBack(episodes[k], standings[k].exchanges, boundary.log, boundary.told)
    ensures (forall round | round in rounds :: !Tells(round)) ==> boundary.told == {}
    ensures forall k, result | 0 <= k < |episodes| && result in results[k] ::
      && ResultAfter(episodes[k], standings[k].exchanges) == Some(result)
      && Uninterrupted(episodes[k], [], standings[k].exchanges) == Some(result)
  {
    results := seq(|episodes|, k => []);
    standings := seq(|episodes|, k => Standing(None, []));
    AllStart(ledger.project, episodes);
    for i := 0 to |rounds|
      invariant ledger.Valid() && Counted(boundary, executor, ledger.View())
      invariant AllStand(episodes, ledger.View(), standings) && AllAgree(episodes, standings, results)
      invariant (forall round | round in rounds :: !Tells(round)) ==> boundary.told == {}
    {
      results, standings := LiveOn(ledger, boundary, executor, episodes, rounds[i], results, standings);
    }
    AllUninterrupted(episodes, ledger.View(), standings, results);
    AllExchangesCameBack(episodes, ledger.View(), standings, boundary);
  }

  /** In such a round a host may settle an operation with what it is told. */
  predicate Tells(round: Round) {
    match round
    case Rerun(_, reconcile, _) => reconcile
    case Other(event) => event.CompleteEvent?
  }

  lemma AllExchangesCameBack(episodes: seq<Episode>, st: Spec.State, standings: seq<Standing>, boundary: Boundary)
    requires Inv(st) && AllStand(episodes, st, standings) && boundary.Tracks(st)
    ensures forall k | 0 <= k < |episodes| ::
      AllCameBack(episodes[k], standings[k].exchanges, boundary.log, boundary.told)
  {
    forall k | 0 <= k < |episodes|
      ensures AllCameBack(episodes[k], standings[k].exchanges, boundary.log, boundary.told)
    {
      ExchangesCameBack(episodes[k], st, standings[k].known, standings[k].exchanges, boundary);
    }
  }

  lemma AllStart(project: Project, episodes: seq<Episode>)
    ensures Inv(Spec.Init(project)) && Called([], Spec.Init(project)) && Attests(map[], {}, [], Spec.Init(project))
    ensures AllStand(episodes, Spec.Init(project), seq(|episodes|, k => Standing(None, [])))
  {
    Reachable(project, []);
    forall k | 0 <= k < |episodes|
      ensures Stands(episodes[k], Spec.Init(project), None, [])
    {
      FreshStart(project, episodes[k]);
    }
  }

  lemma AllUninterrupted(episodes: seq<Episode>, st: Spec.State, standings: seq<Standing>, results: seq<seq<Json>>)
    requires AllStand(episodes, st, standings) && AllAgree(episodes, standings, results)
    ensures forall k, result | 0 <= k < |episodes| && result in results[k] ::
      && ResultAfter(episodes[k], standings[k].exchanges) == Some(result)
      && Uninterrupted(episodes[k], [], standings[k].exchanges) == Some(result)
  {
    forall k, result | 0 <= k < |episodes| && result in results[k]
      ensures ResultAfter(episodes[k], standings[k].exchanges) == Some(result)
      ensures Uninterrupted(episodes[k], [], standings[k].exchanges) == Some(result)
    {
      FinalResult(episodes[k], st, standings[k].known, standings[k].exchanges, standings[k].exchanges, result);
    }
  }

  method LiveOn(ledger: Ledger, boundary: Boundary, executor: Executor, episodes: seq<Episode>, round: Round,
                results: seq<seq<Json>>, ghost standings: seq<Standing>)
    returns (more: seq<seq<Json>>, ghost later: seq<Standing>)
    requires ledger.Valid() && Counted(boundary, executor, ledger.View())
    requires AllStand(episodes, ledger.View(), standings) && AllAgree(episodes, standings, results)
    requires AllApart(episodes) && (forall episode | episode in episodes :: Bounded(episode)) && Playable(episodes, round)
    modifies ledger, boundary, executor
    ensures ledger.Valid() && Counted(boundary, executor, ledger.View())
    ensures AllStand(episodes, ledger.View(), later) && AllAgree(episodes, later, more)
    ensures !Tells(round) ==> boundary.told == old(boundary.told)
  {
    match round {
      case Rerun(which, reconcile, checkpointed) =>
        more, later := RunOne(ledger, boundary, executor, episodes, which, reconcile, checkpointed, results, standings);
      case Other(event) =>
        more := results;
        later := OthersAct(ledger, boundary, executor, episodes, event, results, standings);
    }
  }

  method RunOne(ledger: Ledger, boundary: Boundary, executor: Executor, episodes: seq<Episode>, which: nat, reconcile: bool,
                checkpointed: bool, results: seq<seq<Json>>, ghost standings: seq<Standing>)
    returns (more: seq<seq<Json>>, ghost later: seq<Standing>)
    requires ledger.Valid() && Counted(boundary, executor, ledger.View())
    requires AllStand(episodes, ledger.View(), standings) && AllAgree(episodes, standings, results)
    requires AllApart(episodes) && which < |episodes| && Bounded(episodes[which])
    modifies ledger, boundary`calls, boundary`log, executor, if reconcile then {boundary} else {}
    ensures ledger.Valid() && Counted(boundary, executor, ledger.View())
    ensures AllStand(episodes, ledger.View(), later) && AllAgree(episodes, later, more)
  {
    ghost var st := ledger.View();
    var out;
    ghost var now, exchanges;
    out, now, exchanges := RunWorkflow(ledger, boundary, executor, episodes[which], reconcile, checkpointed,
                                       standings[which].known, standings[which].exchanges);
    later := RunKeepsAll(episodes, which, st, ledger.View(), standings, Standing(now, exchanges));
    AllAgreeStays(episodes, ledger.View(), standings, later, results);
    more := results;
    if out.Finished? {
      more := results[which := results[which] + [out.result]];
      OneMoreResult(episodes, later, results, which, out.result);
    }
  }

  lemma OneMoreResult(episodes: seq<Episode>, standings: seq<Standing>, results: seq<seq<Json>>, which: nat, result: Json)
    requires AllAgree(episodes, standings, results) && which < |episodes|
    requires ResultAfter(episodes[which], standings[which].exchanges) == Some(result)
    ensures AllAgree(episodes, standings, results[which := results[which] + [result]])
  {
  }

  method OthersAct(ledger: Ledger, boundary: Boundary, executor: Executor, episodes: seq<Episode>, event: Spec.Event,
                   ghost results: seq<seq<Json>>, ghost standings: seq<Standing>)
    returns (ghost later: seq<Standing>)
    requires ledger.Valid() && Counted(boundary, executor, ledger.View()) && AllForeign(episodes, event)
    requires AllStand(episodes, ledger.View(), standings) && AllAgree(episodes, standings, results)
    modifies ledger, boundary`told
    ensures ledger.Valid() && Counted(boundary, executor, ledger.View())
    ensures AllStand(episodes, ledger.View(), later) && AllAgree(episodes, later, results)
    ensures !event.CompleteEvent? ==> boundary.told == old(boundary.told)
  {
    ghost var st := ledger.View();
    later := EventKeepsAll(episodes, st, standings, event);
    NextExtends(st, event);
    boundary.Hear(event, st);
    ledger.Apply(event);
    CalledStays(executor.calls, st, ledger.View());
    AllAgreeStays(episodes, ledger.View(), standings, later, results);
  }
}
