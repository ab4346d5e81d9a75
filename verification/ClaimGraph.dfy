/** Support as a walk over a graph of claims, and what the walk's answer means. */
module ClaimGraph {
  import opened Records

  datatype Applicability = Current | Outdated | Undetermined

  /** What the walk reads of one claim: its place in capture order, its dependencies, and
      its recorded check's status. */
  datatype Node = Node(
    age: nat,
    assumptions: map<string, Evidence>,
    parents: seq<Evidence>,
    validation: Status,
    complete: bool)

  /** The readable claims. Anything else cannot be walked. */
  type Graph = map<Evidence, Node>

  /** What a claim depends on: an assumption, or a parent by its evidence name. */
  datatype Dependency = OnAssumption(name: string) | OnParent(name: string)
  type Dependencies = map<Dependency, Applicability>

  datatype Assessment = Assessment(
    validation: Status,
    applicability: Applicability,
    dependencies: Dependencies)

  type Versions = map<string, Option<Evidence>>

  function VersionOf(current: Versions, name: string): Option<Evidence> {
    if name in current then current[name] else None
  }

  function Compare(current: Versions, name: string, expected: Evidence): Applicability {
    match VersionOf(current, name)
    case None => Undetermined
    case Some(version) => if version == expected then Current else Outdated
  }

  /** The status a claim's own state and dependencies give it. */
  function Combine(complete: bool, dependencies: Dependencies): Applicability {
    if Outdated in dependencies.Values then Outdated
    else if !complete || Undetermined in dependencies.Values then Undetermined
    else Current
  }

  function Assumed(assumptions: map<string, Evidence>, current: Versions): Dependencies {
    map key | key in (set name | name in assumptions :: OnAssumption(name)) ::
      Compare(current, key.name, assumptions[key.name])
  }

  /** A parent the walk may visit: readable, and captured before the claim. */
  predicate Walkable(graph: Graph, ref: Evidence, parent: Evidence)
    requires ref in graph
  {
    parent in graph && graph[parent].age < graph[ref].age
  }

  /** The walk without its cache: every visit walks all parents again. */
  function Assess(graph: Graph, current: Versions, ref: Evidence): Option<Assessment>
    decreases if ref in graph then graph[ref].age else 0, 1, 0
  {
    if ref !in graph then None
    else
      var inherited := Inherited(graph, current, ref, |graph[ref].parents|);
      if inherited.None? then None
      else
        var dependencies := Assumed(graph[ref].assumptions, current) + inherited.value;
        Some(Assessment(graph[ref].validation, Combine(graph[ref].complete, dependencies), dependencies))
  }

  /** The status of the claim's n-th parent, when the walk can visit it. */
  function ParentStatus(graph: Graph, current: Versions, ref: Evidence, n: nat): Option<Applicability>
    requires ref in graph && n < |graph[ref].parents|
    decreases graph[ref].age, 0, 0
  {
    var parent := graph[ref].parents[n];
    if !Walkable(graph, ref, parent) then None
    else
      match Assess(graph, current, parent)
      case None => None
      case Some(assessment) => Some(assessment.applicability)
  }

  /** What the first `n` parents contribute, each under its evidence name. */
  function Inherited(graph: Graph, current: Versions, ref: Evidence, n: nat): Option<Dependencies>
    requires ref in graph && n <= |graph[ref].parents|
    decreases graph[ref].age, 0, n + 1
  {
    if n == 0 then Some(map[])
    else
      var earlier := Inherited(graph, current, ref, n - 1);
      var status := ParentStatus(graph, current, ref, n - 1);
      if earlier.None? || status.None? then None
      else Some(earlier.value[OnParent(graph[ref].parents[n - 1].name) := status.value])
  }

  // ---- Reachability ----

  /** Consecutive claims, each a parent of the one before. */
  ghost predicate Linked(graph: Graph, path: seq<Evidence>) {
    forall k | 0 <= k < |path| - 1 :: path[k] in graph && path[k + 1] in graph[path[k]].parents
  }

  ghost predicate Connects(graph: Graph, path: seq<Evidence>, from: Evidence, to: Evidence) {
    path != [] && path[0] == from && path[|path| - 1] == to && Linked(graph, path)
  }

  ghost predicate Reaches(graph: Graph, from: Evidence, to: Evidence) {
    exists path :: Connects(graph, path, from, to)
  }

  ghost predicate Assumes(node: Node, current: Versions, status: Applicability) {
    exists name | name in node.assumptions :: Compare(current, name, node.assumptions[name]) == status
  }

  /** The claim itself has an assumption whose current version differs; or is incomplete
      or has an assumption without a current version. */
  ghost predicate HoldsAt(graph: Graph, current: Versions, status: Applicability, ref: Evidence) {
    ref in graph
    && (Assumes(graph[ref], current, status) || (status == Undetermined && !graph[ref].complete))
  }

  ghost predicate ReachesWith(graph: Graph, current: Versions, status: Applicability, ref: Evidence) {
    exists to :: Reaches(graph, ref, to) && HoldsAt(graph, current, status, to)
  }

  lemma ReachesItself(graph: Graph, ref: Evidence)
    ensures Reaches(graph, ref, ref)
  {
    assert Connects(graph, [ref], ref, ref);
  }

  lemma ReachesThrough(graph: Graph, ref: Evidence, parent: Evidence, to: Evidence)
    requires ref in graph && parent in graph[ref].parents && Reaches(graph, parent, to)
    ensures Reaches(graph, ref, to)
  {
    var path :| Connects(graph, path, parent, to);
    assert Connects(graph, [ref] + path, ref, to);
  }

  lemma ReachesBeyond(graph: Graph, ref: Evidence, to: Evidence) returns (parent: Evidence)
    requires Reaches(graph, ref, to) && ref != to
    ensures ref in graph && parent in graph[ref].parents && Reaches(graph, parent, to)
  {
    var path :| Connects(graph, path, ref, to);
    parent := path[1];
    var rest := path[1..];
    forall k | 0 <= k < |rest| - 1
      ensures rest[k] in graph && rest[k + 1] in graph[rest[k]].parents
    {
      assert path[k + 1] in graph && path[k + 1 + 1] in graph[path[k + 1]].parents;
    }
    assert Connects(graph, rest, parent, to);
  }

  lemma ReachesOn(graph: Graph, ref: Evidence, to: Evidence, parent: Evidence)
    requires Reaches(graph, ref, to) && to in graph && parent in graph[to].parents
    ensures Reaches(graph, ref, parent)
  {
    var path :| Connects(graph, path, ref, to);
    var longer := path + [parent];
    forall k | 0 <= k < |longer| - 1
      ensures longer[k] in graph && longer[k + 1] in graph[longer[k]].parents
    {
      if k < |path| - 1 {
        assert path[k] in graph && path[k + 1] in graph[path[k]].parents;
      }
    }
    assert Connects(graph, longer, ref, parent);
  }

  /** A status spreads from the claim itself or through a parent. */
  lemma ReachesWithStep(graph: Graph, current: Versions, status: Applicability, ref: Evidence)
    requires ref in graph
    ensures ReachesWith(graph, current, status, ref) <==>
      HoldsAt(graph, current, status, ref)
      || exists parent | parent in graph[ref].parents :: ReachesWith(graph, current, status, parent)
  {
    if HoldsAt(graph, current, status, ref) {
      ReachesItself(graph, ref);
    }
    if to :| Reaches(graph, ref, to) && HoldsAt(graph, current, status, to) {
      if to != ref {
        var parent := ReachesBeyond(graph, ref, to);
      }
    }
    if parent :| parent in graph[ref].parents && ReachesWith(graph, current, status, parent) {
      var to :| Reaches(graph, parent, to) && HoldsAt(graph, current, status, to);
      ReachesThrough(graph, ref, parent, to);
    }
  }

  // ---- What the walk collects ----

  lemma AssumedValues(assumptions: map<string, Evidence>, current: Versions, status: Applicability)
    ensures status in Assumed(assumptions, current).Values
       <==> exists name | name in assumptions :: Compare(current, name, assumptions[name]) == status
  {
    var assumed := Assumed(assumptions, current);
    if name :| name in assumptions && Compare(current, name, assumptions[name]) == status {
      assert OnAssumption(name) in assumed && assumed[OnAssumption(name)] == status;
    }
  }

  /** Evidence names tell the parents of a claim apart. */
  ghost predicate NamesApart(graph: Graph) {
    forall a, b | a in graph && b in graph && a.name == b.name :: a == b
  }

  /** The inherited part has exactly the parents' names, each with its status. */
  ghost predicate Collects(graph: Graph, current: Versions, ref: Evidence, n: nat, inherited: Dependencies)
    requires ref in graph && n <= |graph[ref].parents|
  {
    && (forall k | 0 <= k < n :: CollectsParent(graph, current, ref, k, inherited))
    && (forall key | key in inherited :: exists k | 0 <= k < n :: key == OnParent(graph[ref].parents[k].name))
  }

  ghost predicate CollectsParent(graph: Graph, current: Versions, ref: Evidence, k: nat, inherited: Dependencies)
    requires ref in graph && k < |graph[ref].parents|
  {
    var key := OnParent(graph[ref].parents[k].name);
    key in inherited && ParentStatus(graph, current, ref, k) == Some(inherited[key])
  }

  lemma {:induction false} InheritedCollects(graph: Graph, current: Versions, ref: Evidence, n: nat)
    requires NamesApart(graph) && ref in graph && n <= |graph[ref].parents|
    requires Inherited(graph, current, ref, n).Some?
    ensures Collects(graph, current, ref, n, Inherited(graph, current, ref, n).value)
    decreases n
  {
    if n > 0 {
      InheritedCollects(graph, current, ref, n - 1);
      var earlier := Inherited(graph, current, ref, n - 1).value;
      var inherited := Inherited(graph, current, ref, n).value;
      var parents := graph[ref].parents;
      forall k | 0 <= k < n
        ensures CollectsParent(graph, current, ref, k, inherited)
      {
        if k < n - 1 {
          assert CollectsParent(graph, current, ref, k, earlier);
          assert parents[k].name == parents[n - 1].name ==> parents[k] == parents[n - 1];
        }
      }
      forall key | key in inherited
        ensures exists k | 0 <= k < n :: key == OnParent(parents[k].name)
      {
        if key in earlier {
          var k :| 0 <= k < n - 1 && key == OnParent(parents[k].name);
        } else {
          assert key == OnParent(parents[n - 1].name);
        }
      }
    }
  }

  ghost predicate InheritsStatus(graph: Graph, current: Versions, ref: Evidence, status: Applicability)
    requires ref in graph
  {
    exists k | 0 <= k < |graph[ref].parents| :: ParentStatus(graph, current, ref, k) == Some(status)
  }

  lemma CollectedValues(graph: Graph, current: Versions, ref: Evidence, status: Applicability, inherited: Dependencies)
    requires ref in graph && Collects(graph, current, ref, |graph[ref].parents|, inherited)
    ensures status in inherited.Values <==> InheritsStatus(graph, current, ref, status)
  {
    var parents := graph[ref].parents;
    if status in inherited.Values {
      var key :| key in inherited && inherited[key] == status;
      var k :| 0 <= k < |parents| && key == OnParent(parents[k].name);
      assert CollectsParent(graph, current, ref, k, inherited);
    }
    if InheritsStatus(graph, current, ref, status) {
      var k :| 0 <= k < |parents| && ParentStatus(graph, current, ref, k) == Some(status);
      assert CollectsParent(graph, current, ref, k, inherited);
    }
  }

  lemma ValuesOfBoth(assumed: Dependencies, inherited: Dependencies, status: Applicability)
    requires assumed.Keys !! inherited.Keys
    ensures status in (assumed + inherited).Values <==> status in assumed.Values || status in inherited.Values
  {
    var all := assumed + inherited;
    if status in assumed.Values {
      var key :| key in assumed && assumed[key] == status;
      assert key in all && all[key] == status;
    }
    if status in inherited.Values {
      var key :| key in inherited && inherited[key] == status;
      assert key in all && all[key] == status;
    }
  }

  /** One claim's dependencies hold a status when an assumption or a parent has it. */
  lemma LocalStatus(graph: Graph, current: Versions, ref: Evidence, status: Applicability)
    requires NamesApart(graph) && Assess(graph, current, ref).Some?
    ensures ref in graph
    ensures forall k | 0 <= k < |graph[ref].parents| :: ParentStatus(graph, current, ref, k).Some?
    ensures status in Assess(graph, current, ref).value.dependencies.Values
       <==> Assumes(graph[ref], current, status) || InheritsStatus(graph, current, ref, status)
  {
    var n := |graph[ref].parents|;
    var inherited := Inherited(graph, current, ref, n).value;
    InheritedCollects(graph, current, ref, n);
    forall k | 0 <= k < n
      ensures ParentStatus(graph, current, ref, k).Some?
    {
      assert CollectsParent(graph, current, ref, k, inherited);
    }
    AssumedValues(graph[ref].assumptions, current, status);
    CollectedValues(graph, current, ref, status, inherited);
    ValuesOfBoth(Assumed(graph[ref].assumptions, current), inherited, status);
  }

  /** The answer as reachability. */
  ghost function Support(graph: Graph, current: Versions, ref: Evidence): Applicability {
    if ReachesWith(graph, current, Outdated, ref) then Outdated
    else if ReachesWith(graph, current, Undetermined, ref) then Undetermined
    else Current
  }

  /** A claim is stale exactly when some claim it reaches has an outdated assumption;
      otherwise it is unknown exactly when some claim it reaches is incomplete or lacks
      a current version; otherwise it is current. */
  lemma {:induction false} StatusIsReachability(graph: Graph, current: Versions, ref: Evidence)
    requires NamesApart(graph) && Assess(graph, current, ref).Some?
    ensures Assess(graph, current, ref).value.applicability == Support(graph, current, ref)
    decreases if ref in graph then graph[ref].age else 0
  {
    LocalStatus(graph, current, ref, Outdated);
    LocalStatus(graph, current, ref, Undetermined);
    var parents := graph[ref].parents;
    forall k | 0 <= k < |parents|
      ensures ParentStatus(graph, current, ref, k) == Some(Support(graph, current, parents[k]))
    {
      assert ParentStatus(graph, current, ref, k).Some?;
      StatusIsReachability(graph, current, parents[k]);
    }
    ReachesWithStep(graph, current, Outdated, ref);
    ReachesWithStep(graph, current, Undetermined, ref);
  }

  /** The versions of every name some reached claim assumes are the same. */
  ghost predicate AgreeOn(graph: Graph, current: Versions, other: Versions, ref: Evidence) {
    forall to, name | Reaches(graph, ref, to) && to in graph && name in graph[to].assumptions ::
      VersionOf(current, name) == VersionOf(other, name)
  }

  lemma AgreeOnParent(graph: Graph, current: Versions, other: Versions, ref: Evidence, parent: Evidence)
    requires AgreeOn(graph, current, other, ref) && ref in graph && parent in graph[ref].parents
    ensures AgreeOn(graph, current, other, parent)
  {
    forall to | Reaches(graph, parent, to)
      ensures Reaches(graph, ref, to)
    {
      ReachesThrough(graph, ref, parent, to);
    }
  }

  /** Versions of names that no reached claim assumes never matter. */
  lemma {:induction false} OtherVersionsDoNotMatter(graph: Graph, current: Versions, other: Versions, ref: Evidence)
    requires AgreeOn(graph, current, other, ref)
    ensures Assess(graph, current, ref) == Assess(graph, other, ref)
    decreases if ref in graph then graph[ref].age else 0
  {
    if ref in graph {
      ReachesItself(graph, ref);
      assert Assumed(graph[ref].assumptions, current) == Assumed(graph[ref].assumptions, other);
      forall k | 0 <= k < |graph[ref].parents|
        ensures ParentStatus(graph, current, ref, k) == ParentStatus(graph, other, ref, k)
      {
        var parent := graph[ref].parents[k];
        if Walkable(graph, ref, parent) {
          AgreeOnParent(graph, current, other, ref, parent);
          OtherVersionsDoNotMatter(graph, current, other, parent);
        }
      }
      InheritedAgree(graph, current, other, ref, |graph[ref].parents|);
    }
  }

  lemma {:induction false} InheritedAgree(graph: Graph, current: Versions, other: Versions, ref: Evidence, n: nat)
    requires ref in graph && n <= |graph[ref].parents|
    requires forall k | 0 <= k < n :: ParentStatus(graph, current, ref, k) == ParentStatus(graph, other, ref, k)
    ensures Inherited(graph, current, ref, n) == Inherited(graph, other, ref, n)
    decreases n
  {
    if n > 0 {
      InheritedAgree(graph, current, other, ref, n - 1);
    }
  }

  /** A parent that cannot be walked makes the whole visit fail. */
  lemma {:induction false} InheritedFails(graph: Graph, current: Versions, ref: Evidence, k: nat, n: nat)
    requires ref in graph && k <= n <= |graph[ref].parents|
    requires Inherited(graph, current, ref, k).None?
    ensures Inherited(graph, current, ref, n).None?
    decreases n
  {
    if k < n {
      InheritedFails(graph, current, ref, k, n - 1);
    }
  }

  ghost predicate ParentWalks(graph: Graph, current: Versions, ref: Evidence, k: int)
    requires ref in graph && 0 <= k < |graph[ref].parents|
  {
    ParentStatus(graph, current, ref, k).Some?
  }

  lemma {:induction false} InheritedSucceeds(graph: Graph, current: Versions, ref: Evidence, n: nat)
    requires ref in graph && n <= |graph[ref].parents|
    ensures Inherited(graph, current, ref, n).Some? <==> forall k | 0 <= k < n :: ParentWalks(graph, current, ref, k)
    decreases n
  {
    if n > 0 {
      InheritedSucceeds(graph, current, ref, n - 1);
      assert ParentWalks(graph, current, ref, n - 1) <==> ParentStatus(graph, current, ref, n - 1).Some?;
    }
  }

  /** A claim the walk can leave: it is readable, and so are its parents, each captured
      before it. */
  ghost predicate CanLeave(graph: Graph, ref: Evidence) {
    ref in graph && forall parent | parent in graph[ref].parents :: Walkable(graph, ref, parent)
  }

  ghost predicate AllReadable(graph: Graph, ref: Evidence) {
    forall to | Reaches(graph, ref, to) :: CanLeave(graph, to)
  }

  lemma ReadableParent(graph: Graph, ref: Evidence, parent: Evidence)
    requires AllReadable(graph, ref) && ref in graph && parent in graph[ref].parents
    ensures AllReadable(graph, parent)
  {
    forall to | Reaches(graph, parent, to)
      ensures CanLeave(graph, to)
    {
      ReachesThrough(graph, ref, parent, to);
    }
  }

  /** The walk succeeds exactly when every claim it reaches, and every parent one of them
      cites, is readable and in order. */
  lemma {:induction false} SucceedsWhenReadable(graph: Graph, current: Versions, ref: Evidence)
    ensures Assess(graph, current, ref).Some? <==> AllReadable(graph, ref)
    decreases if ref in graph then graph[ref].age else 0
  {
    ReachesItself(graph, ref);
    if ref in graph {
      var parents := graph[ref].parents;
      InheritedSucceeds(graph, current, ref, |parents|);
      forall k | 0 <= k < |parents|
        ensures ParentWalks(graph, current, ref, k) <==> ReadableVia(graph, ref, parents[k])
      {
        if Walkable(graph, ref, parents[k]) {
          SucceedsWhenReadable(graph, current, parents[k]);
        }
      }
      ReadableStep(graph, ref);
    }
  }

  ghost predicate ReadableVia(graph: Graph, ref: Evidence, parent: Evidence)
    requires ref in graph
  {
    Walkable(graph, ref, parent) && AllReadable(graph, parent)
  }

  lemma ReadableStep(graph: Graph, ref: Evidence)
    requires ref in graph
    ensures AllReadable(graph, ref) <==>
      forall k | 0 <= k < |graph[ref].parents| :: ReadableVia(graph, ref, graph[ref].parents[k])
  {
    var parents := graph[ref].parents;
    ReachesItself(graph, ref);
    if AllReadable(graph, ref) {
      forall k | 0 <= k < |parents|
        ensures ReadableVia(graph, ref, parents[k])
      {
        ReadableParent(graph, ref, parents[k]);
      }
    } else {
      var to :| Reaches(graph, ref, to) && !CanLeave(graph, to);
      if to != ref {
        var parent := ReachesBeyond(graph, ref, to);
        var k :| 0 <= k < |parents| && parents[k] == parent;
        assert !ReadableVia(graph, ref, parents[k]);
      } else {
        var parent :| parent in parents && !Walkable(graph, ref, parent);
        var k :| 0 <= k < |parents| && parents[k] == parent;
        assert !ReadableVia(graph, ref, parents[k]);
      }
    }
  }

  // ---- The memoised walk ----

  /** What the first `k` parents contribute is this. */
  ghost predicate Gathered(graph: Graph, current: Versions, ref: Evidence, k: nat, inherited: Dependencies) {
    ref in graph && k <= |graph[ref].parents| && Inherited(graph, current, ref, k) == Some(inherited)
  }

  lemma OneMoreParent(graph: Graph, current: Versions, ref: Evidence, k: nat, inherited: Dependencies, status: Option<Applicability>)
    requires Gathered(graph, current, ref, k, inherited) && k < |graph[ref].parents|
    requires ParentStatus(graph, current, ref, k) == status
    ensures match status
      case None => Inherited(graph, current, ref, |graph[ref].parents|).None?
      case Some(found) => Gathered(graph, current, ref, k + 1, inherited[OnParent(graph[ref].parents[k].name) := found])
  {
    if status.None? {
      InheritedFails(graph, current, ref, k + 1, |graph[ref].parents|);
    }
  }

  lemma AllGathered(graph: Graph, current: Versions, ref: Evidence, inherited: Dependencies)
    requires ref in graph && Gathered(graph, current, ref, |graph[ref].parents|, inherited)
    ensures Inherited(graph, current, ref, |graph[ref].parents|) == Some(inherited)
  {
  }

  /** One assessment: visits fill the cache, so each claim is assessed once. */
  class Walk {
    const graph: Graph
    const current: Versions
    var cache: map<Evidence, Assessment>

    ghost predicate Valid()
      reads this
    {
      forall ref | ref in cache :: Assess(graph, current, ref) == Some(cache[ref])
    }

    constructor (graph: Graph, current: Versions)
      ensures Valid() && fresh(this) && this.graph == graph && this.current == current
    {
      this.graph, this.current, cache := graph, current, map[];
    }

    /** Visit one claim, reusing what an earlier visit found. */
    method Visit(ref: Evidence) returns (out: Option<Assessment>)
      requires Valid()
      modifies this`cache
      ensures Valid()
      ensures out == Assess(graph, current, ref)
      decreases if ref in graph then graph[ref].age else 0, 1
    {
      if ref in cache {
        return Some(cache[ref]);
      }
      if ref !in graph {
        return None;
      }
      var inherited := VisitParents(ref);
      if inherited.None? {
        return None;
      }
      var dependencies := Assumed(graph[ref].assumptions, current) + inherited.value;
      var assessment := Assessment(graph[ref].validation, Combine(graph[ref].complete, dependencies), dependencies);
      cache := cache[ref := assessment];
      out := Some(assessment);
    }

    method VisitParent(ref: Evidence, k: nat) returns (status: Option<Applicability>)
      requires Valid() && ref in graph && k < |graph[ref].parents|
      modifies this`cache
      ensures Valid()
      ensures status == ParentStatus(graph, current, ref, k)
      decreases graph[ref].age, 0, 0
    {
      var parent := graph[ref].parents[k];
      if !Walkable(graph, ref, parent) {
        return None;
      }
      var assessment := Visit(parent);
      status := if assessment.None? then None else Some(assessment.value.applicability);
    }

    method VisitParents(ref: Evidence) returns (out: Option<Dependencies>)
      requires Valid() && ref in graph
      modifies this`cache
      ensures Valid()
      ensures out == Inherited(graph, current, ref, |graph[ref].parents|)
      decreases graph[ref].age, 0, 1
    {
      var parents := graph[ref].parents;
      var inherited: Dependencies := map[];
      for k := 0 to |parents|
        invariant Valid() && Gathered(graph, current, ref, k, inherited)
      {
        var status := VisitParent(ref, k);
        OneMoreParent(graph, current, ref, k, inherited, status);
        if status.None? {
          return None;
        }
        inherited := inherited[OnParent(parents[k].name) := status.value];
      }
      AllGathered(graph, current, ref, inherited);
      out := Some(inherited);
    }
  }
}
