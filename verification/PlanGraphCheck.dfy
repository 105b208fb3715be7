/** The graph checks of the plan parser, with its vector of marks. */
module PlanGraphCheck {
  import opened DependencyGraph
  import opened RuntimePlanModel
  import opened DepthFirst

  datatype GraphError = DuplicateId | NoCritical | MissingDependency | SelfDependency | RepeatedDependency | CyclicGraph

  const UNSEEN: nat := 0
  const OPEN: nat := 1
  const FINISHED: nat := 2

  /** The marks say which components are open and which are finished. */
  ghost predicate Marked(cs: seq<ComponentPlan>, marks: seq<nat>, open: seq<string>, finished: seq<string>) {
    && |marks| == |cs|
    && (forall i :: 0 <= i < |cs| ==> (marks[i] == OPEN <==> cs[i].id in open))
    && (forall i :: 0 <= i < |cs| ==> (marks[i] == FINISHED <==> cs[i].id in finished))
  }

  lemma MarkOpen(cs: seq<ComponentPlan>, marks: seq<nat>, open: seq<string>, finished: seq<string>, i: nat)
    requires UniqueIds(cs) && Marked(cs, marks, open, finished) && i < |cs|
    requires cs[i].id !in open && cs[i].id !in finished
    ensures Marked(cs, marks[i := OPEN], open + [cs[i].id], finished)
  {
    assert forall j :: 0 <= j < |cs| && j != i ==> Ids(cs)[j] != Ids(cs)[i];
  }

  lemma MarkFinished(cs: seq<ComponentPlan>, marks: seq<nat>, open: seq<string>, finished: seq<string>, i: nat)
    requires UniqueIds(cs) && i < |cs| && Marked(cs, marks, open + [cs[i].id], finished)
    requires cs[i].id !in open
    ensures Marked(cs, marks[i := FINISHED], open, finished + [cs[i].id])
  {
    assert forall j :: 0 <= j < |cs| && j != i ==> Ids(cs)[j] != Ids(cs)[i];
    assert forall j :: 0 <= j < |cs| && j != i ==> (cs[j].id in open + [cs[i].id] <==> cs[j].id in open);
  }

  ghost predicate Positions(cs: seq<ComponentPlan>, byId: map<string, nat>) {
    && (forall i :: 0 <= i < |cs| ==> cs[i].id in byId && byId[cs[i].id] == i)
    && (forall id :: id in byId ==> byId[id] < |cs| && cs[byId[id]].id == id)
  }

  /** What the search may assume of the plan once the earlier checks have passed. */
  ghost predicate Searchable(cs: seq<ComponentPlan>, byId: map<string, nat>) {
    UniqueIds(cs) && DependenciesKnown(cs) && Positions(cs, byId)
  }

  lemma SearchableEntry(cs: seq<ComponentPlan>, byId: map<string, nat>, i: nat)
    requires Searchable(cs, byId) && i < |cs|
    ensures cs[i].id in AfterGraph(cs) && AfterGraph(cs)[cs[i].id] == cs[i].after
    ensures forall d :: d in cs[i].after ==> d in byId && byId[d] < |cs| && cs[byId[d]].id == d && d in AfterGraph(cs)
  {
    GraphEntry(cs, cs[i]);
    forall d | d in cs[i].after ensures d in byId {
      assert d in Ids(cs);
      var k :| 0 <= k < |cs| && Ids(cs)[k] == d;
    }
  }

  lemma AtMark(cs: seq<ComponentPlan>, marks: seq<nat>, open: seq<string>, finished: seq<string>, i: nat)
    requires Marked(cs, marks, open, finished) && i < |cs|
    ensures marks[i] == OPEN <==> cs[i].id in open
    ensures marks[i] == FINISHED <==> cs[i].id in finished
  {
  }

  /** A path that goes on from the open components to `v` and from there runs back into itself. */
  ghost predicate ClosesTrail(g: Graph, open: seq<string>, v: string, trail: seq<string>) {
    && Path(g, trail) && |trail| > |open| && trail[..|open|] == open && trail[|open|] == v
    && trail[|trail|-1] in trail[..|trail|-1]
  }

  lemma TrailCloses(g: Graph, open: seq<string>, finished: seq<string>, v: string)
    requires Searching(g, open, finished) && Reached(g, open, v) && v in open
    ensures ClosesTrail(g, open, v, open + [v])
  {
    var trail := open + [v];
    forall k | 0 < k < |trail| ensures trail[k] in g[trail[k-1]] {
      assert k < |open| ==> trail[k] == open[k] && trail[k-1] == open[k-1];
    }
    assert trail[..|open|] == open;
  }

  lemma TrailShortens(g: Graph, open: seq<string>, v: string, d: string, trail: seq<string>)
    requires ClosesTrail(g, open + [v], d, trail)
    ensures ClosesTrail(g, open, v, trail)
  {
    assert trail[..|open|] == trail[..|open|+1][..|open|] && trail[|open|] == trail[..|open|+1][|open|];
  }

  /** Visits one component: false when a cycle is found, on the way from it. */
  method Visit(cs: seq<ComponentPlan>, byId: map<string, nat>, marks: array<nat>, index: nat,
               ghost open: seq<string>, ghost finished0: seq<string>)
    returns (ok: bool, ghost finished: seq<string>, ghost trail: seq<string>)
    requires Searchable(cs, byId) && index < |cs| == marks.Length
    requires Searching(AfterGraph(cs), open, finished0) && Marked(cs, marks[..], open, finished0)
    requires Reached(AfterGraph(cs), open, cs[index].id)
    modifies marks
    ensures !ok ==> Cyclic(AfterGraph(cs)) && ClosesTrail(AfterGraph(cs), open, cs[index].id, trail)
    ensures ok ==> Searching(AfterGraph(cs), open, finished) && Marked(cs, marks[..], open, finished)
    ensures ok ==> finished0 <= finished && cs[index].id in finished
    decreases AfterGraph(cs).Keys - Elements(open)
  {
    hide *;
    ghost var g, v := AfterGraph(cs), cs[index].id;
    finished, trail := finished0, [];
    AtMark(cs, marks[..], open, finished, index);
    if marks[index] == OPEN {
      ghost var i :| 0 <= i < |open| && open[i] == v;
      Reopened(g, open, finished, v, i);
      FoundCycle(g, open[i..] + [v]);
      TrailCloses(g, open, finished, v);
      return false, finished, open + [v];
    }
    if marks[index] == FINISHED {
      return true, finished, [];
    }
    SearchableParts(cs, byId);
    Open(g, open, finished, v);
    MarkOpen(cs, marks[..], open, finished, index);
    marks[index] := OPEN;
    SearchableEntry(cs, byId, index);
    for k := 0 to |cs[index].after|
      invariant Searching(g, open + [v], finished) && Marked(cs, marks[..], open + [v], finished)
      invariant finished0 <= finished
      invariant forall j :: 0 <= j < k ==> cs[index].after[j] in finished
    {
      var d := cs[index].after[k];
      ReachedFromTop(g, open, v, d);
      ok, finished, trail := Visit(cs, byId, marks, byId[d], open + [v], finished);
      if !ok {
        TrailShortens(g, open, v, d, trail);
        return;
      }
    }
    Finish(g, open, finished, v);
    MarkFinished(cs, marks[..], open, finished, index);
    marks[index] := FINISHED;
    finished := finished + [v];
    ok := true;
  }

  lemma SearchableParts(cs: seq<ComponentPlan>, byId: map<string, nat>)
    requires Searchable(cs, byId)
    ensures UniqueIds(cs)
  {
  }

  lemma FoundCycle(g: Graph, p: seq<string>)
    requires Cycle(g, p)
    ensures Cyclic(g)
  {
  }

  lemma ReachedFromTop(g: Graph, open: seq<string>, v: string, d: string)
    requires v in g && d in g && d in g[v]
    ensures Reached(g, open + [v], d)
  {
  }

  /** The position of every component by id; absent when two share an id. */
  method PositionsById(cs: seq<ComponentPlan>) returns (r: Option<map<string, nat>>)
    ensures r.Some? <==> UniqueIds(cs)
    ensures r.Some? ==> Positions(cs, r.value)
  {
    var byId: map<string, nat> := map[];
    for k := 0 to |cs|
      invariant forall i :: 0 <= i < k ==> cs[i].id in byId && byId[cs[i].id] == i
      invariant forall id :: id in byId ==> byId[id] < k && cs[byId[id]].id == id
    {
      if cs[k].id in byId {
        assert Ids(cs)[byId[cs[k].id]] == Ids(cs)[k];
        return None;
      }
      byId := byId[cs[k].id := k];
    }
    forall i, j | 0 <= i < j < |cs| ensures Ids(cs)[i] != Ids(cs)[j] {
      assert byId[cs[i].id] == i && byId[cs[j].id] == j;
    }
    r := Some(byId);
  }

  /** One component's references: known, not to itself, without repetition. */
  ghost predicate ReferencesOk(byId: map<string, nat>, c: ComponentPlan) {
    && Distinct(c.after)
    && forall d :: d in c.after ==> d in byId && d != c.id
  }

  /** What is wrong with the reference at a position, if anything. */
  function Problem(byId: map<string, nat>, c: ComponentPlan, k: nat): Option<GraphError>
    requires k < |c.after|
  {
    if c.after[k] !in byId then Some(MissingDependency)
    else if c.after[k] == c.id then Some(SelfDependency)
    else if c.after[k] in c.after[..k] then Some(RepeatedDependency)
    else None
  }

  /** Checks one component's references; the first bad one decides what is reported. */
  method CheckReferences(byId: map<string, nat>, c: ComponentPlan) returns (r: Option<GraphError>)
    ensures r.None? <==> ReferencesOk(byId, c)
    ensures r.Some? ==>
      exists k :: 0 <= k < |c.after| && r == Problem(byId, c, k) && forall i :: 0 <= i < k ==> Problem(byId, c, i).None?
    ensures r != Some(CyclicGraph)
  {
    var unique: set<string> := {};
    for k := 0 to |c.after|
      invariant unique == Elements(c.after[..k])
      invariant Distinct(c.after[..k])
      invariant forall i :: 0 <= i < k ==> c.after[i] in byId && c.after[i] != c.id
      invariant forall i :: 0 <= i < k ==> Problem(byId, c, i).None?
    {
      var d := c.after[k];
      assert d in unique <==> d in c.after[..k];
      assert c.after[..k+1] == c.after[..k] + [d];
      ghost var problem := Problem(byId, c, k);
      if d !in byId {
        assert problem == Some(MissingDependency);
        return Some(MissingDependency);
      }
      if d == c.id {
        return Some(SelfDependency);
      }
      if d in unique {
        return Some(RepeatedDependency);
      }
      unique := unique + {d};
    }
    assert c.after[..|c.after|] == c.after;
    r := None;
  }

  lemma ReferencesOfPlan(cs: seq<ComponentPlan>, byId: map<string, nat>)
    requires Positions(cs, byId)
    ensures (forall k :: 0 <= k < |cs| ==>
      ReferencesOk(byId, cs[k])) <==> DependenciesKnown(cs) && DependenciesDistinct(cs)
  {
    forall d ensures d in byId <==> d in Ids(cs) {
      if d in byId { assert Ids(cs)[byId[d]] == d; }
      if d in Ids(cs) { var k :| 0 <= k < |cs| && Ids(cs)[k] == d; }
    }
    if forall k :: 0 <= k < |cs| ==> ReferencesOk(byId, cs[k]) {
      forall k, d | 0 <= k < |cs| && d in cs[k].after ensures d in Ids(cs) && d != cs[k].id {
        assert ReferencesOk(byId, cs[k]);
      }
    }
  }

  /** The parser's acceptance of a component list, by the marking search. */
  method ValidateGraph(cs: seq<ComponentPlan>) returns (r: Option<GraphError>)
    ensures r.None? <==> WellOrdered(cs)
    ensures r == Some(CyclicGraph) <==>
      && UniqueIds(cs) && HasCritical(cs) && DependenciesKnown(cs) && DependenciesDistinct(cs)
      && Cyclic(AfterGraph(cs))
  {
    hide *;
    WellOrderedParts(cs);
    var positions := PositionsById(cs);
    if positions.None? {
      return Some(DuplicateId);
    }
    var byId := positions.value;
    if !HasCritical(cs) {
      return Some(NoCritical);
    }
    ReferencesOfPlan(cs, byId);
    for k := 0 to |cs|
      invariant forall i :: 0 <= i < k ==> ReferencesOk(byId, cs[i])
    {
      r := CheckReferences(byId, cs[k]);
      if r.Some? {
        return;
      }
    }
    var acyclic := SearchAll(cs, byId);
    r := if acyclic then None else Some(CyclicGraph);
  }

  /** The outer loop of the search. */
  method SearchAll(cs: seq<ComponentPlan>, byId: map<string, nat>) returns (ok: bool)
    requires UniqueIds(cs) && DependenciesKnown(cs) && Positions(cs, byId)
    ensures ok <==> !Cyclic(AfterGraph(cs))
  {
    hide *;
    ghost var g := AfterGraph(cs);
    var marks := new nat[|cs|](i => UNSEEN);
    ghost var finished: seq<string> := [];
    StartSearch(cs, byId, marks[..]);
    for k := 0 to |cs|
      invariant Searching(g, [], finished) && Marked(cs, marks[..], [], finished)
      invariant forall i :: 0 <= i < k ==> cs[i].id in finished
    {
      RootReached(cs, byId, k);
      ghost var trail;
      ok, finished, trail := Visit(cs, byId, marks, k, [], finished);
      if !ok {
        return;
      }
    }
    EndSearch(cs, finished);
    ok := true;
  }

  lemma StartSearch(cs: seq<ComponentPlan>, byId: map<string, nat>, marks: seq<nat>)
    requires UniqueIds(cs) && DependenciesKnown(cs) && Positions(cs, byId)
    requires |marks| == |cs| && forall i :: 0 <= i < |cs| ==> marks[i] == UNSEEN
    ensures Searchable(cs, byId) && Searching(AfterGraph(cs), [], []) && Marked(cs, marks, [], [])
  {
  }

  lemma RootReached(cs: seq<ComponentPlan>, byId: map<string, nat>, k: nat)
    requires Searchable(cs, byId) && k < |cs|
    ensures Reached(AfterGraph(cs), [], cs[k].id)
  {
    GraphEntry(cs, cs[k]);
  }

  lemma EndSearch(cs: seq<ComponentPlan>, finished: seq<string>)
    requires Searching(AfterGraph(cs), [], finished) && forall i :: 0 <= i < |cs| ==> cs[i].id in finished
    ensures !Cyclic(AfterGraph(cs))
  {
    forall v | v in AfterGraph(cs) ensures v in finished {
      var k :| 0 <= k < |cs| && Ids(cs)[k] == v;
    }
    OrderedIsAcyclic(AfterGraph(cs), finished);
  }

  /** The component lists a plan may hold. */
  ghost predicate WellOrdered(cs: seq<ComponentPlan>) {
    UniqueIds(cs) && HasCritical(cs) && DependenciesKnown(cs) && DependenciesDistinct(cs) && !Cyclic(AfterGraph(cs))
  }

  lemma WellOrderedParts(cs: seq<ComponentPlan>)
    ensures WellOrdered(cs) <==>
      UniqueIds(cs) && HasCritical(cs) && DependenciesKnown(cs) && DependenciesDistinct(cs) && !Cyclic(AfterGraph(cs))
  {
  }
}
