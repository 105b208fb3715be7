/** The catalog's dependency check, with its visiting and visited sets and the path it reports. */
module CatalogGraphCheck {
  import opened DependencyGraph
  import opened RuntimePlanModel
  import opened DepthFirst

  datatype CatalogComponent = CatalogComponent(needs: seq<string>, after: seq<string>)

  type Catalog = map<string, CatalogComponent>

  datatype CatalogError = MissingRequirement(component: string) | DependencyCycle(path: seq<string>)

  /** The `after` entries that name installed components; the others are ignored. */
  function Installed(catalog: Catalog, after: seq<string>): (r: seq<string>)
    ensures forall d :: d in r <==> d in after && d in catalog
  {
    if after == [] then []
    else if after[0] in catalog then [after[0]] + Installed(catalog, after[1..])
    else Installed(catalog, after[1..])
  }

  function Edges(catalog: Catalog, key: string): seq<string>
    requires key in catalog
  {
    catalog[key].needs + Installed(catalog, catalog[key].after)
  }

  function OrderingGraph(catalog: Catalog): Graph {
    map key | key in catalog :: Edges(catalog, key)
  }

  ghost predicate RequirementsInstalled(catalog: Catalog) {
    forall key, d :: key in catalog && d in catalog[key].needs ==> d in catalog
  }

  lemma GraphIsClosed(catalog: Catalog, key: string)
    requires RequirementsInstalled(catalog) && key in catalog
    ensures key in OrderingGraph(catalog) && OrderingGraph(catalog)[key] == Edges(catalog, key)
    ensures forall d :: d in Edges(catalog, key) ==> d in OrderingGraph(catalog)
  {
    assert catalog[key].needs == catalog[key].needs;
  }

  /** Visits one component: the cycle found, if any, else the enlarged visited set. */
  method Visit(catalog: Catalog, key: string, visiting: set<string>, visited0: set<string>, path: seq<string>,
               ghost finished0: seq<string>)
    returns (cycle: Option<seq<string>>, visited: set<string>, ghost finished: seq<string>)
    requires RequirementsInstalled(catalog)
    requires visiting == Elements(path) && visited0 == Elements(finished0)
    requires Searching(OrderingGraph(catalog), path, finished0) && Reached(OrderingGraph(catalog), path, key)
    ensures cycle.Some? ==> Cycle(OrderingGraph(catalog), cycle.value)
    ensures cycle.None? ==> visited == Elements(finished) && Searching(OrderingGraph(catalog), path, finished)
    ensures cycle.None? ==> finished0 <= finished && key in finished
    decreases OrderingGraph(catalog).Keys - Elements(path)
  {
    hide *;
    ghost var g := OrderingGraph(catalog);
    visited, finished, cycle := visited0, finished0, None;
    MembersOf(path, key);
    MembersOf(finished, key);
    if key in visiting {
      var start := FirstIndex(path, key);
      Reopened(g, path, finished, key, start);
      return Some(path[start..] + [key]), visited, finished;
    }
    if key in visited {
      return;
    }
    Open(g, path, finished, key);
    InGraph(catalog, path, key);
    GraphIsClosed(catalog, key);
    var edges := Edges(catalog, key);
    for k := 0 to |edges|
      invariant visited == Elements(finished) && Searching(g, path + [key], finished)
      invariant finished0 <= finished
      invariant forall j :: 0 <= j < k ==> edges[j] in finished
    {
      Below(g, path, key, edges[k]);
      ElementsGrow(path, key);
      cycle, visited, finished := Visit(catalog, edges[k], visiting + {key}, visited, path + [key], finished);
      if cycle.Some? {
        return;
      }
    }
    Finish(g, path, finished, key);
    ElementsGrow(finished, key);
    visited := visited + {key};
    finished := finished + [key];
    cycle := None;
  }

  method FirstIndex(path: seq<string>, key: string) returns (i: nat)
    requires key in path
    ensures i < |path| && path[i] == key
  {
    i := 0;
    while path[i] != key
      invariant i < |path| && key !in path[..i]
      decreases |path| - i
    {
      assert path == path[..i] + [path[i]] + path[i+1..];
      i := i + 1;
    }
  }

  lemma MembersOf(s: seq<string>, x: string)
    ensures x in Elements(s) <==> x in s
  {
  }

  lemma ElementsGrow(s: seq<string>, x: string)
    ensures Elements(s + [x]) == Elements(s) + {x}
  {
  }

  lemma InGraph(catalog: Catalog, path: seq<string>, key: string)
    requires Reached(OrderingGraph(catalog), path, key)
    ensures key in catalog
  {
  }

  lemma Below(g: Graph, path: seq<string>, key: string, d: string)
    requires key in g && d in g && d in g[key]
    ensures Reached(g, path + [key], d)
  {
  }

  /** The whole check; `keys` is the catalog's own order of iteration. */
  method ValidateDependencyGraph(catalog: Catalog, keys: seq<string>) returns (r: Option<CatalogError>)
    requires Elements(keys) == catalog.Keys
    ensures r.None? <==> RequirementsInstalled(catalog) && !Cyclic(OrderingGraph(catalog))
    ensures r.Some? && r.value.DependencyCycle? ==> Cycle(OrderingGraph(catalog), r.value.path)
  {
    for k := 0 to |keys|
      invariant forall i :: 0 <= i < k ==> keys[i] in catalog && forall d :: d in catalog[keys[i]].needs ==>
        d in catalog
    {
      assert keys[k] in Elements(keys);
      if exists d :: d in catalog[keys[k]].needs && d !in catalog {
        return Some(MissingRequirement(keys[k]));
      }
    }
    assert RequirementsInstalled(catalog) by {
      forall key, d | key in catalog && d in catalog[key].needs ensures d in catalog {
        var i :| 0 <= i < |keys| && keys[i] == key;
      }
    }
    var cycle := SearchCatalog(catalog, keys);
    r := if cycle.Some? then Some(DependencyCycle(cycle.value)) else None;
  }

  method SearchCatalog(catalog: Catalog, keys: seq<string>) returns (cycle: Option<seq<string>>)
    requires Elements(keys) == catalog.Keys && RequirementsInstalled(catalog)
    ensures cycle.Some? ==> Cycle(OrderingGraph(catalog), cycle.value)
    ensures cycle.None? ==> !Cyclic(OrderingGraph(catalog))
  {
    hide *;
    ghost var g := OrderingGraph(catalog);
    var visited: set<string> := {};
    ghost var finished: seq<string> := [];
    EmptySearch(g);
    for k := 0 to |keys|
      invariant visited == Elements(finished) && Searching(g, [], finished)
      invariant forall i :: 0 <= i < k ==> keys[i] in finished
    {
      Root(catalog, keys, k);
      cycle, visited, finished := Visit(catalog, keys[k], {}, visited, [], finished);
      if cycle.Some? {
        return;
      }
    }
    AllFinished(catalog, keys, finished);
    cycle := None;
  }

  lemma EmptySearch(g: Graph)
    ensures Searching(g, [], []) && Elements<string>([]) == {}
  {
  }

  lemma Root(catalog: Catalog, keys: seq<string>, k: nat)
    requires Elements(keys) == catalog.Keys && k < |keys|
    ensures Reached(OrderingGraph(catalog), [], keys[k])
  {
    assert keys[k] in Elements(keys);
  }

  lemma AllFinished(catalog: Catalog, keys: seq<string>, finished: seq<string>)
    requires Elements(keys) == catalog.Keys && Searching(OrderingGraph(catalog), [], finished)
    requires forall i :: 0 <= i < |keys| ==> keys[i] in finished
    ensures !Cyclic(OrderingGraph(catalog))
  {
    forall v | v in OrderingGraph(catalog) ensures v in finished {
      assert v in Elements(keys);
      var i :| 0 <= i < |keys| && keys[i] == v;
    }
    OrderedIsAcyclic(OrderingGraph(catalog), finished);
  }

  /** A plan's components as a catalog: ordering only, nothing required. */
  function AsCatalog(cs: seq<ComponentPlan>): Catalog {
    map id | id in Ids(cs) && IndexOf(cs, id).Some? :: CatalogComponent([], cs[IndexOf(cs, id).value].after)
  }

  /** On a plan whose dependencies are all known, the catalog's check searches the
      very graph that the plan compiler sorts and the plan parser searches. */
  lemma SameGraphAsPlan(cs: seq<ComponentPlan>)
    requires UniqueIds(cs) && DependenciesKnown(cs)
    ensures RequirementsInstalled(AsCatalog(cs))
    ensures Cyclic(OrderingGraph(AsCatalog(cs))) <==> Cyclic(AfterGraph(cs))
  {
    hide *;
    var catalog := AsCatalog(cs);
    CatalogIds(cs);
    forall id | id in catalog ensures OrderingGraph(catalog)[id] == AfterGraph(cs)[id] {
      CatalogEdges(cs, id);
    }
    assert OrderingGraph(catalog) == AfterGraph(cs);
  }

  lemma CatalogIds(cs: seq<ComponentPlan>)
    ensures RequirementsInstalled(AsCatalog(cs))
    ensures forall id :: id in AsCatalog(cs) <==> id in AfterGraph(cs)
    ensures OrderingGraph(AsCatalog(cs)).Keys == AsCatalog(cs).Keys
  {
    forall id ensures id in AsCatalog(cs) <==> id in Ids(cs) {
      if id in Ids(cs) {
        var k :| 0 <= k < |cs| && Ids(cs)[k] == id;
        assert cs[k].id == id;
      }
    }
  }

  lemma CatalogEdges(cs: seq<ComponentPlan>, id: string)
    requires UniqueIds(cs) && DependenciesKnown(cs) && id in AsCatalog(cs)
    ensures OrderingGraph(AsCatalog(cs))[id] == AfterGraph(cs)[id]
  {
    var k := IndexOf(cs, id).value;
    GraphEntry(cs, cs[k]);
    CatalogIds(cs);
    forall d | d in cs[k].after ensures d in AsCatalog(cs) {
      assert d in Ids(cs);
    }
    AllInstalled(AsCatalog(cs), cs[k].after);
    assert [] + cs[k].after == cs[k].after;
  }

  lemma {:induction false} AllInstalled(catalog: Catalog, after: seq<string>)
    requires forall d :: d in after ==> d in catalog
    ensures Installed(catalog, after) == after
  {
    if after != [] {
      assert after == [after[0]] + after[1..];
      AllInstalled(catalog, after[1..]);
    }
  }
}
