/** What a depth-first cycle search knows while it runs: the open nodes form a
    path, and the finished nodes are listed so that dependencies come first. */
module DepthFirst {
  import opened DependencyGraph

  ghost predicate Searching(g: Graph, open: seq<string>, finished: seq<string>) {
    && Path(g, open) && Distinct(open)
    && Topological(g, finished)
    && (forall v :: v in open ==> v !in finished)
  }

  /** `v` may be visited next: it is a root, or a dependency of the innermost open node. */
  ghost predicate Reached(g: Graph, open: seq<string>, v: string) {
    v in g && (open == [] || (open[|open|-1] in g && v in g[open[|open|-1]]))
  }

  lemma Open(g: Graph, open: seq<string>, finished: seq<string>, v: string)
    requires Searching(g, open, finished) && Reached(g, open, v) && v !in open && v !in finished
    ensures Searching(g, open + [v], finished)
    ensures g.Keys - Elements(open + [v]) < g.Keys - Elements(open)
  {
    var longer := open + [v];
    forall k | 0 < k < |longer| ensures longer[k] in g[longer[k-1]] {
      assert k < |open| ==> longer[k] == open[k] && longer[k-1] == open[k-1];
    }
    assert v in Elements(longer) && v !in Elements(open);
    assert forall x :: x in Elements(open) ==> x in Elements(longer);
  }

  lemma Finish(g: Graph, open: seq<string>, finished: seq<string>, v: string)
    requires v in g && Searching(g, open + [v], finished) && forall d :: d in g[v] ==> d in finished
    ensures Searching(g, open, finished + [v])
  {
    var path := open + [v];
    assert path[|open|] == v;
    assert forall k :: 0 <= k < |open| ==> path[k] == open[k];
    assert forall k :: 0 < k < |open| ==> path[k] in g[path[k-1]];
    AppendToOrder(g, finished, v);
    forall x | x in open ensures x !in finished + [v] {
      var k :| 0 <= k < |open| && open[k] == x;
      assert path[k] in path;
    }
  }

  /** Reaching an open node closes a cycle. */
  lemma Reopened(g: Graph, open: seq<string>, finished: seq<string>, v: string, i: nat)
    requires Searching(g, open, finished) && Reached(g, open, v) && i < |open| && open[i] == v
    ensures Cycle(g, open[i..] + [v])
  {
    var c := open[i..] + [v];
    assert forall k :: 0 <= k < |open| - i ==> c[k] == open[i+k];
    forall k | 0 < k < |c| ensures c[k] in g[c[k-1]] {
      if k < |c| - 1 {
        assert open[i+k] in g[open[i+k-1]];
      }
    }
  }
}
