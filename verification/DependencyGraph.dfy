/** Dependency graphs over component ids, and what it means for one to be cyclic.

    An edge runs from a component to every component it must come after. The
    three cycle checks of the system (the plan compiler's Kahn sort, the plan
    parser's marking search and the supervisor's visiting/visited search) are
    all stated against `Cyclic`, which mentions none of them. */
module DependencyGraph {
  import opened TextOrder

  type Graph = map<string, seq<string>>

  ghost predicate Closed(g: Graph) {
    forall v, d :: v in g && d in g[v] ==> d in g
  }

  ghost predicate Path(g: Graph, p: seq<string>) {
    && (forall k :: 0 <= k < |p| ==> p[k] in g)
    && (forall k :: 0 < k < |p| ==> p[k] in g[p[k-1]])
  }

  ghost predicate Cycle(g: Graph, p: seq<string>) {
    |p| >= 2 && Path(g, p) && p[0] == p[|p|-1]
  }

  ghost predicate Cyclic(g: Graph) {
    exists p :: Cycle(g, p)
  }

  ghost predicate Distinct<T>(s: seq<T>) {
    forall i, j :: 0 <= i < j < |s| ==> s[i] != s[j]
  }

  ghost function Elements<T>(s: seq<T>): set<T> {
    set x | x in s
  }

  lemma IncreasingDistinct(s: seq<string>)
    requires Increasing(s)
    ensures Distinct(s)
  {
    forall i, j | 0 <= i < j < |s| ensures s[i] != s[j] {
      BeforeIrreflexive(s[i]);
    }
  }

  /** Every entry of `order` is preceded by all of its dependencies. */
  ghost predicate Topological(g: Graph, order: seq<string>) {
    && Distinct(order)
    && forall i :: 0 <= i < |order| ==> order[i] in g && forall d :: d in g[order[i]] ==> d in order[..i]
  }

  lemma AppendToOrder(g: Graph, order: seq<string>, v: string)
    requires Topological(g, order) && v in g && v !in order && forall d :: d in g[v] ==> d in order
    ensures Topological(g, order + [v])
  {
    var longer := order + [v];
    forall i | 0 <= i < |longer| ensures longer[i] in g && forall d :: d in g[longer[i]] ==> d in longer[..i] {
      assert longer[..i] == order[..i];
    }
  }

  lemma {:induction false} PathDescends(g: Graph, order: seq<string>, p: seq<string>, i: nat) returns (j: nat)
    requires Topological(g, order) && Path(g, p) && |p| >= 2
    requires i < |order| && order[i] == p[0]
    ensures j < i && order[j] == p[|p|-1]
    decreases |p|
  {
    assert p[1] in g[p[0]];
    assert p[1] in order[..i];
    j :| 0 <= j < i && order[j] == p[1];
    if |p| > 2 {
      var q := p[1..];
      assert forall k :: 0 < k < |q| ==> q[k] == p[k+1] && q[k-1] == p[k];
      j := PathDescends(g, order, q, j);
    }
  }

  /** A complete topological order rules out cycles. */
  lemma OrderedIsAcyclic(g: Graph, order: seq<string>)
    requires Topological(g, order) && forall v :: v in g ==> v in order
    ensures !Cyclic(g)
  {
    forall p | Cycle(g, p) ensures false {
      assert p[0] in order;
      var i :| 0 <= i < |order| && order[i] == p[0];
      var j := PathDescends(g, order, p, i);
    }
  }

  /** More positions than values: some value repeats. */
  lemma {:induction false} Pigeonhole(s: set<string>, p: seq<string>) returns (i: nat, j: nat)
    requires forall x :: x in p ==> x in s
    requires |p| > |s|
    ensures i < j < |p| && p[i] == p[j]
    decreases |p|
  {
    var last := p[|p|-1];
    if k :| 0 <= k < |p|-1 && p[k] == last {
      return k, |p|-1;
    }
    assert last in s;
    var q := p[..|p|-1];
    forall x | x in q ensures x in s - {last} {
      var k :| 0 <= k < |q| && q[k] == x;
      assert p[k] == x;
    }
    i, j := Pigeonhole(s - {last}, q);
  }

  /** Everybody in `s` waits for somebody in `s`. */
  ghost predicate Stuck(g: Graph, s: set<string>) {
    forall v :: v in s ==> v in g && WaitsFor(g[v], s)
  }

  ghost predicate WaitsFor(after: seq<string>, s: set<string>) {
    exists d :: d in after && d in s
  }

  /** Inside a stuck set one can walk for as long as one likes. */
  lemma {:induction false} Walk(g: Graph, s: set<string>, start: string, n: nat) returns (p: seq<string>)
    requires start in s && Stuck(g, s)
    ensures |p| == n + 1 && Path(g, p) && forall x :: x in p ==> x in s
    decreases n
  {
    if n == 0 {
      return [start];
    }
    var q := Walk(g, s, start, n - 1);
    var last := q[|q|-1];
    assert last in s;
    assert WaitsFor(g[last], s);
    var d :| d in g[last] && d in s;
    p := q + [d];
  }

  lemma SliceOfPath(g: Graph, p: seq<string>, i: nat, j: nat)
    requires Path(g, p) && i < j < |p|
    ensures Path(g, p[i..j+1])
  {
    var c := p[i..j+1];
    assert forall k :: 0 <= k < |c| ==> c[k] == p[i+k];
  }

  /** A nonempty stuck set holds a cycle. */
  lemma StuckIsCyclic(g: Graph, s: set<string>)
    requires s != {} && Stuck(g, s)
    ensures Cyclic(g)
  {
    var start :| start in s;
    var p := Walk(g, s, start, |s|);
    var i, j := Pigeonhole(s, p);
    SliceOfPath(g, p, i, j);
    assert Cycle(g, p[i..j+1]);
  }
}
