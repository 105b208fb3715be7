/** The plan compiler's start order: Kahn's algorithm with a priority queue of ids. */
module KahnSort {
  import opened TextOrder
  import opened DependencyGraph
  import opened RuntimePlanModel

  // ---- The order, as a function of the graph alone ----

  ghost predicate Satisfied(after: seq<string>, done: set<string>) {
    forall d :: d in after ==> d in done
  }

  ghost function Startable(g: Graph, done: set<string>): set<string> {
    set n | n in g && n !in done && Satisfied(g[n], done)
  }

  ghost predicate IsLeast(s: set<string>, m: string) {
    m in s && forall x :: x in s ==> x == m || Before(m, x)
  }

  lemma {:induction false} LeastExists(s: set<string>)
    requires s != {}
    ensures exists m :: IsLeast(s, m)
    decreases s
  {
    var x :| x in s;
    if s == {x} {
      assert IsLeast(s, x);
    } else {
      LeastExists(s - {x});
      var m :| IsLeast(s - {x}, m);
      BeforeTotal(x, m);
      if Before(x, m) {
        forall y | y in s && y != x ensures Before(x, y) {
          if y != m { BeforeTransitive(x, m, y); }
        }
        assert IsLeast(s, x);
      } else {
        assert IsLeast(s, m);
      }
    }
  }

  lemma LeastUnique(s: set<string>, m: string, n: string)
    requires IsLeast(s, m) && IsLeast(s, n)
    ensures m == n
  {
    if m != n {
      BeforeTransitive(m, n, m);
      BeforeIrreflexive(m);
    }
  }

  ghost function Least(s: set<string>): (m: string)
    requires s != {}
    ensures IsLeast(s, m)
  {
    LeastExists(s);
    var m :| IsLeast(s, m);
    m
  }

  /** What follows once `done` has been started: always the least startable id. */
  ghost function OrderAfter(g: Graph, done: set<string>): seq<string>
    decreases g.Keys - done
  {
    var ready := Startable(g, done);
    if ready == {} then []
    else
      var next := Least(ready);
      assert next in g.Keys - done;
      [next] + OrderAfter(g, done + {next})
  }

  ghost function StartOrder(g: Graph): seq<string> {
    OrderAfter(g, {})
  }

  lemma {:induction false} OrderExtends(g: Graph, prefix: seq<string>)
    requires Topological(g, prefix)
    ensures Topological(g, prefix + OrderAfter(g, Elements(prefix)))
    decreases g.Keys - Elements(prefix)
  {
    var done := Elements(prefix);
    var ready := Startable(g, done);
    if ready == {} {
      assert prefix + [] == prefix;
    } else {
      var next := Least(ready);
      var longer := prefix + [next];
      assert next in ready && Satisfied(g[next], done);
      AppendToOrder(g, prefix, next);
      assert Elements(longer) == done + {next};
      assert next in g.Keys - done;
      OrderExtends(g, longer);
      assert prefix + OrderAfter(g, done) == longer + OrderAfter(g, done + {next});
    }
  }

  lemma {:induction false} OrderExhausts(g: Graph, done: set<string>)
    ensures Startable(g, done + Elements(OrderAfter(g, done))) == {}
    ensures Elements(OrderAfter(g, done)) !! done
    decreases g.Keys - done
  {
    var ready := Startable(g, done);
    if ready == {} {
      assert done + Elements([]) == done;
    } else {
      var next := Least(ready);
      assert next in g.Keys - done;
      OrderExhausts(g, done + {next});
      assert done + Elements(OrderAfter(g, done)) == done + {next} + Elements(OrderAfter(g, done + {next}));
    }
  }

  lemma LeftoversAreStuck(g: Graph, left: set<string>)
    requires Closed(g) && left == (set v | v in g && v !in StartOrder(g))
    ensures Stuck(g, left)
  {
    var order := StartOrder(g);
    OrderExhausts(g, {});
    assert {} + Elements(order) == Elements(order);
    forall v | v in left ensures WaitsFor(g[v], left) {
      assert v !in Startable(g, Elements(order));
      var d :| d in g[v] && d !in Elements(order);
      assert d in left;
    }
  }

  /** The order respects every dependency, and it leaves something out exactly
      when the graph has a cycle. */
  lemma StartOrderCorrect(g: Graph)
    requires Closed(g)
    ensures Topological(g, StartOrder(g))
    ensures (forall v :: v in g ==> v in StartOrder(g)) <==> !Cyclic(g)
  {
    assert Elements<string>([]) == {};
    OrderExtends(g, []);
    assert [] + StartOrder(g) == StartOrder(g);
    var left := set v | v in g && v !in StartOrder(g);
    if left == {} {
      assert forall v :: v in g ==> v in StartOrder(g) by {
        forall v | v in g ensures v in StartOrder(g) { assert v !in left; }
      }
      OrderedIsAcyclic(g, StartOrder(g));
    } else {
      LeftoversAreStuck(g, left);
      StuckIsCyclic(g, left);
      var v :| v in left;
    }
  }

  // ---- The algorithm ----

  datatype SortError = DuplicateIds | NoCriticalComponent | MissingDependency | SelfDependency | CyclicDependencies

  /** How many entries of a dependency list are still outstanding. */
  ghost function Outstanding(after: seq<string>, done: set<string>): nat {
    if after == [] then 0 else (if after[0] in done then 0 else 1) + Outstanding(after[1..], done)
  }

  lemma {:induction false} OutstandingStep(after: seq<string>, done: set<string>, name: string)
    requires name !in done
    ensures Outstanding(after, done) == Outstanding(after, done + {name}) + multiset(after)[name]
  {
    if after != [] {
      assert after == [after[0]] + after[1..];
      OutstandingStep(after[1..], done, name);
    }
  }

  lemma {:induction false} OutstandingZero(after: seq<string>, done: set<string>)
    ensures Outstanding(after, done) == 0 <==> Satisfied(after, done)
  {
    if after != [] {
      OutstandingZero(after[1..], done);
      assert after == [after[0]] + after[1..];
      assert Satisfied(after, done) <==> after[0] in done && Satisfied(after[1..], done);
    }
  }

  lemma {:induction false} AllOutstanding(after: seq<string>)
    ensures Outstanding(after, {}) == |after|
  {
    if after != [] {
      AllOutstanding(after[1..]);
    }
  }

  lemma {:induction false} DistinctCount(s: seq<string>)
    requires Distinct(s)
    ensures |Elements(s)| == |s|
  {
    if s != [] {
      var n := |s| - 1;
      DistinctCount(s[..n]);
      assert Elements(s) == Elements(s[..n]) + {s[n]};
    }
  }

  /** `dependents` lists, for every id, the components of `seen` that come after it, as often as they say so. */
  ghost predicate ListsDependents(g: Graph, seen: set<string>, dependents: map<string, seq<string>>) {
    && dependents.Keys == g.Keys
    && (forall id, x :: id in g ==> multiset(dependents[id])[x] == Mentions(g, seen, x, id))
  }

  /** How often does a component of `seen` name this dependency? */
  ghost function Mentions(g: Graph, seen: set<string>, x: string, id: string): nat {
    if x in seen && x in g then multiset(g[x])[id] else 0
  }

  ghost predicate CountsOutstanding(g: Graph, done: set<string>, rest: multiset<string>, indegree: map<string, nat>) {
    && indegree.Keys == g.Keys
    && (forall id :: id in g && id !in done ==> indegree[id] == Outstanding(g[id], done) + rest[id])
  }

  /** What is wrong with the first bad reference of a list, if there is one. */
  ghost function FirstBad(g: Graph, id: string, after: seq<string>): Option<SortError> {
    if after == [] then None
    else if after[0] !in g then Some(MissingDependency)
    else if after[0] == id then Some(SelfDependency)
    else FirstBad(g, id, after[1..])
  }

  /** The same over the lists of several components. */
  ghost function FirstError(g: Graph, ids: seq<string>): Option<SortError>
    requires forall id :: id in ids ==> id in g
  {
    if ids == [] then None
    else
      assert ids[0] in ids;
      var bad := FirstBad(g, ids[0], g[ids[0]]);
      if bad.Some? then bad else FirstError(g, ids[1..])
  }

  /** Registers one component's dependencies; stops at one that is unknown or the component itself. */
  method Register(g: Graph, ghost seen: set<string>, id: string,
                  dependents0: map<string, seq<string>>, indegree0: map<string, nat>)
    returns (r: Result<(map<string, seq<string>>, map<string, nat>), SortError>)
    requires id in g && id !in seen
    requires ListsDependents(g, seen, dependents0)
    requires indegree0.Keys == g.Keys && indegree0[id] == 0
    ensures r.Ok? <==> GoodReferences(g, id)
    ensures r.Ok? ==> ListsDependents(g, seen + {id}, r.value.0)
    ensures r.Ok? ==> r.value.1 == indegree0[id := |g[id]|]
    ensures FirstBad(g, id, g[id]) == if r.Err? then Some(r.error) else None
    ensures r.Err? ==> r.error.MissingDependency? || r.error.SelfDependency?
  {
    hide *;
    var dependents, indegree, after := dependents0, indegree0, g[id];
    assert after[0..] == after;
    NoneListed(g, seen, dependents0, id);
    for j := 0 to |after|
      invariant forall i :: 0 <= i < j ==> after[i] in g && after[i] != id
      invariant ListedSoFar(g, seen, dependents, id, after[..j])
      invariant indegree == indegree0[id := j]
      invariant FirstBad(g, id, after[j..]) == FirstBad(g, id, after)
    {
      var dependency := after[j];
      assert after[..j+1] == after[..j] + [dependency];
      BadStep(g, id, after, j);
      if dependency !in g || dependency == id {
        NotGood(g, id, dependency);
      }
      if dependency !in g {
        return Err(MissingDependency);
      }
      if dependency == id {
        return Err(SelfDependency);
      }
      ListOne(g, seen, dependents, id, after[..j], dependency);
      dependents := dependents[dependency := dependents[dependency] + [id]];
      indegree := indegree[id := indegree[id] + 1];
    }
    assert after[..|after|] == after && FirstBad(g, id, []) == None by {
      BadNone(g, id);
    }
    assert after[|after|..] == [];
    AllListed(g, seen, dependents, id);
    r := Ok((dependents, indegree));
  }

  lemma BadNone(g: Graph, id: string)
    ensures FirstBad(g, id, []) == None
  {
  }

  lemma BadStep(g: Graph, id: string, after: seq<string>, j: nat)
    requires j < |after|
    ensures FirstBad(g, id, after[j..]) ==
      if after[j] !in g then Some(MissingDependency)
      else if after[j] == id then Some(SelfDependency)
      else FirstBad(g, id, after[j+1..])
  {
    assert after[j..][1..] == after[j+1..];
  }

  lemma ErrorStep(g: Graph, ids: seq<string>, k: nat)
    requires k < |ids| && g.Keys == Elements(ids)
    ensures forall id :: id in ids ==> id in g
    ensures FirstError(g, ids[k..]) ==
      var bad := FirstBad(g, ids[k], g[ids[k]]); if bad.Some? then bad else FirstError(g, ids[k+1..])
  {
    assert ids[k..][1..] == ids[k+1..];
  }

  lemma ErrorEnds(g: Graph, ids: seq<string>)
    requires g.Keys == Elements(ids)
    ensures forall id :: id in ids ==> id in g
    ensures FirstError(g, ids[0..]) == FirstError(g, ids) && FirstError(g, ids[|ids|..]) == None
  {
    assert ids[0..] == ids;
  }

  /** `dependents` lists what comes after each id: the components of `seen`, and `id` for those in `after`. */
  ghost predicate ListedSoFar(g: Graph, seen: set<string>, dependents: map<string, seq<string>>, id: string,
                              after: seq<string>) {
    && dependents.Keys == g.Keys
    && (forall d, x :: d in g ==>
          multiset(dependents[d])[x] == Mentions(g, seen, x, d) + (if x == id then multiset(after)[d] else 0))
  }

  lemma NoneListed(g: Graph, seen: set<string>, dependents: map<string, seq<string>>, id: string)
    requires id in g && ListsDependents(g, seen, dependents)
    ensures ListedSoFar(g, seen, dependents, id, g[id][..0])
  {
  }

  lemma ListOne(g: Graph, seen: set<string>, dependents: map<string, seq<string>>, id: string, after: seq<string>,
                d: string)
    requires ListedSoFar(g, seen, dependents, id, after) && d in g
    ensures d in dependents
    ensures ListedSoFar(g, seen, dependents[d := dependents[d] + [id]], id, after + [d])
  {
    hide Mentions;
    var longer := dependents[d := dependents[d] + [id]];
    assert longer.Keys == g.Keys;
    assert multiset(after + [d]) == multiset(after) + multiset{d};
    assert multiset(dependents[d] + [id]) == multiset(dependents[d]) + multiset{id};
  }

  lemma AllListed(g: Graph, seen: set<string>, dependents: map<string, seq<string>>, id: string)
    requires id in g && id !in seen && ListedSoFar(g, seen, dependents, id, g[id])
    requires forall i :: 0 <= i < |g[id]| ==> g[id][i] in g && g[id][i] != id
    ensures ListsDependents(g, seen + {id}, dependents) && GoodReferences(g, id)
  {
  }

  lemma NotGood(g: Graph, id: string, d: string)
    requires id in g && d in g[id] && (d !in g || d == id)
    ensures !GoodReferences(g, id)
  {
  }

  /** The ids that wait for nothing, queued. */
  method InitiallyReady(g: Graph, ids: seq<string>, indegree: map<string, nat>) returns (ready: seq<string>)
    requires Counted(g, ids, |ids|, indegree)
    ensures Queued(g, {}, {}, ready)
    ensures CountsOutstanding(g, {}, multiset{}, indegree)
  {
    hide Startable, CountsOutstanding;
    ready := [];
    for k := 0 to |ids|
      invariant Increasing(ready)
      invariant forall x :: x in ready <==> x in ids[..k] && indegree[x] == 0
    {
      assert ids[..k+1] == ids[..k] + [ids[k]];
      if indegree[ids[k]] == 0 {
        ready := Insert(ready, ids[k]);
      }
    }
    assert ids[..|ids|] == ids;
    InitialCounts(g, ids, indegree);
    NothingToWaitFor(g);
    assert Elements(ready) == Startable(g, {}) - {};
  }

  lemma InitialCounts(g: Graph, ids: seq<string>, indegree: map<string, nat>)
    requires Counted(g, ids, |ids|, indegree)
    ensures CountsOutstanding(g, {}, multiset{}, indegree)
    ensures forall id :: id in ids <==> id in g
    ensures forall id :: id in g ==> (indegree[id] == 0 <==> g[id] == [])
  {
    forall id | id in g ensures indegree[id] == |g[id]| && indegree[id] == Outstanding(g[id], {}) {
      var i :| 0 <= i < |ids| && ids[i] == id;
      AllOutstanding(g[id]);
    }
  }

  lemma NothingToWaitFor(g: Graph)
    ensures Startable(g, {}) == set x | x in g && g[x] == []
  {
    forall x | x in g ensures Satisfied(g[x], {}) <==> g[x] == [] {
      assert g[x] == [] || g[x][0] in g[x];
    }
  }

  /** Counts down the dependents of a component that has just been ordered, and
      queues those with nothing left to wait for. */
  method Release(ghost g: Graph, ghost done: set<string>, released: seq<string>,
                 indegree0: map<string, nat>, ready0: seq<string>)
    returns (indegree: map<string, nat>, ready: seq<string>)
    requires Elements(released) <= g.Keys - done
    requires CountsOutstanding(g, done, multiset(released), indegree0)
    requires Queued(g, done, Elements(released), ready0)
    ensures CountsOutstanding(g, done, multiset{}, indegree)
    ensures Queued(g, done, {}, ready)
  {
    hide Startable, Queued, CountsOutstanding;
    indegree, ready := indegree0, ready0;
    assert released[0..] == released;
    for j := 0 to |released|
      invariant CountsOutstanding(g, done, multiset(released[j..]), indegree)
      invariant Queued(g, done, Elements(released[j..]), ready)
    {
      assert released[j] in Elements(released);
      ReleaseOne(g, done, released[j..], indegree, ready);
      assert released[j..][0] == released[j] && released[j..][1..] == released[j+1..];
      var dependent := released[j];
      indegree := indegree[dependent := indegree[dependent] - 1];
      if indegree[dependent] == 0 {
        ready := Insert(ready, dependent);
      }
    }
    assert released[|released|..] == [] && Elements<string>([]) == {};
  }

  /** The first of those that are still to be counted down is counted down once, and queued if that was all. */
  lemma ReleaseOne(g: Graph, done: set<string>, rest: seq<string>, indegree: map<string, nat>, ready: seq<string>)
    requires rest != []
    requires CountsOutstanding(g, done, multiset(rest), indegree) && Queued(g, done, Elements(rest), ready)
    requires rest[0] in g && rest[0] !in done
    ensures rest[0] in indegree && indegree[rest[0]] > 0 && Increasing(ready)
    ensures var after := indegree[rest[0] := indegree[rest[0]] - 1];
      && CountsOutstanding(g, done, multiset(rest[1..]), after)
      && Queued(g, done, Elements(rest[1..]), if after[rest[0]] == 0 then Insert(ready, rest[0]) else ready)
  {
    var x := rest[0];
    assert rest == [x] + rest[1..];
    assert multiset(rest) == multiset{x} + multiset(rest[1..]);
    assert Elements(rest) == Elements(rest[1..]) + {x};
    OutstandingZero(g[x], done);
    var after := indegree[x := indegree[x] - 1];
    assert after.Keys == g.Keys;
    assert after[x] == 0 <==> x in Startable(g, done) && x !in rest[1..];
    var queue := if after[x] == 0 then Insert(ready, x) else ready;
    forall y ensures y in queue <==> y in Startable(g, done) && y !in rest[1..] {
      assert y in ready <==> y in Elements(ready);
      assert y in rest <==> y == x || y in rest[1..];
      assert y in Elements(rest) <==> y in rest;
    }
  }

  lemma HeadIsLeast(ready: seq<string>)
    requires Increasing(ready) && ready != []
    ensures IsLeast(Elements(ready), ready[0])
    ensures Elements(ready[1..]) == Elements(ready) - {ready[0]}
  {
    forall x ensures x in ready[1..] <==> x in ready && x != ready[0] {
      TailMembers(ready, x);
    }
    forall x | x in Elements(ready) ensures x == ready[0] || Before(ready[0], x) {
      var k :| 0 <= k < |ready| && ready[k] == x;
    }
  }

  /** What `done` and the queue must look like for the order to be resumed. */
  ghost predicate DownClosed(g: Graph, done: set<string>) {
    forall n :: n in done ==> n in g && Satisfied(g[n], done)
  }

  /** Moving `name` from startable to done owes each of its dependents a decrement for every mention. */
  lemma OweDependents(g: Graph, done: set<string>, name: string, released: multiset<string>, indegree: map<string, nat>)
    requires name in Startable(g, done) && name !in g[name] && DownClosed(g, done)
    requires CountsOutstanding(g, done, multiset{}, indegree)
    requires forall x :: x in g ==> released[x] == multiset(g[x])[name]
    ensures forall x :: x in g && name in g[x] ==> x !in done + {name}
    ensures DownClosed(g, done + {name})
    ensures CountsOutstanding(g, done + {name}, released, indegree)
  {
    forall id | id in g && id !in done + {name}
      ensures indegree[id] == Outstanding(g[id], done + {name}) + released[id]
    {
      OutstandingStep(g[id], done, name);
    }
  }

  lemma QueueAfterTaking(g: Graph, done: set<string>, name: string, released: set<string>)
    requires name in Startable(g, done)
    requires released == set x | x in g && name in g[x]
    ensures Startable(g, done) - {name} == Startable(g, done + {name}) - released
  {
    forall n | n in g && name !in g[n] ensures Satisfied(g[n], done) <==> Satisfied(g[n], done + {name}) {
    }
  }

  /** The queue holds exactly the startable ids, in increasing order. */
  ghost predicate Queued(g: Graph, done: set<string>, except: set<string>, ready: seq<string>) {
    Increasing(ready) && Elements(ready) == Startable(g, done) - except
  }

  /** Nobody comes after somebody greater. */
  ghost predicate Rising(s: seq<string>) {
    forall i, j :: 0 <= i < j < |s| ==> !Before(s[j], s[i])
  }

  /** Insertion that keeps repetitions. */
  function InsertAgain(s: seq<string>, x: string): (r: seq<string>)
    requires Rising(s)
    ensures Rising(r) && multiset(r) == multiset(s) + multiset{x}
  {
    if s == [] || !Before(s[0], x) then
      NotBelow(s, x);
      [x] + s
    else
      assert s == [s[0]] + s[1..];
      var rest := InsertAgain(s[1..], x);
      assert forall y :: y in rest ==> !Before(y, s[0]) by { NotBelowFirst(s, x, rest); }
      [s[0]] + rest
  }

  lemma NotBelow(s: seq<string>, x: string)
    requires Rising(s) && (s == [] || !Before(s[0], x))
    ensures forall k :: 0 <= k < |s| ==> !Before(s[k], x)
  {
    forall k | 0 <= k < |s| ensures !Before(s[k], x) {
      BeforeTotal(s[0], s[k]);
      if Before(s[k], x) && s[0] != s[k] {
        BeforeTransitive(s[0], s[k], x);
      }
    }
  }

  lemma NotBelowFirst(s: seq<string>, x: string, rest: seq<string>)
    requires Rising(s) && s != [] && Before(s[0], x) && multiset(rest) == multiset(s[1..]) + multiset{x}
    ensures forall y :: y in rest ==> !Before(y, s[0])
  {
    forall y | y in rest ensures !Before(y, s[0]) {
      assert y in multiset(rest);
      if y == x && Before(x, s[0]) {
        BeforeTransitive(s[0], x, s[0]);
        BeforeIrreflexive(s[0]);
      } else if y in s[1..] {
        var k :| 0 <= k < |s[1..]| && s[1..][k] == y;
        assert s[k+1] == y;
      }
    }
  }

  /** The sorted list, with its repetitions. */
  function Ascending(s: seq<string>): (r: seq<string>)
    ensures Rising(r) && multiset(r) == multiset(s)
  {
    if s == [] then []
    else
      assert s == [s[0]] + s[1..];
      InsertAgain(Ascending(s[1..]), s[0])
  }

  lemma ReleasedSet(g: Graph, dependents: map<string, seq<string>>, name: string)
    requires ListsDependents(g, g.Keys, dependents) && name in g
    ensures forall x :: x in g ==> multiset(Ascending(dependents[name]))[x] == multiset(g[x])[name]
    ensures Elements(Ascending(dependents[name])) == set x | x in g && name in g[x]
  {
    var released := Ascending(dependents[name]);
    forall x ensures x in released <==> x in g && name in g[x] {
      assert x in released <==> multiset(released)[x] > 0;
      assert x in g ==> (name in g[x] <==> multiset(g[x])[name] > 0);
    }
  }

  /** One turn of the main loop, up to the countdown. */
  lemma TakeNext(g: Graph, dependents: map<string, seq<string>>, done: set<string>, indegree: map<string, nat>,
                 ready: seq<string>)
    requires forall v :: v in g ==> v !in g[v]
    requires ListsDependents(g, g.Keys, dependents) && DownClosed(g, done)
    requires CountsOutstanding(g, done, multiset{}, indegree) && Queued(g, done, {}, ready) && ready != []
    ensures ready[0] in dependents && ready[0] in g.Keys - done
    ensures OrderAfter(g, done) == [ready[0]] + OrderAfter(g, done + {ready[0]})
    ensures var released := Ascending(dependents[ready[0]]);
      && Elements(released) <= g.Keys - (done + {ready[0]})
      && CountsOutstanding(g, done + {ready[0]}, multiset(released), indegree)
      && Queued(g, done + {ready[0]}, Elements(released), ready[1..])
    ensures DownClosed(g, done + {ready[0]})
  {
    var name := ready[0];
    assert Startable(g, done) - {} == Startable(g, done);
    HeadIsLeast(ready);
    assert name in Elements(ready);
    LeastUnique(Startable(g, done), name, Least(Startable(g, done)));
    ReleasedSet(g, dependents, name);
    var waiting := set x | x in g && name in g[x];
    OweDependents(g, done, name, multiset(Ascending(dependents[name])), indegree);
    QueueAfterTaking(g, done, name, waiting);
  }

  /** The main loop: repeatedly takes the least id with nothing left to wait for. */
  method Drain(g: Graph, dependents: map<string, seq<string>>, indegree0: map<string, nat>, ready0: seq<string>)
    returns (order: seq<string>)
    requires forall v :: v in g ==> v !in g[v]
    requires ListsDependents(g, g.Keys, dependents) && CountsOutstanding(g, {}, multiset{}, indegree0)
    requires Queued(g, {}, {}, ready0)
    ensures order == StartOrder(g)
  {
    hide *;
    ghost var done: set<string> := {};
    NothingTaken(g);
    var indegree, ready := indegree0, ready0;
    order := [];
    while ready != []
      invariant DownClosed(g, done)
      invariant StartOrder(g) == order + OrderAfter(g, done)
      invariant CountsOutstanding(g, done, multiset{}, indegree)
      invariant Queued(g, done, {}, ready)
      decreases g.Keys - done
    {
      TakeNext(g, dependents, done, indegree, ready);
      var name := ready[0];
      var released := Ascending(dependents[name]);
      order := order + [name];
      done := done + {name};
      indegree, ready := Release(g, done, released, indegree, ready[1..]);
    }
    NothingLeft(g, done);
  }

  lemma NothingTaken(g: Graph)
    ensures DownClosed(g, {}) && StartOrder(g) == [] + OrderAfter(g, {})
  {
  }

  lemma NothingLeft(g: Graph, done: set<string>)
    requires Queued(g, done, {}, [])
    ensures OrderAfter(g, done) == []
  {
    assert Startable(g, done) - {} == Startable(g, done);
  }

  /** A duplicate-free list of nodes is complete exactly when it has the size of the graph. */
  lemma CompleteBySize(ids: seq<string>, order: seq<string>)
    requires Distinct(ids) && Distinct(order) && Elements(order) <= Elements(ids)
    ensures |order| == |ids| <==> Elements(order) == Elements(ids)
  {
    DistinctCount(ids);
    DistinctCount(order);
    var a, b := Elements(order), Elements(ids);
    assert b == a + (b - a);
    assert |b| == |a| + |b - a|;
  }

  ghost predicate Indexes(byId: map<string, ComponentPlan>, cs: seq<ComponentPlan>) {
    && (forall c :: c in cs ==> c.id in byId && byId[c.id] == c)
    && (forall id :: id in byId ==> byId[id] in cs && byId[id].id == id)
  }

  lemma IndexStep(byId: map<string, ComponentPlan>, cs: seq<ComponentPlan>, c: ComponentPlan)
    requires UniqueIds(cs) && Indexes(byId, cs)
    ensures c.id in byId <==> !UniqueIds(cs + [c])
    ensures c.id !in byId ==> Indexes(byId[c.id := c], cs + [c])
  {
    var longer := Ids(cs + [c]);
    assert longer == Ids(cs) + [c.id];
    if c.id in byId {
      var i :| 0 <= i < |cs| && cs[i] == byId[c.id];
      assert longer[i] == longer[|cs|];
    } else {
      forall i | 0 <= i < |cs| ensures cs[i].id != c.id { assert cs[i] in cs; }
    }
  }

  lemma UniquePrefix(cs: seq<ComponentPlan>, k: nat)
    requires k <= |cs| && UniqueIds(cs)
    ensures UniqueIds(cs[..k])
  {
    assert forall i :: 0 <= i < k ==> Ids(cs[..k])[i] == Ids(cs)[i];
  }

  /** The dictionary of the components by id; absent when two share an id. */
  method IndexById(cs: seq<ComponentPlan>) returns (r: Option<map<string, ComponentPlan>>)
    ensures r.Some? <==> UniqueIds(cs)
    ensures r.Some? ==> Indexes(r.value, cs)
  {
    hide UniqueIds;
    var byId: map<string, ComponentPlan> := map[];
    assert UniqueIds(cs[..0]) && Indexes(byId, cs[..0]) by { NoneIndexed(); }
    for k := 0 to |cs|
      invariant UniqueIds(cs[..k]) && Indexes(byId, cs[..k])
    {
      hide Indexes;
      assert cs[..k+1] == cs[..k] + [cs[k]];
      IndexStep(byId, cs[..k], cs[k]);
      if cs[k].id in byId {
        if UniqueIds(cs) { UniquePrefix(cs, k + 1); }
        return None;
      }
      byId := byId[cs[k].id := cs[k]];
    }
    assert cs[..|cs|] == cs;
    r := Some(byId);
  }

  lemma NoneIndexed()
    ensures UniqueIds([]) && Indexes(map[], [])
  {
  }

  /** The dependencies of `v` are other nodes. */
  ghost predicate GoodReferences(g: Graph, v: string)
    requires v in g
  {
    forall d :: d in g[v] ==> d in g && d != v
  }

  ghost predicate AllGood(g: Graph, ids: seq<string>) {
    forall i :: 0 <= i < |ids| ==> ids[i] in g && GoodReferences(g, ids[i])
  }

  /** `indegree` counts the dependencies of the first `k` ids; the others are at zero. */
  ghost predicate Counted(g: Graph, ids: seq<string>, k: nat, indegree: map<string, nat>)
    requires k <= |ids|
  {
    && indegree.Keys == g.Keys == Elements(ids)
    && (forall i :: 0 <= i < k ==> ids[i] in g && indegree[ids[i]] == |g[ids[i]]|)
    && (forall i :: k <= i < |ids| ==> ids[i] in g && indegree[ids[i]] == 0)
  }

  lemma CountedStep(g: Graph, ids: seq<string>, k: nat, indegree: map<string, nat>)
    requires Distinct(ids) && k < |ids| && Counted(g, ids, k, indegree)
    ensures ids[k] in g && indegree[ids[k]] == 0 && ids[k] !in Elements(ids[..k])
    ensures Elements(ids[..k+1]) == Elements(ids[..k]) + {ids[k]}
    ensures Counted(g, ids, k + 1, indegree[ids[k] := |g[ids[k]]|])
    ensures AllGood(g, ids[..k+1]) <==> AllGood(g, ids[..k]) && GoodReferences(g, ids[k])
  {
    assert ids[..k+1] == ids[..k] + [ids[k]];
    var longer := indegree[ids[k] := |g[ids[k]]|];
    assert longer.Keys == g.Keys;
  }

  lemma AllGoodPrefix(g: Graph, ids: seq<string>, k: nat)
    requires k <= |ids| && AllGood(g, ids)
    ensures AllGood(g, ids[..k])
  {
  }

  lemma NothingRegistered(g: Graph, ids: seq<string>)
    requires g.Keys == Elements(ids)
    ensures ListsDependents(g, Elements(ids[..0]), map id | id in g :: [])
    ensures Counted(g, ids, 0, map id | id in g :: 0)
    ensures AllGood(g, ids[..0])
  {
    forall i | 0 <= i < |ids| ensures ids[i] in g { assert ids[i] in Elements(ids); }
  }

  /** Phase two on the graph alone: the dependency tables, or the first bad reference. */
  method Tables(g: Graph, ids: seq<string>)
    returns (r: Result<(map<string, seq<string>>, map<string, nat>), SortError>)
    requires Distinct(ids) && g.Keys == Elements(ids) && forall id :: id in ids ==> id in g
    ensures r.Ok? <==> AllGood(g, ids)
    ensures FirstError(g, ids) == if r.Err? then Some(r.error) else None
    ensures r.Ok? ==> ListsDependents(g, g.Keys, r.value.0) && Counted(g, ids, |ids|, r.value.1)
    ensures r.Err? ==> r.error.MissingDependency? || r.error.SelfDependency?
  {
    hide *;
    var dependents: map<string, seq<string>> := map id | id in g :: [];
    var indegree: map<string, nat> := map id | id in g :: 0;
    NothingRegistered(g, ids);
    ErrorEnds(g, ids);
    for k := 0 to |ids|
      invariant FirstError(g, ids[k..]) == FirstError(g, ids)
      invariant ListsDependents(g, Elements(ids[..k]), dependents)
      invariant AllGood(g, ids[..k]) && Counted(g, ids, k, indegree)
    {
      CountedStep(g, ids, k, indegree);
      ErrorStep(g, ids, k);
      CountedKeys(g, ids, k, indegree);
      var next := Register(g, Elements(ids[..k]), ids[k], dependents, indegree);
      if next.Err? {
        if AllGood(g, ids) { AllGoodPrefix(g, ids, k + 1); }
        return Err(next.error);
      }
      dependents, indegree := next.value.0, next.value.1;
    }
    assert ids[..|ids|] == ids;
    r := Ok((dependents, indegree));
  }

  lemma CountedKeys(g: Graph, ids: seq<string>, k: nat, indegree: map<string, nat>)
    requires k <= |ids| && Counted(g, ids, k, indegree)
    ensures indegree.Keys == g.Keys == Elements(ids)
  {
  }

  /** What the first two phases check. */
  ghost predicate Sortable(cs: seq<ComponentPlan>) {
    UniqueIds(cs) && HasCritical(cs) && DependenciesKnown(cs)
  }

  /** The whole sort. */
  method TopologicalComponents(cs: seq<ComponentPlan>) returns (r: Result<seq<ComponentPlan>, SortError>)
    ensures r.Ok? <==> Sortable(cs) && !Cyclic(AfterGraph(cs))
    ensures r == Err(CyclicDependencies) <==> Sortable(cs) && Cyclic(AfterGraph(cs))
    ensures r == Err(DuplicateIds) <==> !UniqueIds(cs)
    ensures r == Err(NoCriticalComponent) <==> UniqueIds(cs) && !HasCritical(cs)
    ensures UniqueIds(cs) && HasCritical(cs) ==>
      var bad := FirstError(AfterGraph(cs), Ids(cs)); bad.Some? ==> r == Err(bad.value)
    ensures r.Ok? ==> SortedAs(r.value, cs)
    ensures r.Ok? ==> Topological(AfterGraph(cs), Ids(r.value))
  {
    hide *;
    SortableParts(cs);
    var indexed := IndexById(cs);
    if indexed.None? {
      return Err(DuplicateIds);
    }
    var byId := indexed.value;
    if !HasCritical(cs) {
      return Err(NoCriticalComponent);
    }
    var g: Graph := map id | id in byId :: byId[id].after;
    GraphOfIndex(cs, byId, g);
    KnownInGraph(cs, g);
    var tables := Tables(g, Ids(cs));
    if tables.Err? {
      return Err(tables.error);
    }
    var ready := InitiallyReady(g, Ids(cs), tables.value.1);
    StartOrderSize(g, Ids(cs));
    var order := Drain(g, tables.value.0, tables.value.1, ready);
    if |order| != |cs| {
      return Err(CyclicDependencies);
    }
    r := Ok(seq(|order|, i requires 0 <= i < |order| => TheComponent(byId, order, i)));
    Arranged(cs, byId, order, r.value);
  }

  function TheComponent(byId: map<string, ComponentPlan>, order: seq<string>, i: nat): ComponentPlan
    requires i < |order| && Elements(order) == byId.Keys
  {
    assert order[i] in Elements(order);
    byId[order[i]]
  }

  lemma SortableParts(cs: seq<ComponentPlan>)
    ensures UniqueIds(cs) ==> Distinct(Ids(cs))
    ensures Sortable(cs) <==> UniqueIds(cs) && HasCritical(cs) && DependenciesKnown(cs)
  {
  }

  lemma StartOrderSize(g: Graph, ids: seq<string>)
    requires Distinct(ids) && g.Keys == Elements(ids) && AllGood(g, ids)
    ensures forall v :: v in g ==> v !in g[v]
    ensures Topological(g, StartOrder(g))
    ensures |StartOrder(g)| == |ids| <==> !Cyclic(g)
    ensures |StartOrder(g)| == |ids| ==> Elements(StartOrder(g)) == g.Keys
  {
    forall v | v in g ensures GoodReferences(g, v) {
      var i :| 0 <= i < |ids| && ids[i] == v;
    }
    StartOrderCorrect(g);
    CompleteBySize(ids, StartOrder(g));
  }

  lemma GraphOfIndex(cs: seq<ComponentPlan>, byId: map<string, ComponentPlan>, g: Graph)
    requires UniqueIds(cs) && Indexes(byId, cs) && g == map id | id in byId :: byId[id].after
    ensures g == AfterGraph(cs) && g.Keys == byId.Keys == Elements(Ids(cs))
  {
    hide Indexes, AfterGraph, UniqueIds;
    forall id | id in byId ensures id in AfterGraph(cs) && g[id] == AfterGraph(cs)[id] {
      IndexedEntry(cs, byId, id);
    }
    forall id | id in AfterGraph(cs) ensures id in byId {
      IndexedId(cs, byId, id);
    }
  }

  lemma IndexedEntry(cs: seq<ComponentPlan>, byId: map<string, ComponentPlan>, id: string)
    requires UniqueIds(cs) && Indexes(byId, cs) && id in byId
    ensures id in AfterGraph(cs) && byId[id].after == AfterGraph(cs)[id]
  {
    GraphEntry(cs, byId[id]);
  }

  lemma IndexedId(cs: seq<ComponentPlan>, byId: map<string, ComponentPlan>, id: string)
    requires Indexes(byId, cs) && id in Ids(cs)
    ensures id in byId
  {
    var k :| 0 <= k < |cs| && Ids(cs)[k] == id;
    assert cs[k] in cs;
  }

  lemma KnownInGraph(cs: seq<ComponentPlan>, g: Graph)
    requires UniqueIds(cs) && g == AfterGraph(cs)
    ensures DependenciesKnown(cs) <==> AllGood(g, Ids(cs))
  {
    forall v | v in g ensures exists k :: 0 <= k < |cs| && cs[k].id == v && cs[k].after == g[v] {
      var k :| 0 <= k < |cs| && Ids(cs)[k] == v;
      GraphEntry(cs, cs[k]);
    }
    forall k | 0 <= k < |cs| ensures cs[k].id in g && g[cs[k].id] == cs[k].after {
      GraphEntry(cs, cs[k]);
    }
  }

  lemma Arranged(cs: seq<ComponentPlan>, byId: map<string, ComponentPlan>, order: seq<string>,
                 ordered: seq<ComponentPlan>)
    requires Indexes(byId, cs) && Elements(order) == byId.Keys
    requires |ordered| == |order| && forall i :: 0 <= i < |order| ==> ordered[i] == TheComponent(byId, order, i)
    ensures Ids(ordered) == order && Elements(ordered) == Elements(cs)
    ensures order == StartOrder(AfterGraph(cs)) ==> SortedAs(ordered, cs)
  {
    hide StartOrder, AfterGraph;
    forall i | 0 <= i < |order| ensures ordered[i] in cs && ordered[i].id == order[i] {
      assert order[i] in Elements(order);
    }
    forall c | c in cs ensures c in ordered {
      assert c.id in Elements(order);
      var i :| 0 <= i < |order| && order[i] == c.id;
      assert ordered[i] == c;
    }
  }

  /** The sort depends on which components it is given, not on their order: it succeeds for both listings or for none,
      finds a cycle in both or in none, and the two answers are the same list. */
  lemma SortIgnoresOrder(a: seq<ComponentPlan>, b: seq<ComponentPlan>, x: seq<ComponentPlan>, y: seq<ComponentPlan>)
    requires UniqueIds(a) && UniqueIds(b) && Elements(a) == Elements(b)
    ensures Sortable(a) <==> Sortable(b)
    ensures Cyclic(AfterGraph(a)) <==> Cyclic(AfterGraph(b))
    ensures SortedAs(x, a) && SortedAs(y, b) ==> x == y
  {
    hide UniqueIds, Cyclic, StartOrder;
    AfterGraphOfSet(a, b);
    SameChecks(a, b);
    SameChecks(b, a);
    if SortedAs(x, a) && SortedAs(y, b) {
      assert |x| == |Ids(x)| == |Ids(y)| == |y|;
      forall k | 0 <= k < |x| ensures x[k] == y[k] {
        assert Ids(x)[k] == Ids(y)[k] && x[k] in Elements(x) && y[k] in Elements(y);
        SameId(a, x[k], y[k]);
      }
    }
  }

  /** What the sort answers. */
  ghost predicate SortedAs(r: seq<ComponentPlan>, cs: seq<ComponentPlan>) {
    Ids(r) == StartOrder(AfterGraph(cs)) && Elements(r) == Elements(cs)
  }

  lemma SameId(cs: seq<ComponentPlan>, x: ComponentPlan, y: ComponentPlan)
    requires UniqueIds(cs) && x in Elements(cs) && y in Elements(cs) && x.id == y.id
    ensures x == y
  {
    var i :| 0 <= i < |cs| && cs[i] == x;
    var j :| 0 <= j < |cs| && cs[j] == y;
    assert Ids(cs)[i] == Ids(cs)[j];
  }

  lemma SameChecks(a: seq<ComponentPlan>, b: seq<ComponentPlan>)
    requires UniqueIds(a) && UniqueIds(b) && Elements(a) == Elements(b)
    ensures Sortable(a) ==> Sortable(b)
  {
    hide UniqueIds, Elements, DependenciesKnown, HasCritical;
    CriticalElsewhere(a, b);
    if DependenciesKnown(a) {
      AllKnownElsewhere(a, b);
    }
  }

  lemma CriticalElsewhere(a: seq<ComponentPlan>, b: seq<ComponentPlan>)
    requires Elements(a) == Elements(b)
    ensures HasCritical(a) ==> HasCritical(b)
  {
    if k :| 0 <= k < |a| && a[k].critical {
      var j := Elsewhere(a, b, k);
      assert b[j].critical;
    }
  }

  lemma Elsewhere(a: seq<ComponentPlan>, b: seq<ComponentPlan>, k: nat) returns (j: nat)
    requires Elements(a) == Elements(b) && k < |a|
    ensures j < |b| && b[j] == a[k]
  {
    assert a[k] in Elements(b);
    j :| 0 <= j < |b| && b[j] == a[k];
  }

  lemma KnownHere(a: seq<ComponentPlan>, j: nat, d: string) returns (i: nat)
    requires DependenciesKnown(a) && j < |a| && d in a[j].after
    ensures i < |a| && a[i].id == d && d != a[j].id
  {
    assert d in Ids(a) && d != a[j].id;
    i :| 0 <= i < |a| && Ids(a)[i] == d;
  }

  lemma KnownElsewhere(a: seq<ComponentPlan>, b: seq<ComponentPlan>, k: nat, d: string)
    requires Elements(a) == Elements(b) && DependenciesKnown(a) && k < |b| && d in b[k].after
    ensures d in Ids(b) && d != b[k].id
  {
    hide DependenciesKnown, Elements;
    var j := Elsewhere(b, a, k);
    var i := KnownHere(a, j, d);
    var l := Elsewhere(a, b, i);
    assert Ids(b)[l] == d;
  }

  lemma AllKnownElsewhere(a: seq<ComponentPlan>, b: seq<ComponentPlan>)
    requires Elements(a) == Elements(b) && DependenciesKnown(a)
    ensures DependenciesKnown(b)
  {
    hide Elements;
    forall k | 0 <= k < |b| ensures forall d :: d in b[k].after ==> d in Ids(b) && d != b[k].id {
      forall d | d in b[k].after ensures d in Ids(b) && d != b[k].id {
        KnownElsewhere(a, b, k, d);
      }
    }
  }
}
