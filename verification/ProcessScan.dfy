/** The bounded process scan: of all eligible processes, the best ones by memory, found in
    one pass with a heap no larger than the answer. */
module ProcessScan {
  import opened RuntimePlanModel

  datatype Process = Process(pid: nat, ppid: nat, group: nat, session: nat, rssKib: Option<nat>)

  const MAX_SYSTEM_PROCESS_LIMIT := 128

  // ---- Which processes, in which order ----

  /** Not the supervisor, not managed by it, and not a kernel thread. */
  predicate Eligible(p: Process, supervisor: nat, managed: set<nat>) {
    && p.pid != supervisor && p.pid !in managed && p.group !in managed && p.session !in managed
    && !(p.rssKib.None? && (p.pid == 2 || p.ppid == 2))
  }

  /** Known memory before unknown, more before less, then the lower pid. */
  predicate Better(a: Process, b: Process) {
    if a.rssKib.Some? != b.rssKib.Some? then a.rssKib.Some?
    else if a.rssKib.Some? && a.rssKib.value != b.rssKib.value then a.rssKib.value > b.rssKib.value
    else a.pid < b.pid
  }

  ghost predicate BestFirst(s: seq<Process>) {
    forall i, j :: 0 <= i < j < |s| ==> Better(s[i], s[j])
  }

  ghost predicate DistinctPids(s: seq<Process>) {
    forall i, j :: 0 <= i < j < |s| ==> s[i].pid != s[j].pid
  }

  function Select(entries: seq<Option<Process>>, supervisor: nat, managed: set<nat>): (r: seq<Process>)
    ensures forall p :: p in r <==>
      && Some(p) in entries && p.pid != supervisor && p.pid !in managed && p.group !in managed && p.session !in managed
      && (p.rssKib.None? ==> p.pid != 2 && p.ppid != 2)
  {
    if entries == [] then []
    else
      var n := |entries| - 1;
      assert entries == entries[..n] + [entries[n]];
      var before := Select(entries[..n], supervisor, managed);
      if entries[n].Some? &&
      Eligible(entries[n].value, supervisor, managed) then before + [entries[n].value] else before
  }

  /** Sorted insertion. */
  function Insert(s: seq<Process>, p: Process): (r: seq<Process>)
    ensures |r| == |s| + 1 && forall x :: x in r <==> x in s || x == p
  {
    if s == [] then [p]
    else if Better(p, s[0]) then [p] + s
    else
      assert s == [s[0]] + s[1..];
      [s[0]] + Insert(s[1..], p)
  }

  /** All of them, best first. */
  function Ranking(s: seq<Process>): (r: seq<Process>)
    ensures |r| == |s| && forall x :: x in r <==> x in s
  {
    if s == [] then []
    else
      var n := |s| - 1;
      assert s == s[..n] + [s[n]];
      Insert(Ranking(s[..n]), s[n])
  }

  function Take<T>(s: seq<T>, n: nat): seq<T> {
    if n < |s| then s[..n] else s
  }

  lemma {:induction false} InsertSorted(s: seq<Process>, p: Process)
    requires BestFirst(s) && forall x :: x in s ==> x.pid != p.pid
    ensures BestFirst(Insert(s, p))
  {
    if s == [] {
      return;
    }
    assert s == [s[0]] + s[1..];
    if Better(p, s[0]) {
      forall k | 0 <= k < |s| ensures Better(p, s[k]) {
        assert k > 0 ==> Better(s[0], s[k]);
      }
    } else {
      InsertSorted(s[1..], p);
      var r := Insert(s[1..], p);
      assert s[0] in s;
      forall k | 0 <= k < |r| ensures Better(s[0], r[k]) {
        assert r[k] in s[1..] || r[k] == p;
      }
    }
  }

  lemma {:induction false} RankingSorted(s: seq<Process>)
    requires DistinctPids(s)
    ensures BestFirst(Ranking(s))
  {
    if s != [] {
      var n := |s| - 1;
      RankingSorted(s[..n]);
      InsertSorted(Ranking(s[..n]), s[n]);
    }
  }

  /** Two rankings of the same processes are the same. */
  lemma {:induction false} RankedUnique(a: seq<Process>, b: seq<Process>)
    requires BestFirst(a) && BestFirst(b) && forall x :: x in a <==> x in b
    ensures a == b
  {
    assert a == [] <==> b == [] by {
      assert a != [] ==> a[0] in b;
      assert b != [] ==> b[0] in a;
    }
    if a != [] {
      SameFirst(a, b);
      forall x ensures x in a[1..] <==> x in b[1..] {
        NotFirst(a, x);
        NotFirst(b, x);
      }
      RankedUnique(a[1..], b[1..]);
      assert a == [a[0]] + a[1..] && b == [b[0]] + b[1..];
    }
  }

  lemma SameFirst(a: seq<Process>, b: seq<Process>)
    requires BestFirst(a) && BestFirst(b) && a != [] && b != [] && forall x :: x in a <==> x in b
    ensures a[0] == b[0]
  {
    assert a[0] in b && b[0] in a;
    var i :| 0 <= i < |b| && b[i] == a[0];
    var j :| 0 <= j < |a| && a[j] == b[0];
    assert i > 0 ==> Better(b[0], a[0]);
    assert j > 0 ==> Better(a[0], b[0]);
  }

  lemma NotFirst(a: seq<Process>, x: Process)
    requires BestFirst(a) && a != []
    ensures x in a[1..] <==> x in a && x != a[0]
  {
    assert a == [a[0]] + a[1..];
    if x in a[1..] {
      var k :| 0 <= k < |a[1..]| && a[1..][k] == x;
      assert Better(a[0], a[k+1]);
    }
  }

  // ---- Keeping only the best ----

  /** Inserting into a ranking and cutting off is the same as cutting off first and inserting if that helps. */
  lemma {:induction false} InsertAndCut(s: seq<Process>, p: Process, limit: nat)
    requires limit >= 1 && BestFirst(s) && forall x :: x in s ==> x.pid != p.pid
    ensures |s| < limit ==> Take(Insert(s, p), limit) == Insert(s, p)
    ensures |s| >= limit ==>
      Take(Insert(s, p), limit) == if Better(p, s[limit-1]) then Insert(s[..limit-1], p) else s[..limit]
  {
    hide Better;
    if |s| < limit {
      return;
    }
    assert s == [s[0]] + s[1..];
    if Better(p, s[0]) {
      BetterTransitive(p, s[0], s[limit-1]);
      CutFront(s, p, limit);
    } else if limit == 1 {
      assert s[..1] == [s[0]];
    } else {
      InsertAndCut(s[1..], p, limit - 1);
      assert s[1..][limit-2] == s[limit-1];
      assert s[..limit] == [s[0]] + s[1..][..limit-1];
      assert s[..limit-1] == [s[0]] + s[1..][..limit-2];
      assert Take([s[0]] + Insert(s[1..], p), limit) == [s[0]] + Take(Insert(s[1..], p), limit - 1);
    }
  }

  lemma BetterTransitive(a: Process, b: Process, c: Process)
    ensures Better(a, b) && Better(b, c) ==> Better(a, c)
  {
  }

  lemma CutFront(s: seq<Process>, p: Process, limit: nat)
    requires limit >= 1 && |s| >= limit && Better(p, s[0])
    ensures Take([p] + s, limit) == Insert(s[..limit-1], p)
  {
    assert ([p] + s)[..limit] == [p] + s[..limit-1];
  }

  // ---- The scan ----

  /** No process is listed twice. */
  ghost predicate ListedOnce(entries: seq<Option<Process>>) {
    forall i, j :: 0 <= i < j < |entries| && entries[i].Some? && entries[j].Some? ==>
      entries[i].value.pid != entries[j].value.pid
  }

  lemma {:induction false} SelectedOnce(entries: seq<Option<Process>>, supervisor: nat, managed: set<nat>)
    requires ListedOnce(entries)
    ensures DistinctPids(Select(entries, supervisor, managed))
  {
    if entries != [] {
      var n := |entries| - 1;
      SelectedOnce(entries[..n], supervisor, managed);
      var before := Select(entries[..n], supervisor, managed);
      if entries[n].Some? {
        Apart(entries, n, supervisor, managed);
        forall k | 0 <= k < |before| ensures before[k].pid != entries[n].value.pid {
          assert before[k] in before;
        }
      }
    }
  }

  lemma Apart(entries: seq<Option<Process>>, n: nat, supervisor: nat, managed: set<nat>)
    requires ListedOnce(entries) && n < |entries| && entries[n].Some?
    ensures forall x :: x in Select(entries[..n], supervisor, managed) ==> x.pid != entries[n].value.pid
  {
    forall x | x in Select(entries[..n], supervisor, managed) ensures x.pid != entries[n].value.pid {
      assert Some(x) in entries[..n];
      var i :| 0 <= i < n && entries[..n][i] == Some(x);
      assert entries[i] == Some(x);
    }
  }

  /** The scan keeps the best `limit` processes in a heap; the heap's least item is the last of `heap` here. It finds
      exactly the first `limit` of the whole ranking, and says whether there were more. */
  method Scan(entries: seq<Option<Process>>, limit: int, supervisor: nat,
              managed: set<nat>) returns (r: Option<(seq<Process>, bool)>)
    requires ListedOnce(entries)
    ensures r.None? <==> !(1 <= limit <= MAX_SYSTEM_PROCESS_LIMIT)
    ensures r.Some? ==>
      var all := Select(entries, supervisor, managed);
      r.value.0 == Take(Ranking(all), limit) && (r.value.1 <==> |all| > limit)
  {
    hide Select, Ranking, Insert, Better, Eligible, BestFirst, DistinctPids;
    if !(1 <= limit <= MAX_SYSTEM_PROCESS_LIMIT) {
      return None;
    }
    var heap: seq<Process> := [];
    var count := 0;
    NothingSelected(supervisor, managed);
    for k := 0 to |entries|
      invariant count == |Select(entries[..k], supervisor, managed)|
      invariant heap == Take(Ranking(Select(entries[..k], supervisor, managed)), limit)
    {
      SelectStep(entries, k, supervisor, managed);
      var entry := entries[k];
      if entry.None? || !Eligible(entry.value, supervisor, managed) {
        continue;
      }
      count := count + 1;
      RankStep(entries, k, supervisor, managed, limit);
      var p := entry.value;
      if |heap| < limit {
        heap := Insert(heap, p);
      } else if Better(p, heap[|heap|-1]) {
        heap := Insert(heap[..|heap|-1], p);
      }
    }
    assert entries[..|entries|] == entries;
    r := Some((heap, count > limit));
  }

  lemma NothingSelected(supervisor: nat, managed: set<nat>)
    ensures Select([], supervisor, managed) == [] && Ranking([]) == []
  {
  }

  lemma SelectStep(entries: seq<Option<Process>>, k: nat, supervisor: nat, managed: set<nat>)
    requires k < |entries|
    ensures var before, after := Select(entries[..k], supervisor, managed), Select(entries[..k+1], supervisor, managed);
      after == if entries[k].Some? &&
      Eligible(entries[k].value, supervisor, managed) then before + [entries[k].value] else before
  {
    hide Eligible;
    assert entries[..k+1][..k] == entries[..k];
  }

  lemma RankStep(entries: seq<Option<Process>>, k: nat, supervisor: nat, managed: set<nat>, limit: nat)
    requires ListedOnce(entries) && k < |entries| && entries[k].Some?
    requires Eligible(entries[k].value, supervisor, managed) && limit >= 1
    ensures var p := entries[k].value;
      var before := Ranking(Select(entries[..k], supervisor, managed));
      var after := Ranking(Select(entries[..k+1], supervisor, managed));
      Take(after, limit) ==
        if |before| < limit then Insert(Take(before, limit), p)
        else if Better(p, Take(before, limit)[limit-1]) then Insert(Take(before, limit)[..limit-1], p)
        else Take(before, limit)
  {
    hide Eligible, Better, Select, Ranking, Insert, BestFirst, DistinctPids, ListedOnce;
    ListedPrefix(entries, k);
    var p, seen := entries[k].value, Select(entries[..k], supervisor, managed);
    SelectStep(entries, k, supervisor, managed);
    SelectedOnce(entries[..k], supervisor, managed);
    Apart(entries, k, supervisor, managed);
    var before := Ranking(seen);
    RankingSorted(seen);
    RankAppend(seen, p);
    InsertAndCut(before, p, limit);
    if |before| >= limit {
      assert Take(before, limit) == before[..limit];
      assert before[..limit][..limit-1] == before[..limit-1];
    }
  }

  lemma ListedPrefix(entries: seq<Option<Process>>, k: nat)
    requires ListedOnce(entries) && k <= |entries|
    ensures ListedOnce(entries[..k])
  {
  }

  lemma RankAppend(seen: seq<Process>, p: Process)
    ensures Ranking(seen + [p]) == Insert(Ranking(seen), p)
  {
    assert (seen + [p])[..|seen|] == seen;
  }

  /** The order in which the processes are listed does not matter. */
  lemma ScanIgnoresOrder(a: seq<Option<Process>>, b: seq<Option<Process>>, supervisor: nat, managed: set<nat>)
    requires ListedOnce(a) && ListedOnce(b) && forall p :: Some(p) in a <==> Some(p) in b
    ensures Ranking(Select(a, supervisor, managed)) == Ranking(Select(b, supervisor, managed))
    ensures |Select(a, supervisor, managed)| == |Select(b, supervisor, managed)|
  {
    var x, y := Select(a, supervisor, managed), Select(b, supervisor, managed);
    SelectedOnce(a, supervisor, managed);
    SelectedOnce(b, supervisor, managed);
    RankingSorted(x);
    RankingSorted(y);
    RankedUnique(Ranking(x), Ranking(y));
  }

  // ---- Not ordered by pid ----

  /** Known memory against unknown, or more against less; pids do not count. */
  predicate MoreMemory(a: Process, b: Process) {
    if a.rssKib.Some? != b.rssKib.Some? then a.rssKib.Some?
    else a.rssKib.Some? && a.rssKib.value > b.rssKib.value
  }

  ghost predicate PidsIncrease(s: seq<Process>) {
    forall i, j :: 0 <= i < j < |s| ==> s[i].pid < s[j].pid
  }

  /** Among these processes, none has more memory than one with a lower pid. */
  ghost predicate MemoryFalls(s: seq<Process>) {
    forall x, y :: x in s && y in s && x.pid < y.pid ==> !MoreMemory(y, x)
  }

  /** How many of the processes come before this one. */
  ghost function Ahead(all: seq<Process>, p: Process): nat {
    |set x | x in all && Better(x, p)|
  }

  /** Does memory fall with growing pid among those that fewer than `limit` others come before? */
  ghost predicate MemoryFallsAtTheTop(all: seq<Process>, limit: nat) {
    forall x, y :: x in all && y in all && Ahead(all, x) < limit && Ahead(all, y) < limit && x.pid < y.pid ==>
      !MoreMemory(y, x)
  }

  /** The answer is ordered by pid exactly if memory falls with growing pid among the eligible processes that fewer than
      `limit` others come before; if there is room for all, these are all of them. */
  lemma OrderedByPid(entries: seq<Option<Process>>, limit: nat, supervisor: nat, managed: set<nat>)
    requires ListedOnce(entries) && limit >= 1
    ensures var all := Select(entries, supervisor, managed);
      && (PidsIncrease(Take(Ranking(all), limit)) <==> MemoryFallsAtTheTop(all, limit))
      && (|all| <= limit ==> (PidsIncrease(Take(Ranking(all), limit)) <==> MemoryFalls(all)))
  {
    hide Better, MoreMemory, Ahead, PidsIncrease;
    var all := Select(entries, supervisor, managed);
    var answer := Take(Ranking(all), limit);
    SelectedOnce(entries, supervisor, managed);
    RankingSorted(all);
    forall x, y | x in all && y in all && x != y ensures x.pid != y.pid {
      var i :| 0 <= i < |all| && all[i] == x;
      var j :| 0 <= j < |all| && all[j] == y;
    }
    RankedByPid(answer);
    forall x ensures x in answer <==> x in all && Ahead(all, x) < limit {
      if x in all {
        AtTheTop(all, limit, x);
      }
    }
  }

  /** Whoever fewer than `limit` others come before is in the answer, and nobody else. */
  lemma AtTheTop(all: seq<Process>, limit: nat, p: Process)
    requires BestFirst(Ranking(all)) && p in all
    ensures p in Take(Ranking(all), limit) <==> Ahead(all, p) < limit
  {
    hide Better;
    var r := Ranking(all);
    var i :| 0 <= i < |r| && r[i] == p;
    RankIs(r, i);
    assert (set x | x in all && Better(x, p)) == set x | x in r && Better(x, r[i]);
    forall k | 0 <= k < |r| && r[k] == p ensures k == i {
      NotBetterThanItself(p);
    }
    if p in Take(r, limit) {
      var k :| 0 <= k < |Take(r, limit)| && Take(r, limit)[k] == p;
      assert r[k] == p;
    }
    if i < limit {
      assert Take(r, limit)[i] == r[i];
    }
  }

  lemma NotBetterThanItself(p: Process)
    ensures !Better(p, p)
  {
  }

  /** In a ranking, as many come before the process at a place as there are places before it. */
  lemma RankIs(r: seq<Process>, i: nat)
    requires BestFirst(r) && i < |r|
    ensures |set x | x in r && Better(x, r[i])| == i
  {
    forall k | i <= k < |r| ensures !Better(r[k], r[i]) {
      if k > i {
        assert Better(r[i], r[k]);
      }
    }
    forall x ensures x in r && Better(x, r[i]) <==> x in r[..i] {
      if x in r && Better(x, r[i]) {
        var k :| 0 <= k < |r| && r[k] == x;
        assert r[..i][k] == x;
      }
    }
    assert (set x | x in r && Better(x, r[i])) == Members(r[..i]);
    forall a, b | 0 <= a < b < |r| ensures r[a] != r[b] {
      assert Better(r[a], r[b]);
    }
    CountDistinct(r[..i]);
  }

  ghost function Members(r: seq<Process>): set<Process> {
    set x | x in r
  }

  lemma {:induction false} CountDistinct(r: seq<Process>)
    requires forall a, b :: 0 <= a < b < |r| ==> r[a] != r[b]
    ensures |Members(r)| == |r|
  {
    if r != [] {
      var n := |r| - 1;
      CountDistinct(r[..n]);
      assert r == r[..n] + [r[n]];
      assert Members(r) == Members(r[..n]) + {r[n]};
    }
  }

  lemma BetterByPid(x: Process, y: Process)
    ensures Better(x, y) ==> x != y && !MoreMemory(y, x) && (x.pid > y.pid ==> MoreMemory(x, y))
  {
  }

  lemma RankedByPid(s: seq<Process>)
    requires BestFirst(s) && forall x, y :: x in s && y in s && x != y ==> x.pid != y.pid
    ensures PidsIncrease(s) <==> MemoryFalls(s)
  {
    hide Better, MoreMemory;
    if PidsIncrease(s) {
      forall x, y | x in s && y in s && x.pid < y.pid ensures !MoreMemory(y, x) {
        var i :| 0 <= i < |s| && s[i] == x;
        var j :| 0 <= j < |s| && s[j] == y;
        BetterByPid(x, y);
      }
    } else {
      var i, j :| 0 <= i < j < |s| && !(s[i].pid < s[j].pid);
      assert Better(s[i], s[j]) && s[i] in s && s[j] in s;
      BetterByPid(s[i], s[j]);
      BetterByPid(s[j], s[i]);
    }
  }

  /** Two processes that are listed by pid and answered the other way round. */
  lemma NotByPid(small: Process, large: Process)
    requires small == Process(5, 1, 5, 5, Some(10)) && large == Process(6, 1, 6, 6, Some(20))
    ensures Ranking(Select([Some(small), Some(large)], 1, {})) == [large, small]
  {
    var entries := [Some(small), Some(large)];
    assert entries[..1] == [Some(small)];
    NothingSelected(1, {});
    SelectStep(entries, 0, 1, {});
    SelectStep(entries, 1, 1, {});
    assert entries[..2] == entries && entries[..0] == [];
    RankAppend([], small);
    RankAppend([small], large);
  }
}
