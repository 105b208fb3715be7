/** The order in which strings are compared: by code point, a proper prefix first. */
module TextOrder {
  predicate Before(a: string, b: string) {
    if b == [] then false
    else if a == [] then true
    else if a[0] != b[0] then a[0] < b[0]
    else Before(a[1..], b[1..])
  }

  lemma {:induction false} BeforeIrreflexive(a: string)
    ensures !Before(a, a)
  {
    if a != [] {
      BeforeIrreflexive(a[1..]);
    }
  }

  lemma {:induction false} BeforeTransitive(a: string, b: string, c: string)
    requires Before(a, b) && Before(b, c)
    ensures Before(a, c)
  {
    if a != [] && a[0] == b[0] && b[0] == c[0] {
      BeforeTransitive(a[1..], b[1..], c[1..]);
    }
  }

  lemma {:induction false} BeforeTotal(a: string, b: string)
    ensures a == b || Before(a, b) || Before(b, a)
  {
    if a != [] && b != [] && a[0] == b[0] {
      BeforeTotal(a[1..], b[1..]);
      if a[1..] == b[1..] {
        assert a == [a[0]] + a[1..] && b == [b[0]] + b[1..];
      }
    }
  }

  /** A proper prefix comes first; otherwise the first character that differs decides. */
  lemma {:induction false} Lexicographic(a: string, b: string)
    ensures Before(a, b) <==> a < b || exists k :: DecidedAt(a, b, k)
  {
    if a != [] && b != [] {
      var s, t := a[1..], b[1..];
      assert a == [a[0]] + s && b == [b[0]] + t;
      if a[0] == b[0] {
        Lexicographic(s, t);
        if k :| DecidedAt(s, t, k) {
          assert DecidedAt(a, b, k + 1);
        }
        if k :| DecidedAt(a, b, k) {
          assert DecidedAt(s, t, k - 1);
        }
      } else if a[0] < b[0] {
        assert DecidedAt(a, b, 0);
      }
    }
  }

  /** The strings agree up to this position, where the first is below the second. */
  ghost predicate DecidedAt(a: string, b: string, k: int) {
    0 <= k < |a| && k < |b| && a[k] < b[k] && forall j :: 0 <= j < k ==> a[j] == b[j]
  }

  /** Strictly increasing, hence without repetitions. */
  ghost predicate Increasing(s: seq<string>) {
    forall i, j :: 0 <= i < j < |s| ==> Before(s[i], s[j])
  }

  /** Insertion into an increasing list; a string already there is not repeated. */
  function Insert(s: seq<string>, x: string): (r: seq<string>)
    requires Increasing(s)
    ensures Increasing(r)
    ensures forall y :: y in r <==> y in s || y == x
  {
    if s == [] then [x]
    else if x == s[0] then s
    else if Before(x, s[0]) then
      assert forall y :: y in s ==> Before(x, y) by { BelowAll(x, s); }
      Prepend(x, s)
    else
      var tail := Insert(s[1..], x);
      BeforeTotal(x, s[0]);
      Prepend(s[0], tail)
  }

  function Prepend(x: string, s: seq<string>): (r: seq<string>)
    requires Increasing(s) && forall y :: y in s ==> Before(x, y)
    ensures Increasing(r)
    ensures forall y :: y in r <==> y in s || y == x
  {
    [x] + s
  }

  lemma BelowAll(x: string, s: seq<string>)
    requires Increasing(s) && s != [] && Before(x, s[0])
    ensures forall y :: y in s ==> Before(x, y)
  {
    forall j | 0 <= j < |s| ensures Before(x, s[j]) {
      if j > 0 { BeforeTransitive(x, s[0], s[j]); }
    }
  }

  /** The increasing arrangement of the strings of a list. */
  function Sorted(s: seq<string>): (r: seq<string>)
    ensures Increasing(r)
    ensures forall y :: y in r <==> y in s
  {
    if s == [] then [] else Insert(Sorted(s[1..]), s[0])
  }

  /** An increasing list is determined by the set of its elements. */
  lemma {:induction false} IncreasingUnique(a: seq<string>, b: seq<string>)
    requires Increasing(a) && Increasing(b)
    requires forall x :: x in a <==> x in b
    ensures a == b
  {
    assert a == [] || a[0] in a;
    assert b == [] || b[0] in b;
    if a != [] && b != [] {
      assert a[0] in b;
      var k :| 0 <= k < |b| && b[k] == a[0];
      assert b[0] in a;
      var l :| 0 <= l < |a| && a[l] == b[0];
      if k > 0 && l > 0 {
        BeforeTransitive(a[0], a[l], b[k]);
        BeforeIrreflexive(a[0]);
      }
      assert a[0] == b[0];
      forall x ensures x in a[1..] <==> x in b[1..] {
        TailMembers(a, x);
        TailMembers(b, x);
      }
      IncreasingUnique(a[1..], b[1..]);
      assert a == [a[0]] + a[1..] && b == [b[0]] + b[1..];
    }
  }

  lemma TailMembers(a: seq<string>, x: string)
    requires Increasing(a) && a != []
    ensures x in a[1..] <==> x in a && x != a[0]
  {
    BeforeIrreflexive(a[0]);
    if x in a && x != a[0] {
      var k :| 0 <= k < |a| && a[k] == x;
      assert a[1..][k-1] == x;
    }
    if x in a[1..] {
      var k :| 0 <= k < |a[1..]| && a[1..][k] == x;
      assert Before(a[0], a[k+1]);
    }
  }
}
