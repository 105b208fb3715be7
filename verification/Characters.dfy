/** Character classes, hexadecimal digits and searching, as the text formats share them. */
module Characters {
  import opened RuntimePlanModel

  predicate IsDigit(c: char) {
    '0' <= c <= '9'
  }

  predicate AsciiAlpha(c: char) {
    'A' <= c <= 'Z' || 'a' <= c <= 'z'
  }

  predicate AsciiAlnum(c: char) {
    AsciiAlpha(c) || IsDigit(c)
  }

  /** The code of a lower-case hexadecimal digit. */
  function HexDigit(n: nat): (code: nat)
    requires n < 16
    ensures code < 0x80 && Nibble(code) == Some(n)
  {
    if n < 10 then 0x30 + n else 0x61 + n - 10
  }

  /** The value of a hexadecimal digit in either case. */
  function Nibble(code: nat): (r: Option<nat>)
    ensures r.Some? ==> r.value < 16 && code <= 0x7f
  {
    if 0x30 <= code <= 0x39 then Some(code - 0x30)
    else if 0x61 <= code <= 0x66 then Some(code - 0x61 + 10)
    else if 0x41 <= code <= 0x46 then Some(code - 0x41 + 10)
    else None
  }

  /** The position of the first `x`, or the length. */
  function Find<T(==)>(s: seq<T>, x: T): (n: nat)
    ensures n <= |s| && x !in s[..n] && (n < |s| ==> s[n] == x)
  {
    if s == [] || s[0] == x then 0
    else
      var n := 1 + Find(s[1..], x);
      assert s[..n] == [s[0]] + s[1..][..n-1];
      n
  }
}
