/** JSON strings: how the broker and the router write them and how the packet
    parser reads them (section 7 of RFC 8259). */
module JsonStrings {
  import opened RuntimePlanModel
  import opened Utf8
  import opened Characters

  const QUOTE: byte := 0x22
  const BACKSLASH: byte := 0x5c

  type bytes = seq<byte>

  // ---- Writing ----

  /** One byte, escaped if it has to be. */
  function Escaped(b: byte): bytes {
    if b == QUOTE then [BACKSLASH, QUOTE]
    else if b == BACKSLASH then [BACKSLASH, BACKSLASH]
    else if b == 0x08 then [BACKSLASH, 0x62]
    else if b == 0x0c then [BACKSLASH, 0x66]
    else if b == 0x0a then [BACKSLASH, 0x6e]
    else if b == 0x0d then [BACKSLASH, 0x72]
    else if b == 0x09 then [BACKSLASH, 0x74]
    else if b < 0x20 then [BACKSLASH, 0x75, 0x30, 0x30, HexDigit(b / 16), HexDigit(b % 16)]
    else [b]
  }

  function EscapedAll(s: bytes): bytes {
    if s == [] then [] else Escaped(s[0]) + EscapedAll(s[1..])
  }

  function Quoted(s: bytes): bytes {
    [QUOTE] + EscapedAll(s) + [QUOTE]
  }

  lemma {:induction false} EscapedAppend(s: bytes, b: byte)
    ensures EscapedAll(s + [b]) == EscapedAll(s) + Escaped(b)
  {
    hide Escaped;
    if s == [] {
      assert EscapedAll([b]) == Escaped(b) + EscapedAll([]);
    } else {
      EscapedAppend(s[1..], b);
      assert (s + [b])[1..] == s[1..] + [b];
    }
  }

  /** The loop over the bytes of a string. */
  method JsonQuote(value: bytes) returns (output: bytes)
    ensures output == Quoted(value)
  {
    hide Escaped, EscapedAll;
    output := [QUOTE];
    EscapedNothing();
    for k := 0 to |value|
      invariant output == [QUOTE] + EscapedAll(value[..k])
    {
      assert value[..k+1] == value[..k] + [value[k]];
      EscapedAppend(value[..k], value[k]);
      output := output + Escaped(value[k]);
    }
    assert value[..|value|] == value;
    output := output + [QUOTE];
  }

  lemma EscapedNothing()
    ensures EscapedAll([]) == []
  {
  }

  // ---- Reading ----

  /** Four hexadecimal digits. */
  function HexQuad(s: bytes): (r: Option<nat>)
    ensures r.Some? ==> r.value <= 0xffff && |s| >= 4
  {
    if |s| < 4 then None
    else
      var a :- Nibble(s[0]);
      var b :- Nibble(s[1]);
      var c :- Nibble(s[2]);
      var d :- Nibble(s[3]);
      Some(((a * 16 + b) * 16 + c) * 16 + d)
  }

  /** The code point of a `\u` escape and what follows it; a surrogate counts only as half of a pair. */
  function Unicode(s: bytes): (r: Option<(nat, bytes)>)
    ensures r.Some? ==> Scalar(r.value.0) && |r.value.1| < |s|
  {
    var high :- HexQuad(s);
    var rest := s[4..];
    if 0xd800 <= high <= 0xdbff then
      if |rest| < 2 || rest[0] != BACKSLASH || rest[1] != 0x75 then None
      else
        var low :- HexQuad(rest[2..]);
        if low < 0xdc00 || low > 0xdfff then None
        else Some((0x10000 + (high - 0xd800) * 1024 + (low - 0xdc00), rest[6..]))
    else if 0xdc00 <= high <= 0xdfff then None
    else Some((high, rest))
  }

  /** What an escape stands for, after its backslash. */
  function Escape(s: bytes): (r: Option<(bytes, bytes)>)
    ensures r.Some? ==> |r.value.1| < |s|
  {
    if s == [] then None
    else
      var e, rest := s[0], s[1..];
      if e == QUOTE || e == BACKSLASH || e == 0x2f then Some(([e], rest))
      else if e == 0x62 then Some(([0x08], rest))
      else if e == 0x66 then Some(([0x0c], rest))
      else if e == 0x6e then Some(([0x0a], rest))
      else if e == 0x72 then Some(([0x0d], rest))
      else if e == 0x74 then Some(([0x09], rest))
      else if e == 0x75 then
        var u :- Unicode(rest);
        Some((Encode(u.0), u.1))
      else None
  }

  /** One plain byte or one escape. */
  function Unit(s: bytes): (r: Option<(bytes, bytes)>)
    requires s != []
    ensures r.Some? ==> |r.value.1| < |s|
  {
    if s[0] < 0x20 then None
    else if s[0] != BACKSLASH then Some(([s[0]], s[1..]))
    else Escape(s[1..])
  }

  /** The contents of a string up to its closing quote, and what follows it. */
  function Contents(s: bytes): Option<(bytes, bytes)>
    decreases |s|
  {
    if s == [] then None
    else if s[0] == QUOTE then Some(([], s[1..]))
    else
      var u :- Unit(s);
      var r :- Contents(u.1);
      Some((u.0 + r.0, r.1))
  }

  function Unquoted(s: bytes): Option<(bytes, bytes)> {
    if s == [] || s[0] != QUOTE then None else Contents(s[1..])
  }

  // ---- Reading inverts writing ----

  lemma EscapedReadsBack(b: byte, rest: bytes)
    ensures Escaped(b) != [] && Escaped(b)[0] != QUOTE && Unit(Escaped(b) + rest) == Some(([b], rest))
  {
    var e := Escaped(b);
    var s := e + rest;
    if |e| == 2 {
      assert s[1..] == [e[1]] + rest && s[1..][1..] == rest;
    } else if |e| == 6 {
      assert s[1..][1..] == [e[2], e[3], e[4], e[5]] + rest;
      HexReadsBack(b);
      assert s[1..][1..][4..] == rest;
      OneByte(b);
    } else {
      assert s[1..] == rest;
    }
  }

  lemma HexReadsBack(b: byte)
    requires b < 0x20
    ensures Nibble(HexDigit(b / 16)) == Some(b / 16) && Nibble(HexDigit(b % 16)) == Some(b % 16)
    ensures b / 16 * 16 + b % 16 == b
    ensures Nibble(0x30) == Some(0)
  {
  }

  lemma {:induction false} ContentsReadBack(s: bytes, rest: bytes)
    ensures Contents(EscapedAll(s) + [QUOTE] + rest) == Some((s, rest))
  {
    hide Escaped, Unit;
    var text := EscapedAll(s) + [QUOTE] + rest;
    if s == [] {
      assert text[1..] == rest;
    } else {
      var more := EscapedAll(s[1..]) + [QUOTE] + rest;
      assert text == Escaped(s[0]) + more;
      EscapedReadsBack(s[0], more);
      ContentsReadBack(s[1..], rest);
      assert [s[0]] + s[1..] == s;
    }
  }

  /** Whatever bytes are quoted, unquoting gives them back. */
  lemma UnquoteInvertsQuote(s: bytes, rest: bytes)
    ensures Unquoted(Quoted(s) + rest) == Some((s, rest))
  {
    hide Contents, EscapedAll;
    var text := Quoted(s) + rest;
    assert text[1..] == EscapedAll(s) + [QUOTE] + rest;
    ContentsReadBack(s, rest);
  }

  /** A quoted string never breaks a line or holds any other control byte. */
  lemma {:induction false} QuotedHasNoControls(s: bytes)
    ensures forall b :: b in EscapedAll(s) ==> b >= 0x20
    ensures forall b :: b in Quoted(s) ==> b >= 0x20
  {
    if s != [] {
      QuotedHasNoControls(s[1..]);
    }
  }

  /** Every supplementary character can be written as a surrogate pair, and is read back from it. */
  lemma SurrogatePair(cp: nat, high: bytes, low: bytes, rest: bytes)
    requires 0x10000 <= cp <= 0x10ffff && |high| == 4 && |low| == 4
    requires HexQuad(high) == Some(0xd800 + (cp - 0x10000) / 1024)
    requires HexQuad(low) == Some(0xdc00 + (cp - 0x10000) % 1024)
    ensures Unicode(high + [BACKSLASH, 0x75] + low + rest) == Some((cp, rest))
  {
    hide HexQuad;
    var after := [BACKSLASH, 0x75] + low + rest;
    var s := high + [BACKSLASH, 0x75] + low + rest;
    assert s == high + after;
    QuadPrefix(high, after);
    QuadPrefix(low, rest);
    assert s[4..] == after && after[2..] == low + rest && after[6..] == rest;
  }

  lemma QuadPrefix(quad: bytes, rest: bytes)
    requires |quad| == 4
    ensures HexQuad(quad + rest) == HexQuad(quad)
  {
  }

  // ---- Valid in, valid out ----

  lemma AsciiStep(s: bytes)
    requires IsUtf8(s) && s != [] && s[0] <= 0x7f
    ensures IsUtf8(s[1..])
  {
    Utf8Step(s);
  }

  lemma {:induction false} AsciiSteps(s: bytes, n: nat)
    requires IsUtf8(s) && n <= |s| && forall k :: 0 <= k < n ==> s[k] <= 0x7f
    ensures IsUtf8(s[n..])
  {
    hide IsUtf8;
    if n == 0 {
      assert s[0..] == s;
    } else {
      AsciiSteps(s, n - 1);
      AsciiStep(s[n-1..]);
      assert s[n-1..][1..] == s[n..];
    }
  }

  lemma UnicodeKeepsUtf8(s: bytes)
    requires IsUtf8(s) && Unicode(s).Some?
    ensures IsUtf8(Unicode(s).value.1)
  {
    hide IsUtf8;
    AsciiSteps(s, 4);
    var rest := s[4..];
    if Unicode(s).value.1 != rest {
      AsciiSteps(rest, 6);
    }
  }

  lemma ScalarIsUtf8(cp: nat)
    requires Scalar(cp)
    ensures IsUtf8(Encode(cp))
  {
    hide Encode, IsUtf8;
    EmptyIsUtf8();
    PrependUtf8(cp, []);
    assert Encode(cp) + [] == Encode(cp);
  }

  lemma AsciiIsUtf8(b: byte)
    requires b <= 0x7f
    ensures IsUtf8([b])
  {
    hide IsUtf8;
    OneByte(b);
    ScalarIsUtf8(b);
  }

  lemma EscapeKeepsUtf8(s: bytes)
    requires IsUtf8(s) && Escape(s).Some?
    ensures IsUtf8(Escape(s).value.0) && IsUtf8(Escape(s).value.1)
  {
    hide IsUtf8, Encode, Unicode;
    AsciiStep(s);
    if s[0] == 0x75 {
      UnicodeKeepsUtf8(s[1..]);
      ScalarIsUtf8(Unicode(s[1..]).value.0);
    } else {
      AsciiIsUtf8(Escape(s).value.0[0]);
    }
  }

  /** What was read so far, followed by what is still to be read. */
  function Led(prefix: bytes, r: Option<(bytes, bytes)>): Option<(bytes, bytes)> {
    if r.None? then None else Some((prefix + r.value.0, r.value.1))
  }

  lemma LedTwice(a: bytes, b: bytes, r: Option<(bytes, bytes)>)
    ensures Led(a, Led(b, r)) == Led(a + b, r) && Led([], r) == r
  {
    if r.Some? {
      assert a + (b + r.value.0) == a + b + r.value.0 && [] + r.value.0 == r.value.0;
    }
  }

  lemma ContentsStep(s: bytes)
    requires s != [] && s[0] != QUOTE
    ensures Contents(s) == if Unit(s).None? then None else Led(Unit(s).value.0, Contents(Unit(s).value.1))
  {
    hide Unit;
  }

  /** A character of several bytes passes through unchanged. */
  lemma {:induction false} HighBytesPass(s: bytes, n: nat)
    requires n <= |s| && forall k :: 0 <= k < n ==> s[k] >= 0x80
    ensures Contents(s) == Led(s[..n], Contents(s[n..]))
  {
    hide Contents, Led;
    if n == 0 {
      assert s[0..] == s && s[..0] == [];
      LedTwice([], [], Contents(s));
    } else {
      ContentsStep(s);
      HighBytesPass(s[1..], n - 1);
      assert s[1..][n-1..] == s[n..] && [s[0]] + s[1..][..n-1] == s[..n];
      LedTwice([s[0]], s[1..][..n-1], Contents(s[n..]));
    }
  }

  lemma FirstIsHigh(s: bytes)
    requires s != [] && s[0] > 0x7f && First(s).Some?
    ensures forall k :: 0 <= k < First(s).value.1 ==> s[k] >= 0x80
  {
    var n := First(s).value.1;
    var tail := s[1..n];
    forall k | 0 <= k < n ensures s[k] >= 0x80 {
      if k > 0 {
        assert tail[k-1] == s[k] && Tail(tail[k-1]);
      }
    }
  }

  /** From valid UTF-8 only valid UTF-8 is read, escapes and surrogate pairs included. */
  lemma {:induction false} ContentsAreUtf8(s: bytes)
    requires IsUtf8(s) && Contents(s).Some?
    ensures IsUtf8(Contents(s).value.0) && IsUtf8(Contents(s).value.1)
    decreases |s|
  {
    hide IsUtf8, Encode, Escape, First;
    if s[0] == QUOTE {
      EmptyIsUtf8();
      AsciiStep(s);
    } else if s[0] <= 0x7f {
      AsciiStep(s);
      var u := Unit(s).value;
      if s[0] == BACKSLASH {
        EscapeKeepsUtf8(s[1..]);
      } else {
        AsciiIsUtf8(s[0]);
      }
      ContentsAreUtf8(u.1);
      ConcatUtf8(u.0, Contents(u.1).value.0);
    } else {
      Utf8Step(s);
      var n := First(s).value.1;
      FirstIsHigh(s);
      FirstIsEncoded(s);
      HighBytesPass(s, n);
      ContentsAreUtf8(s[n..]);
      ScalarIsUtf8(First(s).value.0);
      ConcatUtf8(s[..n], Contents(s[n..]).value.0);
    }
  }

  lemma UnquotedIsUtf8(s: bytes)
    requires IsUtf8(s) && Unquoted(s).Some?
    ensures IsUtf8(Unquoted(s).value.0) && IsUtf8(Unquoted(s).value.1)
  {
    hide IsUtf8, Contents;
    AsciiStep(s);
    ContentsAreUtf8(s[1..]);
  }

  // ---- The parser ----

  /** The packet parser, as far as strings go: a cursor over the packet. */
  class Parser {
    const input: bytes
    var position: nat

    constructor (input: bytes)
      ensures this.input == input && position == 0
    {
      this.input := input;
      position := 0;
    }

    ghost function Rest(): bytes
      requires position <= |input|
      reads this
    {
      input[position..]
    }

    /** Four hexadecimal digits; on failure the cursor stays. */
    method ParseHexQuad() returns (r: Option<nat>)
      requires position <= |input|
      modifies this
      ensures position <= |input| && r == HexQuad(old(Rest()))
      ensures Rest() == if r.Some? then old(Rest())[4..] else old(Rest())
    {
      if position + 4 > |input| {
        return None;
      }
      var result: nat := 0;
      ghost var s := Rest();
      for offset := 0 to 4
        invariant position == old(position) && position + 4 <= |input|
        invariant forall k :: 0 <= k < offset ==> Nibble(s[k]).Some?
        invariant result == Digits(s, offset)
      {
        var nibble := Nibble(input[position + offset]);
        assert input[position + offset] == s[offset];
        if nibble.None? {
          return None;
        }
        result := result * 16 + nibble.value;
      }
      DigitsOfQuad(s);
      position := position + 4;
      r := Some(result);
    }

    /** What an escape stands for, the cursor being after its backslash. */
    method ParseEscape() returns (r: Option<bytes>)
      requires position <= |input|
      modifies this
      ensures position <= |input|
      ensures if Escape(old(Rest())).None?
        then r.None?
        else r == Some(Escape(old(Rest())).value.0) && Rest() == Escape(old(Rest())).value.1
    {
      hide HexQuad, Encode;
      if position >= |input| {
        return None;
      }
      ghost var s := Rest();
      var e := input[position];
      position := position + 1;
      assert Rest() == s[1..] && s[0] == e;
      if e == QUOTE || e == BACKSLASH || e == 0x2f {
        return Some([e]);
      } else if e == 0x62 {
        return Some([0x08]);
      } else if e == 0x66 {
        return Some([0x0c]);
      } else if e == 0x6e {
        return Some([0x0a]);
      } else if e == 0x72 {
        return Some([0x0d]);
      } else if e == 0x74 {
        return Some([0x09]);
      } else if e != 0x75 {
        return None;
      }
      var codePoint := ParseUnicode();
      r := if codePoint.None? then None else Some(Encode(codePoint.value));
    }

    /** The code point of a unicode escape, with its low surrogate if it needs one. */
    method ParseUnicode() returns (r: Option<nat>)
      requires position <= |input|
      modifies this
      ensures position <= |input|
      ensures if Unicode(old(Rest())).None? then r.None?
              else r == Some(Unicode(old(Rest())).value.0) && Rest() == Unicode(old(Rest())).value.1
    {
      hide HexQuad;
      ghost var s := Rest();
      var high := ParseHexQuad();
      if high.None? {
        return None;
      }
      var codePoint := high.value;
      if 0xd800 <= codePoint <= 0xdbff {
        if position + 2 > |input| || input[position] != BACKSLASH || input[position + 1] != 0x75 {
          return None;
        }
        position := position + 2;
        assert Rest() == s[4..][2..];
        var low := ParseHexQuad();
        if low.None? || low.value < 0xdc00 || low.value > 0xdfff {
          return None;
        }
        assert s[4..][2..][4..] == s[4..][6..];
        codePoint := 0x10000 + (codePoint - 0xd800) * 1024 + (low.value - 0xdc00);
      } else if 0xdc00 <= codePoint <= 0xdfff {
        return None;
      }
      r := Some(codePoint);
    }

    /** A string, from its opening to its closing quote. */
    method ParseString() returns (r: Option<bytes>)
      requires position <= |input|
      modifies this
      ensures position <= |input|
      ensures if Unquoted(old(Rest())).None? then r.None?
              else r == Some(Unquoted(old(Rest())).value.0) && Rest() == Unquoted(old(Rest())).value.1
    {
      hide Contents, Escape;
      if position >= |input| || input[position] != QUOTE {
        return None;
      }
      ghost var text := Rest()[1..];
      position := position + 1;
      assert Rest() == text && Unquoted(old(Rest())) == Contents(text);
      var output: bytes := [];
      LedTwice([], [], Contents(text));
      while position < |input|
        invariant position <= |input|
        invariant Contents(text) == Led(output, Contents(Rest()))
        decreases |input| - position
      {
        ghost var s := Rest();
        var b := input[position];
        position := position + 1;
        assert Rest() == s[1..] && s[0] == b;
        if b == QUOTE {
          ContentsEnd(s);
          assert output + [] == output && Contents(text) == Some((output, s[1..]));
          return Some(output);
        }
        ContentsStep(s);
        if b < 0x20 {
          return None;
        }
        ghost var before := output;
        if b != BACKSLASH {
          output := output + [b];
        } else {
          var escape := ParseEscape();
          if escape.None? {
            return None;
          }
          output := output + escape.value;
        }
        LedTwice(before, Unit(s).value.0, Contents(Rest()));
      }
      ContentsOfNothing();
      assert Rest() == [] && Contents(text) == None;
      r := None;
    }
  }

  lemma ContentsEnd(s: bytes)
    requires s != [] && s[0] == QUOTE
    ensures Contents(s) == Some(([], s[1..]))
  {
  }

  lemma ContentsOfNothing()
    ensures Contents([]) == None
  {
  }

  /** The value of the first `n` hexadecimal digits. */
  function Digits(s: bytes, n: nat): nat
    requires n <= |s| && forall k :: 0 <= k < n ==> Nibble(s[k]).Some?
  {
    if n == 0 then 0 else Digits(s, n - 1) * 16 + Nibble(s[n-1]).value
  }

  lemma DigitsOfQuad(s: bytes)
    requires |s| >= 4 && forall k :: 0 <= k < 4 ==> Nibble(s[k]).Some?
    ensures HexQuad(s) == Some(Digits(s, 4))
  {
    assert Digits(s, 1) == Nibble(s[0]).value;
    assert Digits(s, 2) == Digits(s, 1) * 16 + Nibble(s[1]).value;
    assert Digits(s, 3) == Digits(s, 2) * 16 + Nibble(s[2]).value;
  }
}
