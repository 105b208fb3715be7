/** UTF-8 validation. The reference is RFC 3629: section 3 says how a scalar
    value is encoded, section 4 which byte sequences are characters. */
module Utf8 {
  import opened RuntimePlanModel

  type byte = n: int | 0 <= n < 256

  // ---- RFC 3629 ----

  /** A Unicode scalar value: any code point that is not a surrogate. */
  predicate Scalar(cp: nat) {
    cp <= 0x10ffff && !(0xd800 <= cp <= 0xdfff)
  }

  /** The encoding of section 3 (and what `append_utf8` writes). */
  function Encode(cp: nat): (r: seq<byte>)
    requires cp <= 0x10ffff
    ensures 1 <= |r| <= 4
  {
    var a := cp / 64;
    var b := a / 64;
    if cp <= 0x7f then [cp]
    else if cp <= 0x7ff then [0xc0 + a, 0x80 + cp % 64]
    else if cp <= 0xffff then [0xe0 + b, 0x80 + a % 64, 0x80 + cp % 64]
    else [0xf0 + b / 64, 0x80 + b % 64, 0x80 + a % 64, 0x80 + cp % 64]
  }

  predicate Tail(b: byte) {
    0x80 <= b <= 0xbf
  }

  /** The grammar of a single character in section 4. */
  predicate Character(s: seq<byte>) {
    match |s|
    case 1 => s[0] <= 0x7f
    case 2 => 0xc2 <= s[0] <= 0xdf && Tail(s[1])
    case 3 =>
      && Tail(s[2])
      && ((s[0] == 0xe0 && 0xa0 <= s[1] <= 0xbf) || (0xe1 <= s[0] <= 0xec && Tail(s[1]))
          || (s[0] == 0xed && 0x80 <= s[1] <= 0x9f) || (0xee <= s[0] <= 0xef && Tail(s[1])))
    case 4 =>
      && Tail(s[2]) && Tail(s[3])
      && ((s[0] == 0xf0 && 0x90 <= s[1] <= 0xbf) || (0xf1 <= s[0] <= 0xf3 && Tail(s[1]))
          || (s[0] == 0xf4 && 0x80 <= s[1] <= 0x8f))
    case _ => false
  }

  function EncodeAll(cps: seq<nat>): seq<byte>
    requires forall k :: 0 <= k < |cps| ==> cps[k] <= 0x10ffff
  {
    if cps == [] then [] else Encode(cps[0]) + EncodeAll(cps[1..])
  }

  ghost predicate Scalars(cps: seq<nat>) {
    forall k :: 0 <= k < |cps| ==> Scalar(cps[k])
  }

  /** A concatenation of encoded scalar values. */
  ghost predicate IsUtf8(s: seq<byte>) {
    exists cps :: Scalars(cps) && EncodeAll(cps) == s
  }

  // ---- Reading one character, as the validator does ----

  /** How many bytes follow a leading byte above 0x7f, and the bits it contributes. */
  function Lead(first: byte): Option<(nat, nat)> {
    if 0xc2 <= first <= 0xdf then Some((1, first % 32))
    else if 0xe0 <= first <= 0xef then Some((2, first % 16))
    else if 0xf0 <= first <= 0xf4 then Some((3, first % 8))
    else None
  }

  /** The six payload bits of a continuation byte. */
  function Six(b: byte): (n: nat)
    ensures n < 64 && (Tail(b) ==> b == 0x80 + n)
  {
    b % 64
  }

  function Shift(bits: nat, b: byte): nat {
    bits * 64 + Six(b)
  }

  function Accumulate(bits: nat, tail: seq<byte>): nat {
    if tail == [] then bits else Shift(Accumulate(bits, tail[..|tail|-1]), tail[|tail|-1])
  }

  predicate Acceptable(count: nat, cp: nat) {
    !((count == 2 && cp < 0x800) || (count == 3 && cp < 0x10000) || cp > 0x10ffff || 0xd800 <= cp <= 0xdfff)
  }

  /** The first character of a text and its length, or None if the text does not start with one. */
  function First(s: seq<byte>): (r: Option<(nat, nat)>)
    requires s != []
    ensures r.Some? ==> 1 <= r.value.1 <= |s| && r.value.0 <= 0x10ffff
  {
    if s[0] <= 0x7f then Some((s[0], 1))
    else
      var lead :- Lead(s[0]);
      if lead.0 > |s| - 1 then None
      else
        var tail := s[1..lead.0+1];
        if exists k :: 0 <= k < |tail| && !Tail(tail[k]) then None
        else
          var cp := Accumulate(lead.1, tail);
          if Acceptable(lead.0, cp) then Some((cp, lead.0 + 1)) else None
  }

  lemma AccumulateUnfold(bits: nat, t: seq<byte>)
    ensures |t| == 1 ==> Accumulate(bits, t) == Shift(bits, t[0])
    ensures |t| == 2 ==> Accumulate(bits, t) == Shift(Shift(bits, t[0]), t[1])
    ensures |t| == 3 ==> Accumulate(bits, t) == Shift(Shift(Shift(bits, t[0]), t[1]), t[2])
  {
    hide Shift;
    if |t| == 1 {
      assert t[..0] == [];
    }
    if |t| == 2 {
      assert t[..1][..0] == [];
    }
    if |t| == 3 {
      assert t[..2][..1] == t[..1] && t[..1][..0] == [] && t[..2][1] == t[1];
    }
  }

  lemma ShiftBack(bits: nat, b: byte)
    ensures Shift(bits, b) / 64 == bits && Shift(bits, b) % 64 == Six(b)
  {
  }

  lemma TwoBytes(a: byte, b: byte)
    requires 0xc2 <= a <= 0xdf && Tail(b)
    ensures var cp := Shift(a % 32, b); 0x80 <= cp <= 0x7ff && Encode(cp) == [a, b]
  {
    ShiftBack(a % 32, b);
  }

  lemma ThreeBytes(a: byte, b: byte, c: byte)
    requires 0xe0 <= a <= 0xef && Tail(b) && Tail(c)
    ensures var cp := Shift(Shift(a % 16, b), c); cp <= 0xffff && (cp >= 0x800 ==> Encode(cp) == [a, b, c])
  {
    ShiftBack(a % 16, b);
    ShiftBack(Shift(a % 16, b), c);
  }

  lemma FourBytes(a: byte, b: byte, c: byte, d: byte)
    requires 0xf0 <= a <= 0xf4 && Tail(b) && Tail(c) && Tail(d)
    ensures var cp := Shift(Shift(Shift(a % 8, b), c), d); 0x10000 <= cp <= 0x10ffff ==> Encode(cp) == [a, b, c, d]
  {
    hide Shift, Six, Encode;
    var x := Shift(a % 8, b);
    var y := Shift(x, c);
    var z := Shift(y, d);
    ShiftBack(a % 8, b);
    ShiftBack(x, c);
    ShiftBack(y, d);
    if 0x10000 <= z <= 0x10ffff {
      EncodeFour(z);
    }
  }

  lemma EncodeFour(cp: nat)
    requires 0x10000 <= cp <= 0x10ffff
    ensures var a := cp / 64; var b := a / 64;
      Encode(cp) == [0xf0 + b / 64, 0x80 + b % 64, 0x80 + a % 64, 0x80 + cp % 64]
  {
  }

  /** What the validator reads as a character is the encoding of a scalar value, */
  lemma FirstIsEncoded(s: seq<byte>)
    requires s != [] && First(s).Some?
    ensures Scalar(First(s).value.0) && s[..First(s).value.1] == Encode(First(s).value.0)
  {
    hide Encode, Shift, Six;
    if s[0] <= 0x7f {
      OneByte(s[0]);
    } else {
      var count, bits := Lead(s[0]).value.0, Lead(s[0]).value.1;
      var t := s[1..count+1];
      AccumulateUnfold(bits, t);
      assert forall k :: 0 <= k < count ==> t[k] == s[k+1] && Tail(t[k]);
      if count == 1 { TwoBytes(s[0], t[0]); }
      if count == 2 { ThreeBytes(s[0], t[0], t[1]); }
      if count == 3 { FourBytes(s[0], t[0], t[1], t[2]); }
    }
  }

  lemma OneByte(a: byte)
    requires a <= 0x7f
    ensures Encode(a) == [a] && Scalar(a)
  {
  }

  /** Putting the digits of a number together again. */
  lemma ShiftDigits(n: nat)
    ensures 0x80 + n % 64 < 256 && Shift(n / 64, 0x80 + n % 64) == n && Tail(0x80 + n % 64)
  {
  }

  lemma ReadsAs(s: seq<byte>, count: nat, bits: nat, cp: nat)
    requires s != [] && s[0] > 0x7f && Lead(s[0]) == Some((count, bits)) && |s| > count
    requires forall k :: 1 <= k <= count ==> Tail(s[k])
    requires Accumulate(bits, s[1..count+1]) == cp && Acceptable(count, cp)
    ensures First(s) == Some((cp, count + 1))
  {
    hide Accumulate, Acceptable, Lead;
  }

  lemma FourAreFirst(cp: nat, rest: seq<byte>)
    requires 0x10000 <= cp <= 0x10ffff
    ensures First(Encode(cp) + rest) == Some((cp, 4)) && |Encode(cp)| == 4
  {
    hide Shift, Accumulate, Encode, First;
    EncodeFour(cp);
    var s := Encode(cp) + rest;
    var a := cp / 64;
    var b := a / 64;
    AccumulateUnfold(b / 64, s[1..4]);
    ShiftDigits(cp);
    ShiftDigits(a);
    ShiftDigits(b);
    ReadsAs(s, 3, b / 64, cp);
  }

  lemma ThreeAreFirst(cp: nat, rest: seq<byte>)
    requires 0x800 <= cp <= 0xffff && Scalar(cp)
    ensures First(Encode(cp) + rest) == Some((cp, 3)) && |Encode(cp)| == 3
  {
    hide Shift, Accumulate, First;
    var s := Encode(cp) + rest;
    var a := cp / 64;
    AccumulateUnfold(a / 64, s[1..3]);
    ShiftDigits(cp);
    ShiftDigits(a);
    ReadsAs(s, 2, a / 64, cp);
  }

  lemma TwoAreFirst(cp: nat, rest: seq<byte>)
    requires 0x80 <= cp <= 0x7ff
    ensures First(Encode(cp) + rest) == Some((cp, 2)) && |Encode(cp)| == 2
  {
    hide Shift, Accumulate, First;
    var s := Encode(cp) + rest;
    AccumulateUnfold(cp / 64, s[1..2]);
    ShiftDigits(cp);
    ReadsAs(s, 1, cp / 64, cp);
  }

  /** and every encoding of a scalar value is read as that value. */
  lemma EncodedIsFirst(cp: nat, rest: seq<byte>)
    requires Scalar(cp)
    ensures First(Encode(cp) + rest) == Some((cp, |Encode(cp)|))
  {
    if cp <= 0x7f { OneByte(cp); }
    else if cp <= 0x7ff { TwoAreFirst(cp, rest); }
    else if cp <= 0xffff { ThreeAreFirst(cp, rest); }
    else { FourAreFirst(cp, rest); }
  }

  lemma EncodingIsCharacter(cp: nat)
    requires Scalar(cp)
    ensures Character(Encode(cp))
  {
  }

  lemma CharacterIsEncoding(s: seq<byte>) returns (cp: nat)
    requires Character(s)
    ensures Scalar(cp) && Encode(cp) == s
  {
    hide Encode;
    if |s| == 1 {
      cp := s[0];
      OneByte(s[0]);
    } else if |s| == 2 {
      cp := Shift(s[0] % 32, s[1]);
      TwoBytes(s[0], s[1]);
    } else if |s| == 3 {
      cp := Shift(Shift(s[0] % 16, s[1]), s[2]);
      ThreeBytes(s[0], s[1], s[2]);
    } else {
      cp := Shift(Shift(Shift(s[0] % 8, s[1]), s[2]), s[3]);
      FourBytes(s[0], s[1], s[2], s[3]);
    }
  }

  /** The two ways RFC 3629 describes a character agree. */
  lemma CharacterIsEncoded(s: seq<byte>)
    ensures Character(s) <==> exists cp :: Scalar(cp) && Encode(cp) == s
  {
    hide Encode, Character;
    if Character(s) {
      var cp := CharacterIsEncoding(s);
    }
    if cp: nat :| Scalar(cp) && Encode(cp) == s {
      EncodingIsCharacter(cp);
    }
  }

  // ---- Whole texts ----

  lemma EmptyIsUtf8()
    ensures IsUtf8([])
  {
    assert EncodeAll([]) == [] && Scalars([]);
  }

  lemma PrependUtf8(cp: nat, rest: seq<byte>)
    requires Scalar(cp) && IsUtf8(rest)
    ensures IsUtf8(Encode(cp) + rest)
  {
    hide Encode;
    var cps :| Scalars(cps) && EncodeAll(cps) == rest;
    var all := [cp] + cps;
    assert all[1..] == cps;
    assert Scalars(all) && EncodeAll(all) == Encode(cp) + rest;
  }

  /** A text is UTF-8 exactly when it is empty, or starts with a character and goes on as UTF-8. */
  lemma Utf8Step(s: seq<byte>)
    requires s != []
    ensures IsUtf8(s) <==> First(s).Some? && IsUtf8(s[First(s).value.1..])
  {
    hide Encode, First;
    if IsUtf8(s) {
      var cps :| Scalars(cps) && EncodeAll(cps) == s;
      var rest := EncodeAll(cps[1..]);
      EncodedIsFirst(cps[0], rest);
      assert s == Encode(cps[0]) + rest;
      assert s[|Encode(cps[0])|..] == rest;
      assert Scalars(cps[1..]);
    }
    if First(s).Some? && IsUtf8(s[First(s).value.1..]) {
      FirstIsEncoded(s);
      PrependUtf8(First(s).value.0, s[First(s).value.1..]);
      assert s == s[..First(s).value.1] + s[First(s).value.1..];
    }
  }

  lemma {:induction false} ConcatUtf8(a: seq<byte>, b: seq<byte>)
    requires IsUtf8(a) && IsUtf8(b)
    ensures IsUtf8(a + b)
    decreases |a|
  {
    hide Encode, First;
    if a == [] {
      assert a + b == b;
    } else {
      Utf8Step(a);
      FirstIsEncoded(a);
      var n := First(a).value.1;
      ConcatUtf8(a[n..], b);
      PrependUtf8(First(a).value.0, a[n..] + b);
      assert a + b == a[..n] + (a[n..] + b);
    }
  }

  /** The inner loop: continuation bytes shifted into the code point; None at the first byte that is not one. */
  method ReadTail(value: seq<byte>, index: nat, count: nat, bits: nat) returns (r: Option<nat>)
    requires index + count < |value|
    ensures var tail := value[index+1..index+1+count];
      if exists k :: 0 <= k < |tail| && !Tail(tail[k]) then r.None? else r == Some(Accumulate(bits, tail))
  {
    hide Tail;
    ghost var tail := value[index+1..index+1+count];
    var codePoint := bits;
    for offset := 0 to count
      invariant forall k :: 0 <= k < offset ==> Tail(tail[k])
      invariant codePoint == Accumulate(bits, tail[..offset])
    {
      var next := value[index + 1 + offset];
      assert next == tail[offset];
      if !Tail(next) {
        return None;
      }
      AccumulateStep(bits, tail, offset);
      codePoint := Shift(codePoint, next);
    }
    assert tail[..count] == tail;
    r := Some(codePoint);
  }

  lemma AccumulateStep(bits: nat, tail: seq<byte>, k: nat)
    requires k < |tail|
    ensures Accumulate(bits, tail[..k+1]) == Shift(Accumulate(bits, tail[..k]), tail[k])
  {
    assert tail[..k+1][..k] == tail[..k];
  }

  /** The validator: it accepts exactly the concatenations of encoded scalar values. */
  method ValidUtf8(value: seq<byte>) returns (ok: bool)
    ensures ok <==> IsUtf8(value)
  {
    hide IsUtf8, Accumulate, Acceptable, Tail;
    var index := 0;
    assert value[0..] == value;
    while index < |value|
      invariant index <= |value| && (IsUtf8(value) <==> IsUtf8(value[index..]))
      decreases |value| - index
    {
      ghost var s := value[index..];
      Utf8Step(s);
      var first := value[index];
      if first <= 0x7f {
        assert s[1..] == value[index+1..];
        index := index + 1;
        continue;
      }
      var lead := Lead(first);
      if lead.None? || lead.value.0 > |value| - index - 1 {
        return false;
      }
      var count := lead.value.0;
      var codePoint := ReadTail(value, index, count, lead.value.1);
      assert s[1..count+1] == value[index+1..index+1+count];
      if codePoint.None? || !Acceptable(count, codePoint.value) {
        return false;
      }
      assert s[count+1..] == value[index+count+1..];
      index := index + count + 1;
    }
    assert value[index..] == [];
    EmptyIsUtf8();
    ok := true;
  }
}
