/** The plan format below the level of records: lines, tab-separated fields,
    decimal numbers and hexadecimal strings. Texts and fields are byte strings. */
module PlanText {
  import opened RuntimePlanModel
  import opened Characters

  // ---- Separators ----

  lemma FindIs(s: string, c: char, n: nat)
    requires n <= |s| && c !in s[..n] && (n < |s| ==> s[n] == c)
    ensures Find(s, c) == n
  {
  }

  function Split(s: string, sep: char): (r: seq<string>)
    ensures r != []
    decreases |s|
  {
    var n := Find(s, sep);
    if n == |s| then [s] else [s[..n]] + Split(s[n+1..], sep)
  }

  function Join(fields: seq<string>, sep: char): string {
    if fields == [] then ""
    else if |fields| == 1 then fields[0]
    else fields[0] + [sep] + Join(fields[1..], sep)
  }

  lemma {:induction false} SplitJoin(fields: seq<string>, sep: char)
    requires fields != [] && forall f :: f in fields ==> sep !in f
    ensures Split(Join(fields, sep), sep) == fields
  {
    hide Find;
    var s, n := Join(fields, sep), |fields[0]|;
    assert fields[0] in fields;
    assert s[..n] == fields[0];
    FindIs(s, sep, n);
    if |fields| > 1 {
      assert s[n+1..] == Join(fields[1..], sep);
      SplitJoin(fields[1..], sep);
    }
  }

  lemma Slices(s: string, offset: nat, n: nat)
    requires offset + n <= |s|
    ensures s[offset..][..n] == s[offset..offset+n]
    ensures offset + n < |s| ==> s[offset..][n+1..] == s[offset+n+1..]
  {
  }

  lemma SplitUnfold(s: string)
    ensures var n := Find(s, '\t'); Split(s, '\t') == if n == |s| then [s] else [s[..n]] + Split(s[n+1..], '\t')
  {
    hide Find;
  }

  lemma SplitStep(line: string, offset: nat)
    requires offset <= |line|
    ensures var tab := Find(line[offset..], '\t');
      Split(line[offset..], '\t') ==
        if offset + tab == |line| then [line[offset..]]
        else [line[offset..offset+tab]] + Split(line[offset+tab+1..], '\t')
  {
    hide Find, Split;
    SplitUnfold(line[offset..]);
    Slices(line, offset, Find(line[offset..], '\t'));
  }

  /** The cursor loop over a line's fields. */
  method SplitFields(line: string) returns (fields: seq<string>)
    ensures fields == Split(line, '\t')
  {
    hide Split, Find;
    fields := [];
    var offset := 0;
    assert line[0..] == line;
    while true
      invariant offset <= |line|
      invariant fields + Split(line[offset..], '\t') == Split(line, '\t')
      decreases |line| - offset
    {
      var tab := Find(line[offset..], '\t');
      SplitStep(line, offset);
      if offset + tab == |line| {
        return fields + [line[offset..]];
      }
      assert fields + ([line[offset..offset+tab]] + Split(line[offset+tab+1..], '\t'))
          == fields + [line[offset..offset+tab]] + Split(line[offset+tab+1..], '\t');
      fields := fields + [line[offset..offset+tab]];
      offset := offset + tab + 1;
    }
  }

  // ---- Lines ----

  const MAX_LINE_BYTES := 32768

  function LinesOf(text: string): seq<string>
    decreases |text|
  {
    if text == "" then []
    else
      var n := Find(text, '\n');
      [text[..n]] + (if n == |text| then [] else LinesOf(text[n+1..]))
  }

  predicate GoodLine(line: string) {
    |line| <= MAX_LINE_BYTES && '\r' !in line && line != ""
  }

  predicate GoodLines(lines: seq<string>) {
    lines != [] && forall l :: l in lines ==> GoodLine(l)
  }

  lemma LinesUnfold(text: string)
    requires text != ""
    ensures var n := Find(text, '\n'); LinesOf(text) == [text[..n]] + (if n == |text| then [] else LinesOf(text[n+1..]))
  {
    hide Find;
  }

  lemma LinesStep(text: string, offset: nat)
    requires offset < |text|
    ensures var newline := Find(text[offset..], '\n');
      LinesOf(text[offset..]) ==
        [text[offset..offset+newline]] + (if offset + newline == |text| then [] else LinesOf(text[offset+newline+1..]))
  {
    hide Find, LinesOf;
    LinesUnfold(text[offset..]);
    Slices(text, offset, Find(text[offset..], '\n'));
  }

  /** The cursor loop over the lines of a text. */
  method SplitLines(text: string) returns (r: Option<seq<string>>)
    ensures r == if GoodLines(LinesOf(text)) then Some(LinesOf(text)) else None
  {
    hide LinesOf, GoodLine, Find;
    var lines: seq<string> := [];
    var offset := 0;
    assert text[0..] == text;
    LinesOfNothing();
    while offset < |text|
      invariant offset <= |text|
      invariant LinesOf(text) == lines + LinesOf(text[offset..])
      invariant forall l :: l in lines ==> GoodLine(l)
      decreases |text| - offset
    {
      var newline := Find(text[offset..], '\n');
      var line := text[offset..offset+newline];
      LinesStep(text, offset);
      if !GoodLine(line) {
        assert LinesOf(text)[|lines|] == line;
        return None;
      }
      lines := lines + [line];
      assert text[|text|..] == "";
      offset := if offset + newline == |text| then |text| else offset + newline + 1;
    }
    assert text[offset..] == "" && LinesOf(text) == lines;
    r := if lines == [] then None else Some(lines);
  }

  lemma LinesOfNothing()
    ensures LinesOf("") == []
  {
  }

  /** Lines joined by newlines, with one at the end. */
  function Unlines(lines: seq<string>): string {
    if lines == [] then "" else lines[0] + "\n" + Unlines(lines[1..])
  }

  lemma {:induction false} LinesUnlines(lines: seq<string>)
    requires forall l :: l in lines ==> '\n' !in l
    ensures LinesOf(Unlines(lines)) == lines
  {
    hide Find;
    if lines != [] {
      var text, n := Unlines(lines), |lines[0]|;
      assert lines[0] in lines && text[..n] == lines[0];
      FindIs(text, '\n', n);
      assert text[n+1..] == Unlines(lines[1..]);
      LinesUnlines(lines[1..]);
    }
  }

  /** The source joins the lines with newlines and appends one. */
  lemma {:induction false} UnlinesIsJoin(lines: seq<string>)
    requires lines != []
    ensures Unlines(lines) == Join(lines, '\n') + "\n"
  {
    if |lines| > 1 {
      UnlinesIsJoin(lines[1..]);
      assert lines[0] + "\n" + (Join(lines[1..], '\n') + "\n") == (lines[0] + ['\n'] + Join(lines[1..], '\n')) + "\n";
    } else {
      assert lines[1..] == [];
    }
  }

  // ---- Decimal numbers ----

  function DigitValue(c: char): nat
    requires IsDigit(c)
  {
    c as int - '0' as int
  }

  function DigitOf(n: nat): (c: char)
    requires n < 10
    ensures IsDigit(c) && DigitValue(c) == n
  {
    (n + '0' as int) as char
  }

  function Digits(n: nat): (r: string)
    ensures r != "" && forall c :: c in r ==> IsDigit(c)
  {
    if n < 10 then [DigitOf(n)] else Digits(n / 10) + [DigitOf(n % 10)]
  }

  function DecimalValue(s: string): nat
    requires forall c :: c in s ==> IsDigit(c)
  {
    if s == "" then 0 else 10 * DecimalValue(s[..|s|-1]) + DigitValue(s[|s|-1])
  }

  /** A 32-bit number in the given range: digits only, no sign, no overflow. */
  function ParseU32(s: string, low: nat, high: nat): (r: Option<nat>)
    ensures r.Some? ==> low <= r.value <= high
  {
    if s == "" || exists c :: c in s && !IsDigit(c) then None
    else
      var v := DecimalValue(s);
      if v > 0xffff_ffff || v < low || v > high then None else Some(v)
  }

  lemma {:induction false} DigitsValue(n: nat)
    ensures DecimalValue(Digits(n)) == n
  {
    var s := Digits(n);
    if n >= 10 {
      DigitsValue(n / 10);
      assert s[..|s|-1] == Digits(n / 10);
    } else {
      assert s[..|s|-1] == "";
    }
  }

  lemma ParsePrinted(n: nat, low: nat, high: nat)
    requires low <= n <= high <= 0xffff_ffff
    ensures ParseU32(Digits(n), low, high) == Some(n)
  {
    DigitsValue(n);
  }

  function Pow10(k: nat): nat {
    if k == 0 then 1 else 10 * Pow10(k - 1)
  }

  lemma {:induction false} DigitsLength(n: nat, k: nat)
    requires k >= 1 && n < Pow10(k)
    ensures |Digits(n)| <= k
  {
    if n >= 10 {
      assert k > 1 by { assert Pow10(1) == 10 * Pow10(0); }
      DigitsLength(n / 10, k - 1);
    }
  }

  lemma ShortNumber(n: nat)
    requires n <= 9_999_999
    ensures |Digits(n)| <= 7
  {
    assert Pow10(3) == 1000 && Pow10(7) == 10_000 * Pow10(3);
    DigitsLength(n, 7);
  }

  // ---- Hexadecimal strings ----

  predicate IsBytes(s: string) {
    forall k :: 0 <= k < |s| ==> s[k] as int < 256
  }

  function HexChar(n: nat): (c: char)
    requires n < 16
    ensures Nibble(c as int) == Some(n) && Plain(c)
  {
    HexDigit(n) as char
  }

  /** May stand inside a field. */
  predicate Plain(c: char) {
    c != '\t' && c != '\n' && c != '\r'
  }

  predicate PlainText(s: string) {
    forall c :: c in s ==> Plain(c)
  }

  /** Two digits a byte. Strings are byte strings; what lies above is cut off. */
  function EncodeHex(s: string): (r: string)
    ensures |r| == 2 * |s| && PlainText(r)
  {
    if s == "" then ""
    else
      var b := s[0] as int % 256;
      [HexChar(b / 16), HexChar(b % 16)] + EncodeHex(s[1..])
  }

  /** Pairs of digits to bytes; a zero byte is refused. */
  function DecodePairs(s: string): Option<string>
    requires |s| % 2 == 0
  {
    if s == "" then Some("")
    else
      var high :- Nibble(s[0] as int);
      var low :- Nibble(s[1] as int);
      if high * 16 + low == 0 then None
      else
        var rest :- DecodePairs(s[2..]);
        Some([(high * 16 + low) as char] + rest)
  }

  function DecodeHex(s: string): Option<string> {
    if |s| % 2 != 0 || |s| > 8192 then None else DecodePairs(s)
  }

  lemma PairReadsBack(c: char)
    requires 0 < c as int < 256
    ensures var b := c as int % 256;
      Nibble(HexChar(b / 16) as int) == Some(b / 16) && Nibble(HexChar(b % 16) as int) == Some(b % 16)
      && b / 16 * 16 + b % 16 == c as int
  {
  }

  lemma {:induction false} HexRoundTrip(s: string)
    requires IsBytes(s) && '\0' !in s
    ensures DecodePairs(EncodeHex(s)) == Some(s)
  {
    hide Nibble, HexChar;
    if s != "" {
      var c, e := s[0], EncodeHex(s);
      assert c in s && (c as int == 0 ==> c == '\0');
      PairReadsBack(c);
      assert e[2..] == EncodeHex(s[1..]);
      HexRoundTrip(s[1..]);
      assert [c] + s[1..] == s;
    }
  }

  /** The loop over the digit pairs of a field. */
  method DecodeHexField(value: string) returns (r: Option<string>)
    ensures r == DecodeHex(value)
  {
    if |value| % 2 != 0 || |value| > 8192 {
      return None;
    }
    var decoded := "";
    var index := 0;
    assert value[0..] == value;
    PrefixedNothing(DecodePairs(value));
    while index < |value|
      invariant index <= |value| && index % 2 == 0
      invariant DecodePairs(value) == Prefixed(decoded, DecodePairs(value[index..]))
    {
      assert value[index..][2..] == value[index+2..];
      var high, low := Nibble(value[index] as int), Nibble(value[index+1] as int);
      if high.None? || low.None? || high.value * 16 + low.value == 0 {
        return None;
      }
      PrefixedStep(decoded, (high.value * 16 + low.value) as char, DecodePairs(value[index+2..]));
      decoded := decoded + [(high.value * 16 + low.value) as char];
      index := index + 2;
    }
    assert decoded + "" == decoded;
    r := Some(decoded);
  }

  ghost function Prefixed(prefix: string, r: Option<string>): Option<string> {
    if r.None? then None else Some(prefix + r.value)
  }

  lemma PrefixedNothing(r: Option<string>)
    ensures Prefixed("", r) == r
  {
    if r.Some? { assert "" + r.value == r.value; }
  }

  lemma PrefixedStep(prefix: string, c: char, r: Option<string>)
    ensures Prefixed(prefix + [c], r) == Prefixed(prefix, if r.None? then None else Some([c] + r.value))
  {
    if r.Some? { assert (prefix + [c]) + r.value == prefix + ([c] + r.value); }
  }
}
