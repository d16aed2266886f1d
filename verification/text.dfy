/** Text encodings used by the package assembler: Go's `%d` formatting of
    integers, `encoding/hex`'s lowercase encoding and the bytes written for a
    rendered text; and `Lines`, how the model reads the rendered control
    record back line by line. */
module Text {
  import opened Common

  predicate IsDigit(c: char) { '0' <= c <= '9' }

  predicate AllDigits(s: string) { forall i :: 0 <= i < |s| ==> IsDigit(s[i]) }

  function DigitChar(d: nat): (c: char)
    requires d < 10
    ensures IsDigit(c)
  {
    ('0' as int + d) as char
  }

  function DigitValue(c: char): (d: nat)
    requires IsDigit(c)
    ensures d < 10 && DigitChar(d) == c
  {
    c as int - '0' as int
  }

  /** `fmt.Sprintf("%d", n)` for a non-negative integer. */
  function Decimal(n: nat): (s: string)
    ensures |s| >= 1 && AllDigits(s)
    ensures |s| > 1 ==> s[0] != '0'
    decreases n
  {
    if n < 10 then [DigitChar(n)] else Decimal(n / 10) + [DigitChar(n % 10)]
  }

  /** Reads a non-empty string of decimal digits back as a number. */
  function ParseDecimal(s: string): (r: Option<nat>)
    ensures r.Some? <==> |s| >= 1 && AllDigits(s)
    decreases |s|
  {
    if |s| == 0 || !IsDigit(s[|s| - 1]) then None
    else if |s| == 1 then Some(DigitValue(s[0]))
    else
      match ParseDecimal(s[..|s| - 1])
      case None => None
      case Some(v) => Some(v * 10 + DigitValue(s[|s| - 1]))
  }

  lemma {:induction false} DecimalRoundTrip(n: nat)
    ensures ParseDecimal(Decimal(n)) == Some(n)
    decreases n
  {
    if n >= 10 {
      var s := Decimal(n);
      assert s[..|s| - 1] == Decimal(n / 10);
      DecimalRoundTrip(n / 10);
    }
  }

  /** `fmt.Sprintf("%d", i)` for a signed integer. */
  function SignedDecimal(i: int): (s: string)
    ensures |s| >= 1
    ensures s[0] == '-' <==> i < 0
  {
    if i < 0 then "-" + Decimal(-i) else Decimal(i)
  }

  function ParseSignedDecimal(s: string): (r: Option<int>)
    ensures r.Some? && r.value < 0 ==> |s| >= 2 && s[0] == '-'
  {
    if |s| >= 1 && s[0] == '-' then
      match ParseDecimal(s[1..])
      case Some(v) => if v == 0 then None else Some(0 - v as int)
      case None => None
    else
      match ParseDecimal(s)
      case Some(v) => Some(v)
      case None => None
  }

  lemma SignedDecimalRoundTrip(i: int)
    ensures ParseSignedDecimal(SignedDecimal(i)) == Some(i)
    ensures '\n' !in SignedDecimal(i)
  {
    var n: nat := if i < 0 then -i else i;
    var d := Decimal(n);
    assert IsDigit(d[0]);
    DecimalRoundTrip(n);
    if i < 0 {
      var s := "-" + d;
      assert s[1..] == d;
      assert ParseSignedDecimal(s) == Some(0 - n as int);
      assert forall k :: 0 <= k < |s| ==> s[k] == '-' || IsDigit(s[k]);
    } else {
      assert forall k :: 0 <= k < |d| ==> IsDigit(d[k]);
    }
  }

  predicate IsLowerHex(c: char) { '0' <= c <= '9' || 'a' <= c <= 'f' }

  function HexChar(d: nat): (c: char)
    requires d < 16
    ensures IsLowerHex(c)
  {
    if d < 10 then ('0' as int + d) as char else ('a' as int + d - 10) as char
  }

  function HexValue(c: char): (d: nat)
    requires IsLowerHex(c)
    ensures d < 16 && HexChar(d) == c
  {
    if c <= '9' then c as int - '0' as int else c as int - 'a' as int + 10
  }

  /** `hex.EncodeToString`: two lowercase digits per byte, high nibble first. */
  function HexEncode(bs: seq<byte>): (s: string)
    ensures |s| == 2 * |bs|
    ensures forall i :: 0 <= i < |s| ==> IsLowerHex(s[i])
  {
    if bs == [] then []
    else [HexChar(bs[0] as int / 16), HexChar(bs[0] as int % 16)] + HexEncode(bs[1..])
  }

  /** The inverse of `HexEncode`: `None` on odd length or a non-hex digit. */
  function HexDecode(s: string): (r: Option<seq<byte>>)
    ensures r.Some? ==> 2 * |r.value| == |s|
  {
    if |s| == 0 then Some([])
    else if |s| == 1 || !IsLowerHex(s[0]) || !IsLowerHex(s[1]) then None
    else
      match HexDecode(s[2..])
      case None => None
      case Some(rest) => Some([(HexValue(s[0]) * 16 + HexValue(s[1])) as byte] + rest)
  }

  lemma {:induction false} HexRoundTrip(bs: seq<byte>)
    ensures HexDecode(HexEncode(bs)) == Some(bs)
  {
    if bs != [] {
      var s := HexEncode(bs);
      assert s[2..] == HexEncode(bs[1..]);
      HexRoundTrip(bs[1..]);
      var b := bs[0] as int;
      assert HexValue(s[0]) == b / 16 && HexValue(s[1]) == b % 16;
      assert [bs[0]] + bs[1..] == bs;
    }
  }

  /** A hex string holds no line break. */
  lemma HexSingleLine(bs: seq<byte>)
    ensures '\n' !in HexEncode(bs)
  {
    var s := HexEncode(bs);
    assert forall i :: 0 <= i < |s| ==> IsLowerHex(s[i]);
  }

  /** Splits `s` around its last occurrence of `c`: `Some((before, after))`,
      or `None` when `c` does not occur. */
  function SplitLast(s: string, c: char): (r: Option<(string, string)>)
    ensures r.None? <==> c !in s
    ensures r.Some? ==> s == r.value.0 + [c] + r.value.1 && c !in r.value.1
    decreases |s|
  {
    if |s| == 0 then None
    else if s[|s| - 1] == c then Some((s[..|s| - 1], ""))
    else
      match SplitLast(s[..|s| - 1], c)
      case None => None
      case Some((before, after)) => Some((before, after + [s[|s| - 1]]))
  }

  lemma {:induction false} SplitLastAt(x: string, c: char, y: string)
    requires c !in y
    ensures SplitLast(x + [c] + y, c) == Some((x, y))
    decreases |y|
  {
    var s := x + [c] + y;
    if |y| == 0 {
      assert s[..|s| - 1] == x;
    } else {
      var y' := y[..|y| - 1];
      assert s[..|s| - 1] == x + [c] + y';
      SplitLastAt(x, c, y');
      assert y' + [s[|s| - 1]] == y;
    }
  }

  /** The lines of `s`, split at every line break; a final "\n" yields a
      final empty line. */
  function Lines(s: string): (r: seq<string>)
    ensures |r| >= 1
  {
    if s == [] then [""]
    else
      var rest := Lines(s[1..]);
      if s[0] == '\n' then [""] + rest else [[s[0]] + rest[0]] + rest[1..]
  }

  lemma {:induction false} LinesSingle(a: string)
    requires '\n' !in a
    ensures Lines(a) == [a]
  {
    if a != [] {
      LinesSingle(a[1..]);
      assert [a[0]] + a[1..] == a;
    }
  }

  lemma {:induction false} LinesBreak(a: string, b: string)
    requires '\n' !in a
    ensures Lines(a + "\n" + b) == [a] + Lines(b)
  {
    var s := a + "\n" + b;
    if a == [] {
      assert s[1..] == b;
    } else {
      assert s[1..] == a[1..] + "\n" + b;
      LinesBreak(a[1..], b);
      assert [a[0]] + a[1..] == a;
    }
  }

  /** `s` as a line of its own: behind the line break that ends the previous
      line. */
  function OnNewLine(s: string): string
  {
    "\n" + s
  }

  /** Each element as a line of its own, in order. */
  function Prefixed(ls: seq<string>): string
  {
    if ls == [] then "" else OnNewLine(ls[0]) + Prefixed(ls[1..])
  }

  lemma PrefixedCons(x: string, rest: seq<string>)
    ensures Prefixed([x] + rest) == OnNewLine(x) + Prefixed(rest)
  {
    assert ([x] + rest)[1..] == rest;
  }

  lemma {:induction false} PrefixedAppend(a: seq<string>, b: seq<string>)
    ensures Prefixed(a + b) == Prefixed(a) + Prefixed(b)
  {
    if a == [] {
      assert a + b == b;
    } else {
      assert (a + b)[1..] == a[1..] + b;
      PrefixedAppend(a[1..], b);
    }
  }

  lemma PrefixedSnoc(ls: seq<string>, x: string)
    ensures Prefixed(ls + [x]) == Prefixed(ls) + OnNewLine(x)
  {
    PrefixedAppend(ls, [x]);
    PrefixedCons(x, []);
    assert [x] + [] == [x];
  }

  /** Reading back what `Prefixed` wrote: one line per element, after `first`. */
  lemma {:induction false} LinesPrefixed(first: string, ls: seq<string>)
    requires '\n' !in first
    requires forall i :: 0 <= i < |ls| ==> '\n' !in ls[i]
    ensures Lines(first + Prefixed(ls)) == [first] + ls
    decreases |ls|
  {
    if ls == [] {
      assert first + Prefixed(ls) == first;
      LinesSingle(first);
    } else {
      assert first + Prefixed(ls) == first + "\n" + (ls[0] + Prefixed(ls[1..]));
      LinesBreak(first, ls[0] + Prefixed(ls[1..]));
      LinesPrefixed(ls[0], ls[1..]);
      assert [ls[0]] + ls[1..] == ls;
    }
  }

  /** The bytes `GenerateControlData` writes into its buffer for the rendered
      text: the model reads each character as one byte. */
  function AsBytes(s: string): (r: seq<byte>)
    ensures |r| == |s|
    ensures forall i :: 0 <= i < |s| && s[i] as int < 256 ==> r[i] as int == s[i] as int
  {
    seq(|s|, i requires 0 <= i < |s| => (s[i] as int % 256) as byte)
  }
}
