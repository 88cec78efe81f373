/**
 * The Python string built-ins the reference-card code relies on, written out
 * so that their behaviour is explicit: `"%02x" % n`, `"%d" % n`,
 * `str.upper()`, `s.split(c, 1)`, `s.split(c)[-1]` and `int(s, 16)`.
 */
module PyText {
  import opened Wrappers

  /** An opcode: the keys of a 6502 opcode table and the indices of its 256-entry tables. */
  type Byte = x: int | 0 <= x < 256

  predicate IsDigit(c: char) { '0' <= c <= '9' }

  predicate IsHexDigit(c: char) { IsDigit(c) || 'a' <= c <= 'f' || 'A' <= c <= 'F' }

  predicate IsLowerHexDigit(c: char) { IsDigit(c) || 'a' <= c <= 'f' }

  predicate AllDigits(s: string) { forall i :: 0 <= i < |s| ==> IsDigit(s[i]) }

  predicate AllHexDigits(s: string) { forall i :: 0 <= i < |s| ==> IsHexDigit(s[i]) }

  function DigitValue(c: char): (v: nat)
    requires IsDigit(c)
    ensures v < 10
  {
    c as int - '0' as int
  }

  function HexDigitValue(c: char): (v: nat)
    requires IsHexDigit(c)
    ensures v < 16
  {
    if IsDigit(c) then DigitValue(c)
    else if 'a' <= c <= 'f' then c as int - 'a' as int + 10
    else c as int - 'A' as int + 10
  }

  function DigitChar(n: nat): (c: char)
    requires n < 10
    ensures IsDigit(c) && DigitValue(c) == n
  {
    ('0' as int + n) as char
  }

  function LowerHexChar(n: nat): (c: char)
    requires n < 16
    ensures IsLowerHexDigit(c) && IsHexDigit(c) && HexDigitValue(c) == n
  {
    if n < 10 then DigitChar(n) else ('a' as int + n - 10) as char
  }

  /** The value of a string of decimal digits, most significant first. */
  function DecimalValue(s: string): nat
    requires AllDigits(s)
  {
    if s == [] then 0 else DecimalValue(s[..|s| - 1]) * 10 + DigitValue(s[|s| - 1])
  }

  /** The value of a string of hexadecimal digits of either case, most significant first. */
  function HexValue(s: string): nat
    requires AllHexDigits(s)
  {
    if s == [] then 0 else HexValue(s[..|s| - 1]) * 16 + HexDigitValue(s[|s| - 1])
  }

  /** `"%02x" % b`: exactly two lower-case hexadecimal digits that read back as `b`. */
  function Hex2(b: Byte): (s: string)
    ensures |s| == 2 && IsLowerHexDigit(s[0]) && IsLowerHexDigit(s[1])
    ensures AllHexDigits(s) && HexValue(s) == b
  {
    var s := [LowerHexChar(b / 16), LowerHexChar(b % 16)];
    assert s[..1] == [s[0]] && [s[0]][..0] == [];
    assert HexValue(s[..1]) == b / 16;
    assert HexValue(s) == (b / 16) * 16 + b % 16;
    s
  }

  /** `"%d" % n` for a non-negative `n`: decimal digits without leading zeros that read back as `n`. */
  function NatToDecimal(n: nat): (s: string)
    ensures |s| >= 1 && AllDigits(s)
    ensures DecimalValue(s) == n
    ensures |s| > 1 ==> s[0] != '0'
    decreases n
  {
    if n < 10 then [DigitChar(n)]
    else
      var p := NatToDecimal(n / 10);
      assert (p + [DigitChar(n % 10)])[..|p|] == p;
      p + [DigitChar(n % 10)]
  }

  /** `"%d" % i` for any integer: a minus sign, then the digits of the magnitude. */
  function IntToDecimal(i: int): (s: string)
    ensures ',' !in s && '+' !in s && '"' !in s
    ensures ParseDecimal(s) == Some(i)
  {
    if i < 0 then "-" + NatToDecimal(-i) else NatToDecimal(i)
  }

  /** Reads an optionally negative decimal numeral; the inverse of `IntToDecimal`. */
  function ParseDecimal(s: string): Option<int>
  {
    if |s| > 1 && s[0] == '-' && AllDigits(s[1..]) then Some(-(DecimalValue(s[1..]) as int))
    else if |s| > 0 && AllDigits(s) then Some(DecimalValue(s))
    else None
  }

  lemma ConcatAssociates<T>(a: seq<T>, b: seq<T>, c: seq<T>)
    ensures (a + b) + c == a + (b + c)
  {
  }

  /** How many times `c` occurs in `s`. */
  function Occurrences(s: string, c: char): nat
  {
    multiset(s)[c]
  }

  function UpperChar(c: char): char
  {
    if 'a' <= c <= 'z' then (c as int - 32) as char else c
  }

  predicate IsUpperCase(s: string) { forall i :: 0 <= i < |s| ==> !('a' <= s[i] <= 'z') }

  /**
   * `s.upper()` over ASCII letters: the same length, each lower-case letter
   * replaced by its capital (32 code points lower), every other character kept.
   */
  function Upper(s: string): (r: string)
    ensures |r| == |s|
    ensures forall i :: 0 <= i < |s| ==>
      if 'a' <= s[i] <= 'z' then 'A' <= r[i] <= 'Z' && r[i] as int == s[i] as int - 32 else r[i] == s[i]
  {
    seq(|s|, i requires 0 <= i < |s| => UpperChar(s[i]))
  }

  /** An upper-cased string has no lower-case letter, and upper-casing it again changes nothing. */
  lemma UpperIsCanonical(s: string)
    ensures IsUpperCase(Upper(s))
    ensures Upper(Upper(s)) == Upper(s)
  {
  }

  /**
   * `head, tail = s.split(c, 1)`: the text before the first `c` and the text
   * after it; `None` stands for the ValueError the unpacking raises when `c`
   * does not occur in `s`.
   */
  function SplitFirst(s: string, c: char): (r: Option<(string, string)>)
    ensures r.None? <==> c !in s
    ensures r.Some? ==> s == r.value.0 + [c] + r.value.1 && c !in r.value.0
  {
    if s == [] then None
    else if s[0] == c then Some(([], s[1..]))
    else match SplitFirst(s[1..], c)
      case None => None
      case Some((head, tail)) => Some(([s[0]] + head, tail))
  }

  /** Splitting `p + [c] + q` at its first `c` gives back `p` and `q` when `p` has no `c`. */
  lemma SplitFirstOfJoin(p: string, q: string, c: char)
    requires c !in p
    ensures SplitFirst(p + [c] + q, c) == Some((p, q))
  {
    var s := p + [c] + q;
    var (h, t) := SplitFirst(s, c).value;
    assert forall i :: 0 <= i < |p| ==> s[i] == p[i] != c;
    assert forall i :: 0 <= i < |h| ==> s[i] == h[i] != c;
    assert s[|h|] == c && s[|p|] == c;
    assert |h| == |p|;
    assert h == s[..|h|] == p;
    assert t == s[|p| + 1..] == q;
  }

  /** When the first `c` of `s` is at `n`, splitting there gives the text around it. */
  lemma SplitFirstAt(s: string, n: nat, c: char)
    requires n < |s| && s[n] == c && c !in s[..n]
    ensures SplitFirst(s, c) == Some((s[..n], s[n + 1..]))
  {
    assert s == s[..n] + [c] + s[n + 1..];
    SplitFirstOfJoin(s[..n], s[n + 1..], c);
  }

  /** `s.split(c)[-1]`: the longest suffix of `s` free of `c`. */
  function AfterLast(s: string, c: char): string
  {
    if s == [] || s[|s| - 1] == c then []
    else AfterLast(s[..|s| - 1], c) + [s[|s| - 1]]
  }

  /** What `AfterLast` gives is a suffix of `s` free of `c`, and all of `s` or preceded by a `c`. */
  lemma {:induction false} AfterLastIsSuffix(s: string, c: char)
    ensures var r := AfterLast(s, c);
      && c !in r && |r| <= |s| && r == s[|s| - |r|..]
      && (|r| < |s| ==> s[|s| - |r| - 1] == c)
  {
    if s != [] && s[|s| - 1] != c {
      var init := s[..|s| - 1];
      AfterLastIsSuffix(init, c);
      var r', last := AfterLast(init, c), s[|s| - 1];
      assert AfterLast(s, c) == r' + [last];
      assert s == init + [last];
      assert s[|init| - |r'|..] == init[|init| - |r'|..] + [last];
      assert c !in r' + [last];
    }
  }

  /** The digits `int(s, 16)` reads after an optional sign and an optional `0x` or `0X` prefix. */
  function HexBody(s: string): string
  {
    var unsigned := if |s| > 0 && (s[0] == '-' || s[0] == '+') then s[1..] else s;
    if |unsigned| >= 2 && unsigned[0] == '0' && (unsigned[1] == 'x' || unsigned[1] == 'X')
    then unsigned[2..] else unsigned
  }

  /** `int(s, 16)`; `None` stands for the ValueError raised on anything that is not a base-16 numeral. */
  function ParseHexInt(s: string): (r: Option<int>)
    ensures r.Some? <==> |HexBody(s)| > 0 && AllHexDigits(HexBody(s))
    ensures r.Some? && (|s| == 0 || s[0] != '-') ==> r.value >= 0
  {
    var body := HexBody(s);
    if |body| > 0 && AllHexDigits(body) then
      Some(if |s| > 0 && s[0] == '-' then -(HexValue(body) as int) else HexValue(body))
    else None
  }

  /** Reading back what `"0x%02x"` and `"%02x"` write gives the same byte. */
  lemma ParseHexIntOfHex2(b: Byte)
    ensures ParseHexInt("0x" + Hex2(b)) == Some(b)
    ensures ParseHexInt(Hex2(b)) == Some(b)
  {
    assert HexBody("0x" + Hex2(b)) == Hex2(b);
    var s := Hex2(b);
    if s[0] == '0' {
      assert s[1] != 'x' && s[1] != 'X';
    }
    assert HexBody(s) == s;
  }

  /** The suffix after the last `c` of `p + q` is `q` when `p` ends in `c` and `q` has none. */
  lemma {:induction false} AfterLastOfSuffix(p: string, q: string, c: char)
    requires |p| > 0 && p[|p| - 1] == c && c !in q
    ensures AfterLast(p + q, c) == q
  {
    if q != [] {
      var q' := q[..|q| - 1];
      assert (p + q)[..|p + q| - 1] == p + q';
      AfterLastOfSuffix(p, q', c);
    } else {
      assert p + q == p;
    }
  }
}
