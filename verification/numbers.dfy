/** Number rendering and parsing of the JavaScript runtime: `String(n)` for
    integers (used in cache keys) and the global `parseInt` (used for the
    `from`, `size` and `statusCode` query parameters). */
module Numbers {
  import opened Common
  import opened Text

  predicate IsDecimalDigit(c: char) {
    '0' <= c <= '9'
  }

  function DigitChar(d: nat): (c: char)
    requires d < 10
    ensures IsDecimalDigit(c) && c as int - '0' as int == d
  {
    (d + '0' as int) as char
  }

  /** Decimal rendering of a natural number, without leading zeros. */
  function NatToString(n: nat): (s: string)
    ensures |s| >= 1
    ensures forall i :: 0 <= i < |s| ==> IsDecimalDigit(s[i])
    ensures |s| > 1 ==> s[0] != '0'
    decreases n
  {
    if n < 10 then [DigitChar(n)] else NatToString(n / 10) + [DigitChar(n % 10)]
  }

  /** `String(i)` / template-literal rendering of an integer. */
  function IntToString(i: int): (s: string)
    ensures |s| >= 1
    ensures s[0] == '-' <==> i < 0
    ensures forall k :: (if i < 0 then 1 else 0) <= k < |s| ==> IsDecimalDigit(s[k])
  {
    if i < 0 then "-" + NatToString(-i) else NatToString(i)
  }

  /** The value of a character as a digit in `radix` (10 or 16), if it is one. */
  function RadixDigit(c: char, radix: nat): (d: Option<nat>)
    ensures d.Some? ==> d.value < radix
  {
    if '0' <= c <= '9' && (c as int - '0' as int) < radix then Some(c as int - '0' as int)
    else if radix == 16 && 'a' <= c <= 'f' then Some(c as int - 'a' as int + 10)
    else if radix == 16 && 'A' <= c <= 'F' then Some(c as int - 'A' as int + 10)
    else None
  }

  predicate AllDigits(s: string, radix: nat) {
    forall i :: 0 <= i < |s| ==> RadixDigit(s[i], radix).Some?
  }

  /** Value of a string of radix digits, most significant first. */
  function DigitsValue(s: string, radix: nat): nat
    requires AllDigits(s, radix)
    decreases |s|
  {
    if |s| == 0 then 0
    else DigitsValue(s[..|s| - 1], radix) * radix + RadixDigit(s[|s| - 1], radix).value
  }

  /** Length of the longest prefix of `s` made of radix digits. */
  function LeadingDigits(s: string, radix: nat): (k: nat)
    ensures k <= |s|
    ensures AllDigits(s[..k], radix)
    ensures k < |s| ==> RadixDigit(s[k], radix).None?
    decreases |s|
  {
    if |s| > 0 && RadixDigit(s[0], radix).Some? then
      var k := 1 + LeadingDigits(s[1..], radix);
      assert s[..k] == [s[0]] + s[1..][..k - 1];
      k
    else 0
  }

  /** The global `parseInt(s)` with no radix: skip leading whitespace, read an
      optional sign, switch to radix 16 after a `0x`/`0X` prefix, and read the
      longest run of digits; no digit at all gives NaN (here `None`). */
  function ParseIntJs(s: string): (r: Option<int>)
    ensures (forall i :: 0 <= i < |s| ==> !IsDecimalDigit(s[i])) ==> r.None?
    ensures |s| > 0 && AllDigits(s, 10) ==> r == Some(DigitsValue(s, 10))
  {
    var lead := LeadingSpaces(s);
    var t := s[lead..];
    var negative := |t| > 0 && t[0] == '-';
    var signed := |t| > 0 && (t[0] == '-' || t[0] == '+');
    var u := if signed then t[1..] else t;
    assert u == s[lead + (if signed then 1 else 0)..];
    var hex := |u| >= 2 && u[0] == '0' && (u[1] == 'x' || u[1] == 'X');
    var radix := if hex then 16 else 10;
    var w := if hex then u[2..] else u;
    var k := LeadingDigits(w, radix);
    DigitStringParses(s);
    NoDigitNoValue(s, lead + (if signed then 1 else 0));
    if k == 0 then None
    else
      var v: int := DigitsValue(w[..k], radix);
      Some(if negative then -v else v)
  }

  /** A string of decimal digits has no whitespace, sign or hex prefix, and
      all of it is read. */
  lemma DigitStringParses(s: string)
    ensures |s| > 0 && AllDigits(s, 10) ==>
              && LeadingSpaces(s) == 0 && s[0] != '-' && s[0] != '+'
              && !(|s| >= 2 && s[1] == 'x') && !(|s| >= 2 && s[1] == 'X')
              && LeadingDigits(s, 10) == |s| && s[..|s|] == s
  {
    if |s| > 0 && AllDigits(s, 10) {
      assert RadixDigit(s[0], 10).Some?;
      if |s| >= 2 {
        assert RadixDigit(s[1], 10).Some?;
      }
      LeadingDigitsOfDigits(s, 10);
    }
  }

  /** Without a decimal digit in `s`, no suffix of it starts with one, so
      none has a leading digit run. */
  lemma NoDigitNoValue(s: string, j: int)
    ensures (forall i :: 0 <= i < |s| ==> !IsDecimalDigit(s[i])) && 0 <= j < |s| ==>
              !IsDecimalDigit(s[j..][0]) && LeadingDigits(s[j..], 10) == 0
  {
  }

  /** `parseInt(s || d)`, the idiom every handler uses for numeric parameters. */
  function IntParam(s: Option<string>, d: string): (r: Option<int>)
    ensures Present(s) ==> r == ParseIntJs(s.value)
    ensures !Present(s) ==> r == ParseIntJs(d)
  {
    ParseIntJs(OrStr(s, d))
  }

  lemma {:induction false} NatToStringValue(n: nat)
    ensures AllDigits(NatToString(n), 10)
    ensures DigitsValue(NatToString(n), 10) == n
    decreases n
  {
    var s := NatToString(n);
    if n >= 10 {
      NatToStringValue(n / 10);
      assert s[..|s| - 1] == NatToString(n / 10);
    }
  }

  /** Parsing the rendering of an integer gives back the integer. */
  lemma ParseIntOfIntToString(i: int)
    ensures ParseIntJs(IntToString(i)) == Some(i)
  {
    var s := IntToString(i);
    var m: nat := if i < 0 then -i else i;
    var digits := NatToString(m);
    NatToStringValue(m);
    assert !IsJsSpace(s[0]);
    assert LeadingSpaces(s) == 0;
    assert s[0..] == s;
    if i < 0 {
      assert s[1..] == digits;
    }
    assert !(|digits| >= 2 && digits[0] == '0');
    assert LeadingDigits(digits, 10) == |digits| by {
      LeadingDigitsOfDigits(digits, 10);
    }
    assert digits[..|digits|] == digits;
  }

  lemma {:induction false} LeadingDigitsOfDigits(s: string, radix: nat)
    requires AllDigits(s, radix)
    ensures LeadingDigits(s, radix) == |s|
    decreases |s|
  {
    if |s| > 0 {
      LeadingDigitsOfDigits(s[1..], radix);
    }
  }

  /** Distinct integers render differently. */
  lemma IntToStringInjective(i: int, j: int)
    requires IntToString(i) == IntToString(j)
    ensures i == j
  {
    ParseIntOfIntToString(i);
    ParseIntOfIntToString(j);
  }
}
