/** The global `parseInt` with no radix argument (section 19.2.5 of
    ECMA-262), which the champion lookup applies to every catalog key, and the
    decimal rendering `String(n)` of an integral number, which the queue label
    fallback uses. Number precision is not modelled: values are unbounded
    integers and `NaN` is `None`. */
module JsNumbers {
  import opened Js

  /** StrWhiteSpaceChar of ECMA-262: TAB, VT, FF, SP, NBSP, ZWNBSP, the
      Unicode category Zs, and the line terminators LF, CR, LS and PS. */
  predicate IsStrWhiteSpace(c: char) {
    var n := c as int;
    n == 0x09 || n == 0x0A || n == 0x0B || n == 0x0C || n == 0x0D || n == 0x20
    || n == 0xA0 || n == 0x1680 || (0x2000 <= n <= 0x200A) || n == 0x2028
    || n == 0x2029 || n == 0x202F || n == 0x205F || n == 0x3000 || n == 0xFEFF
  }

  /** `s` without its leading white space. */
  function TrimStart(s: string): string
  {
    if s != [] && IsStrWhiteSpace(s[0]) then TrimStart(s[1..]) else s
  }

  /** Value of `c` as a digit in radix 36 (0-9, then a-z or A-Z); 36 when it is none. */
  function DigitValue(c: char): (d: nat)
    ensures d <= 36
  {
    if '0' <= c <= '9' then c as int - '0' as int
    else if 'a' <= c <= 'z' then c as int - 'a' as int + 10
    else if 'A' <= c <= 'Z' then c as int - 'A' as int + 10
    else 36
  }

  predicate IsDigit(c: char, radix: nat) {
    DigitValue(c) < radix
  }

  /** Length of the longest prefix of `s` made of radix-`radix` digits. */
  function DigitRun(s: string, radix: nat): (n: nat)
    ensures n <= |s|
  {
    if s != [] && IsDigit(s[0], radix) then 1 + DigitRun(s[1..], radix) else 0
  }

  /** The number the digit string `ds` denotes in radix `radix` (applied
      only to runs of digits). */
  function ValueOf(ds: string, radix: nat): nat {
    if ds == [] then 0
    else ValueOf(ds[..|ds| - 1], radix) * radix + DigitValue(ds[|ds| - 1])
  }

  /** `parseInt(s)`: skip leading white space, take one optional sign, then
      read an unsigned number; None (NaN) when no digit was read. `-0` is 0. */
  function ParseInt(s: string): (r: Option<int>)
    ensures TrimStart(s) == [] ==> r.None?
    ensures var t := TrimStart(s);
      t != [] && !IsDigit(t[0], 10) && t[0] != '-' && t[0] != '+' ==> r.None?
    ensures var t := TrimStart(s);
      t != [] && IsDigit(t[0], 10) && !(|t| >= 2 && t[0] == '0' && (t[1] == 'x' || t[1] == 'X')) ==> r.Some? && r.value >= 0
  {
    var t := TrimStart(s);
    if t != [] && t[0] == '-' then Negate(ParseUnsigned(t[1..]))
    else if t != [] && t[0] == '+' then ParseUnsigned(t[1..])
    else ParseUnsigned(t)
  }

  function Negate(r: Option<int>): Option<int> {
    if r.Some? then Some(-r.value) else None
  }

  /** A hexadecimal number after "0x" or "0X", a decimal one otherwise. */
  function ParseUnsigned(u: string): Option<int> {
    if |u| >= 2 && u[0] == '0' && (u[1] == 'x' || u[1] == 'X') then ParseDigits(u[2..], 16)
    else ParseDigits(u, 10)
  }

  /** The value of the digits at the start of `v`, up to the first character
      that is not a digit; None when there is none. */
  function ParseDigits(v: string, radix: nat): Option<int> {
    var n := DigitRun(v, radix);
    if n == 0 then None else Some(ValueOf(v[..n], radix))
  }

  function DigitChar(d: nat): (c: char)
    requires d < 10
    ensures IsDigit(c, 10) && DigitValue(c) == d
  {
    ('0' as int + d) as char
  }

  /** The decimal digits of `n`, without leading zeros. */
  function NatToDecimal(n: nat): (s: string)
    ensures |s| >= 1
    ensures forall i :: 0 <= i < |s| ==> IsDigit(s[i], 10)
    ensures n > 0 ==> s[0] != '0'
  {
    if n < 10 then [DigitChar(n)] else NatToDecimal(n / 10) + [DigitChar(n % 10)]
  }

  /** `String(n)` for an integral number of magnitude below 10^21. */
  function IntToDecimal(n: int): string {
    if n < 0 then "-" + NatToDecimal(-n) else NatToDecimal(n)
  }

  lemma {:induction false} ValueOfDecimal(n: nat)
    ensures ValueOf(NatToDecimal(n), 10) == n
  {
    if n >= 10 {
      var d := NatToDecimal(n / 10);
      var s := d + [DigitChar(n % 10)];
      assert s[..|s| - 1] == d;
      ValueOfDecimal(n / 10);
    }
  }

  lemma {:induction false} DigitRunOfDigits(d: string, rest: string, radix: nat)
    requires forall i :: 0 <= i < |d| ==> IsDigit(d[i], radix)
    requires rest == [] || !IsDigit(rest[0], radix)
    ensures DigitRun(d + rest, radix) == |d|
  {
    if d != [] {
      assert (d + rest)[1..] == d[1..] + rest;
      DigitRunOfDigits(d[1..], rest, radix);
    }
  }

  lemma ParseDecimalDigits(m: nat, rest: string)
    requires rest == [] || (!IsDigit(rest[0], 10) && rest[0] != 'x' && rest[0] != 'X')
    ensures ParseUnsigned(NatToDecimal(m) + rest) == Some(m)
  {
    var d := NatToDecimal(m);
    var u := d + rest;
    assert !(|u| >= 2 && u[0] == '0' && (u[1] == 'x' || u[1] == 'X')) by {
      if |u| >= 2 && u[0] == '0' {
        assert m == 0 && |d| == 1;
        assert u[1] == rest[0];
      }
    }
    DigitRunOfDigits(d, rest, 10);
    assert u[..|d|] == d;
    ValueOfDecimal(m);
  }

  /** A decimal digit is neither white space nor a sign. */
  lemma DecimalDigitIsPlain(c: char)
    requires IsDigit(c, 10)
    ensures !IsStrWhiteSpace(c) && c != '-' && c != '+'
  {
  }

  /** `parseInt` reads back the decimal rendering of any integer, also when
      other text follows that cannot continue the number. */
  lemma ParseIntOfDecimal(n: int, rest: string)
    requires rest == [] || (!IsDigit(rest[0], 10) && rest[0] != 'x' && rest[0] != 'X')
    ensures ParseInt(IntToDecimal(n) + rest) == Some(n)
  {
    var m: nat := if n < 0 then -n else n;
    var d := NatToDecimal(m);
    var s := IntToDecimal(n) + rest;
    ParseDecimalDigits(m, rest);
    if n < 0 {
      assert s == "-" + (d + rest);
      assert !IsStrWhiteSpace(s[0]);
      assert TrimStart(s) == s;
      assert s[1..] == d + rest;
      assert ParseInt(s) == Negate(ParseUnsigned(d + rest));
    } else {
      assert s == d + rest;
      DecimalDigitIsPlain(d[0]);
      assert TrimStart(s) == s;
      assert ParseInt(s) == ParseUnsigned(d + rest);
    }
  }
}
