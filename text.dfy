/**
 * The C library conversions the module relies on, restricted to what it
 * uses: decimal integer scanning (sscanf's %d and %lu, atoi) and strtol in
 * base 16 on a two-character buffer, together with the encoders that
 * produce what they scan.
 */
module Text {
  import opened Types

  predicate IsDigit(c: char) {
    '0' <= c <= '9'
  }

  /** isspace in the C locale. */
  predicate IsSpace(c: char) {
    c == ' ' || c == '\t' || c == '\n' || c == '\r' || c as int == 0x0B || c as int == 0x0C
  }

  predicate IsHexDigit(c: char) {
    IsDigit(c) || 'a' <= c <= 'f' || 'A' <= c <= 'F'
  }

  predicate AllDigits(s: string) {
    forall i :: 0 <= i < |s| ==> IsDigit(s[i])
  }

  /** What is left of s once its leading whitespace is skipped. */
  function SkipSpace(s: string): (r: string)
    ensures r == [] || !IsSpace(r[0])
    ensures |r| <= |s| && r == s[|s| - |r|..]
  {
    if s != [] && IsSpace(s[0]) then SkipSpace(s[1..]) else s
  }

  /** Length of the run of decimal digits at the head of s. */
  function DigitRun(s: string): (n: nat)
    ensures n <= |s| && AllDigits(s[..n])
    ensures n < |s| ==> !IsDigit(s[n])
  {
    if s != [] && IsDigit(s[0]) then 1 + DigitRun(s[1..]) else 0
  }

  /** Value of a string of decimal digits, most significant first. */
  function DecimalValue(s: string): (v: nat)
    requires AllDigits(s)
  {
    if s == [] then 0 else 10 * DecimalValue(s[..|s| - 1]) + (s[|s| - 1] as int - '0' as int)
  }

  /**
   * One integer conversion as sscanf's %d and %lu perform it: leading
   * whitespace, an optional sign, then at least one decimal digit. Gives the
   * value read and the unread rest, or None when no digit follows.
   */
  function ScanInteger(s: string): (r: Option<(int, string)>)
  {
    var t := SkipSpace(s);
    var signed := t != [] && (t[0] == '-' || t[0] == '+');
    var u := if signed then t[1..] else t;
    var n := DigitRun(u);
    if n == 0 then None
    else
      var v: int := DecimalValue(u[..n]);
      Some((if signed && t[0] == '-' then -v else v, u[n..]))
  }

  /** atoi: the integer at the head of s, or 0 when there is none. */
  function Atoi(s: string): (v: int)
    ensures ScanInteger(s).None? ==> v == 0
    ensures s != [] && AllDigits(s) ==> v == DecimalValue(s)
  {
    ScanIntegerDigits(s);
    match ScanInteger(s)
    case None => 0
    case Some((v, _)) => v
  }

  /**
   * A conversion that succeeds consumes at least one character and stops at
   * the first character that is not a digit.
   */
  lemma ScanIntegerStops(s: string)
    ensures var r := ScanInteger(s);
      r.Some? ==> |r.value.1| < |s| && r.value.1 == s[|s| - |r.value.1|..]
                  && (r.value.1 == [] || !IsDigit(r.value.1[0]))
  {
    var t := SkipSpace(s);
    var signed := t != [] && (t[0] == '-' || t[0] == '+');
    var u := if signed then t[1..] else t;
    var n := DigitRun(u);
    if n > 0 {
      assert u == s[|s| - |u|..];
      var rest := u[n..];
      assert rest == s[|s| - |rest|..];
      assert ScanInteger(s).value.1 == rest;
    }
  }

  /** A plain run of digits is read whole. */
  lemma ScanIntegerDigits(s: string)
    ensures s != [] && AllDigits(s) ==> ScanInteger(s) == Some((DecimalValue(s) as int, []))
  {
    if s != [] && AllDigits(s) {
      ScanWholeRun(s);
    }
  }

  lemma ScanWholeRun(s: string)
    requires s != [] && AllDigits(s)
    ensures ScanInteger(s) == Some((DecimalValue(s) as int, []))
  {
    ScanDigitsThen(s, []);
    assert s + [] == s;
  }

  function DigitChar(d: nat): (c: char)
    requires d < 10
    ensures IsDigit(c)
  {
    ('0' as int + d) as char
  }

  /** The decimal rendering of n, as printf's %u writes it. */
  function Decimal(n: nat): (s: string)
    ensures s != [] && AllDigits(s)
  {
    if n < 10 then [DigitChar(n)] else Decimal(n / 10) + [DigitChar(n % 10)]
  }

  lemma {:induction false} DecimalValueOfDecimal(n: nat)
    ensures DecimalValue(Decimal(n)) == n
  {
    if n >= 10 {
      var s := Decimal(n);
      assert s[..|s| - 1] == Decimal(n / 10);
      DecimalValueOfDecimal(n / 10);
    }
  }

  lemma {:induction false} DecimalLength(n: nat)
    ensures n >= 100 ==> |Decimal(n)| >= 3
  {
    if n >= 10 {
      DecimalLength(n / 10);
    }
  }

  lemma {:induction false} DigitRunOfDigits(d: string, rest: string)
    requires AllDigits(d)
    requires rest == [] || !IsDigit(rest[0])
    ensures DigitRun(d + rest) == |d|
  {
    if d != [] {
      assert (d + rest)[1..] == d[1..] + rest;
      DigitRunOfDigits(d[1..], rest);
    }
  }

  /** Scanning the rendering of n stops exactly where the rendering ends and yields n. */
  lemma ScanDecimal(n: nat, rest: string)
    requires rest == [] || !IsDigit(rest[0])
    ensures ScanInteger(Decimal(n) + rest) == Some((n as int, rest))
  {
    ScanDigitsThen(Decimal(n), rest);
    DecimalValueOfDecimal(n);
  }

  /** A run of digits followed by a non-digit is read up to the non-digit. */
  lemma ScanDigitsThen(d: string, rest: string)
    requires d != [] && AllDigits(d)
    requires rest == [] || !IsDigit(rest[0])
    ensures ScanInteger(d + rest) == Some((DecimalValue(d) as int, rest))
  {
    var s := d + rest;
    assert s[0] == d[0];
    assert !IsSpace(s[0]) && s[0] != '-' && s[0] != '+';
    assert SkipSpace(s) == s;
    DigitRunOfDigits(d, rest);
    assert s[..|d|] == d;
    assert s[|d|..] == rest;
  }

  /** atoi inverts the decimal rendering. */
  lemma AtoiDecimal(n: nat)
    ensures Atoi(Decimal(n)) == n
  {
    ScanDecimal(n, []);
    assert Decimal(n) + [] == Decimal(n);
  }

  function HexValue(c: char): (v: nat)
    requires IsHexDigit(c)
    ensures v < 16
  {
    if IsDigit(c) then c as int - '0' as int
    else if 'a' <= c <= 'f' then c as int - 'a' as int + 10
    else c as int - 'A' as int + 10
  }

  /** The upper-case hexadecimal digit for d. */
  function HexChar(d: nat): (c: char)
    requires d < 16
    ensures IsHexDigit(c) && HexValue(c) == d
  {
    if d < 10 then ('0' as int + d) as char else ('A' as int + d - 10) as char
  }

  /**
   * strtol(buf, NULL, 16) where buf holds exactly the two characters c0 c1
   * followed by NUL: optional whitespace or sign, then the longest run of hex
   * digits; 0 when there is no digit to convert.
   */
  function StrtolHexPair(c0: char, c1: char): (v: int)
    ensures -15 <= v <= 255
    ensures IsHexDigit(c0) && IsHexDigit(c1) ==> v == 16 * HexValue(c0) + HexValue(c1)
  {
    var tail := if IsHexDigit(c1) then HexValue(c1) else 0;
    if IsSpace(c0) || c0 == '+' then tail
    else if c0 == '-' then -tail
    else if !IsHexDigit(c0) then 0
    else if IsHexDigit(c1) then 16 * HexValue(c0) + HexValue(c1)
    else HexValue(c0)
  }

  /** The two upper-case hex digits of a byte, as "%02X" writes them. */
  function HexByte(b: uint8): (s: string)
    ensures |s| == 2 && IsHexDigit(s[0]) && IsHexDigit(s[1])
    ensures StrtolHexPair(s[0], s[1]) == b as int
  {
    [HexChar(b as int / 16), HexChar(b as int % 16)]
  }
}
