/** The slice of Go's integer types and of package strconv that the orchestration relies on:
    strconv.Atoi (the amount and balance parser), strconv.FormatUint and the `%d` rendering of
    an int32, and strconv.Quote as used in the text of an Atoi error. */
module Strconv {

  const MaxInt64: int := 0x7FFF_FFFF_FFFF_FFFF
  const MinInt64: int := -0x8000_0000_0000_0000
  const MaxUint64: int := 0xFFFF_FFFF_FFFF_FFFF

  type int32 = x: int | -0x8000_0000 <= x <= 0x7FFF_FFFF
  type int64 = x: int | -0x8000_0000_0000_0000 <= x <= 0x7FFF_FFFF_FFFF_FFFF
  type uint64 = x: int | 0 <= x <= 0xFFFF_FFFF_FFFF_FFFF

  /** Go's conversion `uint64(x)` of a signed value: two's-complement wrap-around. */
  function Uint64Of(x: int64): (r: uint64)
    ensures 0 <= x ==> r == x
    ensures x < 0 ==> r == x + MaxUint64 + 1
  {
    x % (MaxUint64 + 1)
  }

  // ---------------------------------------------------------------------------------------------
  // Decimal digits

  predicate IsDigit(c: char) { '0' <= c <= '9' }

  predicate IsDigits(s: string) { forall i | 0 <= i < |s| :: IsDigit(s[i]) }

  function DigitValue(c: char): nat
    requires IsDigit(c)
  {
    c as int - '0' as int
  }

  function DigitChar(d: nat): (c: char)
    requires d < 10
    ensures IsDigit(c) && DigitValue(c) == d
  {
    ('0' as int + d) as char
  }

  function Pow10(k: nat): (p: nat)
    ensures p >= 1
  {
    if k == 0 then 1 else 10 * Pow10(k - 1)
  }

  /** The number a string of decimal digits denotes, most significant digit first. */
  function DigitsValue(s: string): nat
    requires IsDigits(s)
  {
    if s == [] then 0 else 10 * DigitsValue(s[..|s| - 1]) + DigitValue(s[|s| - 1])
  }

  /** The same value read from the front: the leading digit weighs 10^(|s|-1). */
  lemma {:induction false} DigitsValueFront(s: string)
    requires |s| > 0 && IsDigits(s)
    ensures DigitsValue(s) == DigitValue(s[0]) * Pow10(|s| - 1) + DigitsValue(s[1..])
  {
    if |s| > 1 {
      var init := s[..|s| - 1];
      DigitsValueFront(init);
      assert init[1..] == s[1..][..|s| - 2];
      assert init[0] == s[0];
      calc {
        DigitsValue(s);
        10 * DigitsValue(init) + DigitValue(s[|s| - 1]);
        10 * (DigitValue(s[0]) * Pow10(|s| - 2) + DigitsValue(init[1..])) + DigitValue(s[|s| - 1]);
        DigitValue(s[0]) * Pow10(|s| - 1) + (10 * DigitsValue(s[1..][..|s| - 2]) + DigitValue(s[1..][|s| - 2]));
        DigitValue(s[0]) * Pow10(|s| - 1) + DigitsValue(s[1..]);
      }
    }
  }

  // ---------------------------------------------------------------------------------------------
  // Reference grammar for what Atoi accepts

  predicate HasSign(s: string) { |s| > 0 && (s[0] == '+' || s[0] == '-') }

  /** The part of `s` after an optional leading sign. */
  function Magnitude(s: string): string
  {
    if HasSign(s) then s[1..] else s
  }

  /** A decimal integer literal: an optional `+` or `-`, then one or more decimal digits
      (no spaces, no underscores, no base prefix; leading zeros allowed). */
  predicate IsDecimalLiteral(s: string)
  {
    |Magnitude(s)| > 0 && IsDigits(Magnitude(s))
  }

  /** The mathematical value of a decimal literal, whatever its size. */
  function LiteralValue(s: string): int
    requires IsDecimalLiteral(s)
  {
    var v: int := DigitsValue(Magnitude(s));
    if s[0] == '-' then -v else v
  }

  // ---------------------------------------------------------------------------------------------
  // strconv.Atoi

  datatype NumErrorKind = ErrSyntax | ErrRange

  /** strconv.NumError as Atoi produces it: the input it failed on and why. */
  datatype NumError = NumError(num: string, kind: NumErrorKind)
  {
    /** The error's text, as `%v` prints it: the function name, the quoted input and the reason. */
    function Text(): (r: string)
      ensures IsPlainAscii(num) ==>
                r == "strconv.Atoi: parsing \"" + num + "\": "
                     + (if kind == ErrSyntax then "invalid syntax" else "value out of range")
    {
      "strconv.Atoi: parsing " + Quote(num) + ": "
        + (match kind case ErrSyntax => "invalid syntax" case ErrRange => "value out of range")
    }
  }

  datatype AtoiResult = Parsed(value: int64) | Failed(err: NumError)

  datatype UintScan = Scanned(value: uint64) | Rejected(kind: NumErrorKind)

  /** The digit loop of strconv.ParseUint in base 10, continuing from accumulator `n`: it stops at
      the first character that is not a digit (syntax error) or at the first digit that takes the
      accumulator past 2^64 - 1 (range error), whichever comes first. */
  function ScanUint(s: string, n: uint64): UintScan
    decreases |s|
  {
    if s == [] then Scanned(n)
    else if !IsDigit(s[0]) then Rejected(ErrSyntax)
    else if 10 * n + DigitValue(s[0]) > MaxUint64 then Rejected(ErrRange)
    else ScanUint(s[1..], 10 * n + DigitValue(s[0]))
  }

  /** strconv.ParseUint(s, 10, 64): the empty string is a syntax error. */
  function ParseUint(s: string): UintScan
  {
    if s == [] then Rejected(ErrSyntax) else ScanUint(s, 0)
  }

  lemma ShiftDigit(n: nat, d: nat, p: nat)
    ensures n * (10 * p) + d * p == (10 * n + d) * p
  {
  }

  lemma MulAtLeast(m: nat, p: nat)
    requires p >= 1
    ensures m * p >= m
  {
  }

  lemma {:induction false} ScanDigits(s: string, n: uint64)
    requires IsDigits(s)
    ensures var v := n * Pow10(|s|) + DigitsValue(s);
            ScanUint(s, n) == if v <= MaxUint64 then Scanned(v) else Rejected(ErrRange)
  {
    if s != [] {
      var d, t := DigitValue(s[0]), s[1..];
      var m := 10 * n + d;
      DigitsValueFront(s);
      ShiftDigit(n, d, Pow10(|t|));
      if m > MaxUint64 {
        assert m * Pow10(|t|) >= m by { MulAtLeast(m, Pow10(|t|)); }
      } else {
        ScanDigits(t, m);
      }
    }
  }

  lemma {:induction false} ScanRejectsNonDigits(s: string, n: uint64)
    requires !IsDigits(s)
    ensures ScanUint(s, n).Rejected?
  {
    if IsDigit(s[0]) && 10 * n + DigitValue(s[0]) <= MaxUint64 {
      assert !IsDigits(s[1..]) by {
        var i :| 0 <= i < |s| && !IsDigit(s[i]);
        assert s[1..][i - 1] == s[i];
      }
      ScanRejectsNonDigits(s[1..], 10 * n + DigitValue(s[0]));
    }
  }

  /** ParseUint accepts exactly the non-empty digit strings whose value fits in 64 bits. */
  lemma ParseUintDigits(u: string)
    ensures |u| > 0 && IsDigits(u) && DigitsValue(u) <= MaxUint64 ==> ParseUint(u) == Scanned(DigitsValue(u))
    ensures |u| > 0 && IsDigits(u) && DigitsValue(u) > MaxUint64 ==> ParseUint(u) == Rejected(ErrRange)
    ensures !(|u| > 0 && IsDigits(u)) ==> ParseUint(u).Rejected?
  {
    if u != [] {
      if IsDigits(u) { ScanDigits(u, 0); } else { ScanRejectsNonDigits(u, 0); }
    }
  }

  /** strconv.Atoi on a 64-bit platform. It accepts exactly the decimal literals whose value fits
      in an int64, and then returns that value; every error names the whole input, and a
      well-formed literal is only ever refused as out of range. */
  function Atoi(s: string): (r: AtoiResult)
    ensures r.Parsed? <==> IsDecimalLiteral(s) && MinInt64 <= LiteralValue(s) <= MaxInt64
    ensures r.Parsed? ==> r.value == LiteralValue(s)
    ensures r.Failed? ==> r.err.num == s
    ensures r.Failed? && IsDecimalLiteral(s) ==> r.err.kind == ErrRange
  {
    var neg := HasSign(s) && s[0] == '-';
    var u := Magnitude(s);
    ParseUintDigits(u);
    match ParseUint(u)
    case Rejected(kind) => Failed(NumError(s, kind))
    case Scanned(un) =>
      if !neg && un > MaxInt64 then Failed(NumError(s, ErrRange))
      else if neg && un > MaxInt64 + 1 then Failed(NumError(s, ErrRange))
      else
        var v: int := un;
        Parsed(if neg then -v else v)
  }

  // ---------------------------------------------------------------------------------------------
  // strconv.FormatUint and `%d`

  /** strconv.FormatUint(n, 10): the shortest decimal spelling of n. */
  function FormatUint(n: nat): (s: string)
    ensures |s| > 0 && IsDigits(s) && DigitsValue(s) == n
    ensures s[0] == '0' ==> s == "0"
  {
    if n < 10 then [DigitChar(n)]
    else
      var p := FormatUint(n / 10);
      var s := p + [DigitChar(n % 10)];
      assert s[..|s| - 1] == p;
      s
  }

  /** `%d` of a signed integer (the commit status code). */
  function FormatInt(x: int): (s: string)
    ensures IsDecimalLiteral(s) && LiteralValue(s) == x
    ensures s[0] != '+'
    ensures Magnitude(s)[0] == '0' ==> s == "0"
  {
    if x < 0 then
      var s := "-" + FormatUint(-x);
      assert Magnitude(s) == FormatUint(-x);
      s
    else FormatUint(x)
  }

  /** Atoi reads back what FormatUint writes, and refuses it as out of range exactly when the
      number does not fit in an int64. */
  lemma AtoiFormatUint(n: uint64)
    ensures Atoi(FormatUint(n)) == if n <= MaxInt64 then Parsed(n) else Failed(NumError(FormatUint(n), ErrRange))
  {
    var s := FormatUint(n);
    assert Magnitude(s) == s;
  }

  // ---------------------------------------------------------------------------------------------
  // strconv.Quote

  function HexDigit(d: nat): char
    requires d < 16
  {
    "0123456789abcdef"[d]
  }

  /** Printable ASCII other than the double quote and the backslash: what Quote copies unchanged. */
  predicate IsPlainChar(c: char)
  {
    ' ' <= c <= '~' && c != '"' && c != '\\'
  }

  predicate IsPlainAscii(s: string)
  {
    forall i | 0 <= i < |s| :: IsPlainChar(s[i])
  }

  /** How strconv.Quote writes one character inside the quotes. */
  function QuoteChar(c: char): (r: string)
    ensures |r| >= 1
    ensures IsPlainChar(c) ==> r == [c]
    ensures !IsPlainChar(c) && c <= '\U{7F}' ==> |r| >= 2 && r[0] == '\\'
  {
    if c == '"' then "\\\""
    else if c == '\\' then "\\\\"
    else if c == '\U{7}' then "\\a"
    else if c == '\U{8}' then "\\b"
    else if c == '\U{C}' then "\\f"
    else if c == '\n' then "\\n"
    else if c == '\r' then "\\r"
    else if c == '\t' then "\\t"
    else if c == '\U{B}' then "\\v"
    else if c < ' ' || c == '\U{7F}' then "\\x" + [HexDigit(c as int / 16), HexDigit(c as int % 16)]
    else [c]
  }

  function QuoteBody(s: string): (r: string)
    ensures |r| >= |s|
    ensures IsPlainAscii(s) ==> r == s
  {
    if s == [] then "" else QuoteChar(s[0]) + QuoteBody(s[1..])
  }

  /** strconv.Quote: a double-quoted Go string literal spelling `s`. */
  function Quote(s: string): (r: string)
    ensures |r| >= |s| + 2 && r[0] == '"' && r[|r| - 1] == '"'
    ensures IsPlainAscii(s) ==> r == "\"" + s + "\""
  {
    "\"" + QuoteBody(s) + "\""
  }
}
