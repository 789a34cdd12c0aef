/**
 * The two conversions the core borrows from Go's strconv package:
 * `Atoi` (decimal text to int64, or a *NumError) and `Itoa` (int to decimal text).
 */
module Strconv {
  import opened Wrappers
  import opened GoInt

  const MaxUint64: int := 0xFFFF_FFFF_FFFF_FFFF

  predicate IsDigit(c: char) {
    '0' <= c <= '9'
  }

  predicate AllDigits(s: string) {
    forall i :: 0 <= i < |s| ==> IsDigit(s[i])
  }

  /** Length of the run of decimal digits at the front of `s`. */
  function DigitRun(s: string): (n: nat)
    ensures n <= |s|
    ensures AllDigits(s[..n])
    ensures n < |s| ==> !IsDigit(s[n])
  {
    if s == [] || !IsDigit(s[0]) then 0
    else
      var n := 1 + DigitRun(s[1..]);
      assert s[..n] == [s[0]] + s[1..][..n - 1];
      n
  }

  /** The value of a string of decimal digits, most significant digit first. */
  function DecimalValue(s: string): nat
    requires AllDigits(s)
  {
    if s == [] then 0
    else 10 * DecimalValue(s[..|s| - 1]) + (s[|s| - 1] as int - '0' as int)
  }

  /** The failure reasons of strconv: ErrSyntax and ErrRange. */
  datatype NumErr = ErrSyntax | ErrRange {
    function Text(): string {
      match this
      case ErrSyntax => "invalid syntax"
      case ErrRange => "value out of range"
    }
  }

  /** A text between double quotes, as a `"%s"` format writes it: nothing is escaped. */
  function Quote(s: string): string {
    "\"" + s + "\""
  }

  /** An ASCII control character: below the space, or DEL. */
  predicate IsControl(c: char) {
    (c as int) < 0x20 || c as int == 0x7F
  }

  /** The characters strconv.Quote writes as a backslash escape (ASCII only). */
  predicate NeedsEscape(c: char) {
    c == '"' || c == '\\' || IsControl(c)
  }

  /** A lower-case hexadecimal digit. */
  function LowerHex(d: nat): (c: char)
    requires d < 16
    ensures !IsControl(c) && c != '"' && c != '\\'
  {
    if d < 10 then ('0' as int + d) as char else ('a' as int + d - 10) as char
  }

  /**
   * strconv.Quote's rendering of one character: `\"` and `\\`, the named
   * escapes \a \b \f \n \r \t \v, `\x` and two lower-case hex digits for
   * the other controls, and the character itself otherwise.
   */
  function EscapeChar(c: char): (e: string)
    ensures NeedsEscape(c) ==> |e| >= 2 && e[0] == '\\'
    ensures !NeedsEscape(c) ==> e == [c]
    ensures forall i :: 0 <= i < |e| ==> !IsControl(e[i])
  {
    var n := c as int;
    if c == '"' then "\\\""
    else if c == '\\' then "\\\\"
    else if n == 7 then "\\a"
    else if n == 8 then "\\b"
    else if n == 12 then "\\f"
    else if n == 10 then "\\n"
    else if n == 13 then "\\r"
    else if n == 9 then "\\t"
    else if n == 11 then "\\v"
    else if IsControl(c) then ['\\', 'x', LowerHex(n / 16), LowerHex(n % 16)]
    else [c]
  }

  /** The escaped body of a quoted text, character by character. */
  function Escape(s: string): (e: string)
    ensures |e| >= |s|
    ensures (forall i :: 0 <= i < |s| ==> !NeedsEscape(s[i])) ==> e == s
    ensures forall i :: 0 <= i < |e| ==> !IsControl(e[i])
  {
    if s == [] then []
    else
      var e := EscapeChar(s[0]) + Escape(s[1..]);
      assert forall i :: 1 <= i < |s| ==> s[1..][i - 1] == s[i];
      e
  }

  /** Go's strconv.Quote, for ASCII text: the escaped text between double quotes. */
  function GoQuote(s: string): (q: string)
    ensures |q| >= |s| + 2 && q[0] == '"' && q[|q| - 1] == '"'
    ensures forall i :: 0 <= i < |q| ==> !IsControl(q[i])
  {
    "\"" + Escape(s) + "\""
  }

  /** No character's escape is a prefix of another's: escaped text splits back one way only. */
  lemma EscapeCharPrefixFree(a: char, b: char, x: string, y: string)
    requires EscapeChar(a) + x == EscapeChar(b) + y
    ensures a == b && x == y
  {
    var ea, eb := EscapeChar(a), EscapeChar(b);
    var t := ea + x;
    assert t[0] == ea[0] == eb[0];
    if |ea| >= 2 && |eb| >= 2 {
      assert t[1] == ea[1] == eb[1];
    }
    assert |ea| == |eb|;
    assert ea == t[..|ea|] == eb;
    if IsControl(a) && IsControl(b) && |ea| == 4 {
      assert ea[2] == eb[2] && ea[3] == eb[3];
      assert a as int / 16 == b as int / 16 && a as int % 16 == b as int % 16;
    }
    assert x == t[|ea|..] == y;
  }

  /** Different texts escape differently. */
  lemma {:induction false} EscapeInjective(s: string, t: string)
    requires Escape(s) == Escape(t)
    ensures s == t
    decreases |s|
  {
    if s != [] && t != [] {
      EscapeCharPrefixFree(s[0], t[0], Escape(s[1..]), Escape(t[1..]));
      EscapeInjective(s[1..], t[1..]);
      assert s == [s[0]] + s[1..] && t == [t[0]] + t[1..];
    }
  }

  /** The quoted text names its input: different texts quote differently. */
  lemma GoQuoteInjective(s: string, t: string)
    requires GoQuote(s) == GoQuote(t)
    ensures s == t
  {
    var q := GoQuote(s);
    assert Escape(s) == q[1..|q| - 1] == Escape(t);
    EscapeInjective(s, t);
  }

  /** The text of the *NumError that strconv.Atoi returns for input `s`. */
  function AtoiError(s: string, e: NumErr): string {
    "strconv.Atoi: parsing " + GoQuote(s) + ": " + e.Text()
  }

  /** The text after an optional leading sign. */
  function Magnitude(s: string): (m: string)
    requires s != []
    ensures |m| == |s| || (|m| == |s| - 1 && (s[0] == '-' || s[0] == '+'))
  {
    if s[0] == '-' || s[0] == '+' then s[1..] else s
  }

  /** The texts strconv.Atoi reads as numbers: an optional sign, then one or more decimal digits. */
  predicate IsDecimalText(s: string) {
    s != [] && Magnitude(s) != [] && AllDigits(Magnitude(s))
  }

  /** The value a decimal text denotes, negated after a leading '-'. */
  function SignedValue(s: string): int
    requires IsDecimalText(s)
  {
    if s[0] == '-' then -(DecimalValue(Magnitude(s)) as int) else DecimalValue(Magnitude(s))
  }

  /** A decimal text whose value fits in an int64. */
  predicate IsInt64Text(s: string) {
    IsDecimalText(s) && IsInt64(SignedValue(s))
  }

  /**
   * strconv.Atoi on a 64-bit platform: an optional sign and at least one
   * decimal digit, nothing else, and a value that fits in an int64.
   * Scanning left to right, an unsigned magnitude beyond 2^64-1 is reported as
   * ErrRange before a later non-digit could be reported as ErrSyntax.
   */
  function Atoi(s: string): (r: Result<int, string>)
    ensures r.Success? ==> IsInt64(r.value)
    ensures r.Failure? ==> r.error == AtoiError(s, ErrSyntax) || r.error == AtoiError(s, ErrRange)
    ensures s == [] ==> r == Failure(AtoiError(s, ErrSyntax))
  {
    if s == [] then Failure(AtoiError(s, ErrSyntax))
    else
      var negative := s[0] == '-';
      var magnitude := Magnitude(s);
      var n := DigitRun(magnitude);
      if magnitude == [] then Failure(AtoiError(s, ErrSyntax))
      else if DecimalValue(magnitude[..n]) > MaxUint64 then Failure(AtoiError(s, ErrRange))
      else if n < |magnitude| then Failure(AtoiError(s, ErrSyntax))
      else
        assert magnitude[..n] == magnitude;
        var v: int := DecimalValue(magnitude);
        if negative then
          if v > -MinInt then Failure(AtoiError(s, ErrRange)) else Success(-v)
        else
          if v > MaxInt then Failure(AtoiError(s, ErrRange)) else Success(v)
  }

  function DigitChar(d: nat): (c: char)
    requires d < 10
    ensures IsDigit(c) && c as int - '0' as int == d
  {
    ('0' as int + d) as char
  }

  /** The decimal digits of `v`, without leading zeros. */
  function Digits(v: nat): (s: string)
    ensures |s| >= 1 && AllDigits(s)
    ensures |s| == 1 <==> v < 10
    ensures s[0] == '0' <==> v == 0
  {
    if v < 10 then [DigitChar(v)] else Digits(v / 10) + [DigitChar(v % 10)]
  }

  /** strconv.Itoa: decimal text, with a leading '-' for a negative value. */
  function Itoa(n: int): (s: string)
    ensures |s| >= 1
    ensures n < 0 <==> s[0] == '-'
    ensures s[0] != '+'
    ensures n >= 0 ==> (s[0] == '0' <==> n == 0)
    ensures n >= 0 && |s| > 1 ==> s[0] != '0'
    ensures n < 0 ==> |s| >= 2 && s[1] != '0'
  {
    if n < 0 then "-" + Digits(-n) else Digits(n)
  }

  /** Reading back the digits of a value gives the value. */
  lemma {:induction false} DecimalValueOfDigits(v: nat)
    ensures DecimalValue(Digits(v)) == v
  {
    if v >= 10 {
      DecimalValueOfDigits(v / 10);
      var s := Digits(v);
      assert s[..|s| - 1] == Digits(v / 10);
    }
  }

  /** A run of digits that covers the whole string. */
  lemma DigitRunOfDigits(s: string)
    requires AllDigits(s)
    ensures DigitRun(s) == |s|
  {
  }

  /** Atoi inverts Itoa on every int64: what the writer formats, the parser reads back. */
  lemma AtoiItoa(n: int)
    requires IsInt64(n)
    ensures Atoi(Itoa(n)) == Success(n)
  {
    var s := Itoa(n);
    var magnitude := if n < 0 then -n else n;
    var digits := Digits(magnitude);
    DecimalValueOfDigits(magnitude);
    DigitRunOfDigits(digits);
    if n < 0 {
      assert s[1..] == digits;
    } else {
      assert s == digits;
      assert IsDigit(s[0]);
    }
    assert digits[..|digits|] == digits;
  }

  /** A run of digits that stops before the end of the string stops at a non-digit. */
  lemma DigitRunStops(s: string, i: nat)
    requires i < |s| && AllDigits(s[..i]) && !IsDigit(s[i])
    ensures DigitRun(s) == i
  {
  }

  /**
   * Atoi succeeds exactly on a sign-and-digits text whose value is an int64,
   * and then returns that value.
   */
  lemma AtoiSucceeds(s: string)
    ensures Atoi(s).Success? <==> IsDecimalText(s) && IsInt64(SignedValue(s))
    ensures Atoi(s).Success? ==> Atoi(s).value == SignedValue(s)
  {
    if s != [] {
      var m := Magnitude(s);
      var n := DigitRun(m);
      if AllDigits(m) && m != [] {
        assert m[..n] == m;
      }
      if n == |m| {
        assert m[..n] == m;
      }
    }
  }

  /**
   * A non-digit after the optional sign makes Atoi fail with ErrSyntax, unless
   * the digits before it already overflow 2^64-1 (then it is ErrRange).
   */
  lemma AtoiSyntaxError(s: string, i: nat)
    requires s != [] && i < |Magnitude(s)|
    requires AllDigits(Magnitude(s)[..i]) && !IsDigit(Magnitude(s)[i])
    requires DecimalValue(Magnitude(s)[..i]) <= MaxUint64
    ensures Atoi(s) == Failure(AtoiError(s, ErrSyntax))
  {
    DigitRunStops(Magnitude(s), i);
  }

  /** A text that starts with neither a sign nor a digit, such as "BAD", is a syntax error. */
  lemma AtoiBadStart(s: string)
    requires s != [] && !IsDigit(s[0]) && s[0] != '-' && s[0] != '+'
    ensures Atoi(s) == Failure(AtoiError(s, ErrSyntax))
  {
    assert Magnitude(s)[..0] == [];
    AtoiSyntaxError(s, 0);
  }

  /** The parser test's non-numeric column. */
  lemma AtoiBad()
    ensures Atoi("BAD") == Failure(AtoiError("BAD", ErrSyntax))
  {
    AtoiBadStart("BAD");
  }

  /** A sign and digits whose value does not fit in int64 is a range error. */
  lemma AtoiRange(s: string)
    requires IsDecimalText(s) && !IsInt64(SignedValue(s))
    ensures Atoi(s) == Failure(AtoiError(s, ErrRange))
  {
    var m := Magnitude(s);
    DigitRunOfDigits(m);
    assert m[..DigitRun(m)] == m;
  }

  /** A quote is quoted with a backslash before it. */
  lemma GoQuoteQuoteExample()
    ensures GoQuote("5\"") == "\"5\\\"\""
  {
    assert "5\""[1..] == "\"" && "\""[1..] == [];
    assert Escape("\"") == "\\\"";
    assert Escape("5\"") == "5\\\"";
  }

  /** A tab is quoted as its named escape. */
  lemma GoQuoteTabExample()
    ensures GoQuote("\t1") == "\"\\t1\""
  {
    assert "\t1"[1..] == "1";
    assert Escape("1") == "1";
    assert Escape("\t1") == "\\t1";
  }

  /** A quote inside the input comes back escaped in the error text. */
  lemma AtoiQuoteExample()
    ensures Atoi("5\"") == Failure("strconv.Atoi: parsing " + "\"5\\\"\"" + ": " + "invalid syntax")
  {
    AtoiSyntaxError("5\"", 1);
    GoQuoteQuoteExample();
  }

  /** A tab inside the input comes back as its named escape. */
  lemma AtoiTabExample()
    ensures Atoi("\t1") == Failure("strconv.Atoi: parsing " + "\"\\t1\"" + ": " + "invalid syntax")
  {
    AtoiBadStart("\t1");
    GoQuoteTabExample();
  }
}
