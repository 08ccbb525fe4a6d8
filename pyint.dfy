/**
 * Python's `int(token)` on a token that `str.split()` produced (so it holds no
 * whitespace), base 10: an optional sign, then ASCII digits with at most one
 * `_` between two digits, and no more than `MAX_STR_DIGITS` digits in all
 * (the limit CPython enforces since 3.11). `None` stands for the
 * `ValueError` it raises. `ShowInt` is `str(n)`, the partner that `int`
 * inverts.
 */
module PyInt {

  import opened Wrappers

  predicate IsAsciiDigit(c: char) {
    '0' <= c <= '9'
  }

  /** `sys.get_int_max_str_digits()` by default: `int` refuses longer decimal literals. */
  const MAX_STR_DIGITS: nat := 4300

  /** How many ASCII digits `s` holds; underscores and the sign do not count. */
  function DigitCount(s: string): (r: nat)
    ensures r <= |s|
  {
    if s == [] then 0 else (if IsAsciiDigit(s[0]) then 1 else 0) + DigitCount(s[1..])
  }

  /** A string of digits only counts all its characters. */
  lemma {:induction false} DigitCountOfDigits(s: string)
    requires forall i | 0 <= i < |s| :: IsAsciiDigit(s[i])
    ensures DigitCount(s) == |s|
  {
    if s != [] {
      assert forall i | 0 <= i < |s[1..]| :: s[1..][i] == s[i + 1];
      DigitCountOfDigits(s[1..]);
    }
  }

  function DigitValue(c: char): nat
    requires IsAsciiDigit(c)
  {
    c as int - '0' as int
  }

  function DigitChar(d: nat): (c: char)
    requires d < 10
    ensures IsAsciiDigit(c) && DigitValue(c) == d
  {
    ('0' as int + d) as char
  }

  /**
   * The unsigned part of a literal, read from its last digit backwards; one
   * `_` may separate a digit from the digits before it.
   */
  function ParseDigits(s: string): Option<nat>
    decreases |s|
  {
    if s == [] || !IsAsciiDigit(s[|s| - 1]) then None
    else
      var init := s[..|s| - 1];
      if init == [] then Some(DigitValue(s[|s| - 1]))
      else
        var digits := if init[|init| - 1] == '_' then init[..|init| - 1] else init;
        match ParseDigits(digits)
        case None => None
        case Some(v) => Some(10 * v + DigitValue(s[|s| - 1]))
  }

  /**
   * The digits are accepted only if they start and end with a digit and hold
   * nothing but digits and underscores; every non-empty run of digits is
   * accepted here (`ParseInt` applies the length limit).
   */
  lemma {:induction false} ParseDigitsSpec(s: string)
    ensures ParseDigits(s).Some? ==> s != [] && IsAsciiDigit(s[0]) && IsAsciiDigit(s[|s| - 1])
    ensures ParseDigits(s).Some? ==> forall i | 0 <= i < |s| :: IsAsciiDigit(s[i]) || s[i] == '_'
    ensures s != [] && (forall i | 0 <= i < |s| :: IsAsciiDigit(s[i])) ==> ParseDigits(s).Some?
    decreases |s|
  {
    if s != [] && IsAsciiDigit(s[|s| - 1]) {
      var init := s[..|s| - 1];
      if init != [] {
        var digits := if init[|init| - 1] == '_' then init[..|init| - 1] else init;
        ParseDigitsSpec(digits);
        assert forall i | 0 <= i < |digits| :: digits[i] == s[i];
      }
    }
  }

  /** The syntax of a literal, without the length limit: a leading `+` or `-`, then the digits. */
  function ParseLiteral(s: string): Option<int> {
    if s != [] && (s[0] == '+' || s[0] == '-') then
      match ParseDigits(s[1..])
      case None => None
      case Some(v) =>
        var n: int := if s[0] == '-' then -(v as int) else v;
        Some(n)
    else
      match ParseDigits(s)
      case None => None
      case Some(v) => Some(v)
  }

  /** `int(token)`: a literal of at most `MAX_STR_DIGITS` digits. */
  function ParseInt(s: string): Option<int> {
    if DigitCount(s) > MAX_STR_DIGITS then None else ParseLiteral(s)
  }

  /**
   * A literal is accepted only with a sign at the front, then digits and
   * underscores, ending with a digit; a negative result needs a `-`. Every
   * non-empty run of digits is a literal.
   */
  lemma ParseLiteralSpec(s: string)
    ensures s != [] && (forall i | 0 <= i < |s| :: IsAsciiDigit(s[i])) ==> ParseLiteral(s).Some?
    ensures ParseLiteral(s).Some? ==> s != [] && IsAsciiDigit(s[|s| - 1])
    ensures ParseLiteral(s).Some? ==> forall i | 0 <= i < |s| ::
      IsAsciiDigit(s[i]) || s[i] == '_' || (i == 0 && (s[i] == '+' || s[i] == '-'))
    ensures ParseLiteral(s).Some? && ParseLiteral(s).value < 0 ==> s[0] == '-'
  {
    if s != [] && (s[0] == '+' || s[0] == '-') {
      ParseDigitsSpec(s[1..]);
      assert forall i | 1 <= i < |s| :: s[1..][i - 1] == s[i];
    } else {
      ParseDigitsSpec(s);
    }
  }

  /**
   * `int` accepts a literal of no more than `MAX_STR_DIGITS` digits, and every
   * run of digits within that limit.
   */
  lemma ParseIntSpec(s: string)
    ensures ParseInt(s).Some? <==> ParseLiteral(s).Some? && DigitCount(s) <= MAX_STR_DIGITS
    ensures s != [] && |s| <= MAX_STR_DIGITS && (forall i | 0 <= i < |s| :: IsAsciiDigit(s[i])) ==> ParseInt(s).Some?
    ensures ParseInt(s).Some? ==> s != [] && IsAsciiDigit(s[|s| - 1])
    ensures ParseInt(s).Some? ==> forall i | 0 <= i < |s| ::
      IsAsciiDigit(s[i]) || s[i] == '_' || (i == 0 && (s[i] == '+' || s[i] == '-'))
    ensures ParseInt(s).Some? && ParseInt(s).value < 0 ==> s[0] == '-'
  {
    ParseLiteralSpec(s);
  }

  /** `str(n)` for `n >= 0`: decimal digits without a leading zero. */
  function ShowNat(n: nat): (r: string)
    ensures r != [] && forall i | 0 <= i < |r| :: IsAsciiDigit(r[i])
    ensures r[0] == '0' ==> n == 0
  {
    if n < 10 then [DigitChar(n)] else ShowNat(n / 10) + [DigitChar(n % 10)]
  }

  /** `str(n)`. */
  function ShowInt(n: int): (r: string) {
    if n < 0 then "-" + ShowNat(-n) else ShowNat(n)
  }

  lemma {:induction false} ParseShowNat(n: nat)
    ensures ParseDigits(ShowNat(n)) == Some(n)
  {
    if n >= 10 {
      var s := ShowNat(n);
      assert s[..|s| - 1] == ShowNat(n / 10);
      ParseShowNat(n / 10);
    }
  }

  /** `int(str(n)) == n` when `str(n)` has no more than `MAX_STR_DIGITS` digits; beyond that `int` refuses it. */
  lemma ParseShowInt(n: int)
    ensures ParseInt(ShowInt(n)) == if DigitCount(ShowInt(n)) <= MAX_STR_DIGITS then Some(n) else None
  {
    var s := ShowInt(n);
    if n < 0 {
      var digits := ShowNat(-n);
      assert s == "-" + digits && s[1..] == digits;
      ParseShowNat(-n);
    } else {
      assert IsAsciiDigit(s[0]);
      ParseShowNat(n);
    }
  }
}
