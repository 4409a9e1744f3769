/**
 * The energy-band label parser of the proton-flux script (`get_e` inside
 * `ProtonFlux.download`): the regular expression `>=(\d+)\sMeV` applied
 * with `re.match`, i.e. anchored at the start of the field only, followed by
 * the `int(...)` conversion of the captured digits.
 */
module EnergyLabel {
  import opened Wrappers

  /** What `\d` matches (ASCII digits only in this model). */
  predicate IsDigit(c: char) {
    '0' <= c <= '9'
  }

  /**
   * What `\s` matches among ASCII characters: space, tab, line feed,
   * vertical tab, form feed, carriage return, and the four separators
   * U+001C to U+001F, for which `str.isspace()` is also true.
   */
  predicate IsSpace(c: char) {
    c == ' ' || c == '\t' || c == '\n' || c == '\r' || c == '\U{0B}' || c == '\U{0C}'
    || ('\U{1C}' <= c <= '\U{1F}')
  }

  predicate AllDigits(s: string) {
    forall i :: 0 <= i < |s| ==> IsDigit(s[i])
  }

  /** How many characters the greedy `\d+` (or `\d*`) takes at the start of `s`. */
  function DigitRun(s: string): (n: nat)
    ensures n <= |s|
    ensures AllDigits(s[..n])
    ensures n < |s| ==> !IsDigit(s[n])
  {
    if s == [] || !IsDigit(s[0]) then 0 else 1 + DigitRun(s[1..])
  }

  /**
   * `get_e(field)`: the captured digit string when `field` starts with
   * `>=`, one or more digits, one whitespace character and `MeV`; None
   * otherwise. Whatever follows `MeV` is ignored.
   */
  function GetE(field: string): (r: Option<string>)
    ensures r.Some? ==>
      && |r.value| >= 1
      && AllDigits(r.value)
      && |field| >= |r.value| + 6
      && IsSpace(field[|r.value| + 2])
      && field == ">=" + r.value + [field[|r.value| + 2]] + "MeV" + field[|r.value| + 6..]
  {
    if |field| < 2 || field[..2] != ">=" then None
    else
      var n := DigitRun(field[2..]);
      if n == 0 || |field| < n + 6 || !IsSpace(field[n + 2]) || field[n + 3..n + 6] != "MeV" then None
      else
        assert field[2..][..n] == field[2..n + 2];
        assert field == field[..2] + field[2..n + 2] + [field[n + 2]] + field[n + 3..n + 6] + field[n + 6..];
        Some(field[2..n + 2])
  }

  /** Greedy `\d+` stops exactly where a run of digits is followed by a non-digit. */
  lemma {:induction false} DigitRunOfPrefix(digits: string, tail: string)
    requires AllDigits(digits)
    requires tail == [] || !IsDigit(tail[0])
    ensures DigitRun(digits + tail) == |digits|
  {
    if digits != [] {
      assert (digits + tail)[1..] == digits[1..] + tail;
      DigitRunOfPrefix(digits[1..], tail);
    }
  }

  /** Every field of the expected shape is accepted, and its digits are captured. */
  lemma GetEAccepts(digits: string, space: char, rest: string)
    requires |digits| >= 1 && AllDigits(digits) && IsSpace(space)
    ensures GetE(">=" + digits + [space] + "MeV" + rest) == Some(digits)
  {
    var field := ">=" + digits + [space] + "MeV" + rest;
    var tail := [space] + "MeV" + rest;
    assert field[2..] == digits + tail;
    DigitRunOfPrefix(digits, tail);
    assert field[..2] == ">=";
    assert field[|digits| + 3..|digits| + 6] == "MeV";
    assert field[2..|digits| + 2] == digits;
  }

  /** `int(s)` for a string of decimal digits. */
  function DigitsValue(s: string): (n: nat)
    requires AllDigits(s)
    ensures n < Pow10(|s|)
  {
    if s == [] then 0
    else
      var high := DigitsValue(s[..|s| - 1]);
      assert high * 10 <= (Pow10(|s| - 1) - 1) * 10;
      high * 10 + (s[|s| - 1] as int - '0' as int)
  }

  /** `10` to the power `k`. */
  function Pow10(k: nat): (p: nat)
    ensures p >= 1
  {
    if k == 0 then 1 else 10 * Pow10(k - 1)
  }

  /** `int()` ignores leading zeros: `int("007") == 7`. */
  lemma {:induction false} LeadingZeroIgnored(s: string)
    requires AllDigits(s)
    ensures AllDigits("0" + s) && DigitsValue("0" + s) == DigitsValue(s)
  {
    if s != [] {
      assert ("0" + s)[..|s|] == "0" + s[..|s| - 1];
      LeadingZeroIgnored(s[..|s| - 1]);
    }
  }

  /** `int(get_e(field))`; None where `int(None)` raises. */
  function EnergyOf(field: string): (r: Option<nat>)
    ensures r.Some? <==> GetE(field).Some?
  {
    match GetE(field)
    case None => None
    case Some(digits) => Some(DigitsValue(digits))
  }

  /** The decimal rendering of `n`, as in the feed's labels `>=10 MeV`. */
  function Decimal(n: nat): (s: string)
    ensures |s| >= 1 && AllDigits(s)
  {
    if n < 10 then [('0' as int + n) as char]
    else Decimal(n / 10) + [('0' as int + n % 10) as char]
  }

  /** Reading back a rendered number gives the number. */
  lemma {:induction false} DecimalRoundTrip(n: nat)
    ensures DigitsValue(Decimal(n)) == n
  {
    var s := Decimal(n);
    if n >= 10 {
      assert s[..|s| - 1] == Decimal(n / 10);
      DecimalRoundTrip(n / 10);
    }
  }

  /** The label `>=N MeV` that the feed uses for band N parses to N. */
  lemma EnergyOfBandLabel(n: nat, rest: string)
    ensures EnergyOf(">=" + Decimal(n) + " MeV" + rest) == Some(n)
  {
    assert ">=" + Decimal(n) + " MeV" + rest == ">=" + Decimal(n) + [' '] + "MeV" + rest;
    GetEAccepts(Decimal(n), ' ', rest);
    DecimalRoundTrip(n);
  }
}
