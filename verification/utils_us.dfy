/** Validation and policy helpers: the anchored US E.164 pattern `^\+1\d{10}$`
    and the Eastern-time quiet-hours window. */
module UtilsUs {

  // ---------------------------------------------------------------------------
  // US E.164 numbers
  // ---------------------------------------------------------------------------

  /** One position of a fixed-length pattern: a literal character or `\d`. */
  datatype Atom = Lit(c: char) | Digit

  /** `\d`, restricted to the ASCII digits. */
  predicate IsAsciiDigit(c: char) {
    '0' <= c <= '9'
  }

  predicate AtomMatches(a: Atom, c: char) {
    match a
    case Lit(x) => c == x
    case Digit => IsAsciiDigit(c)
  }

  /** `a{n}` */
  function Repeat(a: Atom, n: nat): (r: seq<Atom>)
    ensures |r| == n
    ensures forall i :: 0 <= i < n ==> r[i] == a
  {
    if n == 0 then [] else [a] + Repeat(a, n - 1)
  }

  /** The compiled pattern `US_E164`: `+`, `1`, then ten digits. */
  const US_E164: seq<Atom> := [Lit('+'), Lit('1')] + Repeat(Digit, 10)

  /** Matching anchored at both ends (`^` … `$`): the pattern consumes the whole string. */
  predicate FullMatch(p: seq<Atom>, s: string)
    decreases |p|
  {
    if p == [] then s == []
    else s != [] && AtomMatches(p[0], s[0]) && FullMatch(p[1..], s[1..])
  }

  /** `is_valid_us_e164`: the number matches `US_E164` from start to end. */
  predicate IsValidUsE164(number: string) {
    FullMatch(US_E164, number)
  }

  /** The shape of a US E.164 number, stated position by position. */
  predicate IsUsE164Shape(s: string) {
    && |s| == 12
    && s[0] == '+'
    && s[1] == '1'
    && forall i :: 2 <= i < 12 ==> IsAsciiDigit(s[i])
  }

  /** An anchored fixed-length match is a length check plus a check at every position. */
  lemma {:induction false} FullMatchPointwise(p: seq<Atom>, s: string)
    ensures FullMatch(p, s) <==> |s| == |p| && forall i :: 0 <= i < |p| ==> AtomMatches(p[i], s[i])
    decreases |p|
  {
    if p != [] && s != [] {
      FullMatchPointwise(p[1..], s[1..]);
      if |s| == |p| && forall i :: 0 <= i < |p| ==> AtomMatches(p[i], s[i]) {
        assert forall i :: 0 <= i < |p| - 1 ==> AtomMatches(p[1..][i], s[1..][i]) by {
          forall i | 0 <= i < |p| - 1 ensures AtomMatches(p[1..][i], s[1..][i]) {
            assert AtomMatches(p[i + 1], s[i + 1]);
          }
        }
      }
      if FullMatch(p, s) {
        forall i | 0 <= i < |p| ensures AtomMatches(p[i], s[i]) {
          if i > 0 {
            assert AtomMatches(p[1..][i - 1], s[1..][i - 1]);
          }
        }
      }
    }
  }

  /** A string is accepted exactly when it is `+1` followed by ten digits and nothing else. */
  lemma ValidIffShape(s: string)
    ensures IsValidUsE164(s) <==> IsUsE164Shape(s)
  {
    FullMatchPointwise(US_E164, s);
    if IsUsE164Shape(s) {
      forall i | 0 <= i < |US_E164| ensures AtomMatches(US_E164[i], s[i]) {
        if i >= 2 {
          assert US_E164[i] == Digit;
        }
      }
    }
    if IsValidUsE164(s) {
      assert AtomMatches(US_E164[0], s[0]) && AtomMatches(US_E164[1], s[1]);
      forall i | 2 <= i < 12 ensures IsAsciiDigit(s[i]) {
        assert AtomMatches(US_E164[i], s[i]);
      }
    }
  }

  /** Every accepted number has twelve characters and starts with `+1`. */
  lemma AcceptedLengthAndPrefix(s: string)
    requires IsValidUsE164(s)
    ensures |s| == 12 && s[..2] == "+1"
  {
    ValidIffShape(s);
  }

  /** Without the leading `+` a number is rejected, whatever follows. */
  lemma MissingPlusRejected(s: string)
    requires s == [] || s[0] != '+'
    ensures !IsValidUsE164(s)
  {
    ValidIffShape(s);
  }

  /** `+1` followed by a digit run of any length other than ten is rejected. */
  lemma WrongDigitCountRejected(digits: string)
    requires forall i :: 0 <= i < |digits| ==> IsAsciiDigit(digits[i])
    requires |digits| != 10
    ensures !IsValidUsE164("+1" + digits)
  {
    ValidIffShape("+1" + digits);
  }

  /** `+1` followed by exactly ten digits is accepted. */
  lemma TenDigitsAccepted(digits: string)
    requires forall i :: 0 <= i < |digits| ==> IsAsciiDigit(digits[i])
    requires |digits| == 10
    ensures IsValidUsE164("+1" + digits)
  {
    var s := "+1" + digits;
    forall i | 2 <= i < 12 ensures IsAsciiDigit(s[i]) {
      assert s[i] == digits[i - 2];
    }
    ValidIffShape(s);
  }

  /** One accepted number and three rejected ones. */
  lemma E164Examples()
    ensures IsValidUsE164("+15551234567")
    ensures !IsValidUsE164("+1555123456")
    ensures !IsValidUsE164("+155512345678")
    ensures !IsValidUsE164("15551234567")
  {
    TenDigitsAccepted("5551234567");
    assert "+15551234567" == "+1" + "5551234567";
    WrongDigitCountRejected("555123456");
    assert "+1555123456" == "+1" + "555123456";
    WrongDigitCountRejected("55512345678");
    assert "+155512345678" == "+1" + "55512345678";
    MissingPlusRejected("15551234567");
  }

  /** `US_E164.match(number)`: the matcher checks the length, then walks pattern
      and input in step and stops at the first position that fails. */
  method MatchUsE164(number: string) returns (ok: bool)
    ensures ok <==> IsValidUsE164(number)
  {
    FullMatchPointwise(US_E164, number);
    if |number| != |US_E164| {
      return false;
    }
    var i := 0;
    while i < |US_E164|
      invariant 0 <= i <= |US_E164|
      invariant forall j :: 0 <= j < i ==> AtomMatches(US_E164[j], number[j])
    {
      if !AtomMatches(US_E164[i], number[i]) {
        return false;
      }
      i := i + 1;
    }
    return true;
  }

  // ---------------------------------------------------------------------------
  // Quiet hours
  // ---------------------------------------------------------------------------

  type Hour = h: int | 0 <= h < 24

  /** A wall-clock instant already converted to America/New_York. */
  datatype EasternTime = EasternTime(year: int, month: int, day: int, hour: Hour, minute: int, second: int)

  const DEFAULT_START_HOUR := 8
  const DEFAULT_END_HOUR := 21

  /** `within_quiet_hours_et`: quiet (sending blocked) unless the Eastern hour lies in
      the half-open window `[startHour, endHour)`. */
  predicate WithinQuietHoursEt(now: EasternTime, startHour: int, endHour: int) {
    !(startHour <= now.hour < endHour)
  }

  /** The hours a clock in 24-hour form can show. */
  const HOURS_OF_DAY: set<int> :=
    {0, 1, 2, 3, 4, 5, 6, 7, 8, 9, 10, 11, 12, 13, 14, 15, 16, 17, 18, 19, 20, 21, 22, 23}

  /** The hours of a day at which sending is allowed. */
  function AllowedHours(startHour: int, endHour: int): (hours: set<int>)
    ensures forall h :: h in hours ==> 0 <= h < 24
  {
    set h | h in HOURS_OF_DAY && startHour <= h < endHour
  }

  /** Quiet exactly when the hour is not one of the allowed hours: the window is
      closed at its start and open at its end. */
  lemma QuietIffNotAllowed(now: EasternTime, startHour: int, endHour: int)
    ensures WithinQuietHoursEt(now, startHour, endHour) <==> now.hour !in AllowedHours(startHour, endHour)
  {
  }

  /** With the default window 8..21: 7 and 21 are quiet, 8 and 20 are not. */
  lemma DefaultWindowBoundaries(t: EasternTime)
    ensures t.hour == 7 ==> WithinQuietHoursEt(t, DEFAULT_START_HOUR, DEFAULT_END_HOUR)
    ensures t.hour == 8 ==> !WithinQuietHoursEt(t, DEFAULT_START_HOUR, DEFAULT_END_HOUR)
    ensures t.hour == 20 ==> !WithinQuietHoursEt(t, DEFAULT_START_HOUR, DEFAULT_END_HOUR)
    ensures t.hour == 21 ==> WithinQuietHoursEt(t, DEFAULT_START_HOUR, DEFAULT_END_HOUR)
  {
  }

  /** An empty or inverted window makes every hour quiet. */
  lemma EmptyWindowAlwaysQuiet(now: EasternTime, startHour: int, endHour: int)
    requires startHour >= endHour
    ensures WithinQuietHoursEt(now, startHour, endHour)
    ensures AllowedHours(startHour, endHour) == {}
  {
  }

  /** Only the converted hour matters: date, minutes and seconds do not. */
  lemma OnlyHourMatters(a: EasternTime, b: EasternTime, startHour: int, endHour: int)
    requires a.hour == b.hour
    ensures WithinQuietHoursEt(a, startHour, endHour) == WithinQuietHoursEt(b, startHour, endHour)
  {
  }
}
