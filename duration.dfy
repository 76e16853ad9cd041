/**
 * The duration helper of the location relay: `formatDuration` turns a number
 * of milliseconds into "<n> second" / "<n> seconds", where n is the number of
 * milliseconds divided by 1000 and rounded up.  The template string prints n
 * the way JavaScript prints an integer-valued number, which `IntString`
 * models.  `ParseDuration` reads such a text back, and
 * `FormatDurationRoundTrip` proves it recovers the seconds.
 */
module Duration {

  datatype Option<T> = None | Some(value: T)

  /** `Math.ceil(ms / 1000)`: the least whole number of seconds covering `ms`. */
  function CeilSeconds(ms: int): (s: int)
    ensures (s - 1) * 1000 < ms <= s * 1000
  {
    var q, rem := (-ms) / 1000, (-ms) % 1000;
    assert -ms == q * 1000 + rem && 0 <= rem < 1000;
    -q
  }

  lemma CeilSecondsNonNegative(ms: int)
    requires ms >= 0
    ensures CeilSeconds(ms) >= 0
    ensures ms <= 60000 ==> CeilSeconds(ms) <= 60
  {
  }

  predicate IsDigit(c: char) { '0' <= c <= '9' }

  predicate AllDigits(s: string) { forall i :: 0 <= i < |s| ==> IsDigit(s[i]) }

  function DigitChar(d: int): (c: char)
    requires 0 <= d < 10
    ensures IsDigit(c) && c as int - '0' as int == d
  {
    ('0' as int + d) as char
  }

  /** The decimal digits of a natural number, without leading zeros. */
  function NatString(n: nat): (r: string)
    ensures |r| >= 1 && AllDigits(r)
    ensures r[0] == '0' ==> n == 0
    decreases n
  {
    if n < 10 then [DigitChar(n)] else NatString(n / 10) + [DigitChar(n % 10)]
  }

  /** JavaScript's text for an integer-valued number: an optional '-' and its digits. */
  function IntString(n: int): (r: string)
    ensures |r| >= 1 && (r[0] == '-' <==> n < 0)
    ensures n < 0 ==> |r| >= 2 && AllDigits(r[1..]) && r[1] != '0'
    ensures n >= 0 ==> AllDigits(r)
    ensures n > 0 ==> r[0] != '0'
  {
    if n < 0 then "-" + NatString(-n) else NatString(n)
  }

  /** The value of a string of decimal digits, most significant first. */
  function DigitsValue(s: string): (v: nat)
    requires AllDigits(s)
  {
    if s == [] then 0 else DigitsValue(s[..|s| - 1]) * 10 + (s[|s| - 1] as int - '0' as int)
  }

  /** Reads back an integer written as an optional '-' followed by digits. */
  function ParseInt(s: string): Option<int>
  {
    if |s| >= 2 && s[0] == '-' && AllDigits(s[1..]) then Some(0 - DigitsValue(s[1..]) as int)
    else if |s| >= 1 && AllDigits(s) then Some(DigitsValue(s))
    else None
  }

  lemma {:induction false} NatStringValue(n: nat)
    ensures DigitsValue(NatString(n)) == n
    decreases n
  {
    if n >= 10 {
      NatStringValue(n / 10);
      var r := NatString(n);
      assert r[..|r| - 1] == NatString(n / 10);
    }
  }

  lemma IntStringRoundTrip(n: int)
    ensures ParseInt(IntString(n)) == Some(n)
  {
    if n < 0 {
      NatStringValue(-n);
      assert IntString(n)[1..] == NatString(-n);
    } else {
      NatStringValue(n);
    }
  }

  /** `formatDuration(ms)`: the seconds, " second", and an "s" unless there is exactly one. */
  function FormatDuration(ms: int): (r: string)
    ensures |r| >= 8
    ensures r[|r| - 1] == 's' <==> CeilSeconds(ms) != 1
  {
    var seconds := CeilSeconds(ms);
    IntString(seconds) + " second" + (if seconds != 1 then "s" else "")
  }

  /** A whole minute is printed as "60 seconds". */
  lemma FullMinuteText()
    ensures FormatDuration(60000) == "60 seconds"
  {
    assert CeilSeconds(60000) == 60;
    assert NatString(60) == "60";
  }

  /**
   * Reads a duration text back: "<n> seconds" for n other than 1, and
   * "1 second"; anything else is rejected.
   */
  function ParseDuration(t: string): Option<int>
  {
    if |t| >= 8 && t[|t| - 8..] == " seconds" then
      match ParseInt(t[..|t| - 8])
      case Some(n) => if n != 1 then Some(n) else None
      case None => None
    else if |t| >= 7 && t[|t| - 7..] == " second" then
      match ParseInt(t[..|t| - 7])
      case Some(n) => if n == 1 then Some(n) else None
      case None => None
    else None
  }

  lemma FormatDurationRoundTrip(ms: int)
    ensures ParseDuration(FormatDuration(ms)) == Some(CeilSeconds(ms))
  {
    var s := CeilSeconds(ms);
    var t := FormatDuration(ms);
    IntStringRoundTrip(s);
    if s != 1 {
      assert t == IntString(s) + " seconds";
      assert t[|t| - 8..] == " seconds";
      assert t[..|t| - 8] == IntString(s);
    } else {
      assert t == "1 second";
    }
  }
}
