/** Time arithmetic of helpers.py: instants are whole microseconds, as in
    Python's `datetime`, and dates are day numbers of a local calendar. */
module Clock {
  import opened Wrappers

  /** Microseconds since the epoch. */
  type Instant = int
  /** Day number of a local calendar date. */
  type Date = int

  const SEC: int := 1_000_000
  const HALF_SEC: int := 500_000
  /** ONE_DAY of const.py, taken as 86400 s (no leap seconds, no DST). */
  const ONE_DAY: int := 86_400 * SEC

  /** The microsecond field of a `datetime` is zero. */
  predicate WholeSecond(t: Instant) {
    t % SEC == 0
  }

  /** `nearest_second`: drop the microseconds and add one second when they are
      at least half a second (round half up). */
  function NearestSecond(t: Instant): (r: Instant)
    ensures WholeSecond(r)
    ensures -HALF_SEC < r - t <= HALF_SEC
  {
    t - t % SEC + (if t % SEC < HALF_SEC then 0 else SEC)
  }

  /** The whole second nearest to `t` is unique, so rounding a whole second
      gives it back and rounding twice is rounding once. */
  lemma NearestSecondUnique(t: Instant, w: Instant)
    requires WholeSecond(w) && -HALF_SEC < w - t <= HALF_SEC
    ensures NearestSecond(t) == w
  {
    var r := NearestSecond(t);
    if r != w {
      WholeSecondsApart(r, w);
    }
  }

  lemma NearestSecondIdempotent(t: Instant)
    ensures NearestSecond(NearestSecond(t)) == NearestSecond(t)
  {
    NearestSecondUnique(NearestSecond(t), NearestSecond(t));
  }

  /** Two different whole seconds are at least a second apart. */
  lemma WholeSecondsApart(a: Instant, b: Instant)
    requires WholeSecond(a) && WholeSecond(b) && a != b
    ensures a - b >= SEC || b - a >= SEC
  {
    var ka, kb := a / SEC, b / SEC;
    assert a == ka * SEC && b == kb * SEC;
    if ka < kb {
      assert b - a == (kb - ka) * SEC;
    } else {
      assert a - b == (ka - kb) * SEC;
    }
  }

  /** Rounding to the nearest second never reverses the order of two instants. */
  lemma NearestSecondMonotone(a: Instant, b: Instant)
    requires a <= b
    ensures NearestSecond(a) <= NearestSecond(b)
  {
    var ra, rb := NearestSecond(a), NearestSecond(b);
    if ra > rb {
      WholeSecondsApart(ra, rb);
    }
  }

  /** The local calendar date of an instant, for a zone `offset` microseconds
      ahead of UTC. */
  function DateOf(t: Instant, offset: int): (d: Date)
    ensures d * ONE_DAY <= t + offset < (d + 1) * ONE_DAY
  {
    (t + offset) / ONE_DAY
  }

  /** `next_midnight`: 00:00 of the following date in the same zone. */
  function NextMidnight(t: Instant, offset: int): (r: Instant)
    ensures t < r <= t + ONE_DAY
    ensures DateOf(r, offset) == DateOf(t, offset) + 1
    ensures (r + offset) % ONE_DAY == 0
  {
    var d := DateOf(t, offset);
    var r := (d + 1) * ONE_DAY - offset;
    assert r + offset == (d + 1) * ONE_DAY;
    r
  }

  /** `timedelta / 2`: Python divides the microseconds and rounds half to even. */
  function HalfOf(d: int): (h: int)
    ensures -1 <= 2 * h - d <= 1
    ensures 2 * h - d != 0 ==> h % 2 == 0
  {
    var q := d / 2;
    if d % 2 == 0 || q % 2 == 0 then q else q + 1
  }

  /** Half of a span lies within the span: `t0 + (t1 - t0) / 2` is between
      `t0` and `t1`, whichever comes first. */
  lemma HalfOfWithin(t0: Instant, t1: Instant)
    ensures t0 <= t1 ==> t0 <= t0 + HalfOf(t1 - t0) <= t1
    ensures t1 <= t0 ==> t1 <= t0 + HalfOf(t1 - t0) <= t0
  {
  }

  /** `timedelta * float`: the exact product, rounded half to even to a whole
      microsecond. */
  function RoundHalfEven(x: real): (n: int)
    ensures -(1.0 / 2.0) <= n as real - x <= 1.0 / 2.0
    ensures n as real - x == 1.0 / 2.0 || x - n as real == 1.0 / 2.0 ==> n % 2 == 0
  {
    var f := x.Floor;
    var frac := x - f as real;
    if frac < 1.0 / 2.0 then f
    else if frac > 1.0 / 2.0 then f + 1
    else if f % 2 == 0 then f else f + 1
  }

  /** Python's `int(x)` on a float: truncation toward zero. */
  function Truncate(x: real): (n: int)
    ensures 0.0 <= x ==> 0 <= n && n as real <= x < n as real + 1.0
    ensures x < 0.0 ==> n <= 0 && n as real - 1.0 < x <= n as real
  {
    if x >= 0.0 then x.Floor else -((-x).Floor)
  }

  /** The fields `str(timedelta(seconds=s))` prints: days, then hours, minutes
      and seconds of the (non-negative) remainder. */
  datatype Hms = Hms(days: int, hours: nat, minutes: nat, seconds: nat)

  function SplitSeconds(s: int): (r: Hms)
    ensures r.days * 86400 + r.hours * 3600 + r.minutes * 60 + r.seconds == s
    ensures r.hours < 24 && r.minutes < 60 && r.seconds < 60
  {
    var rem := s % 86400;
    Hms(s / 86400, rem / 3600, rem % 3600 / 60, rem % 60)
  }

  /** The decimal digits of a natural number. */
  function NatToString(n: nat): (s: string)
    ensures |s| >= 1
    ensures forall i :: 0 <= i < |s| ==> '0' <= s[i] <= '9'
    decreases n
  {
    var c := [('0' as int + n % 10) as char];
    if n < 10 then c else NatToString(n / 10) + c
  }

  /** The number a string of decimal digits spells. */
  function DigitsValue(s: string): int
    decreases |s|
  {
    if |s| == 0 then 0 else DigitsValue(s[..|s| - 1]) * 10 + (s[|s| - 1] as int - '0' as int)
  }

  /** Reading the digits back gives the number printed. */
  lemma {:induction false} NatToStringValue(n: nat)
    ensures DigitsValue(NatToString(n)) == n
    decreases n
  {
    var s := NatToString(n);
    if n >= 10 {
      NatToStringValue(n / 10);
      assert s[..|s| - 1] == NatToString(n / 10);
    }
  }

  function IntToString(n: int): string {
    if n < 0 then "-" + NatToString(-n) else NatToString(n)
  }

  /** `%02d` */
  function Pad2(n: nat): (s: string)
    ensures |s| >= 2
    ensures n < 100 ==> |s| == 2 && DigitsValue(s) == n
  {
    if n < 10 then
      var s := "0" + NatToString(n);
      assert s[..1] == "0" && DigitsValue("0") == 0;
      s
    else
      NatToStringValue(n);
      assert n < 100 ==> NatToString(n) == NatToString(n / 10) + [('0' as int + n % 10) as char];
      NatToString(n)
  }

  function FormatHms(r: Hms): string {
    var clock := NatToString(r.hours) + ":" + Pad2(r.minutes) + ":" + Pad2(r.seconds);
    if r.days == 0 then clock
    else IntToString(r.days) + (if r.days == 1 || r.days == -1 then " day, " else " days, ") + clock
  }

  /** Under a day, the text is "H:MM:SS": the hours, minutes and seconds can
      be read back from the digits around the two colons. */
  lemma FormatHmsFields(r: Hms)
    requires r.days == 0 && r.minutes < 60 && r.seconds < 60
    ensures var s := FormatHms(r);
      |s| >= 7 && s[|s| - 3] == ':' && s[|s| - 6] == ':' &&
      DigitsValue(s[..|s| - 6]) == r.hours &&
      DigitsValue(s[|s| - 5..|s| - 3]) == r.minutes &&
      DigitsValue(s[|s| - 2..]) == r.seconds
  {
    var s := FormatHms(r);
    var h := NatToString(r.hours);
    NatToStringValue(r.hours);
    assert s == h + ":" + Pad2(r.minutes) + ":" + Pad2(r.seconds);
    assert s[..|s| - 6] == h;
    assert s[|s| - 5..|s| - 3] == Pad2(r.minutes);
    assert s[|s| - 2..] == Pad2(r.seconds);
  }

  /** `hours_to_hms`: None stays None (the TypeError branch); otherwise the
      duration `int(hours * 3600)` seconds, truncated toward zero, as text. */
  function HoursToHms(hours: Option<real>): (r: Option<string>)
    ensures r.None? <==> hours.None?
  {
    match hours
    case None => None
    case Some(h) => Some(FormatHms(SplitSeconds(Truncate(h * 3600.0))))
  }

  /** The seconds `hours_to_hms` shows never exceed the duration in magnitude
      and are less than one second short of it. */
  lemma HoursToHmsSeconds(h: real)
    ensures var r := SplitSeconds(Truncate(h * 3600.0));
      var s := r.days * 86400 + r.hours * 3600 + r.minutes * 60 + r.seconds;
      (h >= 0.0 ==> 0 <= s && s as real <= h * 3600.0 < s as real + 1.0) &&
      (h < 0.0 ==> s <= 0 && s as real - 1.0 < h * 3600.0 <= s as real)
  {
  }
}
