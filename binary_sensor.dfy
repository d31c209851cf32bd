/** binary_sensor.py: the elevation binary sensor, on while the sun is above a
    threshold, and its search for the next time the state flips. */
module BinarySensor {
  import opened Wrappers
  import opened Clock
  import opened Solar
  import Text

  const ABOVE_ICON: string := "mdi:white-balance-sunny"
  const BELOW_ICON: string := "mdi:moon-waxing-crescent"

  /** How many days ahead `_get_nxt_dttm` looks. */
  const SCAN_DAYS: int := 366

  /** The configured threshold: any string (the word "horizon") or a number. */
  datatype ThresholdSetting = Word(word: string) | Number(deg: real)

  /** `__init__`: a string threshold means the sunset elevation. */
  function ThresholdOf(setting: ThresholdSetting): (th: real)
    ensures setting.Word? ==> th == SUNSET_ELEV
    ensures setting.Number? ==> th == setting.deg
  {
    match setting
    case Word(_) => SUNSET_ELEV
    case Number(x) => x
  }

  /** The side of the threshold the state flips to: at or below it when the
      sensor is on, strictly above it when it is off. */
  predicate FarSide(isOn: bool, threshold: real, elev: real) {
    if isOn then elev <= threshold else elev > threshold
  }

  /** The exit test of the bisection loop. */
  predicate CloseEnough(isOn: bool, threshold: real, elev: real) {
    FarSide(isOn, threshold, elev) && Abs(elev - threshold) <= MAX_ERR_BIN
  }

  function Min(a: int, b: int): int { if a <= b then a else b }
  function Max(a: int, b: int): int { if a <= b then b else a }

  /** The whole-second midpoint the bisection probes. */
  function Probe(a: Instant, b: Instant): (p: Instant)
    ensures WholeSecond(p)
    ensures -HALF_SEC < p - (a + HalfOf(b - a)) <= HALF_SEC
    ensures Min(NearestSecond(a), NearestSecond(b)) <= p <= Max(NearestSecond(a), NearestSecond(b))
  {
    HalfOfWithin(a, b);
    var m := a + HalfOf(b - a);
    if a <= b then
      NearestSecondMonotone(a, m); NearestSecondMonotone(m, b); NearestSecond(m)
    else
      NearestSecondMonotone(b, m); NearestSecondMonotone(m, a); NearestSecond(m)
  }

  /** A probe lands on an end of its bracket only when the other end is at
      most a second away (a microsecond more, from rounding half to even,
      when the bracket runs backwards in time). */
  lemma ProbeAtEnd(a: Instant, b: Instant)
    ensures Probe(a, b) == b ==> -SEC <= b - a <= SEC
    ensures Probe(a, b) == a ==> -SEC - 1 <= b - a < SEC
  {
  }

  /** The distance, in rounded seconds, between the two ends of a bracket. */
  function Gap(a: Instant, b: Instant): nat {
    var d := NearestSecond(b) - NearestSecond(a);
    if d < 0 then -d else d
  }

  /** How many ends of a bracket are not whole seconds. */
  function Ragged(a: Instant, b: Instant): nat {
    (if WholeSecond(a) then 0 else 1) + (if WholeSecond(b) then 0 else 1)
  }

  /** Replacing one end of a bracket by the probe never widens it, and leaves
      it as wide only when the end replaced was not a whole second. */
  lemma ReplaceByProbe(keep: Instant, old_: Instant)
    ensures var p := Probe(keep, old_);
      Gap(keep, p) <= Gap(keep, old_) &&
      (Gap(keep, p) == Gap(keep, old_) && p != old_ ==> !WholeSecond(old_))
  {
    var p := Probe(keep, old_);
    NearestSecondUnique(p, p);
    if WholeSecond(old_) {
      NearestSecondUnique(old_, old_);
    }
  }

  /** Two date-determined solar events on either side of a window, and the
      whole five-event window `_get_nxt_dttm` keeps. */
  function Events(sky: Sky, d: Date): (e: seq<Instant>)
    ensures |e| == 5
  {
    [sky.midnight(d), sky.noon(d), sky.midnight(d + 1), sky.noon(d + 1), sky.midnight(d + 2)]
  }

  datatype Window = Window(t0: Instant, t1: Instant)

  /** The segment examined for one set of five events: from now (or from the
      next extremum) to the extremum after which the sensor could flip. */
  function SelectWindow(cur: Instant, isOn: bool, e: seq<Instant>): (w: Window)
    requires |e| == 5
    ensures w.t0 == cur || w.t0 in e[..4]
    ensures w.t1 in e
  {
    if cur < e[0] then (if isOn then Window(cur, e[0]) else Window(e[0], e[1]))
    else if cur < e[1] then (if !isOn then Window(cur, e[1]) else Window(e[1], e[2]))
    else if cur < e[2] then (if isOn then Window(cur, e[2]) else Window(e[2], e[3]))
    else if !isOn then Window(cur, e[3])
    else Window(e[3], e[4])
  }

  /** With the events in time order and `cur` before the fourth, the window
      starts no earlier than `cur` and is not empty. While off, it ends at a
      solar noon (the sun can only rise above the threshold); while on, at a
      solar midnight. */
  lemma SelectWindowShape(cur: Instant, isOn: bool, e: seq<Instant>)
    requires |e| == 5 && e[0] < e[1] < e[2] < e[3] < e[4] && cur < e[3]
    ensures var w := SelectWindow(cur, isOn, e);
      cur <= w.t0 < w.t1 &&
      (isOn ==> w.t1 == e[0] || w.t1 == e[2] || w.t1 == e[4]) &&
      (!isOn ==> w.t1 == e[1] || w.t1 == e[3])
  {
  }

  /** The acceptance test: the end elevations bracket the threshold in the
      direction of travel. A rising window whose end is exactly at the
      threshold is refused, since nothing in it is above the threshold. */
  predicate Brackets(threshold: real, e0: real, e1: real) {
    (e0 <= threshold < e1) || (e1 <= threshold <= e0)
  }

  predicate Accepts(sky: Sky, threshold: real, isOn: bool, cur: Instant, d: Date) {
    var w := SelectWindow(cur, isOn, Events(sky, d));
    Brackets(threshold, sky.elevation(w.t0), sky.elevation(w.t1))
  }

  /** `at` lies, to within a second of rounding, in the window of the first
      day (counting from the date of `cur`) whose window brackets the
      threshold. */
  ghost predicate FoundInFirstWindow(sky: Sky, threshold: real, isOn: bool, cur: Instant, at: Instant) {
    var d0 := DateOf(cur, sky.offset);
    exists d :: d0 <= d < d0 + SCAN_DAYS && Accepts(sky, threshold, isOn, cur, d) &&
      (forall d' :: d0 <= d' < d ==> !Accepts(sky, threshold, isOn, cur, d')) &&
      InWindow(SelectWindow(cur, isOn, Events(sky, d)), at)
  }

  predicate InWindow(w: Window, at: Instant) {
    Min(NearestSecond(w.t0), NearestSecond(w.t1)) - SEC <= at <= Max(NearestSecond(w.t0), NearestSecond(w.t1)) + SEC
  }

  /** When the window of the first day already brackets the threshold, that
      is the window the result lies in. */
  lemma FirstDayWindow(sky: Sky, threshold: real, isOn: bool, cur: Instant, at: Instant)
    requires Accepts(sky, threshold, isOn, cur, DateOf(cur, sky.offset))
    requires FoundInFirstWindow(sky, threshold, isOn, cur, at)
    ensures InWindow(SelectWindow(cur, isOn, Events(sky, DateOf(cur, sky.offset))), at)
  {
    var d0 := DateOf(cur, sky.offset);
    var d :| d0 <= d < d0 + SCAN_DAYS && Accepts(sky, threshold, isOn, cur, d) &&
      (forall d' :: d0 <= d' < d ==> !Accepts(sky, threshold, isOn, cur, d')) &&
      InWindow(SelectWindow(cur, isOn, Events(sky, d)), at);
    assert d == d0;
  }

  /** `Sun2BinarySensorEntrySetup._elevation_name`: the configured name if
      there is one; otherwise the translated "above horizon" text for a word
      threshold, or "above {elevation}" (negative or positive) with the
      magnitude of a number threshold, formatted by `fmt` (Python's `str`). */
  function ElevationName(translations: Text.Translations, fmt: real -> string,
                         name: Option<string>, threshold: ThresholdSetting): (r: Result<string>)
    ensures name.Some? && name.value != "" ==> r == Ok(name.value)
    ensures (name.None? || name.value == "") && threshold.Word? ==>
      r == Text.Translated(translations, "above_horizon", [])
    ensures (name.None? || name.value == "") && threshold.Number? && threshold.deg < 0.0 ==>
      r == Text.Translated(translations, "above_neg_elev", [("elevation", fmt(-threshold.deg))])
    ensures (name.None? || name.value == "") && threshold.Number? && threshold.deg >= 0.0 ==>
      r == Text.Translated(translations, "above_pos_elev", [("elevation", fmt(threshold.deg))])
  {
    if name.Some? && name.value != "" then Ok(name.value)
    else match threshold
      case Word(_) => Text.Translated(translations, "above_horizon", [])
      case Number(x) =>
        if x < 0.0 then Text.Translated(translations, "above_neg_elev", [("elevation", fmt(-x))])
        else Text.Translated(translations, "above_pos_elev", [("elevation", fmt(x))])
  }

  /** The direction of travel `_find_nxt_dttm` assumes: up when the end
      elevation is higher, otherwise down. */
  function Slope(e0: real, e1: real): (s: int)
    ensures s == 1 <==> e1 > e0
    ensures s == -1 <==> e1 <= e0
  {
    if e1 > e0 then 1 else -1
  }

  /** `(elev - threshold) * slope > 0` for a slope of 1 or -1: past the
      threshold in the direction of travel. */
  predicate Past(slope: int, threshold: real, elev: real) {
    if slope == 1 then elev > threshold else elev < threshold
  }

  /** The RuntimeError test: the last probe `tn` is on the near side of the
      threshold and so is the whole second one step further on (backwards
      against the slope while on, forwards along it while off). */
  predicate StuckAt(sky: Sky, threshold: real, isOn: bool, slope: int, tn: Instant) {
    if isOn then sky.elevation(tn) > threshold && sky.elevation(tn - slope * SEC) > threshold
    else sky.elevation(tn) <= threshold && sky.elevation(tn + slope * SEC) <= threshold
  }

  /** On the near side of the threshold, or exactly at it. */
  predicate NearOrAt(isOn: bool, threshold: real, elev: real) {
    !FarSide(isOn, threshold, elev) || elev == threshold
  }

  /** Some time within a second of `t` (a microsecond more, see `ProbeAtEnd`)
      is on the near side of the threshold or at it: the flip happens within
      that second. */
  ghost predicate NearCrossing(sky: Sky, threshold: real, isOn: bool, t: Instant) {
    exists u :: -SEC - 1 <= u - t <= SEC + 1 && NearOrAt(isOn, threshold, sky.elevation(u))
  }

  /** Between `lo` and `hi`, the elevation is on the far side of the threshold
      exactly from `c` on. */
  ghost predicate CrossesAt(sky: Sky, threshold: real, isOn: bool, lo: Instant, hi: Instant, c: Instant) {
    forall t :: lo <= t <= hi ==> (FarSide(isOn, threshold, sky.elevation(t)) <==> c <= t)
  }

  /** A second before the earlier rounded end of a window, and a second after
      the later one. */
  function SpanLo(t0: Instant, t1: Instant): Instant { Min(NearestSecond(t0), NearestSecond(t1)) - SEC }
  function SpanHi(t0: Instant, t1: Instant): Instant { Max(NearestSecond(t0), NearestSecond(t1)) + SEC }

  /** The window starts on the near side and ends on the far side, and the sun
      crosses the threshold once in it, taking in one second more on either
      side of its rounded ends: what a steady sunrise or sunset gives for a
      threshold not within a second's travel of the window's extremes. */
  ghost predicate CrossesOnce(sky: Sky, threshold: real, isOn: bool, t0: Instant, t1: Instant) {
    !FarSide(isOn, threshold, sky.elevation(t0)) && FarSide(isOn, threshold, sky.elevation(t1)) &&
    exists c :: CrossesAt(sky, threshold, isOn, SpanLo(t0, t1), SpanHi(t0, t1), c)
  }

  /** The first far-side instant from `t` on, up to a far-side `hi`, when
      everything from `lo` to before `t` is on the near side. */
  lemma {:induction false} FirstFarSide(sky: Sky, threshold: real, isOn: bool, lo: Instant, t: Instant, hi: Instant)
    returns (c: Instant)
    requires lo <= t <= hi && FarSide(isOn, threshold, sky.elevation(hi))
    requires forall u :: lo <= u < t ==> !FarSide(isOn, threshold, sky.elevation(u))
    ensures lo <= c <= hi && FarSide(isOn, threshold, sky.elevation(c))
    ensures forall u :: lo <= u < c ==> !FarSide(isOn, threshold, sky.elevation(u))
    decreases hi - t
  {
    if FarSide(isOn, threshold, sky.elevation(t)) {
      c := t;
    } else {
      c := FirstFarSide(sky, threshold, isOn, lo, t + 1, hi);
    }
  }

  /** A sun whose elevation never falls, rising from at or below the
      threshold to above it, crosses once: the premise under which the
      bisection of an off sensor cannot fail. */
  lemma SteadyRiseCrossesOnce(sky: Sky, threshold: real, t0: Instant, t1: Instant)
    requires forall s, t :: s <= t ==> sky.elevation(s) <= sky.elevation(t)
    requires sky.elevation(t0) <= threshold < sky.elevation(t1)
    ensures CrossesOnce(sky, threshold, false, t0, t1)
  {
    var lo, hi := SpanLo(t0, t1), SpanHi(t0, t1);
    assert sky.elevation(t1) <= sky.elevation(hi);
    var c := FirstFarSide(sky, threshold, false, lo, lo, hi);
    assert CrossesAt(sky, threshold, false, lo, hi, c) by {
      forall t | lo <= t <= hi
        ensures FarSide(false, threshold, sky.elevation(t)) <==> c <= t
      {
        if c <= t {
          assert sky.elevation(c) <= sky.elevation(t);
        }
      }
    }
  }

  /** A sun whose elevation never rises, setting from above the threshold
      to at or below it, crosses once: the premise under which the bisection
      of an on sensor cannot fail. */
  lemma SteadySetCrossesOnce(sky: Sky, threshold: real, t0: Instant, t1: Instant)
    requires forall s, t :: s <= t ==> sky.elevation(t) <= sky.elevation(s)
    requires sky.elevation(t1) <= threshold < sky.elevation(t0)
    ensures CrossesOnce(sky, threshold, true, t0, t1)
  {
    var lo, hi := SpanLo(t0, t1), SpanHi(t0, t1);
    assert sky.elevation(hi) <= sky.elevation(t1);
    var c := FirstFarSide(sky, threshold, true, lo, lo, hi);
    assert CrossesAt(sky, threshold, true, lo, hi, c) by {
      forall t | lo <= t <= hi
        ensures FarSide(true, threshold, sky.elevation(t)) <==> c <= t
      {
        if c <= t {
          assert sky.elevation(t) <= sky.elevation(c);
        }
      }
    }
  }

  /** The bisection of window `w` can end on a whole second, between the
      rounded ends of the window, where it is stuck; and the sun does not
      cross the threshold once in the window. */
  ghost predicate BisectionFails(sky: Sky, threshold: real, isOn: bool, w: Window, slope: int) {
    (exists tn :: WholeSecond(tn) && StuckAt(sky, threshold, isOn, slope, tn) &&
      Min(NearestSecond(w.t0), NearestSecond(w.t1)) <= tn <= Max(NearestSecond(w.t0), NearestSecond(w.t1))) &&
    !CrossesOnce(sky, threshold, isOn, w.t0, w.t1)
  }

  /** The one place the bisection can raise: its probe `a` landed on the end
      it shares with the bracket `[a, b]`. When the sun crosses once, the
      second after `a` is already past the crossing, so it is not stuck. */
  lemma StallRecovers(sky: Sky, threshold: real, isOn: bool, t0: Instant, t1: Instant, a: Instant, b: Instant)
    requires WholeSecond(a) && Probe(a, b) == a
    requires var lo := Min(NearestSecond(t0), NearestSecond(t1));
      var hi := Max(NearestSecond(t0), NearestSecond(t1));
      lo <= NearestSecond(a) <= hi && lo <= NearestSecond(b) <= hi
    requires var slope := Slope(sky.elevation(t0), sky.elevation(t1));
      !Past(slope, threshold, sky.elevation(a)) &&
      (Past(slope, threshold, sky.elevation(b)) || (slope == -1 && sky.elevation(b) == threshold))
    ensures CrossesOnce(sky, threshold, isOn, t0, t1) ==>
      !StuckAt(sky, threshold, isOn, Slope(sky.elevation(t0), sky.elevation(t1)), a)
  {
    if CrossesOnce(sky, threshold, isOn, t0, t1) {
      var lo := Min(NearestSecond(t0), NearestSecond(t1)) - SEC;
      var hi := Max(NearestSecond(t0), NearestSecond(t1)) + SEC;
      var c :| CrossesAt(sky, threshold, isOn, lo, hi, c);
      NearestSecondUnique(a, a);
      ProbeAtEnd(a, b);
      assert lo <= b <= hi && lo <= a + SEC <= hi;
      if isOn {
        assert Slope(sky.elevation(t0), sky.elevation(t1)) == -1;
        if sky.elevation(a) > threshold {
          assert !FarSide(isOn, threshold, sky.elevation(a)) && FarSide(isOn, threshold, sky.elevation(b));
          assert FarSide(isOn, threshold, sky.elevation(a + SEC));
        }
      } else {
        assert Slope(sky.elevation(t0), sky.elevation(t1)) == 1;
        assert FarSide(isOn, threshold, sky.elevation(b));
        if sky.elevation(a) <= threshold {
          assert FarSide(isOn, threshold, sky.elevation(a + SEC));
        }
      }
    }
  }

  /** The window of the first day (counting from the date of `cur`) that
      brackets the threshold is one whose bisection can get stuck. */
  ghost predicate FailedInFirstWindow(sky: Sky, threshold: real, isOn: bool, cur: Instant) {
    var d0 := DateOf(cur, sky.offset);
    exists d :: d0 <= d < d0 + SCAN_DAYS && Accepts(sky, threshold, isOn, cur, d) &&
      (forall d' :: d0 <= d' < d ==> !Accepts(sky, threshold, isOn, cur, d')) &&
      var w := SelectWindow(cur, isOn, Events(sky, d));
      BisectionFails(sky, threshold, isOn, w, Slope(sky.elevation(w.t0), sky.elevation(w.t1)))
  }

  /** What the bisection loop leaves in its last probe `tn`: a whole second
      between the rounded ends of `[t0, t1]`; not stuck when the sun crosses
      once; and, on the far side, close enough or next to the crossing. */
  ghost predicate LoopExit(sky: Sky, threshold: real, isOn: bool, t0: Instant, t1: Instant, tn: Instant) {
    WholeSecond(tn) &&
    Min(NearestSecond(t0), NearestSecond(t1)) <= tn <= Max(NearestSecond(t0), NearestSecond(t1)) &&
    (CrossesOnce(sky, threshold, isOn, t0, t1) ==>
      !StuckAt(sky, threshold, isOn, Slope(sky.elevation(t0), sky.elevation(t1)), tn)) &&
    (FarSide(isOn, threshold, sky.elevation(tn)) ==>
      CloseEnough(isOn, threshold, sky.elevation(tn)) || NearCrossing(sky, threshold, isOn, tn))
  }

  /** The loop ends normally once the probe is close enough. */
  lemma CloseExit(sky: Sky, threshold: real, isOn: bool, t0: Instant, t1: Instant, tn: Instant)
    requires WholeSecond(tn)
    requires Min(NearestSecond(t0), NearestSecond(t1)) <= tn <= Max(NearestSecond(t0), NearestSecond(t1))
    requires CloseEnough(isOn, threshold, sky.elevation(tn))
    ensures LoopExit(sky, threshold, isOn, t0, t1, tn)
  {
  }

  /** The loop breaks when the probe lands on the end it would replace: the
      far end `b` (past the threshold) or the near end `a` (not past it). */
  lemma BreakExit(sky: Sky, threshold: real, isOn: bool, t0: Instant, t1: Instant, a: Instant, b: Instant)
    requires var lo := Min(NearestSecond(t0), NearestSecond(t1));
      var hi := Max(NearestSecond(t0), NearestSecond(t1));
      lo <= NearestSecond(a) <= hi && lo <= NearestSecond(b) <= hi
    requires var slope := Slope(sky.elevation(t0), sky.elevation(t1));
      !Past(slope, threshold, sky.elevation(a)) &&
      (Past(slope, threshold, sky.elevation(b)) || (slope == -1 && sky.elevation(b) == threshold))
    requires var tn := Probe(a, b); var slope := Slope(sky.elevation(t0), sky.elevation(t1));
      (Past(slope, threshold, sky.elevation(tn)) && tn == b) || (!Past(slope, threshold, sky.elevation(tn)) && tn == a)
    ensures LoopExit(sky, threshold, isOn, t0, t1, Probe(a, b))
  {
    var tn := Probe(a, b);
    var slope := Slope(sky.elevation(t0), sky.elevation(t1));
    NearestSecondUnique(tn, tn);
    ProbeAtEnd(a, b);
    if tn == a {
      StallRecovers(sky, threshold, isOn, t0, t1, a, b);
      if FarSide(isOn, threshold, sky.elevation(tn)) {
        if NearOrAt(isOn, threshold, sky.elevation(b)) {
          assert -SEC - 1 <= b - tn <= SEC + 1;
        } else {
          assert NearOrAt(isOn, threshold, sky.elevation(tn));
        }
      }
    } else {
      if FarSide(isOn, threshold, sky.elevation(tn)) {
        assert NearOrAt(isOn, threshold, sky.elevation(a));
        assert -SEC - 1 <= a - tn <= SEC + 1;
      }
    }
  }

  /** When the window of the first day already brackets the threshold, a
      failure is that window's: so a search cannot fail when the sun crosses
      once in it. */
  lemma FirstDayFailure(sky: Sky, threshold: real, isOn: bool, cur: Instant)
    requires Accepts(sky, threshold, isOn, cur, DateOf(cur, sky.offset))
    ensures var w := SelectWindow(cur, isOn, Events(sky, DateOf(cur, sky.offset)));
      FailedInFirstWindow(sky, threshold, isOn, cur) ==>
        BisectionFails(sky, threshold, isOn, w, Slope(sky.elevation(w.t0), sky.elevation(w.t1)))
    ensures var w := SelectWindow(cur, isOn, Events(sky, DateOf(cur, sky.offset)));
      CrossesOnce(sky, threshold, isOn, w.t0, w.t1) ==> !FailedInFirstWindow(sky, threshold, isOn, cur)
  {
    var d0 := DateOf(cur, sky.offset);
    if FailedInFirstWindow(sky, threshold, isOn, cur) {
      var d :| d0 <= d < d0 + SCAN_DAYS && Accepts(sky, threshold, isOn, cur, d) &&
        (forall d' :: d0 <= d' < d ==> !Accepts(sky, threshold, isOn, cur, d')) &&
        var w := SelectWindow(cur, isOn, Events(sky, d));
        BisectionFails(sky, threshold, isOn, w, Slope(sky.elevation(w.t0), sky.elevation(w.t1)));
      assert d == d0;
    }
  }

  /** The next-change search can end three ways. */
  datatype Search = Found(at: Instant) | NeverReached | Failed

  class ElevationBinarySensor {
    var sky: Sky
    var threshold: real
    var isOn: bool
    var icon: string
    /** The `next_change` attribute; None once the search found nothing. */
    var nextChange: Option<Instant>

    constructor (sky: Sky, setting: ThresholdSetting)
      ensures this.sky == sky && threshold == ThresholdOf(setting)
      ensures !isOn && nextChange.None?
    {
      this.sky := sky;
      threshold := ThresholdOf(setting);
      isOn := false;
      icon := BELOW_ICON;
      nextChange := None;
    }

    /** `_find_nxt_dttm`: bisect `[t0, t1]` on whole seconds for a time on the
        far side of the threshold, within MAX_ERR_BIN of it; if the last probe
        is on the near side, step one second in the direction of travel, and
        raise RuntimeError if that is still on the near side. The caller
        passes the elevations at `t0` and `t1`, which bracket the threshold.
        The bracket keeps its near end at `a` and its far end at `b`. */
    method FindNextTime(t0: Instant, t0Elev: real, t1: Instant, t1Elev: real) returns (r: Result<Instant>)
      requires t0Elev == sky.elevation(t0) && t1Elev == sky.elevation(t1)
      requires Brackets(threshold, t0Elev, t1Elev)
      ensures r.Ok? ==> WholeSecond(r.value)
      ensures r.Ok? ==> FarSide(isOn, threshold, sky.elevation(r.value))
      ensures r.Ok? ==> InWindow(Window(t0, t1), r.value)
      ensures r.Ok? ==> CloseEnough(isOn, threshold, sky.elevation(r.value)) || NearCrossing(sky, threshold, isOn, r.value)
      ensures r.Err? ==> BisectionFails(sky, threshold, isOn, Window(t0, t1), Slope(t0Elev, t1Elev))
      ensures CrossesOnce(sky, threshold, isOn, t0, t1) ==> r.Ok?
    {
      var slope := Slope(t0Elev, t1Elev);
      var a, b := t0, t1;
      ghost var lo, hi := Min(NearestSecond(t0), NearestSecond(t1)), Max(NearestSecond(t0), NearestSecond(t1));
      var tn := Probe(a, b);
      var tnElev := sky.elevation(tn);
      while !CloseEnough(isOn, threshold, tnElev)
        invariant tn == Probe(a, b) && tnElev == sky.elevation(tn)
        invariant lo <= NearestSecond(a) <= hi && lo <= NearestSecond(b) <= hi
        invariant !Past(slope, threshold, sky.elevation(a))
        invariant Past(slope, threshold, sky.elevation(b)) || (slope == -1 && sky.elevation(b) == threshold)
        decreases Gap(a, b), Ragged(a, b)
      {
        if Past(slope, threshold, tnElev) {
          if b == tn {
            BreakExit(sky, threshold, isOn, t0, t1, a, b);
            break;
          }
          ReplaceByProbe(a, b);
          NearestSecondUnique(tn, tn);
          b := tn;
        } else {
          if a == tn {
            BreakExit(sky, threshold, isOn, t0, t1, a, b);
            break;
          }
          ReplaceByProbe(b, a);
          NearestSecondUnique(tn, tn);
          a := tn;
        }
        tn := Probe(a, b);
        tnElev := sky.elevation(tn);
      }
      if CloseEnough(isOn, threshold, tnElev) {
        CloseExit(sky, threshold, isOn, t0, t1, tn);
      }
      assert LoopExit(sky, threshold, isOn, t0, t1, tn);
      WholeSecondShift(tn, slope);
      ghost var last := tn;
      if isOn && tnElev > threshold {
        tn := tn - slope * SEC;
        if sky.elevation(tn) > threshold {
          assert StuckAt(sky, threshold, isOn, slope, last);
          return Err("RuntimeError");
        }
        assert NearOrAt(isOn, threshold, sky.elevation(last));
      } else if !isOn && tnElev <= threshold {
        tn := tn + slope * SEC;
        if sky.elevation(tn) <= threshold {
          assert StuckAt(sky, threshold, isOn, slope, last);
          return Err("RuntimeError");
        }
        assert NearOrAt(isOn, threshold, sky.elevation(last));
      }
      return Ok(tn);
    }

    /** `_get_nxt_dttm`: starting at the date of `cur`, examine the window of
        each day's five solar midnight/noon events, shifting one day at a time
        for at most 366 days, and bisect the first window that brackets the
        threshold. */
    method GetNextChange(cur: Instant) returns (r: Search)
      ensures var d0 := DateOf(cur, sky.offset);
        r.NeverReached? <==> forall d :: d0 <= d < d0 + SCAN_DAYS ==> !Accepts(sky, threshold, isOn, cur, d)
      ensures r.Found? ==> WholeSecond(r.at) && FarSide(isOn, threshold, sky.elevation(r.at))
      ensures r.Found? ==> FoundInFirstWindow(sky, threshold, isOn, cur, r.at)
      ensures r.Found? ==>
        CloseEnough(isOn, threshold, sky.elevation(r.at)) || NearCrossing(sky, threshold, isOn, r.at)
      ensures r.Failed? ==> FailedInFirstWindow(sky, threshold, isOn, cur)
    {
      var date := DateOf(cur, sky.offset);
      ghost var d0 := date;
      var evt1 := sky.midnight(date);
      var evt2 := sky.noon(date);
      var evt3 := sky.midnight(date + 1);
      var evt4 := sky.noon(date + 1);
      var evt5 := sky.midnight(date + 2);
      var endDate := date + SCAN_DAYS;
      while date < endDate
        invariant d0 <= date <= endDate == d0 + SCAN_DAYS
        invariant [evt1, evt2, evt3, evt4, evt5] == Events(sky, date)
        invariant forall d :: d0 <= d < date ==> !Accepts(sky, threshold, isOn, cur, d)
      {
        var w := SelectWindow(cur, isOn, [evt1, evt2, evt3, evt4, evt5]);
        var t0Elev := sky.elevation(w.t0);
        var t1Elev := sky.elevation(w.t1);
        if Brackets(threshold, t0Elev, t1Elev) {
          assert Accepts(sky, threshold, isOn, cur, date);
          var nxt := FindNextTime(w.t0, t0Elev, w.t1, t1Elev);
          if nxt.Err? {
            assert Slope(t0Elev, t1Elev) == Slope(sky.elevation(w.t0), sky.elevation(w.t1));
            return Failed;
          }
          assert InWindow(SelectWindow(cur, isOn, Events(sky, date)), nxt.value);
          return Found(nxt.value);
        }
        date := date + 1;
        evt1, evt2, evt3 := evt3, evt4, evt5;
        evt4 := sky.noon(date + 1);
        evt5 := sky.midnight(date + 2);
      }
      return NeverReached;
    }

    /** `_update`: the state is whether the sun is above the threshold now;
        `next_change` is the far-side second the bisection of the first
        bracketing window settles on (within MAX_ERR_BIN of the threshold, or
        within a second of a time on the near side), or None when no window
        of the coming year brackets the threshold. A RuntimeError from the
        bisection, possible only when the sun does not cross once in that
        window, leaves `next_change` as it was. */
    method Update(cur: Instant) returns (ok: bool)
      modifies this
      ensures sky == old(sky) && threshold == old(threshold)
      ensures isOn == (sky.elevation(cur) > threshold)
      ensures icon == if isOn then ABOVE_ICON else BELOW_ICON
      ensures !ok ==> nextChange == old(nextChange)
      ensures !ok ==> FailedInFirstWindow(sky, threshold, isOn, cur)
      ensures var d0 := DateOf(cur, sky.offset);
        ok ==> (nextChange.None? <==> forall d :: d0 <= d < d0 + SCAN_DAYS ==> !Accepts(sky, threshold, isOn, cur, d))
      ensures ok && nextChange.Some? ==>
        WholeSecond(nextChange.value) && (sky.elevation(nextChange.value) > threshold <==> !isOn)
      ensures ok && nextChange.Some? ==> FoundInFirstWindow(sky, threshold, isOn, cur, nextChange.value)
      ensures ok && nextChange.Some? ==>
        CloseEnough(isOn, threshold, sky.elevation(nextChange.value)) ||
        NearCrossing(sky, threshold, isOn, nextChange.value)
    {
      var curElev := sky.elevation(cur);
      isOn := curElev > threshold;
      icon := if isOn then ABOVE_ICON else BELOW_ICON;
      var nxt := GetNextChange(cur);
      match nxt
      case Failed =>
        ok := false;
      case NeverReached =>
        nextChange := None;
        ok := true;
      case Found(t) =>
        nextChange := Some(t);
        ok := true;
    }
  }

  lemma WholeSecondShift(t: Instant, k: int)
    requires WholeSecond(t)
    ensures WholeSecond(t + k * SEC) && WholeSecond(t - k * SEC)
  {
    var q := t / SEC;
    assert t + k * SEC == (q + k) * SEC;
    assert t - k * SEC == (q - k) * SEC;
  }

  /** Night to day: at local midnight, with the sun below the horizon, the
      solar midnight still ahead, and the sun crossing the horizon once
      between solar midnight and solar noon, the sensor is off and its next
      change falls in that bracket (to the second), next to the crossing.
      Updating at that time turns the sensor on. */
  method NightToDay(s: ElevationBinarySensor, cur: Instant) returns (next: Instant)
    requires s.threshold == SUNSET_ELEV
    requires var d := DateOf(cur, s.sky.offset);
      cur < s.sky.midnight(d) &&
      s.sky.elevation(cur) <= SUNSET_ELEV &&
      s.sky.elevation(s.sky.midnight(d)) <= SUNSET_ELEV < s.sky.elevation(s.sky.noon(d))
    requires var d := DateOf(cur, s.sky.offset);
      CrossesOnce(s.sky, SUNSET_ELEV, false, s.sky.midnight(d), s.sky.noon(d))
    modifies s
    ensures s.isOn
    ensures var d := DateOf(cur, s.sky.offset);
      InWindow(Window(s.sky.midnight(d), s.sky.noon(d)), next)
    ensures CloseEnough(false, SUNSET_ELEV, s.sky.elevation(next)) || NearCrossing(s.sky, SUNSET_ELEV, false, next)
  {
    var ok := s.Update(cur);
    ghost var d := DateOf(cur, s.sky.offset);
    assert SelectWindow(cur, false, Events(s.sky, d)) == Window(s.sky.midnight(d), s.sky.noon(d));
    assert Accepts(s.sky, s.threshold, s.isOn, cur, d);
    FirstDayFailure(s.sky, s.threshold, s.isOn, cur);
    assert ok;
    var t := s.nextChange.value;
    FirstDayWindow(s.sky, s.threshold, s.isOn, cur, t);
    ok := s.Update(t);
    next := t;
  }
}
