/** sensor.py: tracking of the elevation curve between consecutive solar
    extrema (`CurveParameters`, `Sun2CPSensorEntity`) and the elevation
    sensor that schedules its next update one elevation step ahead
    (`Sun2ElevationSensor`). */
module Curve {
  import opened Wrappers
  import opened Clock
  import opened Solar

  /** `_DELTA`: the fallback polling interval, five minutes. */
  const DELTA: int := 5 * 60 * SEC
  /** The most secant steps `GetDttmAtElev` takes; the source has no cap. */
  const SECANT_STEPS: nat := 1000

  const NIGHT_ICON: string := "mdi:weather-night"
  const SUNSET_UP_ICON: string := "mdi:weather-sunset-up"
  const SUNSET_DOWN_ICON: string := "mdi:weather-sunset-down"
  const SUNNY_ICON: string := "mdi:weather-sunny"

  /** The portion of the elevation curve between a solar midnight and a solar
      noon (or the reverse) that holds the current time. */
  datatype CurveParameters = CurveParameters(
    tl: Instant, tlElev: real,
    tr: Instant, trElev: real,
    midDate: Date, nxtNoon: Instant, rising: bool)

  /** The oracle's extrema straddle `cur`: the previous date's solar noon is
      not after it and the next date's is after it. */
  predicate AroundCurrent(sky: Sky, cur: Instant) {
    var d := DateOf(cur, sky.offset);
    sky.noon(d - 1) <= cur < sky.noon(d + 1)
  }

  /** `(tl, tr)` are consecutive extrema: a noon then the next midnight, or a
      midnight then the noon of the same date. */
  predicate ExtremumPair(sky: Sky, d: Date, tl: Instant, tr: Instant) {
    (tl == sky.noon(d - 1) && tr == sky.midnight(d)) ||
    (tl == sky.midnight(d) && tr == sky.noon(d)) ||
    (tl == sky.noon(d) && tr == sky.midnight(d + 1)) ||
    (tl == sky.midnight(d + 1) && tr == sky.noon(d + 1))
  }

  /** `_get_curve_params`: the extremum pair bracketing `cur`, chosen with
      the astral guarantee that a date's solar midnight comes before its solar
      noon even when it falls on the previous day. */
  function GetCurveParams(sky: Sky, cur: Instant): (cp: CurveParameters)
    ensures ExtremumPair(sky, DateOf(cur, sky.offset), cp.tl, cp.tr)
    ensures AroundCurrent(sky, cur) ==> cp.tl <= cur < cp.tr
    ensures cp.tlElev == sky.elevation(cp.tl) && cp.trElev == sky.elevation(cp.tr)
    ensures cp.rising <==> cp.trElev > cp.tlElev
    ensures cp.nxtNoon == sky.noon(DateOf(cur, sky.offset) + 1)
    ensures cp.midDate == DateOf(cp.tl + HalfOf(cp.tr - cp.tl), sky.offset)
  {
    var d := DateOf(cur, sky.offset);
    var hi := sky.noon(d);
    var lo := sky.midnight(d);
    var nxtNoon := sky.noon(d + 1);
    var (tl, tr) :=
      if cur < lo then (sky.noon(d - 1), lo)
      else if cur < hi then (lo, hi)
      else
        var lo' := sky.midnight(d + 1);
        if cur < lo' then (hi, lo') else (lo', nxtNoon);
    var tlElev := sky.elevation(tl);
    var trElev := sky.elevation(tr);
    CurveParameters(tl, tlElev, tr, trElev, DateOf(tl + HalfOf(tr - tl), sky.offset), nxtNoon, trElev > tlElev)
  }

  /** Solar midnights are lower than the solar noons beside them. */
  predicate NoonsAboveMidnights(sky: Sky, d: Date) {
    sky.elevation(sky.midnight(d)) < sky.elevation(sky.noon(d - 1)) &&
    sky.elevation(sky.midnight(d)) < sky.elevation(sky.noon(d)) &&
    sky.elevation(sky.midnight(d + 1)) < sky.elevation(sky.noon(d)) &&
    sky.elevation(sky.midnight(d + 1)) < sky.elevation(sky.noon(d + 1))
  }

  /** The extrema around date `d` alternate in time. */
  predicate Ordered(sky: Sky, d: Date) {
    sky.noon(d - 1) < sky.midnight(d) < sky.noon(d) < sky.midnight(d + 1) < sky.noon(d + 1)
  }

  /** On such a curve the segment rises exactly when it starts at a solar
      midnight. */
  lemma RisingFromMidnight(sky: Sky, cur: Instant)
    requires Ordered(sky, DateOf(cur, sky.offset))
    requires NoonsAboveMidnights(sky, DateOf(cur, sky.offset))
    ensures var d := DateOf(cur, sky.offset);
      var cp := GetCurveParams(sky, cur);
      cp.rising <==> cp.tl == sky.midnight(d) || cp.tl == sky.midnight(d + 1)
  {
    var d := DateOf(cur, sky.offset);
    var cp := GetCurveParams(sky, cur);
    assert ExtremumPair(sky, d, cp.tl, cp.tr);
  }

  /** `_attrs_at_elev`: the icon for an elevation on a rising or a falling
      segment. */
  function AttrsAtElev(rising: bool, elev: real): (icon: string)
    ensures rising ==> (icon == NIGHT_ICON <==> elev < -18.0)
    ensures rising ==> (icon == SUNNY_ICON <==> elev >= SUNSET_ELEV)
    ensures !rising ==> (icon == NIGHT_ICON <==> elev <= -18.0)
    ensures !rising ==> (icon == SUNNY_ICON <==> elev > SUNSET_ELEV)
    ensures icon in {NIGHT_ICON, SUNNY_ICON, if rising then SUNSET_UP_ICON else SUNSET_DOWN_ICON}
  {
    if rising then
      if elev < -18.0 then NIGHT_ICON
      else if elev < SUNSET_ELEV then SUNSET_UP_ICON
      else SUNNY_ICON
    else
      if elev > SUNSET_ELEV then SUNNY_ICON
      else if elev > -18.0 then SUNSET_DOWN_ICON
      else NIGHT_ICON
  }

  /** Rising and falling agree on night and day everywhere except at the two
      boundary elevations, and show the twilight icon for its direction. */
  lemma AttrsAtElevMirror(elev: real)
    requires elev != -18.0 && elev != SUNSET_ELEV
    ensures AttrsAtElev(true, elev) == NIGHT_ICON <==> AttrsAtElev(false, elev) == NIGHT_ICON
    ensures AttrsAtElev(true, elev) == SUNNY_ICON <==> AttrsAtElev(false, elev) == SUNNY_ICON
    ensures AttrsAtElev(true, elev) == SUNSET_UP_ICON <==> AttrsAtElev(false, elev) == SUNSET_DOWN_ICON
  {
  }

  /** Python's `round(x, 1)`, to the nearest tenth (ties upward). */
  function RoundTenth(x: real): (r: real)
    ensures -(1.0 / 20.0) < r - x <= 1.0 / 20.0
    ensures (r * 10.0).Floor as real == r * 10.0
  {
    (x * 10.0 + 1.0 / 2.0).Floor as real / 10.0
  }

  /** The next target elevation of `Sun2ElevationSensor._update`: the next
      multiple of ELEV_STEP in the direction of travel, but the sunset
      elevation (plus or minus MAX_ERR_ELEV) when the step would jump across
      it, so that the icon changes on time. */
  function NextTarget(rising: bool, rnd: real): (elev: real)
    ensures rising ==> rnd < elev <= rnd + ELEV_STEP
    ensures !rising ==> rnd - ELEV_STEP <= elev < rnd
    ensures rising && rnd < SUNSET_ELEV ==> elev <= SUNSET_ELEV + MAX_ERR_ELEV
    ensures !rising && rnd > SUNSET_ELEV ==> elev >= SUNSET_ELEV - MAX_ERR_ELEV
    ensures elev != SUNSET_ELEV + MAX_ERR_ELEV && elev != SUNSET_ELEV - MAX_ERR_ELEV ==>
      (elev / ELEV_STEP).Floor as real == elev / ELEV_STEP
  {
    if rising then
      var e := ((rnd + ELEV_STEP) / ELEV_STEP).Floor as real * ELEV_STEP;
      if rnd < SUNSET_ELEV && e > SUNSET_ELEV + MAX_ERR_ELEV then SUNSET_ELEV + MAX_ERR_ELEV else e
    else
      var e := -((-(rnd - ELEV_STEP) / ELEV_STEP).Floor) as real * ELEV_STEP;
      if rnd > SUNSET_ELEV && e < SUNSET_ELEV - MAX_ERR_ELEV then SUNSET_ELEV - MAX_ERR_ELEV else e
  }

  /** The fallback wake-up: the segment end when it is at most five minutes
      away, otherwise five minutes from now. */
  function Fallback(cur: Instant, tr: Instant): (nxt: Instant)
    ensures cur < nxt <= cur + DELTA
    ensures (tr - DELTA <= cur < tr) <==> nxt == tr
  {
    if tr - DELTA <= cur < tr then tr else cur + DELTA
  }

  /** One secant step on the bracket `[a, b]`: the straight line through the
      two end elevations, read at `elev` and rounded to a whole second. */
  function Secant(sky: Sky, a: Instant, b: Instant, elev: real): (t: Instant)
    requires sky.elevation(a) != sky.elevation(b)
    ensures WholeSecond(t)
  {
    var aElev, bElev := sky.elevation(a), sky.elevation(b);
    NearestSecond(a + RoundHalfEven((b - a) as real * ((elev - aElev) / (bElev - aElev))))
  }

  /** Where the secant search may stop: at a time whose elevation is within
      `maxErr` of `elev`, or at a time the secant step lands on again from a
      bracket that has it as an end, so that no further step moves. */
  ghost predicate Settled(sky: Sky, t: Instant, elev: real, maxErr: real) {
    Abs(sky.elevation(t) - elev) < maxErr ||
    exists a, b :: sky.elevation(a) != sky.elevation(b) && Secant(sky, a, b, elev) == t && (t == a || t == b)
  }

  /** `Sun2CPSensorEntity._get_dttm_at_elev`: a secant search, kept inside
      the current segment, for a whole second whose elevation is within
      `maxErr` of `elev`. It gives up (None) on two equal end elevations, on
      an estimate outside `[cp.tl, cp.tr]`, and after SECANT_STEPS steps. */
  method GetDttmAtElev(sky: Sky, cp: CurveParameters, t0: Instant, t1: Instant, elev: real, maxErr: real)
    returns (r: Option<Instant>)
    ensures r.Some? ==> WholeSecond(r.value) && cp.tl <= r.value <= cp.tr
    ensures sky.elevation(t0) == sky.elevation(t1) ==> r.None?
    ensures r.Some? ==> Settled(sky, r.value, elev, maxErr)
  {
    var a, b := t0, t1;
    var aElev, bElev := sky.elevation(a), sky.elevation(b);
    var estElev := elev + 3.0 / 2.0 * maxErr;
    var est: nat := 0;
    var estT: Instant := 0;
    while Abs(estElev - elev) >= maxErr
      invariant est <= SECANT_STEPS
      invariant est == 0 ==> estElev == elev + 3.0 / 2.0 * maxErr && a == t0 && b == t1
      invariant est == 0 ==> Abs(estElev - elev) >= maxErr
      invariant sky.elevation(t0) == sky.elevation(t1) ==> est == 0
      invariant aElev == sky.elevation(a) && bElev == sky.elevation(b)
      invariant est > 0 ==> WholeSecond(estT) && cp.tl <= estT <= cp.tr
      invariant est > 0 ==> estElev == sky.elevation(estT)
      decreases SECANT_STEPS - est
    {
      if est == SECANT_STEPS {
        return None;
      }
      est := est + 1;
      if bElev == aElev {
        return None;
      }
      estT := Secant(sky, a, b, elev);
      if estT < cp.tl || estT > cp.tr {
        return None;
      }
      estElev := sky.elevation(estT);
      if estT == a || estT == b {
        assert Settled(sky, estT, elev, maxErr) by {
          assert sky.elevation(a) != sky.elevation(b) && Secant(sky, a, b, elev) == estT && (estT == a || estT == b);
        }
        break;
      }
      if estT > b {
        a, aElev, b, bElev := b, bElev, estT, estElev;
      } else if (aElev < elev < estElev) || (aElev > elev > estElev) {
        b, bElev := estT, estElev;
      } else {
        a, aElev := estT, estElev;
      }
    }
    return Some(estT);
  }

  /** `Sun2ElevationSensor`: shows the elevation rounded to a tenth and wakes
      up when it expects the next ELEV_STEP boundary. */
  class ElevationSensor {
    var sky: Sky
    /** `_cp`: the current curve segment, None until the first update. */
    var cp: Option<CurveParameters>
    /** `_prv_dttm`: the time of the previous update within this segment. */
    var prv: Option<Instant>
    var value: real
    var icon: string
    var nextChange: Instant

    constructor (sky: Sky)
      ensures this.sky == sky && cp.None? && prv.None?
    {
      this.sky := sky;
      cp, prv := None, None;
      value, icon, nextChange := 0.0, SUNNY_ICON, 0;
    }

    /** `_update_astral_data`: a new location forgets the segment. */
    method UpdateAstralData(newSky: Sky)
      modifies this
      ensures sky == newSky && cp.None?
      ensures prv == old(prv) && value == old(value) && icon == old(icon) && nextChange == old(nextChange)
    {
      sky := newSky;
      cp := None;
    }

    /** `_update`. The segment is recomputed, and the previous sample
        forgotten, when there is none or `cur` has reached its end. With a
        previous sample, the next wake-up is the secant estimate of the time
        the next target elevation is reached; without one, or when the
        estimate fails, it is the five-minute fallback. */
    method Update(now: Instant)
      modifies this
      ensures var cur := NearestSecond(now);
        sky == old(sky) && prv == Some(cur) && cp.Some? &&
        value == RoundTenth(sky.elevation(cur)) &&
        icon == AttrsAtElev(cp.value.rising, sky.elevation(cur))
      ensures var cur := NearestSecond(now);
        old(cp).None? || cur >= old(cp).value.tr ==>
          cp == Some(GetCurveParams(sky, cur)) && nextChange == Fallback(cur, cp.value.tr)
      ensures var cur := NearestSecond(now);
        old(cp).Some? && cur < old(cp).value.tr ==> cp == old(cp)
      ensures var cur := NearestSecond(now);
        AroundCurrent(sky, cur) ==> cur < cp.value.tr
      ensures var cur := NearestSecond(now);
        nextChange == Fallback(cur, cp.value.tr) ||
        (WholeSecond(nextChange) && cp.value.tl <= nextChange <= cp.value.tr &&
         Settled(sky, nextChange, NextTarget(cp.value.rising, value), MAX_ERR_ELEV))
    {
      var cur := NearestSecond(now);
      var curElev := sky.elevation(cur);
      var rnd := RoundTenth(curElev);
      value := rnd;
      if cp.None? || cur >= cp.value.tr {
        prv := None;
        cp := Some(GetCurveParams(sky, cur));
      }
      var c := cp.value;
      var nxt: Option<Instant> := None;
      if prv.Some? {
        var elev := NextTarget(c.rising, rnd);
        nxt := GetDttmAtElev(sky, c, prv.value, cur, elev, MAX_ERR_ELEV);
      }
      if nxt.None? {
        nxt := Some(Fallback(cur, c.tr));
      }
      icon := AttrsAtElev(c.rising, curElev);
      nextChange := nxt.value;
      prv := Some(cur);
    }
  }
}
