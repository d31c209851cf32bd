/** sensor.py: the daily sensors (`Sun2SensorEntity` with its point-in-time
    and period-of-time variants) and the azimuth sensor's polling bands. */
module Sensors {
  import opened Wrappers
  import opened Clock
  import opened Solar

  /** `_SOLAR_DEPRESSIONS` */
  const SOLAR_DEPRESSIONS: seq<string> := ["astronomical", "civil", "nautical"]

  predicate StartsWith(s: string, prefix: string) {
    |prefix| <= |s| && s[..|prefix|] == prefix
  }

  /** `str.rsplit("_", 1)` on a string that holds an underscore: the parts
      before and after the last one. */
  function RSplit(key: string): (r: (string, string))
    requires '_' in key
    ensures r.0 + "_" + r.1 == key && '_' !in r.1
    decreases |key|
  {
    var last := key[|key| - 1];
    if last == '_' then (key[..|key| - 1], "")
    else
      assert key == key[..|key| - 1] + [last];
      var (a, b) := RSplit(key[..|key| - 1]);
      (a, b + [last])
  }

  /** The split is unique: any decomposition around an underscore-free tail
      is the one `RSplit` finds. */
  lemma {:induction false} RSplitOf(a: string, b: string)
    requires '_' !in b
    ensures RSplit(a + "_" + b) == (a, b)
    decreases |b|
  {
    var key := a + "_" + b;
    if b == [] {
      assert key[..|key| - 1] == a;
    } else {
      var b' := b[..|b| - 1];
      assert b == b' + [b[|b| - 1]];
      assert key[..|key| - 1] == a + "_" + b';
      RSplitOf(a, b');
    }
  }

  predicate HasDepressionPrefix(key: string) {
    exists p :: p in SOLAR_DEPRESSIONS && StartsWith(key, p + "_")
  }

  /** `Sun2SensorEntity.__init__`: a key that starts with one of the named
      depressions and an underscore is split at its last underscore into a
      named depression and an event; any other key is the event itself,
      with the sensor's default depression. */
  function ParseKey(key: string, default: Depression): (r: (Depression, string))
    ensures HasDepressionPrefix(key) ==> r.0.Named? && r.0.name + "_" + r.1 == key && '_' !in r.1
    ensures !HasDepressionPrefix(key) ==> r == (default, key)
  {
    if HasDepressionPrefix(key) then
      var p :| p in SOLAR_DEPRESSIONS && StartsWith(key, p + "_");
      assert key[|p|] == '_';
      var (d, e) := RSplit(key);
      (Named(d), e)
    else (default, key)
  }

  /** The keys the integration defines split as intended: a named depression
      in front of an underscore-free event yields exactly that pair. */
  lemma ParseDepressionKey(p: string, event: string, default: Depression)
    requires p in SOLAR_DEPRESSIONS && '_' !in event
    ensures ParseKey(p + "_" + event, default) == (Named(p), event)
  {
    var key := p + "_" + event;
    assert key[..|p + "_"|] == p + "_";
    RSplitOf(p, event);
  }

  /** `Sun2PeriodOfTimeSensor._astral_event`: hours from dawn to dusk of the
      date ("daylight"), or from dusk to the next date's dawn (the night
      variants); None if either end is missing. */
  function PeriodHours(sky: Sky, obs: ObsElvs, dep: Depression, event: string, date: Date): (r: Option<real>)
    ensures var start := AstralEvent(sky, obs, dep, Sun(if event == "daylight" then Dawn else Dusk), date);
      var end := if event == "daylight" then AstralEvent(sky, obs, dep, Sun(Dusk), date)
                 else AstralEvent(sky, obs, dep, Sun(Dawn), date + 1);
      (r.Some? <==> start.Time? && end.Time?) &&
      (r.Some? ==> r.value * 3600.0 * SEC as real == (end.t - start.t) as real)
  {
    var start := if event == "daylight" then AstralEvent(sky, obs, dep, Sun(Dawn), date)
                 else AstralEvent(sky, obs, dep, Sun(Dusk), date);
    var end := if event == "daylight" then AstralEvent(sky, obs, dep, Sun(Dusk), date)
               else AstralEvent(sky, obs, dep, Sun(Dawn), date + 1);
    if !start.Time? || !end.Time? then None
    else Some((end.t - start.t) as real / (3600.0 * SEC as real))
  }

  /** The day's daylight and the following night together span one dawn to
      the next. */
  lemma DaylightPlusNight(sky: Sky, obs: ObsElvs, dep: Depression, date: Date)
    requires PeriodHours(sky, obs, dep, "daylight", date).Some?
    requires PeriodHours(sky, obs, dep, "night", date).Some?
    ensures var dawn := AstralEvent(sky, obs, dep, Sun(Dawn), date).t;
      var nextDawn := AstralEvent(sky, obs, dep, Sun(Dawn), date + 1).t;
      (PeriodHours(sky, obs, dep, "daylight", date).value + PeriodHours(sky, obs, dep, "night", date).value)
        * 3600.0 * SEC as real == (nextDawn - dawn) as real
  {
  }

  /** `Sun2AzimuthSensor._update`: seconds until the next azimuth update, by
      elevation band. */
  function AzimuthDelay(elevation: real): (delta: nat)
    ensures delta in {120, 240, 480, 1200}
    ensures delta == 120 <==> 0.0 <= elevation < 10.0
    ensures delta == 240 <==> elevation >= 10.0 || -6.0 <= elevation < 0.0
    ensures delta == 480 <==> -18.0 <= elevation < -6.0
    ensures delta == 1200 <==> elevation < -18.0
  {
    if elevation >= 10.0 then 4 * 60
    else if elevation >= 0.0 then 2 * 60
    else if elevation >= -6.0 then 4 * 60
    else if elevation >= -18.0 then 8 * 60
    else 20 * 60
  }

  /** Polling is fastest just above the horizon: above it the delay never
      shrinks as the sun climbs, below it the delay never grows as the sun
      comes up towards it. */
  lemma AzimuthDelayBands(e1: real, e2: real)
    requires e1 <= e2
    ensures 0.0 <= e1 ==> AzimuthDelay(e1) <= AzimuthDelay(e2)
    ensures e2 < 0.0 ==> AzimuthDelay(e1) >= AzimuthDelay(e2)
    ensures e1 < 0.0 <= e2 < 10.0 ==> AzimuthDelay(e1) > AzimuthDelay(e2)
  {
  }

  class AzimuthSensor {
    var sky: Sky
    var value: real
    /** The delay handed to the scheduler, in seconds. */
    var delay: nat

    constructor (sky: Sky)
      ensures this.sky == sky
    {
      this.sky := sky;
      value, delay := 0.0, 0;
    }

    /** `Sun2AzimuthSensor._update`: azimuth and elevation at the nearest
        whole second, and the delay for the elevation's band. */
    method Update(cur: Instant)
      modifies this
      ensures sky == old(sky)
      ensures var t := NearestSecond(cur);
        value == sky.azimuth(t) && delay == AzimuthDelay(sky.elevation(t))
    {
      var t := NearestSecond(cur);
      value := sky.azimuth(t);
      var elevation := sky.elevation(t);
      delay := AzimuthDelay(elevation);
    }
  }

  /** What a daily sensor reports for a date. */
  datatype Reading = Nothing | At(t: Instant) | Amount(x: real)

  datatype DailyKind = PointInTime | PeriodOfTime

  /** The default depression: "civil" for points in time, the sun's apparent
      radius for periods. */
  function DefaultDepression(kind: DailyKind): Depression {
    match kind
    case PointInTime => Named("civil")
    case PeriodOfTime => Angle(SUN_APPARENT_RADIUS)
  }

  /** Event names of the base `_astral_event`. */
  function EventNamed(name: string): Option<Event> {
    if name == "solar_midnight" then Some(SolarMidnight)
    else if name == "solar_noon" then Some(SolarNoon)
    else if name == "dawn" then Some(Sun(Dawn))
    else if name == "sunrise" then Some(Sun(Sunrise))
    else if name == "sunset" then Some(Sun(Sunset))
    else if name == "dusk" then Some(Sun(Dusk))
    else None
  }

  function ReadingOf(a: Answer): Reading {
    match a
    case NoAnswer => Nothing
    case Time(t) => At(t)
    case Degrees(x) => Amount(x)
  }

  /** The value a daily sensor computes for one date. */
  function DailyReading(sky: Sky, obs: ObsElvs, kind: DailyKind, dep: Depression, event: string, date: Date): (r: Reading)
    ensures kind.PeriodOfTime? ==> (r.Amount? <==> PeriodHours(sky, obs, dep, event, date).Some?)
    ensures kind.PeriodOfTime? && r.Amount? ==> r.x == PeriodHours(sky, obs, dep, event, date).value
    ensures kind.PointInTime? ==> !r.Amount?
    ensures kind.PointInTime? && EventNamed(event).None? ==> r == Nothing
    ensures kind.PointInTime? && EventNamed(event).Some? ==>
      var a := AstralEvent(sky, obs, dep, EventNamed(event).value, date);
      (r.At? <==> a.Time?) && (r.At? ==> r.t == a.t)
  {
    match kind
    case PeriodOfTime =>
      (match PeriodHours(sky, obs, dep, event, date)
       case None => Nothing
       case Some(h) => Amount(h))
    case PointInTime =>
      (match EventNamed(event)
       case None => Nothing
       case Some(e) => ReadingOf(AstralEvent(sky, obs, dep, e, date)))
  }

  class DailySensor {
    const kind: DailyKind
    const depression: Depression
    const event: string
    var sky: Sky
    var obs: ObsElvs
    var yesterday: Reading
    var today: Reading
    var tomorrow: Reading
    var value: Reading

    /** `Sun2SensorEntity.__init__` with the key parsing. */
    constructor (kind: DailyKind, key: string, sky: Sky, obs: ObsElvs)
      ensures this.kind == kind && this.sky == sky && this.obs == obs
      ensures (depression, event) == ParseKey(key, DefaultDepression(kind))
      ensures yesterday == today == tomorrow == value == Nothing
    {
      this.kind := kind;
      var parsed := ParseKey(key, DefaultDepression(kind));
      depression, event := parsed.0, parsed.1;
      this.sky, this.obs := sky, obs;
      yesterday, today, tomorrow, value := Nothing, Nothing, Nothing, Nothing;
    }

    /** `Sun2SensorEntity._update`: the readings for the local date of `cur`
        and the dates either side; the state is today's. */
    method Update(cur: Instant)
      modifies this
      ensures sky == old(sky) && obs == old(obs)
      ensures var d := DateOf(cur, sky.offset);
        yesterday == DailyReading(sky, obs, kind, depression, event, d - 1) &&
        today == DailyReading(sky, obs, kind, depression, event, d) &&
        tomorrow == DailyReading(sky, obs, kind, depression, event, d + 1) &&
        value == today
    {
      var d := DateOf(cur, sky.offset);
      yesterday := DailyReading(sky, obs, kind, depression, event, d - 1);
      today := DailyReading(sky, obs, kind, depression, event, d);
      value := today;
      tomorrow := DailyReading(sky, obs, kind, depression, event, d + 1);
    }

    /** `Sun2PeriodOfTimeSensor.extra_state_attributes`: the three readings
        as "H:MM:SS" text, absent where the reading is. */
    function HmsAttributes(): (r: (Option<string>, Option<string>, Option<string>))
      reads this
      ensures r.0.Some? <==> yesterday.Amount?
      ensures r.1.Some? <==> today.Amount?
      ensures r.2.Some? <==> tomorrow.Amount?
      ensures yesterday.Amount? ==> r.0 == HoursToHms(Some(yesterday.x))
      ensures today.Amount? ==> r.1 == HoursToHms(Some(today.x))
      ensures tomorrow.Amount? ==> r.2 == HoursToHms(Some(tomorrow.x))
    {
      (HoursToHms(AmountOf(yesterday)), HoursToHms(AmountOf(today)), HoursToHms(AmountOf(tomorrow)))
    }
  }

  function AmountOf(r: Reading): Option<real> {
    if r.Amount? then Some(r.x) else None
  }

  /** Updating a sensor a day later shifts its readings by one: the old
      "today" becomes "yesterday" and the old "tomorrow" becomes "today". */
  method UpdateNextDay(s: DailySensor, cur: Instant) returns (firstToday: Reading, firstTomorrow: Reading)
    modifies s
    ensures s.yesterday == firstToday && s.today == firstTomorrow && s.value == firstTomorrow
  {
    s.Update(cur);
    firstToday, firstTomorrow := s.today, s.tomorrow;
    s.Update(cur + ONE_DAY);
    assert DateOf(cur + ONE_DAY, s.sky.offset) == DateOf(cur, s.sky.offset) + 1;
  }
}
