/** The astral library as an uninterpreted oracle, and the helpers.py code that
    prepares its inputs: observer elevations, location parameters and the
    dispatch of `Sun2Entity._astral_event`. */
module Solar {
  import opened Wrappers
  import opened Clock

  /** const.py */
  const ELEV_STEP: real := 0.5
  const MAX_ERR_ELEV: real := 0.02
  const MAX_ERR_BIN: real := 0.001
  const SUNSET_ELEV: real := -0.833
  /** astral's apparent solar radius, 32 arc minutes across: the default
      depression of the period-of-time sensors. */
  const SUN_APPARENT_RADIUS: real := 32.0 / 120.0

  /** `Location.solar_depression`: a name ("civil", ...) or an angle. */
  datatype Depression = Named(name: string) | Angle(deg: real)

  /** astral's `observer_elevation` argument: a height, or a pair describing
      an obstruction. */
  datatype ObsElv = Height(h: real) | Obstruction(first: real, second: real)

  /** Observer elevations toward sunrise (east) and sunset (west). */
  datatype ObsElvs = ObsElvs(east: ObsElv, west: ObsElv)

  datatype Direction = Rising | Setting

  datatype SunEvent = Dawn | Sunrise | Sunset | Dusk

  /** The oracle. Elevation, azimuth, solar noon and solar midnight are total;
      the sun events and `time_at_elevation` raise ValueError when the sun
      never gets there, which the oracle reports as `None`. `offset` is the
      location's time zone, in microseconds ahead of UTC. */
  datatype Sky = Sky(
    elevation: Instant -> real,
    azimuth: Instant -> real,
    noon: Date -> Instant,
    midnight: Date -> Instant,
    sunEvent: (SunEvent, Date, Depression, ObsElv) -> Option<Instant>,
    atElevation: (real, Date, Direction) -> Option<Instant>,
    offset: int)

  /** The event names `_astral_event` dispatches on. */
  datatype Event =
    | SolarMidnight | SolarNoon
    | TimeAtElevation(target: real, direction: Direction)
    | Sun(kind: SunEvent)
    | SolarElevation | SolarAzimuth

  /** What astral answers: an instant, an angle, or nothing (the TypeError or
      ValueError that `_astral_event` turns into `None`). */
  datatype Answer = NoAnswer | Time(t: Instant) | Degrees(x: real)

  function AsTime(o: Option<Instant>): (a: Answer)
    ensures a.NoAnswer? <==> o.None?
  {
    match o
    case None => NoAnswer
    case Some(t) => Time(t)
  }

  /** The `observer_elevation` keyword `_astral_event` passes, if any. */
  function ObserverFor(obs: ObsElvs, event: Event): (r: Option<ObsElv>)
    ensures r.Some? <==> event.Sun?
    ensures event == Sun(Dawn) || event == Sun(Sunrise) ==> r == Some(obs.east)
    ensures event == Sun(Sunset) || event == Sun(Dusk) ==> r == Some(obs.west)
  {
    match event
    case Sun(Dawn) | Sun(Sunrise) => Some(obs.east)
    case Sun(Sunset) | Sun(Dusk) => Some(obs.west)
    case _ => None
  }

  /** `Sun2Entity._astral_event`. `arg` is the date or the instant the event
      takes (`date_or_dttm`); `dep` is the solar depression the entity has set
      on the shared location. */
  function AstralEvent(sky: Sky, obs: ObsElvs, dep: Depression, event: Event, arg: int): (r: Answer)
    ensures event.SolarMidnight? ==> r == Time(sky.midnight(arg))
    ensures event.SolarNoon? ==> r == Time(sky.noon(arg))
    ensures event.SolarElevation? ==> r == Degrees(sky.elevation(arg))
    ensures event.SolarAzimuth? ==> r == Degrees(sky.azimuth(arg))
    ensures event.TimeAtElevation? ==> r == AsTime(sky.atElevation(event.target, arg, event.direction))
    ensures event.Sun? ==> r == AsTime(sky.sunEvent(event.kind, arg, dep, ObserverFor(obs, event).value))
  {
    match event
    case SolarMidnight => Time(sky.midnight(arg))
    case SolarNoon => Time(sky.noon(arg))
    case TimeAtElevation(e, d) => AsTime(sky.atElevation(e, arg, d))
    case Sun(kind) => AsTime(sky.sunEvent(kind, arg, dep, ObserverFor(obs, event).value))
    case SolarElevation => Degrees(sky.elevation(arg))
    case SolarAzimuth => Degrees(sky.azimuth(arg))
  }

  /** Morning events see only the east observer elevation, evening events only
      the west one, and all other events neither. */
  lemma AstralEventObserverIndependence(sky: Sky, o1: ObsElvs, o2: ObsElvs, dep: Depression, event: Event, arg: int)
    requires event == Sun(Dawn) || event == Sun(Sunrise) ==> o1.east == o2.east
    requires event == Sun(Sunset) || event == Sun(Dusk) ==> o1.west == o2.west
    ensures AstralEvent(sky, o1, dep, event, arg) == AstralEvent(sky, o2, dep, event, arg)
  {
    if event.Sun? {
      assert ObserverFor(o1, event) == ObserverFor(o2, event);
    }
  }

  /** An observer-elevation option as stored in a config entry: a number, or a
      `[height, distance]` list describing an obstruction. */
  datatype RawObsElv = Num(x: real) | HeightDistance(height: real, distance: real)

  /** `copysign(1, x)` on reals (there is no negative zero here). */
  function SignOf(x: real): (s: real)
    ensures s == 1.0 || s == -1.0
    ensures (s < 0.0) <==> (x < 0.0)
  {
    if x < 0.0 then -1.0 else 1.0
  }

  function Abs(x: real): (a: real)
    ensures a >= 0.0 && (a == x || a == -x)
  {
    if x < 0.0 then -x else x
  }

  /** `ObsElvs._obs_elv_2_astral`: a number passes through; an obstruction
      `[h, d]` becomes `(-copysign(1, h) * d, |h|)`, which works around astral
      swapping the two values and flipping the sign. */
  function ObsElvToAstral(raw: RawObsElv): (r: ObsElv)
    ensures raw.Num? ==> r == Height(raw.x)
    ensures raw.HeightDistance? ==> r.Obstruction? && r.second >= 0.0
    ensures raw.HeightDistance? ==> r.second == Abs(raw.height)
    ensures raw.HeightDistance? ==> r.first == (if raw.height < 0.0 then raw.distance else -raw.distance)
  {
    match raw
    case Num(x) => Height(x)
    case HeightDistance(h, d) => Obstruction(-SignOf(h) * d, Abs(h))
  }

  /** The transform loses nothing for a positive distance: height and distance
      can be read back from the pair handed to astral. */
  lemma {:induction false} ObsElvToAstralInvertible(h: real, d: real)
    requires d > 0.0
    ensures var r := ObsElvToAstral(HeightDistance(h, d));
      r.Obstruction? && -SignOf(r.first) * r.second == h && Abs(r.first) == d
  {
    var r := ObsElvToAstral(HeightDistance(h, d));
    assert r.first == -SignOf(h) * d;
    if h < 0.0 {
      assert r.first == d;
    } else {
      assert r.first == -d;
    }
  }

  /** The location options of a config entry, each possibly missing. */
  datatype EntryOptions = EntryOptions(
    latitude: Option<real>,
    longitude: Option<real>,
    timeZone: Option<string>,
    elevation: Option<real>,
    obsElv: Option<seq<RawObsElv>>)

  /** `ObsElvs.from_entry_options`. A non-empty observer-elevation list is
      unpacked into east and west (ValueError unless it has two items);
      otherwise both are the elevation option, 0 when it is missing. */
  function ObsElvsFromOptions(options: EntryOptions): (r: Result<ObsElvs>)
    ensures (options.obsElv.None? || options.obsElv.value == []) ==>
      r.Ok? && r.value.east == r.value.west == Height(if options.elevation.Some? then options.elevation.value else 0.0)
    ensures options.obsElv.Some? && |options.obsElv.value| > 0 ==>
      (r.Ok? <==> |options.obsElv.value| == 2)
    ensures r.Ok? && options.obsElv.Some? && |options.obsElv.value| == 2 ==>
      r.value == ObsElvs(ObsElvToAstral(options.obsElv.value[0]), ObsElvToAstral(options.obsElv.value[1]))
  {
    if options.obsElv.Some? && |options.obsElv.value| > 0 then
      var l := options.obsElv.value;
      if |l| == 2 then Ok(ObsElvs(ObsElvToAstral(l[0]), ObsElvToAstral(l[1])))
      else Err("ValueError")
    else
      var aboveGround := if options.elevation.Some? then options.elevation.value else 0.0;
      Ok(ObsElvs(Height(aboveGround), Height(aboveGround)))
  }

  datatype LocParams = LocParams(latitude: real, longitude: real, timeZone: string)

  /** `LocParams.from_entry_options`: None (use Home Assistant's location)
      unless latitude, longitude and time zone are all present. */
  function LocParamsFromOptions(options: EntryOptions): (r: Option<LocParams>)
    ensures r.Some? <==> options.latitude.Some? && options.longitude.Some? && options.timeZone.Some?
    ensures r.Some? ==> r.value == LocParams(options.latitude.value, options.longitude.value, options.timeZone.value)
  {
    if options.latitude.Some? && options.longitude.Some? && options.timeZone.Some? then
      Some(LocParams(options.latitude.value, options.longitude.value, options.timeZone.value))
    else None
  }

  /** Location data: the parameters and the time zone found for them (`None`
      when the zone name is unknown, which the source only logs). */
  datatype LocData = LocData(params: LocParams, tzi: Option<int>)

  /** `_get_loc_data`: None stands for "use Home Assistant's location" and
      stays None; otherwise the zone is looked up with `zones`. */
  function GetLocData(lp: Option<LocParams>, zones: string -> Option<int>): (r: Option<LocData>)
    ensures r.None? <==> lp.None?
    ensures r.Some? ==> r.value.params == lp.value && r.value.tzi == zones(lp.value.timeZone)
  {
    match lp
    case None => None
    case Some(p) => Some(LocData(p, zones(p.timeZone)))
  }

  /** `get_loc_data` on config-entry options: location data exactly when the
      options name a complete location. */
  lemma LocDataFromOptions(options: EntryOptions, zones: string -> Option<int>)
    ensures GetLocData(LocParamsFromOptions(options), zones).Some? <==>
      options.latitude.Some? && options.longitude.Some? && options.timeZone.Some?
  {
  }
}
