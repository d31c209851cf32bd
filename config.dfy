/** config.py: the hand-written validators that complete a sensor's
    configuration after its schema has been applied, the sensor-kind
    dispatch and the check that location names are unique. */
module Config {
  import opened Wrappers
  import opened Solar
  import Text
  import BinarySensor

  const ELEVATION: string := "elevation"
  const NAME: string := "name"
  const ICON: string := "icon"
  const DIRECTION: string := "direction"
  const ELEVATION_AT_TIME: string := "elevation_at_time"
  const TIME_AT_ELEVATION: string := "time_at_elevation"
  const LOCATION: string := "location"

  /** `DEFAULT_ELEVATION` */
  const DEFAULT_ELEVATION: real := SUNSET_ELEV

  /** A configuration value after schema validation. */
  datatype Val = Str(s: string) | Number(x: real) | Dir(d: Direction)

  type ConfigDict = map<string, Val>

  /** Python truthiness of a value. */
  predicate Truthy(v: Val) {
    match v
    case Str(s) => s != ""
    case Number(x) => x != 0.0
    case Dir(_) => true
  }

  /** `config.get(CONF_NAME)` is truthy. */
  predicate NamePresent(c: ConfigDict) {
    NAME in c && Truthy(c[NAME])
  }

  /** `translate(hass, key, placeholders)`; without `hass` there are no
      translations to look in and the call fails. */
  function Translate(hass: Option<Text.Translations>, key: string, phs: Text.Placeholders): (r: Result<string>)
    ensures hass.None? ==> r.Err?
    ensures hass.Some? ==> r == Text.Translated(hass.value, key, phs)
  {
    match hass
    case None => Err("AttributeError")
    case Some(t) => Text.Translated(t, key, phs)
  }

  /** The outcome of a validator: the configuration as it stands afterwards
      (the source changes it in place), and the error it raised, if any. */
  datatype Validated = Validated(config: ConfigDict, error: Option<string>)

  /** Only the given keys may differ between two configurations. */
  ghost predicate SameExcept(c: ConfigDict, c': ConfigDict, k1: string, k2: string) {
    forall k :: k != k1 && k != k2 ==> (k in c' <==> k in c) && (k in c ==> c'[k] == c[k])
  }

  /** What the binary-sensor schema leaves under "elevation". */
  predicate BsElevationInput(c: ConfigDict) {
    ELEVATION in c && (c[ELEVATION] == Str("horizon") || c[ELEVATION].Number?)
  }

  /** The default name of an elevation binary sensor. */
  function BsName(hass: Option<Text.Translations>, fmt: real -> string, e: real): Result<string> {
    if e == DEFAULT_ELEVATION then Translate(hass, "above_horizon", [])
    else if e < 0.0 then Translate(hass, "above_neg_elev", [("elevation", fmt(-e))])
    else Translate(hass, "above_pos_elev", [("elevation", fmt(e))])
  }

  /** `val_bs_elevation`: "horizon" becomes the default elevation, and a
      missing or empty name is filled in. */
  function ValBsElevation(c: ConfigDict, hass: Option<Text.Translations>, fmt: real -> string): (v: Validated)
    requires BsElevationInput(c)
    ensures ELEVATION in v.config && v.config[ELEVATION].Number?
    ensures v.config[ELEVATION] == (if c[ELEVATION] == Str("horizon") then Number(DEFAULT_ELEVATION) else c[ELEVATION])
    ensures SameExcept(c, v.config, ELEVATION, NAME)
    ensures NamePresent(c) ==> v.error.None? && NAME in v.config && v.config[NAME] == c[NAME]
    ensures !NamePresent(c) ==>
      var n := BsName(hass, fmt, v.config[ELEVATION].x);
      (v.error.None? <==> n.Ok?) &&
      (n.Ok? ==> NAME in v.config && v.config[NAME] == Str(n.value)) &&
      (n.Err? ==> v.error == Some(n.error) && (NAME in v.config <==> NAME in c) && (NAME in c ==> v.config[NAME] == c[NAME]))
  {
    var c1 := c[ELEVATION := if c[ELEVATION] == Str("horizon") then Number(DEFAULT_ELEVATION) else c[ELEVATION]];
    if NamePresent(c1) then Validated(c1, None)
    else match BsName(hass, fmt, c1[ELEVATION].x)
      case Ok(n) => Validated(c1[NAME := Str(n)], None)
      case Err(e) => Validated(c1, Some(e))
  }

  /** Validating a validated binary-sensor configuration changes nothing. */
  lemma ValBsElevationIdempotent(c: ConfigDict, hass: Option<Text.Translations>, fmt: real -> string)
    requires BsElevationInput(c)
    ensures var v := ValBsElevation(c, hass, fmt);
      BsElevationInput(v.config) && ValBsElevation(v.config, hass, fmt) == v
  {
    var v := ValBsElevation(c, hass, fmt);
    var v2 := ValBsElevation(v.config, hass, fmt);
    assert v2.config == v.config by {
      assert v2.config.Keys == v.config.Keys;
    }
  }

  /** The setting the binary sensor receives for a configured elevation. */
  function SettingOf(v: Val): BinarySensor.ThresholdSetting
    requires v == Str("horizon") || v.Number?
  {
    if v.Number? then BinarySensor.Number(v.x) else BinarySensor.Word(v.s)
  }

  /** With translations loaded, the validator names a sensor as the binary
      sensor's own naming would, except for a threshold given as the number
      -0.833, which the validator calls "above horizon" and the binary sensor
      calls "above minus 0.833". */
  lemma BsNameMatchesBinarySensor(c: ConfigDict, tr: Text.Translations, fmt: real -> string)
    requires BsElevationInput(c) && !NamePresent(c)
    requires c[ELEVATION] != Number(DEFAULT_ELEVATION)
    ensures var v := ValBsElevation(c, Some(tr), fmt);
      var n := BinarySensor.ElevationName(tr, fmt, None, SettingOf(c[ELEVATION]));
      (v.error.None? <==> n.Ok?) && (n.Ok? ==> NAME in v.config && v.config[NAME] == Str(n.value))
  {
  }

  /** The default name of an elevation-at-time sensor. */
  function ElevationAtTimeName(hass: Option<Text.Translations>, atTime: string): (r: Result<string>)
    ensures hass.None? ==> r == Ok("Elevation at " + atTime)
  {
    if hass.Some? then Translate(hass, "elevation_at", [("elev_time", atTime)])
    else Ok("Elevation at " + atTime)
  }

  /** `val_elevation_at_time`: a missing or empty name is filled in; nothing
      else changes. */
  function ValElevationAtTime(c: ConfigDict, hass: Option<Text.Translations>): (v: Validated)
    requires ELEVATION_AT_TIME in c && c[ELEVATION_AT_TIME].Str?
    ensures SameExcept(c, v.config, NAME, NAME)
    ensures NamePresent(c) ==> v == Validated(c, None)
    ensures !NamePresent(c) ==>
      var n := ElevationAtTimeName(hass, c[ELEVATION_AT_TIME].s);
      (n.Ok? ==> v == Validated(c[NAME := Str(n.value)], None)) &&
      (n.Err? ==> v == Validated(c, Some(n.error)))
  {
    if NamePresent(c) then Validated(c, None)
    else match ElevationAtTimeName(hass, c[ELEVATION_AT_TIME].s)
      case Ok(n) => Validated(c[NAME := Str(n)], None)
      case Err(e) => Validated(c, Some(e))
  }

  /** Without `hass` the elevation-at-time validator never fails. */
  lemma ValElevationAtTimeNoHass(c: ConfigDict)
    requires ELEVATION_AT_TIME in c && c[ELEVATION_AT_TIME].Str?
    ensures var v := ValElevationAtTime(c, None);
      v.error.None? && NAME in v.config &&
      (!NamePresent(c) ==> v.config[NAME] == Str("Elevation at " + c[ELEVATION_AT_TIME].s))
  {
  }

  /** `_DIR_TO_ICON` */
  function DirIcon(d: Direction): (icon: string)
    ensures icon != ""
    ensures d.Rising? <==> icon == "mdi:weather-sunset-up"
    ensures d.Setting? <==> icon == "mdi:weather-sunset-down"
  {
    match d
    case Rising => "mdi:weather-sunset-up"
    case Setting => "mdi:weather-sunset-down"
  }

  /** `direction.name.lower()` and `direction.name.title()` */
  function DirLower(d: Direction): string {
    match d
    case Rising => "rising"
    case Setting => "setting"
  }

  function DirTitle(d: Direction): string {
    match d
    case Rising => "Rising"
    case Setting => "Setting"
  }

  /** The default name of a time-at-elevation sensor: a translated text
      chosen by direction and sign, with the magnitude as placeholder, or
      without `hass` "Rising at 5.0 °" / "Setting at minus 5.0 °". */
  function TimeAtElevationName(hass: Option<Text.Translations>, fmt: real -> string, d: Direction, e: real): (r: Result<string>)
    ensures hass.None? ==> r.Ok? && r.value == DirTitle(d) + " at " + (if e < 0.0 then "minus " else "") + fmt(Abs(e)) + " °"
  {
    if hass.Some? then
      Translate(hass, DirLower(d) + "_" + (if e < 0.0 then "neg" else "pos") + "_elev", [("elevation", fmt(Abs(e)))])
    else
      var elevStr := if e >= 0.0 then fmt(e) else "minus " + fmt(-e);
      Ok(DirTitle(d) + " at " + elevStr + " °")
  }

  /** What the time-at-elevation schema leaves in a configuration. */
  predicate TimeAtElevationInput(c: ConfigDict) {
    TIME_AT_ELEVATION in c && c[TIME_AT_ELEVATION].Number? && DIRECTION in c && c[DIRECTION].Dir?
  }

  /** `val_time_at_elevation`: a missing or empty icon is filled from the
      direction, then a missing or empty name is filled in. */
  function ValTimeAtElevation(c: ConfigDict, hass: Option<Text.Translations>, fmt: real -> string): (v: Validated)
    requires TimeAtElevationInput(c)
    ensures SameExcept(c, v.config, ICON, NAME)
    ensures ICON in v.config && Truthy(v.config[ICON])
    ensures ICON in c && Truthy(c[ICON]) ==> v.config[ICON] == c[ICON]
    ensures !(ICON in c && Truthy(c[ICON])) ==> v.config[ICON] == Str(DirIcon(c[DIRECTION].d))
    ensures NamePresent(c) ==> v.error.None? && NAME in v.config && v.config[NAME] == c[NAME]
    ensures !NamePresent(c) ==>
      var n := TimeAtElevationName(hass, fmt, c[DIRECTION].d, c[TIME_AT_ELEVATION].x);
      (v.error.None? <==> n.Ok?) && (n.Ok? ==> NAME in v.config && v.config[NAME] == Str(n.value)) &&
      (n.Err? ==> v.error == Some(n.error) && (NAME in v.config <==> NAME in c) &&
                  (NAME in c ==> v.config[NAME] == c[NAME]))
  {
    var d := c[DIRECTION].d;
    var c1 := if ICON in c && Truthy(c[ICON]) then c else c[ICON := Str(DirIcon(d))];
    if NamePresent(c1) then Validated(c1, None)
    else match TimeAtElevationName(hass, fmt, d, c1[TIME_AT_ELEVATION].x)
      case Ok(n) => Validated(c1[NAME := Str(n)], None)
      case Err(e) => Validated(c1, Some(e))
  }

  /** Validating a validated time-at-elevation configuration changes
      nothing. */
  lemma ValTimeAtElevationIdempotent(c: ConfigDict, hass: Option<Text.Translations>, fmt: real -> string)
    requires TimeAtElevationInput(c)
    ensures var v := ValTimeAtElevation(c, hass, fmt);
      TimeAtElevationInput(v.config) && ValTimeAtElevation(v.config, hass, fmt) == v
  {
    var v := ValTimeAtElevation(c, hass, fmt);
    var v2 := ValTimeAtElevation(v.config, hass, fmt);
    assert v2.config == v.config by {
      assert v2.config.Keys == v.config.Keys;
    }
  }

  /** A configuration whose validators change it in place. */
  class SensorConfig {
    var items: ConfigDict

    constructor (items: ConfigDict)
      ensures this.items == items
    {
      this.items := items;
    }

    /** `val_bs_elevation(hass)(config)` */
    method ValidateBsElevation(hass: Option<Text.Translations>, fmt: real -> string) returns (error: Option<string>)
      requires BsElevationInput(items)
      modifies this
      ensures Validated(items, error) == ValBsElevation(old(items), hass, fmt)
    {
      if items[ELEVATION] == Str("horizon") {
        items := items[ELEVATION := Number(DEFAULT_ELEVATION)];
      }
      if NamePresent(items) {
        return None;
      }
      var name := BsName(hass, fmt, items[ELEVATION].x);
      if name.Err? {
        return Some(name.error);
      }
      items := items[NAME := Str(name.value)];
      return None;
    }

    /** `val_elevation_at_time(hass)(config)` */
    method ValidateElevationAtTime(hass: Option<Text.Translations>) returns (error: Option<string>)
      requires ELEVATION_AT_TIME in items && items[ELEVATION_AT_TIME].Str?
      modifies this
      ensures Validated(items, error) == ValElevationAtTime(old(items), hass)
    {
      if NamePresent(items) {
        return None;
      }
      var atTime := items[ELEVATION_AT_TIME].s;
      var name := ElevationAtTimeName(hass, atTime);
      if name.Err? {
        return Some(name.error);
      }
      items := items[NAME := Str(name.value)];
      return None;
    }

    /** `val_time_at_elevation(hass)(config)` */
    method ValidateTimeAtElevation(hass: Option<Text.Translations>, fmt: real -> string) returns (error: Option<string>)
      requires TimeAtElevationInput(items)
      modifies this
      ensures Validated(items, error) == ValTimeAtElevation(old(items), hass, fmt)
    {
      var direction := items[DIRECTION].d;
      if !(ICON in items && Truthy(items[ICON])) {
        items := items[ICON := Str(DirIcon(direction))];
      }
      if NamePresent(items) {
        return None;
      }
      var elevation := items[TIME_AT_ELEVATION].x;
      var name := TimeAtElevationName(hass, fmt, direction, elevation);
      if name.Err? {
        return Some(name.error);
      }
      items := items[NAME := Str(name.value)];
      return None;
    }
  }

  datatype SensorKind = ElevationAtTimeSensor | TimeAtElevationSensor

  /** `_sensor`: which sensor schema a configuration is checked against;
      elevation_at_time wins when both keys are present. */
  function SensorKindOf(c: ConfigDict): (r: Result<SensorKind>)
    ensures r.Err? <==> ELEVATION_AT_TIME !in c && TIME_AT_ELEVATION !in c
    ensures r == Ok(ElevationAtTimeSensor) <==> ELEVATION_AT_TIME in c
    ensures r == Ok(TimeAtElevationSensor) <==> ELEVATION_AT_TIME !in c && TIME_AT_ELEVATION in c
  {
    if ELEVATION_AT_TIME in c then Ok(ElevationAtTimeSensor)
    else if TIME_AT_ELEVATION in c then Ok(TimeAtElevationSensor)
    else Err("expected elevation_at_time or time_at_elevation")
  }

  /** `config.get(CONF_LOCATION)` of each location configuration. */
  function LocationNames(configs: seq<ConfigDict>): (names: seq<Option<Val>>)
    ensures |names| == |configs|
    ensures forall i :: 0 <= i < |configs| ==>
      names[i] == (if LOCATION in configs[i] then Some(configs[i][LOCATION]) else None)
  {
    if configs == [] then []
    else
      var last := configs[|configs| - 1];
      LocationNames(configs[..|configs| - 1]) + [if LOCATION in last then Some(last[LOCATION]) else None]
  }

  predicate Distinct<T(==)>(s: seq<T>) {
    forall i, j :: 0 <= i < j < |s| ==> s[i] != s[j]
  }

  /** The set of a sequence's elements has exactly as many members as the
      sequence has entries iff no entry repeats. */
  lemma {:induction false} CardinalityDistinct<T>(s: seq<T>)
    ensures |set x | x in s| <= |s|
    ensures |set x | x in s| == |s| <==> Distinct(s)
  {
    if s != [] {
      var t := s[1..];
      CardinalityDistinct(t);
      assert (set x | x in s) == {s[0]} + (set x | x in t) by {
        assert s == [s[0]] + t;
      }
      if s[0] in t {
        var j :| 0 <= j < |t| && t[j] == s[0];
        assert s[j + 1] == s[0];
        assert !Distinct(s);
      } else {
        if Distinct(t) {
          forall i, j | 0 <= i < j < |s| ensures s[i] != s[j] {
            if i > 0 {
              assert s[i] == t[i - 1] && s[j] == t[j - 1];
            } else {
              assert s[j] == t[j - 1];
            }
          }
        } else {
          var i, j :| 0 <= i < j < |t| && t[i] == t[j];
          assert s[i + 1] == s[j + 1];
        }
      }
    }
  }

  /** `_unique_locations_names`: the configurations pass unchanged exactly
      when no two of them give the same location, counting a missing one as
      a value of its own. */
  function UniqueLocationNames(configs: seq<ConfigDict>): (r: Result<seq<ConfigDict>>)
    ensures r.Ok? <==> Distinct(LocationNames(configs))
    ensures r.Ok? ==> r.value == configs
  {
    var names := LocationNames(configs);
    CardinalityDistinct(names);
    if |names| != |set x | x in names| then Err("location values must be unique")
    else Ok(configs)
  }

  /** Two configurations that both omit the location are rejected. */
  lemma TwoUnnamedLocationsRejected(configs: seq<ConfigDict>, i: nat, j: nat)
    requires i < j < |configs| && LOCATION !in configs[i] && LOCATION !in configs[j]
    ensures UniqueLocationNames(configs).Err?
  {
    assert LocationNames(configs)[i] == LocationNames(configs)[j];
  }
}
