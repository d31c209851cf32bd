/** sensor.py: the phase sensors (`PhaseSensor` with the sun-phase and the
    deCONZ-daylight tables), which step through a fixed cyclic table of solar
    events, one event per update. */
module Phase {
  import opened Wrappers
  import opened Clock
  import opened Solar

  const NIGHT_ICON: string := "mdi:weather-night"
  const SUNNY_ICON: string := "mdi:weather-sunny"
  const UP_ICON: string := "mdi:weather-sunset-up"
  const DOWN_ICON: string := "mdi:weather-sunset-down"

  /** `Sun2PA` (blue hour, golden hour, rising) and `Sun2DA` (daylight). */
  datatype PhaseAttrs = Sun2PA(blueHour: bool, goldenHour: bool, rising: bool) | Sun2DA(daylight: bool)

  /** `PhaseParams`: the event that starts a phase, the solar depression to
      set before computing it (if any), the phase name and its attributes. */
  datatype PhaseParams = PhaseParams(event: Event, depression: Option<real>, phase: string, attrs: PhaseAttrs)

  datatype PhaseKind = SunPhase | DeconzDaylight

  const MIDNIGHT: Event := SolarMidnight
  const NOON: Event := SolarNoon
  const DAWN: Event := Sun(Dawn)
  const DUSK: Event := Sun(Dusk)
  const SUNRISE: Event := Sun(Sunrise)
  const SUNSET: Event := Sun(Sunset)

  /** `Sun2PhaseSensor._phase_params` */
  const SUN2_PHASES: seq<PhaseParams> := [
    PhaseParams(MIDNIGHT, None, "night", Sun2PA(false, false, true)),
    PhaseParams(DAWN, Some(18.0), "astronomical_twilight", Sun2PA(false, false, true)),
    PhaseParams(DAWN, Some(12.0), "nautical_twilight", Sun2PA(false, false, true)),
    PhaseParams(DAWN, Some(6.0), "civil_twilight", Sun2PA(true, false, true)),
    PhaseParams(DAWN, Some(4.0), "civil_twilight", Sun2PA(false, true, true)),
    PhaseParams(SUNRISE, None, "day", Sun2PA(false, true, true)),
    PhaseParams(DAWN, Some(-6.0), "day", Sun2PA(false, false, true)),
    PhaseParams(NOON, None, "day", Sun2PA(false, false, false)),
    PhaseParams(DUSK, Some(-6.0), "day", Sun2PA(false, true, false)),
    PhaseParams(SUNSET, None, "civil_twilight", Sun2PA(false, true, false)),
    PhaseParams(DUSK, Some(4.0), "civil_twilight", Sun2PA(true, false, false)),
    PhaseParams(DUSK, Some(6.0), "nautical_twilight", Sun2PA(false, false, false)),
    PhaseParams(DUSK, Some(12.0), "astronomical_twilight", Sun2PA(false, false, false)),
    PhaseParams(DUSK, Some(18.0), "night", Sun2PA(false, false, false))
  ]

  /** `Sun2DeconzDaylightSensor._phase_params` */
  const DECONZ_PHASES: seq<PhaseParams> := [
    PhaseParams(MIDNIGHT, None, "nadir", Sun2DA(false)),
    PhaseParams(DAWN, Some(18.0), "night_end", Sun2DA(false)),
    PhaseParams(DAWN, Some(12.0), "nautical_dawn", Sun2DA(false)),
    PhaseParams(DAWN, Some(6.0), "dawn", Sun2DA(false)),
    PhaseParams(SUNRISE, None, "sunrise_start", Sun2DA(true)),
    PhaseParams(DAWN, Some(0.3), "sunrise_end", Sun2DA(true)),
    PhaseParams(DAWN, Some(-6.0), "golden_hour_1", Sun2DA(true)),
    PhaseParams(NOON, None, "solar_noon", Sun2DA(true)),
    PhaseParams(DUSK, Some(-6.0), "golden_hour_2", Sun2DA(true)),
    PhaseParams(DUSK, Some(0.3), "sunset_start", Sun2DA(true)),
    PhaseParams(SUNSET, None, "sunset_end", Sun2DA(false)),
    PhaseParams(DUSK, Some(6.0), "dusk", Sun2DA(false)),
    PhaseParams(DUSK, Some(12.0), "nautical_dusk", Sun2DA(false)),
    PhaseParams(DUSK, Some(18.0), "night_start", Sun2DA(false))
  ]

  function Table(kind: PhaseKind): (t: seq<PhaseParams>)
    ensures |t| == 14
  {
    match kind
    case SunPhase => SUN2_PHASES
    case DeconzDaylight => DECONZ_PHASES
  }

  /** `Sun2PhaseSensor._icon` */
  function Sun2Icon(p: PhaseParams): string {
    if p.phase == "night" then NIGHT_ICON
    else if p.phase == "day" then SUNNY_ICON
    else if p.attrs.Sun2PA? && p.attrs.rising then UP_ICON
    else DOWN_ICON
  }

  /** `Sun2DeconzDaylightSensor._icon` */
  function DeconzIcon(p: PhaseParams): string {
    if p.phase == "nadir" || p.phase == "night_start" then NIGHT_ICON
    else if p.attrs.Sun2DA? && p.attrs.daylight then SUNNY_ICON
    else if p.phase in ["night_end", "nautical_dawn", "dawn"] then UP_ICON
    else DOWN_ICON
  }

  function Icon(kind: PhaseKind, p: PhaseParams): string {
    match kind
    case SunPhase => Sun2Icon(p)
    case DeconzDaylight => DeconzIcon(p)
  }

  /** The icon band of table entry `i`: both tables show night at either
      end, the rising-twilight icon on the morning entries, the sunny icon
      in the middle and the falling-twilight icon on the evening entries. */
  function Band(kind: PhaseKind, i: nat): string {
    if i == 0 || i == 13 then NIGHT_ICON
    else if kind.SunPhase? && i <= 4 then UP_ICON
    else if kind.DeconzDaylight? && i <= 3 then UP_ICON
    else if kind.SunPhase? && i <= 8 then SUNNY_ICON
    else if kind.DeconzDaylight? && i <= 9 then SUNNY_ICON
    else DOWN_ICON
  }

  lemma {:induction false} IconBands(kind: PhaseKind, i: nat)
    requires i < 14
    ensures Icon(kind, Table(kind)[i]) == Band(kind, i)
  {
    var t := Table(kind);
    if kind.SunPhase? {
      assert t == SUN2_PHASES;
      if i == 0 { assert t[i].phase == "night"; }
      else if i == 1 { assert t[i].phase == "astronomical_twilight"; }
      else if i == 2 { assert t[i].phase == "nautical_twilight"; }
      else if i <= 4 { assert t[i].phase == "civil_twilight"; }
      else if i <= 8 { assert t[i].phase == "day"; }
      else if i <= 10 { assert t[i].phase == "civil_twilight"; }
      else if i == 11 { assert t[i].phase == "nautical_twilight"; }
      else if i == 12 { assert t[i].phase == "astronomical_twilight"; }
      else { assert t[i].phase == "night"; }
    } else {
      assert t == DECONZ_PHASES;
      if i == 0 { assert t[i].phase == "nadir"; }
      else if i == 1 { assert t[i].phase == "night_end"; }
      else if i == 2 { assert t[i].phase == "nautical_dawn"; }
      else if i == 3 { assert t[i].phase == "dawn"; }
      else if i <= 9 { assert t[i].attrs == Sun2DA(true); }
      else if i == 10 { assert t[i].phase == "sunset_end"; }
      else if i == 11 { assert t[i].phase == "dusk"; }
      else if i == 12 { assert t[i].phase == "nautical_dusk"; }
      else { assert t[i].phase == "night_start"; }
    }
  }

  /** Both tables run from night through morning twilight to day and back
      in mirror image: entry `i` shows the night icon, the sunny icon or the
      rising-twilight icon exactly when entry `13 - i` shows the night icon,
      the sunny icon or the falling-twilight icon. */
  lemma IconsMirror(kind: PhaseKind, i: nat)
    requires i < 14
    ensures var t := Table(kind);
      (Icon(kind, t[i]) == NIGHT_ICON <==> Icon(kind, t[13 - i]) == NIGHT_ICON) &&
      (Icon(kind, t[i]) == SUNNY_ICON <==> Icon(kind, t[13 - i]) == SUNNY_ICON) &&
      (Icon(kind, t[i]) == UP_ICON <==> Icon(kind, t[13 - i]) == DOWN_ICON)
  {
    IconBands(kind, i);
    IconBands(kind, 13 - i);
  }

  /** `phases`: the option values of the sensor, each phase name once. */
  function Phases(kind: PhaseKind): (names: set<string>)
    ensures forall i :: 0 <= i < 14 ==> Table(kind)[i].phase in names
    ensures forall n :: n in names ==> exists i :: 0 <= i < 14 && Table(kind)[i].phase == n
  {
    set i | 0 <= i < 14 :: Table(kind)[i].phase
  }

  /** The depression the sensor holds after setting those of the first `j`
      entries, starting from `dep0`. */
  function DepAfter(table: seq<PhaseParams>, dep0: Depression, j: nat): Depression
    requires j <= |table|
  {
    if j == 0 then dep0
    else if table[j - 1].depression.Some? then Angle(table[j - 1].depression.value)
    else DepAfter(table, dep0, j - 1)
  }

  /** `_astral_event(date, event)` for a phase event: an instant, or None when
      astral has no answer. */
  function EventTime(sky: Sky, obs: ObsElvs, dep: Depression, event: Event, date: Date): (t: Option<Instant>)
    ensures t.Some? <==> AstralEvent(sky, obs, dep, event, date).Time?
    ensures t.Some? ==> t.value == AstralEvent(sky, obs, dep, event, date).t
  {
    match AstralEvent(sky, obs, dep, event, date)
    case Time(t) => Some(t)
    case _ => None
  }

  /** Start time of entry `j` on `date`, with the depression the sensor holds
      by then. */
  function EventAt(sky: Sky, obs: ObsElvs, table: seq<PhaseParams>, dep0: Depression, date: Date, j: nat): Option<Instant>
    requires j < |table|
  {
    EventTime(sky, obs, DepAfter(table, dep0, j + 1), table[j].event, date)
  }

  /** The outcome of the first-update scan: the index of the phase in force
      (and whether it is the last phase of the previous day), or a missing
      event (a TypeError in the source), with the depression held at the
      end. */
  datatype Scan = Started(idx: nat, back: bool, dep: Depression) | Missing(dep: Depression)

  /** The scan of `_update` when no index is known, from entry `i` on. */
  function ScanFrom(sky: Sky, obs: ObsElvs, table: seq<PhaseParams>, dep0: Depression, cur: Instant, date: Date, i: nat): (s: Scan)
    requires 0 < |table| && i <= |table|
    ensures s.Started? ==> s.idx < |table|
    decreases |table| - i
  {
    if i == |table| then Started(|table| - 1, false, DepAfter(table, dep0, i))
    else match EventAt(sky, obs, table, dep0, date, i)
      case None => Missing(DepAfter(table, dep0, i + 1))
      case Some(t) =>
        if t > cur then
          if i == 0 then Started(|table| - 1, true, DepAfter(table, dep0, i + 1))
          else Started(i - 1, false, DepAfter(table, dep0, i + 1))
        else ScanFrom(sky, obs, table, dep0, cur, date, i + 1)
  }

  /** What the scan finds: the phase in force is the last one whose start on
      today's date is not after `cur`; if none has started, it is the last
      phase of the previous day; a missing event ends the scan. */
  lemma {:induction false} ScanFinds(sky: Sky, obs: ObsElvs, table: seq<PhaseParams>, dep0: Depression, cur: Instant, date: Date, i: nat)
    requires 0 < |table| && i <= |table|
    requires forall j :: 0 <= j < i ==> EventAt(sky, obs, table, dep0, date, j).Some? && EventAt(sky, obs, table, dep0, date, j).value <= cur
    ensures var s := ScanFrom(sky, obs, table, dep0, cur, date, i);
      (s.Started? && !s.back ==>
        (forall j :: 0 <= j <= s.idx ==> EventAt(sky, obs, table, dep0, date, j).Some? && EventAt(sky, obs, table, dep0, date, j).value <= cur) &&
        (s.idx + 1 < |table| ==> EventAt(sky, obs, table, dep0, date, s.idx + 1).Some? && EventAt(sky, obs, table, dep0, date, s.idx + 1).value > cur)) &&
      (s.Started? && s.back ==>
        i == 0 && s.idx == |table| - 1 && EventAt(sky, obs, table, dep0, date, 0).Some? && EventAt(sky, obs, table, dep0, date, 0).value > cur) &&
      (s.Missing? ==> exists j :: i <= j < |table| && EventAt(sky, obs, table, dep0, date, j).None?)
    decreases |table| - i
  {
    if i < |table| {
      var e := EventAt(sky, obs, table, dep0, date, i);
      if e.Some? && e.value <= cur {
        ScanFinds(sky, obs, table, dep0, cur, date, i + 1);
      }
    }
  }

  /** The sensor's plan for one update, given the phase in force. */
  datatype Step = Step(shown: nat, nextIdx: nat, lookupDate: Date, dep: Depression)

  /** After showing phase `s.idx`, the index moves on cyclically, the date
      moves back a day when the scan went back to yesterday and forward a
      day when the index wraps to 0, and the next entry's depression (if it
      has one) is set. */
  function Advance(table: seq<PhaseParams>, s: Scan, today: Date): (st: Step)
    requires s.Started? && s.idx < |table|
    ensures st.shown == s.idx && st.nextIdx < |table|
    ensures st.nextIdx == (s.idx + 1) % |table|
    ensures st.lookupDate == today - (if s.back then 1 else 0) + (if st.nextIdx == 0 then 1 else 0)
  {
    var n := (s.idx + 1) % |table|;
    var date := today - (if s.back then 1 else 0) + (if n == 0 then 1 else 0);
    Step(s.idx, n, date, if table[n].depression.Some? then Angle(table[n].depression.value) else s.dep)
  }

  /** A scan that goes back to yesterday's last phase wraps straight to
      entry 0 of today. */
  lemma BackThenForward(sky: Sky, obs: ObsElvs, table: seq<PhaseParams>, dep0: Depression, cur: Instant, date: Date)
    requires 0 < |table|
    requires ScanFrom(sky, obs, table, dep0, cur, date, 0).Started? && ScanFrom(sky, obs, table, dep0, cur, date, 0).back
    ensures var st := Advance(table, ScanFrom(sky, obs, table, dep0, cur, date, 0), date);
      st.nextIdx == 0 && st.lookupDate == date
  {
    ScanFinds(sky, obs, table, dep0, cur, date, 0);
  }

  class PhaseSensor {
    const kind: PhaseKind
    var sky: Sky
    var obs: ObsElvs
    /** `_solar_depression`, shared with the astral location when events are
        computed. */
    var solarDepression: Depression
    /** `_phase_idx`: the entry whose event is awaited; None before the first
        update and after a location change. */
    var phaseIdx: Option<nat>
    var value: string
    var icon: string
    var nextChange: Option<Instant>
    var attrs: Option<PhaseAttrs>

    ghost predicate Valid()
      reads this
    {
      phaseIdx.Some? ==> phaseIdx.value < |Table(kind)|
    }

    constructor (kind: PhaseKind, sky: Sky, obs: ObsElvs, dep: Depression)
      ensures Valid() && this.kind == kind && this.sky == sky && this.obs == obs
      ensures phaseIdx.None? && solarDepression == dep
    {
      this.kind := kind;
      this.sky, this.obs := sky, obs;
      solarDepression := dep;
      phaseIdx := None;
      value, icon := "", "";
      nextChange, attrs := None, None;
    }

    /** `_update_astral_data`: new location data restart the scan. */
    method UpdateAstralData(newSky: Sky, newObs: ObsElvs)
      requires Valid()
      modifies this
      ensures Valid() && sky == newSky && obs == newObs && phaseIdx.None?
      ensures solarDepression == old(solarDepression) && value == old(value) && icon == old(icon)
      ensures nextChange == old(nextChange) && attrs == old(attrs)
    {
      sky, obs := newSky, newObs;
      phaseIdx := None;
    }

    /** The first-update scan of `_update`: walk the table on today's date,
        setting each entry's depression, until an event lies after `cur`. */
    method ScanTable(cur: Instant, today: Date) returns (s: Scan)
      requires Valid() && phaseIdx.None?
      modifies this`solarDepression
      ensures s == ScanFrom(sky, obs, Table(kind), old(solarDepression), cur, today, 0)
      ensures solarDepression == s.dep
    {
      var table := Table(kind);
      ghost var dep0 := solarDepression;
      var i := 0;
      while i < |table|
        invariant 0 <= i <= |table|
        invariant solarDepression == DepAfter(table, dep0, i)
        invariant ScanFrom(sky, obs, table, dep0, cur, today, i) == ScanFrom(sky, obs, table, dep0, cur, today, 0)
      {
        if table[i].depression.Some? {
          solarDepression := Angle(table[i].depression.value);
        }
        var nxtChg := EventTime(sky, obs, solarDepression, table[i].event, today);
        if nxtChg.None? {
          return Missing(solarDepression);
        }
        if nxtChg.value > cur {
          if i == 0 {
            return Started(|table| - 1, true, solarDepression);
          }
          return Started(i - 1, false, solarDepression);
        }
        i := i + 1;
      }
      return Started(|table| - 1, false, solarDepression);
    }

    /** `_update`: find the phase in force (by scanning the table on the first
        update, otherwise the awaited entry), show it, and await the next
        entry's event. A missing event stops the update where the source
        would raise: in the scan before anything is shown, or after the phase
        is shown but before `next_change` is set. */
    method Update(cur: Instant) returns (ok: bool)
      requires Valid()
      modifies this
      ensures Valid() && sky == old(sky) && obs == old(obs)
      ensures var today := DateOf(cur, sky.offset);
        var table := Table(kind);
        var s := if old(phaseIdx).Some? then Started(old(phaseIdx).value, false, old(solarDepression))
                 else ScanFrom(sky, obs, table, old(solarDepression), cur, today, 0);
        (s.Missing? ==>
          !ok && phaseIdx.None? && solarDepression == s.dep && value == old(value) && icon == old(icon) &&
          nextChange == old(nextChange) && attrs == old(attrs)) &&
        (s.Started? ==>
          var st := Advance(table, s, today);
          var nxt := EventTime(sky, obs, st.dep, table[st.nextIdx].event, st.lookupDate);
          phaseIdx == Some(st.nextIdx) && solarDepression == st.dep &&
          value == table[st.shown].phase && icon == Icon(kind, table[st.shown]) &&
          ok == nxt.Some? &&
          (ok ==> nextChange == nxt && attrs == Some(table[st.shown].attrs)) &&
          (!ok ==> nextChange == old(nextChange) && attrs == old(attrs)))
    {
      var table := Table(kind);
      var today := DateOf(cur, sky.offset);
      var s;
      if phaseIdx.None? {
        s := ScanTable(cur, today);
        if s.Missing? {
          return false;
        }
      } else {
        s := Started(phaseIdx.value, false, solarDepression);
      }
      var curIdx := s.idx;
      var curDate := if s.back then today - 1 else today;
      phaseIdx := Some((curIdx + 1) % |table|);
      var nxtIdx := phaseIdx.value;
      if nxtIdx == 0 {
        curDate := curDate + 1;
      }
      if table[nxtIdx].depression.Some? {
        solarDepression := Angle(table[nxtIdx].depression.value);
      }
      ghost var st := Advance(table, s, today);
      assert st.nextIdx == nxtIdx && st.lookupDate == curDate && st.dep == solarDepression;
      var nxtChg := EventTime(sky, obs, solarDepression, table[nxtIdx].event, curDate);
      value := table[curIdx].phase;
      icon := Icon(kind, table[curIdx]);
      if nxtChg.None? {
        return false;
      }
      nextChange := nxtChg;
      attrs := Some(table[curIdx].attrs);
      return true;
    }
  }
}
