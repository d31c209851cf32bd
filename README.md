# Sun2 in Dafny

A model of the core of the Sun2 Home Assistant integration, which provides
sensors derived from the sun's position at a location:

- the elevation binary sensor, which is on while the sun is above a threshold;
- the elevation sensor, which tracks the elevation curve;
- the sun-phase and deCONZ-daylight phase sensors;
- the daily point-in-time and period-of-time sensors;
- the azimuth sensor;
- the helpers these sensors share;
- the hand-written parts of the configuration validation.

The solar formulas belong to the astral library. They are an uninterpreted
oracle, `Solar.Sky`, which is passed as data. It has:

- the elevation and azimuth at an instant;
- solar noon and solar midnight of a date;
- dawn, sunrise, sunset and dusk for a depression and an observer elevation (`None` when the sun never gets there);
- the time at a given elevation;
- the offset of the local time zone.

Times are integer microseconds (`Clock.Instant`). Dates are integer day
numbers. Python's rounding rules are written out:

- `timedelta / 2` rounds half to even (`Clock.HalfOf`);
- `timedelta * float` rounds the exact product half to even (`Clock.RoundHalfEven`);
- `int()` truncates (`Clock.Truncate`);
- `nearest_second` rounds half up (`Clock.NearestSecond`).

Elevations are `real`.

Where the source mutates objects, the model does too:

- the binary sensor, the elevation sensor, the phase sensors, the daily and azimuth sensors, and the configuration dict are classes with `modifies` clauses;
- the bisection, the 366-day window scan, the secant search, the phase scan and the placeholder substitution are loops with invariants.

Pure code is modelled as functions. Each method with a loop states its
result in its `ensures`. The phase scan and the placeholder substitution tie
the result to a function of the inputs (`Phase.ScanFrom`, `Text.Substitute`),
and lemmas state the properties of that function. The bisection, the window
scan and the secant search state the properties of the result directly: where
it lies and which side of the threshold it is on. The bisection also states
how close its answer is to the crossing, and that it cannot raise when the sun
crosses the threshold once in the window (`BinarySensor.CrossesOnce`).

Modules, one per file:

- `Wrappers`: Option and Result.
- `Clock`: time arithmetic of helpers.py.
- `Solar`: the oracle, `_astral_event` and the location and observer options of helpers.py.
- `Text`: `translate`.
- `BinarySensor`: binary_sensor.py.
- `Curve`: the elevation sensor of sensor.py.
- `Phase`: the phase sensors of sensor.py.
- `Sensors`: the daily and azimuth sensors of sensor.py.
- `Config`: config.py.

Three places where the code, its comments and the code it calls do not line up:

- **Bisection probes.** The comments of `_find_nxt_dttm` suggest that every probe lies inside the original `[t0, t1]`. Rounding to the nearest second means a probe can fall up to half a second outside a bracket whose ends are not whole seconds. `BinarySensor.Probe` and `FindNextTime` therefore promise that the probe lies between the *rounded* ends. They also promise that the answer lies within a second of the window.
- **Three-argument `_astral_event` calls.** sensor.py calls `_astral_event(date, event, False)` with a third, local-time flag that the `Sun2Entity._astral_event` shown in helpers.py:353-385 does not accept: its signature (helpers.py:353-359) takes one optional positional event and keyword arguments only, so as written such a call raises TypeError. The model does not follow the code here; it follows the evident intent, and reads the flag as "interpret the date in the sensor's own zone", which is what the fixed-offset `DateOf` already does.
- **Missing helpers.** `_as_tz` and `_schedule_update` are not part of this model.

## Model

| member | source | states |
|---|---|---|
| Clock.NearestSecond | custom_components/sun2/helpers.py:259-263 | the result is a whole second within (-0.5 s, +0.5 s] of the input, so an exact half second rounds up |
| Clock.NearestSecondUnique | custom_components/sun2/helpers.py:259-263 | any whole second within (-0.5 s, +0.5 s] of the input is the rounded result |
| Clock.NearestSecondIdempotent | custom_components/sun2/helpers.py:259-263 | rounding twice gives the same result as rounding once |
| Clock.NearestSecondMonotone | custom_components/sun2/helpers.py:259-263 | rounding never reverses the order of two instants |
| Clock.DateOf | custom_components/sun2/helpers.py:268 | the local date is the day whose 24 local hours contain the instant |
| Clock.NextMidnight | custom_components/sun2/helpers.py:266-268 | the result is 00:00 local time of the following date: strictly later than the input, at most a day later, and on the next date |
| Clock.HalfOf | custom_components/sun2/binary_sensor.py:68 | halving a timedelta is exact to half a microsecond and rounds a tie to the even value |
| Clock.HalfOfWithin | custom_components/sun2/binary_sensor.py:68 | `t0 + (t1 - t0) / 2` lies between `t0` and `t1` |
| Clock.RoundHalfEven | custom_components/sun2/sensor.py:868-871 | a timedelta scaled by a float is within half a microsecond of the exact product, and ties go to even |
| Clock.Truncate | custom_components/sun2/helpers.py:216 | `int()` truncates toward zero, on both sides of zero |
| Clock.SplitSeconds | custom_components/sun2/helpers.py:216 | days, hours, minutes and seconds add back up to the duration, with hours < 24 and minutes and seconds < 60 |
| Clock.NatToStringValue | custom_components/sun2/helpers.py:216 | the decimal digits printed for a number read back as that number |
| Clock.Pad2 | custom_components/sun2/helpers.py:216 | a two-digit field below 100 is exactly two digits that read back as the number |
| Clock.FormatHmsFields | custom_components/sun2/helpers.py:216 | under a day the text is "H:MM:SS": the hours before the first colon, the minutes between the colons and the seconds after the second read back as the fields |
| Clock.HoursToHms | custom_components/sun2/helpers.py:213-218 | the result is None exactly when the input is None |
| Clock.HoursToHmsSeconds | custom_components/sun2/helpers.py:213-218 | the seconds shown are the duration truncated toward zero: never larger in magnitude, and less than a second short |
| Solar.ObserverFor | custom_components/sun2/helpers.py:376-381 | dawn and sunrise use the east observer elevation, sunset and dusk the west one, and other events none |
| Solar.AstralEvent | custom_components/sun2/helpers.py:353-385 | midnight and noon come from the date alone, elevation and azimuth from the instant, the time at an elevation from the target and direction, sun events with the observer `ObserverFor` picks, and an event astral cannot compute gives None |
| Solar.AstralEventObserverIndependence | custom_components/sun2/helpers.py:368-381 | two observer settings that agree on the side an event uses give the same answer |
| Solar.SignOf | custom_components/sun2/helpers.py:168 | `copysign(1, h)` is ±1 with the sign of `h` |
| Solar.ObsElvToAstral | custom_components/sun2/helpers.py:149-168 | a number passes through; a `[h, d]` pair becomes an obstruction whose second component is `abs(h)` and whose first component is `d` for a negative height and `-d` otherwise |
| Solar.ObsElvToAstralInvertible | custom_components/sun2/helpers.py:166-168 | for a positive distance, the height and the distance can be recovered from the pair handed to astral |
| Solar.ObsElvsFromOptions | custom_components/sun2/helpers.py:170-180 | without an obstruction option, east and west both equal the elevation option, which defaults to 0; a two-item list maps item by item; other list lengths raise ValueError |
| Solar.LocParamsFromOptions | custom_components/sun2/helpers.py:74-87 | the result is None exactly when latitude, longitude or time zone is missing, and otherwise holds those three values |
| Solar.GetLocData | custom_components/sun2/helpers.py:106-114 | None stays None; otherwise the parameters are kept with the time zone looked up for them |
| Solar.LocDataFromOptions | custom_components/sun2/helpers.py:74-114 | entry options give location data exactly when they name a complete location |
| Text.ReplaceAbsent | custom_components/sun2/helpers.py:246 | `str.replace` leaves a text in which the pattern never occurs unchanged |
| Text.ReplaceFirstPlaceholder | custom_components/sun2/helpers.py:246 | replacing `{key}` in `a + {key} + b` (no brace in `a`) puts the value exactly where the placeholder was |
| Text.SubstituteNoBrace | custom_components/sun2/helpers.py:238-247 | a stored text with no `{` comes back unchanged whatever the placeholders |
| Text.Translate | custom_components/sun2/helpers.py:238-247 | a missing key raises; with no placeholders the stored text comes back unchanged; otherwise each placeholder is substituted in turn, in order (the loop invariant) |
| Text.Translated | custom_components/sun2/helpers.py:238-247 | the function form of `translate` fails exactly when the key is missing |
| Text.TranslateOnePlaceholder | custom_components/sun2/helpers.py:238-247 | a stored `a{name}b` translated with one value gives `a` + value + `b` |
| BinarySensor.ThresholdOf | custom_components/sun2/binary_sensor.py:49-52 | a string threshold means -0.833; a number is kept |
| BinarySensor.Probe | custom_components/sun2/binary_sensor.py:68 | every probe is a whole second between the rounded ends of the bracket, within half a second of the exact midpoint |
| BinarySensor.ProbeAtEnd | custom_components/sun2/binary_sensor.py:68-88 | a probe can land on the end it would replace only when the bracket is at most a second (and a microsecond) wide, which is when the loop breaks |
| BinarySensor.ReplaceByProbe | custom_components/sun2/binary_sensor.py:80-88 | replacing an end by the probe never widens the bracket, and only keeps its width when the replaced end was not a whole second; this is the termination measure of the bisection |
| BinarySensor.Events | custom_components/sun2/binary_sensor.py:116-122 | the five events are midnight, noon, next midnight, next noon and the midnight after, from the date |
| BinarySensor.SelectWindow | custom_components/sun2/binary_sensor.py:129-156 | the window starts at now or at one of the first four events, and ends at one of the five |
| BinarySensor.SelectWindowShape | custom_components/sun2/binary_sensor.py:129-156 | with ordered events, the window starts no earlier than now and is not empty; an off sensor looks towards a noon, an on sensor towards a midnight |
| BinarySensor.FirstDayWindow | custom_components/sun2/binary_sensor.py:161-172 | when the first day's window already brackets the threshold, the answer lies in that window |
| BinarySensor.FirstDayFailure | custom_components/sun2/binary_sensor.py:161-172 | when the first day's window already brackets the threshold, a failed search is a failure of that window's bisection, and there is none when the sun crosses once in that window |
| BinarySensor.FirstFarSide | custom_components/sun2/binary_sensor.py:71-88 | a span that ends on the far side of the threshold has a first far-side instant |
| BinarySensor.SteadyRiseCrossesOnce | custom_components/sun2/binary_sensor.py:64-99 | a sun whose elevation never falls, rising from at or below the threshold to above it, crosses once, so the bisection of an off sensor cannot raise |
| BinarySensor.SteadySetCrossesOnce | custom_components/sun2/binary_sensor.py:64-99 | a sun whose elevation never rises, setting from above the threshold to at or below it, crosses once, so the bisection of an on sensor cannot raise |
| BinarySensor.StallRecovers | custom_components/sun2/binary_sensor.py:83-99 | when the probe lands on the near end of the bracket and the sun crosses once, the second after it is past the threshold, so the corrected answer is accepted |
| BinarySensor.BreakExit | custom_components/sun2/binary_sensor.py:79-88 | at either `break` the last probe is a whole second inside the rounded window, not stuck when the sun crosses once, and on the far side only within a second of a near-side time |
| BinarySensor.CloseExit | custom_components/sun2/binary_sensor.py:71-78 | when the loop ends because the elevation is within MAX_ERR_BIN on the far side, the probe satisfies the same exit facts as at a `break` |
| BinarySensor.ElevationName | custom_components/sun2/binary_sensor.py:244-253 | a given name is kept; a string threshold is "above_horizon"; a negative one is "above_neg_elev" with its magnitude; any other is "above_pos_elev" |
| BinarySensor.ElevationBinarySensor.constructor | custom_components/sun2/binary_sensor.py:39-52 | the threshold is taken from the setting |
| BinarySensor.ElevationBinarySensor.FindNextTime | custom_components/sun2/binary_sensor.py:54-101 | the bisection terminates; a returned time is a whole second on the side of the threshold the state flips to, within a second of the window, and either within MAX_ERR_BIN of the threshold or within a second of a time on the near side; it raises RuntimeError only when the sun does not cross once in the window and some whole second between the rounded window ends is on the near side and so is the second one step further on (`StuckAt`); when the sun crosses once it never raises |
| BinarySensor.ElevationBinarySensor.GetNextChange | custom_components/sun2/binary_sensor.py:103-194 | "never reached" exactly when no window of the 366 days brackets the threshold; a found time is a whole second on the far side, inside the first bracketing window and close to the crossing as in `FindNextTime`; "failed" only when the bisection of that first bracketing window raised, which needs a sun that does not cross once in it (loop invariant: the five events are those of the current date) |
| BinarySensor.ElevationBinarySensor.Update | custom_components/sun2/binary_sensor.py:196-224 | on exactly when the elevation is above the threshold, with the matching icon; `next_change` is None exactly when no crossing comes within a year; otherwise it is a whole second at which the state is the opposite, close to the crossing as in `FindNextTime`; a failed update keeps `next_change` and happens only when the bisection of the first bracketing window raised, which needs a sun that does not cross once in it |
| BinarySensor.WholeSecondShift | custom_components/sun2/binary_sensor.py:91-99 | the ±1 s corrections keep a whole second whole |
| BinarySensor.NightToDay | tests/test_binary_sensor.py:85-99 | at local midnight, before solar midnight, with a "horizon" threshold: the sensor is off and `next_change` falls between solar midnight and solar noon (to the second), after which an update turns the sensor on; given that the sun crosses the horizon once in that window, the update cannot fail and `next_change` is a time within MAX_ERR_BIN of the horizon or within a second of a time still below it |
| Curve.GetCurveParams | custom_components/sun2/sensor.py:795-848 | `tl`/`tr` are consecutive extrema around the current date and contain now (`tl <= cur < tr`) when noon of the previous and next dates straddle it; `rising` exactly when `tr_elev > tl_elev`; `mid_date` and `nxt_noon` as documented |
| Curve.RisingFromMidnight | custom_components/sun2/sensor.py:717-725 | with ordered events and noons above midnights, the segment is rising exactly when it starts at a solar midnight |
| Curve.AttrsAtElev | custom_components/sun2/sensor.py:769-787 | night below -18°, sunny above the sunset elevation, and the twilight icon for the direction of travel between them (the boundaries fall on opposite sides for rising and falling) |
| Curve.AttrsAtElevMirror | custom_components/sun2/sensor.py:769-787 | away from the two boundaries, rising and falling agree on night and day and swap the twilight icons |
| Curve.RoundTenth | custom_components/sun2/sensor.py:927 | the rounded elevation is a multiple of 0.1 within 0.05 of the raw one |
| Curve.NextTarget | custom_components/sun2/sensor.py:938-945 | rising: strictly above the rounded elevation and at most one step above it, clamped at sunset + 0.02 when crossing sunset from below; falling is the mirror; otherwise a multiple of the step |
| Curve.Fallback | custom_components/sun2/sensor.py:952-956 | the fallback wake is strictly after now and at most 5 minutes later; it is the segment end exactly when that is within 5 minutes |
| Curve.GetDttmAtElev | custom_components/sun2/sensor.py:850-900 | equal end elevations give None; any returned time is a whole second inside `[tl, tr]` and is `Settled`: its elevation is within `max_err` of the target, or it is the secant step of a bracket it already ends (the `break`) |
| Curve.ElevationSensor.constructor | custom_components/sun2/sensor.py:903-919 | no segment and no previous sample at start |
| Curve.ElevationSensor.UpdateAstralData | custom_components/sun2/sensor.py:761-764 | new astral data forget the segment and change nothing else |
| Curve.ElevationSensor.Update | custom_components/sun2/sensor.py:921-962 | the value is the rounded elevation and the previous sample becomes now; the segment is recomputed exactly when missing or passed, and otherwise kept; `next_change` is the fallback, or a whole second in the segment that is `Settled` for the next target elevation, so within 0.02° of it unless the secant search stalled |
| Phase.Table | custom_components/sun2/sensor.py:254-307 | both phase tables have 14 entries |
| Phase.IconBands | custom_components/sun2/sensor.py:271-317 | entry by entry, each table shows night at both ends, the rising icon in the morning, sunny in the middle and the setting icon in the evening |
| Phase.IconsMirror | custom_components/sun2/sensor.py:254-317 | entry `i` and entry `13 - i` show the same night and sunny icons and opposite twilight icons |
| Phase.Phases | custom_components/sun2/sensor.py:180-183 | the options are exactly the phase names of the table |
| Phase.EventTime | custom_components/sun2/sensor.py:194-196 | a phase event has a time exactly when astral gives one, and it is that time |
| Phase.ScanFrom | custom_components/sun2/sensor.py:188-210 | the index found by the scan is within the table |
| Phase.ScanFinds | custom_components/sun2/sensor.py:188-210 | the scan finds the last entry whose event today is not after now; if none has started yet, yesterday's last entry; a missing event ends the scan |
| Phase.Advance | custom_components/sun2/sensor.py:212-219 | the index moves to `(idx + 1) mod 14`, so it stays in range; the lookup date is one day back after going back to yesterday, and one day forward exactly when the index wraps to 0 |
| Phase.BackThenForward | custom_components/sun2/sensor.py:197-217 | after going back to yesterday's last phase, the index wraps to 0 and the lookup date is today again |
| Phase.PhaseSensor.constructor | custom_components/sun2/sensor.py:164-178 | no phase index at start |
| Phase.PhaseSensor.UpdateAstralData | custom_components/sun2/sensor.py:232-235 | new astral data clear the phase index and change nothing else |
| Phase.PhaseSensor.ScanTable | custom_components/sun2/sensor.py:188-210 | the for-else loop computes `ScanFrom` and leaves the depression of the last entry looked at (loop invariant) |
| Phase.PhaseSensor.Update | custom_components/sun2/sensor.py:185-230 | the new state in full: the phase and icon shown, the next index, the depression, and `next_change` with its attributes; a missing event stops the update where the source raises |
| Sensors.RSplit | custom_components/sun2/sensor.py:345 | `rsplit("_", 1)`: the parts rejoin to the key, and the tail has no underscore |
| Sensors.RSplitOf | custom_components/sun2/sensor.py:345 | the split is unique: it is the decomposition around the underscore-free tail |
| Sensors.ParseKey | custom_components/sun2/sensor.py:344-348 | a key with a named-depression prefix splits into depression and event that rejoin to it; any other key is the event, with the default depression |
| Sensors.ParseDepressionKey | custom_components/sun2/sensor.py:344-348 | `astronomical_`/`civil_`/`nautical_` plus an underscore-free event parses back to that depression and event |
| Sensors.PeriodHours | custom_components/sun2/sensor.py:616-635 | daylight is dusk minus dawn of the date, the night variants the next date's dawn minus dusk, in hours; None exactly when either end is missing |
| Sensors.DaylightPlusNight | custom_components/sun2/sensor.py:627-635 | a date's daylight plus its night spans one dawn to the next |
| Sensors.AzimuthDelay | custom_components/sun2/sensor.py:126-137 | the delay is 2, 4, 8 or 20 minutes: 2 exactly when 0° <= elevation < 10°; 4 exactly at 10° and above or when -6° <= elevation < 0°; 8 exactly when -18° <= elevation < -6°; 20 exactly below -18° |
| Sensors.AzimuthDelayBands | custom_components/sun2/sensor.py:126-137 | polling is fastest just above the horizon: the delay grows as the sun climbs above it and as it sinks below it |
| Sensors.AzimuthSensor.constructor | custom_components/sun2/sensor.py:97-115 | the sensor keeps its oracle |
| Sensors.AzimuthSensor.Update | custom_components/sun2/sensor.py:119-137 | azimuth and elevation are taken at the nearest whole second, and the delay is the band of that elevation |
| Sensors.DailyReading | custom_components/sun2/sensor.py:616-635 | a period sensor reads a number exactly when `PeriodHours` has one, and reads that number; a point-in-time sensor reads nothing for an unknown event name, and otherwise reads a time exactly when astral gives one, and that time |
| Sensors.DailySensor.constructor | custom_components/sun2/sensor.py:329-348 | the depression and event come from the key, with "civil" as the default for points in time and the sun's apparent radius for periods |
| Sensors.DailySensor.Update | custom_components/sun2/sensor.py:381-388 | yesterday, today and tomorrow are the readings of the local date before, the date itself and the date after; the state is today's |
| Sensors.DailySensor.HmsAttributes | custom_components/sun2/sensor.py:579-590 | each HMS attribute is present exactly when its reading is a number, and is then `hours_to_hms` of that number |
| Sensors.UpdateNextDay | custom_components/sun2/sensor.py:381-388 | an update a day later turns today into yesterday and tomorrow into today |
| Config.Translate | custom_components/sun2/helpers.py:238-243 | without `hass`, translating fails; with it, it is `translate` |
| Config.ValBsElevation | custom_components/sun2/config.py:135-156 | "horizon" becomes -0.833; a present name is kept; otherwise "above_horizon" at the default, "above_neg_elev" with the magnitude below zero, "above_pos_elev" otherwise; no other key changes |
| Config.ValBsElevationIdempotent | custom_components/sun2/config.py:138-156 | validating a validated binary-sensor config changes nothing |
| Config.BsNameMatchesBinarySensor | custom_components/sun2/config.py:146-153 | the default name agrees with the binary sensor's own naming for every threshold except the number -0.833 |
| Config.ElevationAtTimeName | custom_components/sun2/config.py:166-171 | without `hass` the name is "Elevation at {t}" |
| Config.ValElevationAtTime | custom_components/sun2/config.py:159-176 | a present name is kept unchanged; otherwise the name is filled in, or the translation error reported; no other key changes |
| Config.ValElevationAtTimeNoHass | custom_components/sun2/config.py:164-171 | without `hass` the validator never fails and always leaves a name |
| Config.DirIcon | custom_components/sun2/config.py:178-181 | rising maps to "mdi:weather-sunset-up" and setting to "mdi:weather-sunset-down", and no other pairing |
| Config.TimeAtElevationName | custom_components/sun2/config.py:196-209 | without `hass` the name is "{Rising/Setting} at {e} °", with "minus" and the magnitude for negative e |
| Config.ValTimeAtElevation | custom_components/sun2/config.py:184-212 | a missing icon is filled from the direction (rising gives sunset-up, setting gives sunset-down) and a present one kept; a present name is kept; otherwise the name is filled in, or, when the translation fails, that error is reported with the name left as it was and the filled icon kept; no other key changes |
| Config.ValTimeAtElevationIdempotent | custom_components/sun2/config.py:187-212 | validating a validated time-at-elevation config changes nothing |
| Config.SensorConfig.ValidateBsElevation | custom_components/sun2/config.py:138-156 | the in-place validator leaves the dict and the error that `ValBsElevation` describes |
| Config.SensorConfig.ValidateElevationAtTime | custom_components/sun2/config.py:162-176 | the in-place validator leaves the dict and the error that `ValElevationAtTime` describes |
| Config.SensorConfig.ValidateTimeAtElevation | custom_components/sun2/config.py:187-212 | the in-place validator leaves the dict and the error that `ValTimeAtElevation` describes |
| Config.SensorKindOf | custom_components/sun2/config.py:92-98 | elevation_at_time is tried first, then time_at_elevation; a config with neither is Invalid |
| Config.LocationNames | custom_components/sun2/config.py:116 | one entry per config: its location, or None where it has none |
| Config.CardinalityDistinct | custom_components/sun2/config.py:117 | the set of a list's values is as large as the list exactly when no value repeats |
| Config.UniqueLocationNames | custom_components/sun2/config.py:114-119 | the configs pass unchanged exactly when no two give the same location |
| Config.TwoUnnamedLocationsRejected | custom_components/sun2/config.py:114-119 | two configs that both omit the location are rejected |

## Left out

- Astral's solar formulas are left out; they are the `Sky` oracle. Event order ("previous noon < midnight < noon < next midnight < next noon") appears only as a precondition (`Curve.Ordered`).
- Time zones are a fixed UTC offset; daylight-saving changes are not modelled. `_as_tz` and `dt_util` are not part of this model.
- Floating point is not modelled. Elevations are exact reals, so IEEE ties in `round(x, 1)` and in comparisons are not captured.
- `str(float)` is not modelled. It is the `fmt` parameter, and str() of a time of day is the configured text.
- Curve.GetDttmAtElev: when the secant step lands on a bracket end the source stops and returns that estimate whatever its elevation; the contract says so (`Settled`) rather than promising the estimate is within `max_err`.
- Curve.GetDttmAtElev: the secant search in the source has no step limit and does not terminate for every oracle. The model stops after `SECANT_STEPS` (1000) steps with None, which the sensor treats like any other failure.
- BinarySensor.ElevationBinarySensor.FindNextTime: the answer is promised to lie within a second of the window rather than strictly inside `[t0, t1]`. Rounding to the nearest second can move a probe up to half a second beyond a bracket end that is not a whole second.
- BinarySensor.ElevationBinarySensor.FindNextTime: requires that the elevations passed in are those of the window ends and that they bracket the threshold; its one caller (binary_sensor.py:158-172) only calls it then.
- BinarySensor.ElevationBinarySensor.FindNextTime: no liveness is promised for a sun that turns back within a second of a window end (not `CrossesOnce`); there the source can raise, and the model says only when.
- Phase.Phases: the options are a set; the sorted order of the list is not modelled, because string ordering is not part of the model.
- Phase.PhaseSensor.Update: `_as_tz(None)` is taken to raise, so a missing next event shows the phase but keeps the previous `next_change` and attributes.
- Sensors.DailyReading: the min/max-elevation, sunrise/sunset-azimuth, elevation-at-time and time-at-elevation variants of `_astral_event` are not modelled. An event name the base `_astral_event` does not know reads as nothing.
- Scheduling is not modelled: the timer registration, `_schedule_update`, `_setup_fixed_updating` and the `async_track_point_in_utc_time` callbacks. The model stores the time or delay that would be scheduled.
- Input_datetime tracking, the entity-registry workaround, logging and the warning for crossings more than a day away are not modelled.
- `Sun2EntrySetup` is not modelled: the listener, dispatcher and entity factories.
- The voluptuous schemas and `async_validate_config` are not modelled. The validators require what the schemas guarantee: an elevation of "horizon" or a number, a time string, a direction.
- `init_translations` is not modelled; the translations are a given map.
- The config flow, `__init__.py` and the legacy `sun2_sensor.py` are not part of this model.
