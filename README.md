# bcf-stetoskop: calibration latch, angle tracker and ADC peak-hold cycle

This project models the stateful core of the stetoskop firmware in Dafny.
It covers two files.

- `app/accelerometer.c`: the LIS2DH12 update handler. It feeds three median
  streams (x, y, z) on every successful read and passes their medians to the
  dice face classifier. Once the x stream's counter exceeds 20, it freezes the
  reference gravity vector `center_g` and sets the `center_g_valid` latch.
  That happens once. From then on every read computes a rotation angle,
  `atan(y/x) - atan(center_y/center_x)` in degrees, with a one-sided wrap
  (`angle < -90` becomes `180 + angle`).
- `app/application.c`: the ADC measurement cycle and two counters.
  `adc_measure_task` sets the countdown `adc_cntd` to 50 and the peak `max`
  to 0. Each DONE event folds a sample into the peak and post-decrements the
  countdown. It then requests another measurement, or, when the countdown was
  0, publishes the wattage clamped to be non-negative. `switch_cnt` counts
  CLOSED events. `button_click_count` (a `uint16_t`) counts PRESS events.

Each handler is specified by a pure function over the state it touches
(`Accelerometer.Tick`, `Application.OnAdcEvent`, `Application.OnSwitch`,
`Application.OnButton`). The classes `Accelerometer.Tracker` and
`Application.Globals` hold the static record and the globals. Their methods
update the fields in place and are proved to produce exactly the new state
the function gives. Properties over runs of events are lemmas about the
functions.

The SDK libraries are not part of this model. They appear as parameters
(`Sdk.Library`):

- `bc_data_stream` is a value holding a feed counter and the values fed. Its
  median is an uninterpreted function of those values and may fail.
- `bc_dice` is an uninterpreted function from the triples fed so far to a face.
- `atan(y / x)` is an uninterpreted function of `(y, x)`. This way `x == 0`
  needs no special case in the model.

C `float`s are modelled as reals.

The only guarantee about `bc_data_stream_get_median` is that it may fail. The
model assumes that a failed read writes nothing to its output. Under that
assumption, the short-circuit `||` at app/accelerometer.c:108-110 can leave
`center_g.x`, or `center_g.x` and `center_g.y`, overwritten while the latch
stays unset (`Accelerometer.Lock`).

The stored angle's range: if `atan` returns values in [-pi/2, pi/2], the
difference of two arctangents lies in [-180, 180] degrees. The one-sided wrap
maps that into [-90, 180], and -90 itself can occur
(`Accelerometer.AngleBounded`).

In this build the accelerometer is never started. The call
`accelerometer_init(200)` in `application_init` is commented out
(app/application.c:238), so the handler is never registered. The model
describes the handler's behaviour once it is registered.

## Model

| member | source | states |
|---|---|---|
| Sdk.Feed | app/accelerometer.c:77-79 | feeding a stream appends the value and raises the counter by exactly one |
| Accelerometer.Initial | app/accelerometer.c:35-49 | after init the latch is unset, the angle is 0, center_g is zero, all three counters are 0 and the classifier is unfed |
| Accelerometer.Wrap | app/accelerometer.c:93-96 | an angle is left alone exactly when it is >= -90, otherwise it becomes 180 + angle; inputs > -270 come out >= -90; inputs in [-180, 180] come out in [-90, 180] |
| Accelerometer.AngleDegrees | app/accelerometer.c:89-91 | with both arctangents in [-pi/2, pi/2] the angle lies in [-180, 180] degrees; equal arctangents give 0 |
| Accelerometer.Lock | app/accelerometer.c:106-116 | the latch is set exactly when all three medians are read, and center_g is then those medians; a failed x read changes nothing; a failed y or z read leaves the earlier components written and the latch unset; streams, classifier and angle are untouched |
| Accelerometer.Tick | app/accelerometer.c:61-120 | a failed read or a non-UPDATE event changes nothing; a successful read feeds each stream exactly once; a set latch stays set and center_g stays put; the angle is not written before or on the locking tick; locking needs counter > 20 and three successful medians and happens as soon as both hold; past the threshold an unlocked tick is exactly the Lock attempt on the fed record, so a failed median read leaves the partial center_g writes that Lock describes; once locked the angle is the wrapped arctangent difference, within [-90, 180] when atan is in range |
| Accelerometer.RunSplit | app/accelerometer.c:61-120 | handling a sequence of events is handling its prefix and then its suffix |
| Accelerometer.LatchHolds | app/accelerometer.c:87-117 | once set, the latch stays set and center_g keeps its value over any later events |
| Accelerometer.LatchMonotone | app/accelerometer.c:87-117 | along a run, a state after a locked state is locked too and has the same center_g |
| Accelerometer.ZeroLocksWhenLocked | app/accelerometer.c:104-116 | a run that starts locked has no locking tick |
| Accelerometer.LocksAtMostOnce | app/accelerometer.c:104-116 | the number of locking ticks in a run is 1 if the run goes from unlocked to locked and 0 otherwise |
| Accelerometer.FeedsEveryStream | app/accelerometer.c:68-79 | over any run, each stream's counter grows by the number of successful reads, and its contents grow by those reads' components, in order |
| Accelerometer.ReadingsAppend | app/accelerometer.c:72-79 | the successful reads of two concatenated runs are those of the first run followed by those of the second |
| Accelerometer.LockNeedsThreshold | app/accelerometer.c:106 | a run that sets the latch has fed the x stream more than 20 times in all |
| Accelerometer.AngleUntouchedWhileCalibrating | app/accelerometer.c:87-98 | if a run ends unlocked, it started unlocked and never changed the angle |
| Accelerometer.CenterUntouchedBelowThreshold | app/accelerometer.c:104-116 | while the x counter stays <= 20, center_g is not written, even in part, and the latch stays unset |
| Accelerometer.NoLockUpToThreshold | app/accelerometer.c:37-49 | from the initial record, at most 20 successful reads leave the latch unset, the angle 0 and center_g zero |
| Accelerometer.AngleBounded | app/accelerometer.c:89-98 | if atan stays in [-pi/2, pi/2], every stored angle of a run lies in [-90, 180] |
| Accelerometer.Position | app/accelerometer.c:51-54 | the reported face is Unknown until the classifier has been fed |
| Accelerometer.Tracker.constructor | app/accelerometer.c:13-31 | the zeroed static record is the initial record |
| Accelerometer.Tracker.Init | app/accelerometer.c:35-49 | init resets the record to the initial record |
| Accelerometer.Tracker.HandleEvent | app/accelerometer.c:61-120 | the in-place handler leaves the record equal to Tick of the old record |
| Accelerometer.Tracker.GetAngle | app/accelerometer.c:56-59 | returns the stored angle |
| Accelerometer.Tracker.GetPosition | app/accelerometer.c:51-54 | returns the classifier's current face |
| Application.StartCycle | app/application.c:150-153 | the measure task sets the countdown to 50 and the peak to 0, and requests one measurement |
| Application.Watt | app/application.c:179-182 | the published wattage is never negative: it is the raw wattage, or 0 when that is negative |
| Application.OnDone | app/application.c:169-191 | a DONE event raises the peak to the larger of the peak and the sample, and decrements the countdown; it publishes the clamped wattage of the new peak exactly when the countdown was 0, and requests a measurement otherwise |
| Application.OnAdcEvent | app/application.c:158-194 | events other than DONE change nothing and request nothing |
| Application.RunDone | app/application.c:158-194 | a run of DONE events yields one action per event |
| Application.PeakHold | app/application.c:171-174 | over a run the peak never falls, ends at least every sample, is either its start value or one of the samples, and the countdown falls by the run's length |
| Application.Countdown | app/application.c:177-191 | from a countdown c >= 0, the first c DONE events request a measurement and event c + 1 publishes the clamped wattage of the peak |
| Application.RunDoneSnoc | app/application.c:171-191 | one more sample is one more DONE step after the run |
| Application.PeakIsLargest | app/application.c:171-174 | the held peak is exactly the largest of the starting peak and the samples |
| Application.MeasurementCycle | app/application.c:146-191 | after the measure task, 51 DONE events give 50 measurement requests, then one publication whose wattage comes from a peak >= 0 that is the largest of 0 and the samples; the countdown ends at -1 |
| Application.OnSwitch | app/application.c:136-139 | a CLOSED event raises the count by exactly one; any other event leaves it unchanged |
| Application.SwitchCounts | app/application.c:132-141 | switch_cnt grows by exactly the number of CLOSED events |
| Application.OnButton | app/application.c:52-60 | a PRESS event raises the count by one modulo 2^16; any other event leaves it unchanged |
| Application.ButtonCounts | app/application.c:50-60 | the press count is the starting count plus the number of PRESS events, modulo 2^16 |
| Application.Globals.constructor | app/application.c:54-144 | the globals start at 0: switch_cnt, adc_cntd and max by zero-initialised storage, button_click_count by its initialiser at line 54 |
| Application.Globals.AdcMeasureTask | app/application.c:146-156 | the in-place task leaves the countdown and the peak as StartCycle gives them and requests one measurement |
| Application.Globals.AdcEventHandler | app/application.c:158-194 | the in-place handler, with v = vdda / 2 - result, leaves countdown, peak and action as OnAdcEvent gives them |
| Application.Globals.SwitchEventHandler | app/application.c:134-141 | switch_cnt grows by one on CLOSED and is unchanged otherwise |
| Application.Globals.ButtonEventHandler | app/application.c:50-60 | the press count grows by one, wrapping at 2^16, on PRESS and is unchanged otherwise |

## Left out

- The LIS2DH12 driver setup (I2C address, resolution, update interval, app/accelerometer.c:41-44) is hardware configuration. The driver's read result is an input of the handler.
- How `bc_data_stream` works inside (its buffer, median algorithm and whether the counter saturates) is library code. The model's counter counts every feed without bound. If the real counter saturated at a capacity of 20 or less, the latch could never be set; this model does not capture that.
- How `bc_dice` classifies faces, and the numbering of its faces, are library code. The face is an uninterpreted function of the triples fed.
- Float numerics: the value of `atan`, single- versus double-precision rounding of the constants 180/pi, 15, 0.707 and 220, and IEEE-754 infinity and NaN when `x == 0`. All quantities are reals.
- The `bc_log_*` calls, `bc_led_pulse` and all `bc_radio_pub_*` publishing are output effects. A publication is modelled only as the `Publish` action of the ADC cycle.
- The commented-out legacy handler (app/accelerometer.c:124-223) is dead code.
- The tmp112, humidity, battery and ds18b20 handlers and `application_init` (app/application.c:69-130, 196-241) only read a sensor and publish. They have no state logic.
- ADC calibration and the VDDA and channel voltage reads (app/application.c:148, 165-167) are hardware. Their values are inputs of the handler, and their failure flags are ignored, as in the source.
- Rescheduling of the measure task (app/application.c:155) is scheduler I/O.
- Application.SwitchCounts: `switch_cnt` is a C `int`, modelled without bound. Signed overflow after 2^31 closings is undefined in C and not modelled.
- Application.OnDone: `adc_cntd` is a C `int`, modelled without bound. A DONE event after the countdown has passed below 0 just requests another measurement. This only happens if a DONE arrives that the cycle did not request.
