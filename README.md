# Keithley 2470 safe voltage controller

A Dafny model of the driver in `keithley/Keithley2470.py` for the Keithley
Model 2470 source-measure unit, and of its subclass
`Keithley2470SafeForLGADs`. The subclass protects LGAD test structures in
two ways:

- it forces every requested voltage to a fixed polarity;
- it never changes the voltage by more than `volt_step` while the output is on.

The instrument is modelled as an abstract device. It holds a source
voltage, an output state (on/off) and an append-only log of the commands
written to it. Every write takes effect at once.

The project is layered the way the driver is:

- `wrappers.dfy` holds `Option`, `Result` and `Outcome`. The driver's exceptions are `Err`/`Fail` values.
- `text.dfy` holds the string operations the driver relies on:
  - `str.upper`/`str.lower` on ASCII;
  - the whitespace stripping of `int()`;
  - `int()` of a decimal string;
  - the substring test `in`.
- `scpi.dfy` holds the command vocabulary and the error kinds. It also holds the pure decisions of the base class:
  - parsing the `:OUTPUT:STATE?` reply;
  - validating a `set_output` argument;
  - the identity check on the `*IDN?` reply (the identification query of section 10.14 of IEEE 488.2);
  - the beeper bounds.
- `device.dfy` holds the device state:
  - `Apply` sends one command and `Replay` sends a sequence;
  - the base class's `set_output`, `beep` and start-up are written as functions of that state.
- `ramp.dfy` holds the ramp the safe `set_source_voltage` performs while the output is on:
  - the voltages it writes and the log it leaves;
  - why it terminates and never overshoots;
  - the safety rule it keeps.
- `controller.dfy` holds the safe controller's operations as functions of the device state. It also proves the safety theorem. From start-up on, whatever state the instrument was found in and whatever operations follow:
  - the output is switched only at 0 V;
  - no voltage write made while the output is on moves by more than `volt_step`.
- `keithley2470.dfy` holds the classes:
  - the instrument, which holds the fields that change;
  - the base driver `Keithley2470`;
  - the safe driver `Keithley2470SafeForLGADs`, which holds a base driver where Python uses inheritance.

  Each method, including the ramp's `while` loop, is proved to leave the instrument in the state the corresponding function of `device.dfy` or `controller.dfy` gives.

The constructor of the base class calls `self.set_source_voltage(0)` and
`self.set_output('off')`. On a safe object Python dispatches these calls to
the safe overrides. The property setter `source_voltage` used at the end of
the safe `set_output` also dispatches to the safe `set_source_voltage`. The
model follows both dispatches.

## Model

| member | source | states |
|---|---|---|
| Text.Upper | keithley/Keithley2470.py:58 | ASCII upper-casing keeps the length, leaves no lower-case letter and changes each character only in case |
| Text.Lower | keithley/Keithley2470.py:176 | ASCII lower-casing keeps the length, leaves no upper-case letter and changes each character only in case |
| Text.UpperOffIffLowerOff | keithley/Keithley2470.py:58 | for ASCII case mapping, a string upper-cases to "OFF" exactly when it lower-cases to "off", so on ASCII strings the "off" test at line 176 and the validation at line 58 agree |
| Text.ParseInt | keithley/Keithley2470.py:65 | a stripped run of decimal digits is read as its value; anything accepted ends in a digit once stripped |
| Text.ParseIntRoundTrip | keithley/Keithley2470.py:65 | any integer written in decimal, padded with any whitespace, is read back as itself |
| Text.ContainsIffOccurs | keithley/Keithley2470.py:15 | the substring test holds exactly when the token occurs at some index |
| Scpi.ParseOutputReply | keithley/Keithley2470.py:62-73 | a reply is accepted only if it reads as the integer code of the returned state (0 off, 1 on); a reply that is no integer is the "wrong answer" error carrying the reply (line 67), and any other integer is the error carrying that integer (line 73) |
| Scpi.ParseOutputReplyComplete | keithley/Keithley2470.py:64-71 | every reply that reads as 0 or 1 is accepted as the matching state |
| Scpi.ParseOutputReplyRoundTrip | keithley/Keithley2470.py:62-71 | the instrument's reply for a state, padded with any whitespace, parses back to that state |
| Scpi.ParseOutputReplyRejectsOtherCodes | keithley/Keithley2470.py:72-73 | every integer other than 0 or 1, however padded, is rejected with that integer |
| Scpi.ParseOutputArg | keithley/Keithley2470.py:58 | an argument is on exactly when it upper-cases to "ON", off exactly when it upper-cases to "OFF" |
| Scpi.ParseOutputArgOff | keithley/Keithley2470.py:58 | an argument lower-cases to "off" exactly when the base validation reads it as off |
| Scpi.IdentityCheck | keithley/Keithley2470.py:14-16 | a failed check reports the identity string it rejected |
| Scpi.IdentityCheckIffTokens | keithley/Keithley2470.py:15-16 | the check passes exactly when both "KEITHLEY" and "MODEL 2470" occur in the identity |
| Scpi.IdentityCheckAccepts2470 | keithley/Keithley2470.py:15 | a 2470's identity string passes the check |
| Scpi.BeepCheck | keithley/Keithley2470.py:128-131 | passes exactly when 200 <= frequency <= 5000 and time <= 1 (no lower bound on time); the frequency error is reported exactly when the frequency is out of range, whatever the time, and the time error exactly when the frequency is in range and time > 1 |
| Device.Replay | keithley/Keithley2470.py:28-33 | sending a sequence of commands appends exactly that sequence to the log |
| Device.ReplayAppend | keithley/Keithley2470.py:28-33 | sending a + b is sending a, then b |
| Device.BaseSetOutput | keithley/Keithley2470.py:57-60 | succeeds exactly for "on"/"off" in any case and then writes exactly one output command with that state, leaving the voltage; otherwise nothing is written and the error names the argument |
| Device.BaseBeep | keithley/Keithley2470.py:122-132 | exactly one beeper command is written when the bounds hold; otherwise nothing is written; the outcome, and so which error is raised, is the bounds check's |
| Device.BaseStartup | keithley/Keithley2470.py:24-26 | start-up ends at 0 V with the output off, after a measurement, a 0 V write and an output-off write, in that order |
| Ramp.StepToward | keithley/Keithley2470.py:166-169 | a step moves the voltage by exactly the step; while the gap exceeds the step it moves toward the target, shrinking the gap by the step |
| Ramp.RampWrites | keithley/Keithley2470.py:164-172 | the ramp makes at least one write and the last write is the target |
| Ramp.RampLogUnfold | keithley/Keithley2470.py:165-173 | one pass of the loop: while the gap exceeds the step, a step toward the target and a pause; otherwise the single final write of the target |
| Ramp.RampStepsTowardTarget | keithley/Keithley2470.py:165-171 | every write but the last is exactly one step from the voltage before it, in the target's direction, taken only while the gap exceeds the step; the last write is the target, taken once the gap is at most the step |
| Ramp.RampNeverOvershoots | keithley/Keithley2470.py:164-172 | every write lies between the starting voltage and the target |
| Ramp.RampLength | keithley/Keithley2470.py:164-172 | the ramp makes ceil(gap / step) writes (one when the gap is at most a step), so the loop terminates |
| Ramp.SafeFromAppend | keithley/Keithley2470.py:164-173 | a sequence of writes keeps the safety rule exactly when both of its halves do |
| Ramp.RampReachesTargetSafely | keithley/Keithley2470.py:164-173 | on a device that honours writes, the ramp leaves it at the target with the output untouched, and every write keeps the safety rule |
| Controller.ParsePolarity | keithley/Keithley2470.py:144-146 | accepts exactly "positive" and "negative"; anything else is the polarity error |
| Controller.Coerce | keithley/Keithley2470.py:160 | the coerced voltage has the magnitude of the request and the polarity's sign |
| Controller.CoerceKeepsPolarVoltage | keithley/Keithley2470.py:160 | a voltage that already has the polarity's sign is unchanged, so coercion is idempotent |
| Controller.SafeSetSourceVoltage | keithley/Keithley2470.py:159-173 | the device ends at polarity * \|v\| with the output unchanged; with the output off exactly one voltage write is made, with it on exactly the ramp's writes |
| Controller.SafeSetOutput | keithley/Keithley2470.py:175-189 | fails exactly when the output is off and the argument is neither "off" nor a valid "on", and then only the raw 0 V has been written; on success the output is off for an "off" argument and on for any other, at 0 V after switching off and at polarity * \|previous voltage\| after switching on |
| Controller.SafeSetOutputIdempotent | keithley/Keithley2470.py:176-178 | requesting the state the output is in (lines 176-178 and 183-184) writes nothing and changes nothing |
| Controller.SafeSetOutputTurnsOff | keithley/Keithley2470.py:179-181 | on to off: the ramp to 0 V, then the output-off write; the output ends off at 0 V |
| Controller.SafeSetOutputTurnsOn | keithley/Keithley2470.py:185-189 | off to on: a raw 0 V write, then the output-on write, then the ramp from 0 V to polarity * \|previous voltage\|; the output ends on at that voltage |
| Controller.SafeSetOutputRejectsAfterZeroing | keithley/Keithley2470.py:185-188 | with the output off, an argument other than "on"/"off" fails with the argument error after the raw 0 V has been written |
| Controller.SafeSetOutputIgnoresArgumentWhenOn | keithley/Keithley2470.py:182-184 | with the output on, any argument that is neither "on" nor "off" is accepted and nothing happens |
| Controller.SafeSetOutputTwice | keithley/Keithley2470.py:175-189 | after a successful call the output is in the requested state, so repeating the call writes nothing |
| Controller.VoltageRestoredAfterSwitchingOn | keithley/Keithley2470.py:159-162 | a voltage set while off is reached by a ramp from 0 V once the output is switched on (lines 185-189) |
| Controller.SafeStartup | keithley/Keithley2470.py:24-26 | start-up on a safe object, which runs the safe setters, ends off at 0 V after first sending the measurement |
| Controller.SafeStartupEndsOffAtZero | keithley/Keithley2470.py:24-26 | the safe start-up ends off at 0 V from any state; when the instrument was on, the voltage is ramped down before the output-off write |
| Controller.SafeTransitionTrans | keithley/Keithley2470.py:175-189 | two safe stretches of writes, one after the other, make a safe stretch |
| Controller.SafeSetSourceVoltageIsSafe | keithley/Keithley2470.py:159-173 | the safe set_source_voltage keeps the safety rule from any state |
| Controller.SafeSetOutputIsSafe | keithley/Keithley2470.py:175-189 | the safe set_output keeps the safety rule from any state, whether it succeeds or fails |
| Controller.OperationsAreSafe | keithley/Keithley2470.py:122-189 | any sequence of safe voltage, output and beep calls keeps the safety rule |
| Controller.SessionIsSafe | keithley/Keithley2470.py:143-189 | from any state the instrument is found in, start-up followed by any sequence of calls switches the output only at 0 V and never moves the voltage by more than volt_step while the output is on |
| Controller.NegativeRampExample | keithley/Keithley2470.py:160-172 | a negative controller with a 2.5 V step, on at 0 V and asked for ±10 V, writes -2.5, -5, -7.5 and -10 V |
| Keithley.Instrument.Receive | keithley/Keithley2470.py:28-33 | a write changes the instrument exactly as the device model says |
| Keithley.Instrument.Pause | keithley/Keithley2470.py:173 | the pause between two ramp steps is recorded in the log and changes nothing else |
| Keithley.Keithley2470.CheckIdentity | keithley/Keithley2470.py:14-16 | keeps the identity reply and returns the identity check on it |
| Keithley.Keithley2470.Connect | keithley/Keithley2470.py:7-26 | fails with nothing written unless the identity passes; otherwise returns a driver on that instrument, which is left as the base start-up leaves it |
| Keithley.Keithley2470.SetOutput | keithley/Keithley2470.py:57-60 | same new state and outcome as the base set_output |
| Keithley.Keithley2470.Output | keithley/Keithley2470.py:61-73 | on an instrument that answers truthfully, returns its output state |
| Keithley.Keithley2470.GetSourceVoltage | keithley/Keithley2470.py:78-79 | returns the instrument's source voltage |
| Keithley.Keithley2470.SetSourceVoltage | keithley/Keithley2470.py:81-83 | one voltage write |
| Keithley.Keithley2470.Beep | keithley/Keithley2470.py:122-132 | same new state and outcome as the base beep |
| Keithley.Keithley2470.MeasureVoltage | keithley/Keithley2470.py:134-135 | one measurement query, reply dropped |
| Keithley.Keithley2470SafeForLGADs.Connect | keithley/Keithley2470.py:143-150 | a bad polarity fails before anything is sent, then a foreign identity fails with nothing written; otherwise the instrument is left as the safe start-up leaves it |
| Keithley.Keithley2470SafeForLGADs.SetSourceVoltage | keithley/Keithley2470.py:159-173 | the re-reading loop leaves the instrument exactly as the safe set_source_voltage specifies |
| Keithley.Keithley2470SafeForLGADs.SetOutput | keithley/Keithley2470.py:175-189 | same new state and outcome as the safe set_output |

## Left out

- The pyvisa resource and the transport (`write`, `read`, `query`) are left out. The instrument is a class whose fields the driver reads and writes directly.
- The busy flags `_is_writing`/`_is_reading` and their polling sleeps are left out. They only matter under concurrency, and sequentially they are a pass-through.
- The `time.sleep(volt_step / slew_rate)` between ramp steps is a `Wait` entry in the log. Timing and the division are not modelled. The source checks neither `slew_rate` nor `volt_step`. A `slew_rate` of 0 or less, or NaN, makes the first pause fail (a division by zero or a negative sleep length) right after the first step has been written. The model ignores `slew_rate` and completes that ramp.
- The `atexit` handler is process-lifecycle plumbing and is left out.
- The tkinter GUI and its threads are left out.
- Command strings and their float formatting are left out; commands are a datatype.
- Voltages are integers in a fixed unit (millivolts, say), not floats. `(v**2)**.5` is the absolute value.
- Reading the measured voltage is not modelled: `measure_voltage` sends its query and its reply is dropped. `measure_current` and the current-limit accessors are plain pass-throughs and are not modelled.
- The `voltage` and `current` properties always raise and are not modelled.
- Queries (`*IDN?`, `:OUTPUT:STATE?`, `:SOUR:VOLT?`) are reads and do not enter the log. Only `:MEASURE:VOLT?`, which the start-up sends for its side effect, is logged.
- The `TypeError` checks on non-numeric voltages and on a non-string polarity are ruled out by Dafny's types. So is a failed `float()` conversion in `beep`, and so is NaN.
- Case mapping and whitespace are ASCII only. Python maps the full Unicode range, and there the "off" test of the safe `set_output` and the base validation can disagree. For example, "oﬀ" (with the ligature U+FB00) upper-cases to "OFF" but does not lower-case to "off". With the output off, the source takes the "on" branch for it, writes the raw 0 V, then writes `:OUTPUT OFF` (the output stays off), and writes polarity * |saved| back in one write, because the safe `set_source_voltage` finds the output off (lines 161-162). The model instead rejects the string after the raw 0 V.
- `int()` of the output reply accepts an optional sign and decimal digits between whitespace. Python's underscores and non-ASCII digits are not modelled.
- Keithley.Keithley2470SafeForLGADs.SetSourceVoltage: `volt_step` must be a positive integer, and the model does not cover the other cases. With the output on, the source behaves as follows for them:
  - a `volt_step` of 0 with a non-zero gap loops forever, writing the same voltage again and again;
  - a negative `volt_step` with a positive `slew_rate` makes one write away from the target, and then the pause fails on its negative sleep length;
  - a negative `volt_step` with a negative `slew_rate` gives a positive sleep length, so the loop keeps stepping away from the target.
- Default arguments are not modelled; every call passes its values explicitly. The source's defaults are `slew_rate=10` and `volt_step=2.5` for the safe constructor, and `frequency=2222` and `time=0.5` for `beep`.
- Keithley.Keithley2470.Output: the modelled instrument always answers truthfully, so the error path of the reply parsing is never taken inside the drivers. That path is stated on its own by Scpi.ParseOutputReply.
- setup.py is packaging metadata and is not part of this model.
