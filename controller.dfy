/** The safe controller (`Keithley2470SafeForLGADs`) as a specification:
    each operation is a function from the instrument's state before the
    call to its state after it (and the call's outcome). */
module Controller {
  import opened Wrappers
  import opened Text
  import opened Scpi
  import opened Device
  import opened Ramp

  datatype Polarity = Positive | Negative

  /** The constructor's polarity argument: exactly "positive" or
      "negative". */
  function ParsePolarity(polarity: string): (r: Result<Polarity, Error>)
    ensures r == Ok(Positive) <==> polarity == "positive"
    ensures r == Ok(Negative) <==> polarity == "negative"
    ensures r.Err? ==> r.error == InvalidPolarity(polarity)
  {
    if polarity == "positive" then Ok(Positive)
    else if polarity == "negative" then Ok(Negative)
    else Err(InvalidPolarity(polarity))
  }

  function Sign(p: Polarity): int {
    if p == Positive then 1 else -1
  }

  /** `polarity * |v|`: the requested voltage forced to the fixed
      polarity. */
  function Coerce(p: Polarity, v: int): (r: int)
    ensures Abs(r) == Abs(v)
    ensures p == Positive ==> r >= 0
    ensures p == Negative ==> r <= 0
  {
    Sign(p) * Abs(v)
  }

  /** Coercion keeps a voltage that already has the polarity's sign, so
      applying it twice is applying it once. */
  lemma CoerceKeepsPolarVoltage(p: Polarity, v: int)
    requires v == 0 || (v > 0 <==> p == Positive)
    ensures Coerce(p, v) == v
    ensures Coerce(p, Coerce(p, v)) == Coerce(p, v)
  {
  }

  /** Safe `set_source_voltage`: with the output off the coerced value is
      written once; with the output on the device is ramped to it. Either
      way the device ends at the coerced value, output untouched. */
  function SafeSetSourceVoltage(s: DeviceState, p: Polarity, step: Step, requested: int): (r: DeviceState)
    ensures r.voltage == Coerce(p, requested) && r.output == s.output
    ensures s.output == Off ==> r.log == s.log + [VoltLevel(Coerce(p, requested))]
    ensures s.output == On ==> r.log == s.log + RampLog(s.voltage, Coerce(p, requested), step)
  {
    var target := Coerce(p, requested);
    if s.output == Off then Apply(s, VoltLevel(target))
    else
      RampReachesTargetSafely(s, target, step);
      Replay(s, RampLog(s.voltage, target, step))
  }

  /** Safe `set_output`. "off" (in any case) switches off after ramping to
      0 V; any other string is taken as "on", which saves the voltage,
      writes a raw 0 V, switches on through the base validation and ramps
      back. Asking for the current state does nothing at all, whatever
      the string. */
  function SafeSetOutput(s: DeviceState, p: Polarity, step: Step, state: string): (r: (DeviceState, Outcome<Error>))
    ensures r.1.Fail? <==> s.output == Off && ParseOutputArg(state).None?
    ensures r.1.Fail? ==> r == (Apply(s, VoltLevel(0)), Fail(InvalidOutputArgument(state)))
    ensures r.1 == Pass ==> r.0.output == (if Lower(state) == "off" then Off else On)
    ensures r.1 == Pass && Lower(state) == "off" && s.output == On ==> r.0.voltage == 0
    ensures r.1 == Pass && Lower(state) != "off" && s.output == Off ==> r.0.voltage == Coerce(p, s.voltage)
  {
    ParseOutputArgOff(state);
    if Lower(state) == "off" then
      if s.output == Off then (s, Pass)
      else BaseSetOutput(SafeSetSourceVoltage(s, p, step, 0), state)
    else if s.output == On then (s, Pass)
    else
      var saved := s.voltage;
      var switched := BaseSetOutput(Apply(s, VoltLevel(0)), state);
      if switched.1.Fail? then
        assert ParseOutputArg(state).None? && s.output == Off;
        switched
      else (SafeSetSourceVoltage(switched.0, p, step, saved), Pass)
  }

  /** Requesting the state the output is already in writes nothing and
      changes nothing. */
  lemma SafeSetOutputIdempotent(s: DeviceState, p: Polarity, step: Step, state: string)
    requires (Lower(state) == "off") == (s.output == Off)
    ensures SafeSetOutput(s, p, step, state) == (s, Pass)
  {
  }

  /** On to off: the ramp down to 0 V comes first, then `:OUTPUT OFF`;
      afterwards the output is off at 0 V. */
  lemma SafeSetOutputTurnsOff(s: DeviceState, p: Polarity, step: Step, state: string)
    requires Lower(state) == "off" && s.output == On
    ensures SafeSetOutput(s, p, step, state) ==
      (DeviceState(0, Off, s.log + RampLog(s.voltage, 0, step) + [OutputSwitch(Off)]), Pass)
  {
    ParseOutputArgOff(state);
  }

  /** Off to on: a raw 0 V, then `:OUTPUT ON`, then the ramp from 0 V to the
      saved voltage forced to the polarity; afterwards the output is on at
      that voltage. */
  lemma SafeSetOutputTurnsOn(s: DeviceState, p: Polarity, step: Step, state: string)
    requires s.output == Off && ParseOutputArg(state) == Some(On)
    ensures SafeSetOutput(s, p, step, state) ==
      (DeviceState(Coerce(p, s.voltage), On,
         s.log + [VoltLevel(0), OutputSwitch(On)] + RampLog(0, Coerce(p, s.voltage), step)), Pass)
  {
    ParseOutputArgOff(state);
    var s1 := Apply(Apply(s, VoltLevel(0)), OutputSwitch(On));
    assert s1.log == s.log + [VoltLevel(0), OutputSwitch(On)];
  }

  /** The quirk of an unrecognised string with the output off: the raw 0 V
      is written before the base validation rejects the string, so the
      call fails with the output still off but the voltage at 0 V. */
  lemma SafeSetOutputRejectsAfterZeroing(s: DeviceState, p: Polarity, step: Step, state: string)
    requires s.output == Off && ParseOutputArg(state) == None
    ensures SafeSetOutput(s, p, step, state) ==
      (DeviceState(0, Off, s.log + [VoltLevel(0)]), Fail(InvalidOutputArgument(state)))
  {
    ParseOutputArgOff(state);
  }

  /** The other side of the quirk: with the output on, an unrecognised
      string is accepted as "on" and nothing happens. */
  lemma SafeSetOutputIgnoresArgumentWhenOn(s: DeviceState, p: Polarity, step: Step, state: string)
    requires s.output == On && ParseOutputArg(state) == None
    ensures SafeSetOutput(s, p, step, state) == (s, Pass)
  {
    ParseOutputArgOff(state);
  }

  /** A successful `set_output` leaves the output in the requested state,
      so repeating the call writes nothing more. */
  lemma SafeSetOutputTwice(s: DeviceState, p: Polarity, step: Step, state: string)
    requires SafeSetOutput(s, p, step, state).1 == Pass
    ensures SafeSetOutput(s, p, step, state).0.output == (if Lower(state) == "off" then Off else On)
    ensures var s1 := SafeSetOutput(s, p, step, state).0;
      SafeSetOutput(s1, p, step, state) == (s1, Pass)
  {
    ParseOutputArgOff(state);
  }

  /** Setting a voltage while the output is off and then switching on
      brings the device to that voltage, reached by a ramp from 0 V. */
  lemma VoltageRestoredAfterSwitchingOn(s: DeviceState, p: Polarity, step: Step, v: int, state: string)
    requires s.output == Off && ParseOutputArg(state) == Some(On)
    ensures var s1 := SafeSetSourceVoltage(s, p, step, v);
      var (s2, outcome) := SafeSetOutput(s1, p, step, state);
      outcome == Pass && s2.output == On && s2.voltage == Coerce(p, v) &&
      s2.log == s1.log + [VoltLevel(0), OutputSwitch(On)] + RampLog(0, Coerce(p, v), step)
  {
    var s1 := SafeSetSourceVoltage(s, p, step, v);
    SafeSetOutputTurnsOn(s1, p, step, state);
    CoerceKeepsPolarVoltage(p, Coerce(p, v));
  }

  /** The safe constructor's start-up, once polarity and identity have been
      checked: a discarded measurement, then the safe `set_source_voltage(0)`
      and `set_output("off")` (the base constructor calls them on the safe
      object). */
  function SafeStartup(s: DeviceState, p: Polarity, step: Step): (r: DeviceState)
    ensures r.voltage == 0 && r.output == Off
    ensures |r.log| > |s.log| && r.log[..|s.log| + 1] == s.log + [MeasureVolt]
  {
    assert Lower("off") == "off";
    SafeSetOutput(SafeSetSourceVoltage(Apply(s, MeasureVolt), p, step, 0), p, step, "off").0
  }

  /** Whatever state the instrument was found in, start-up leaves it off at
      0 V; if it was on, the voltage is ramped down before switching off. */
  lemma SafeStartupEndsOffAtZero(s: DeviceState, p: Polarity, step: Step)
    ensures SafeStartup(s, p, step).voltage == 0 && SafeStartup(s, p, step).output == Off
    ensures s.output == Off ==>
      SafeStartup(s, p, step).log == s.log + [MeasureVolt, VoltLevel(0)]
    ensures s.output == On ==>
      SafeStartup(s, p, step).log ==
        s.log + [MeasureVolt] + RampLog(s.voltage, 0, step) + RampLog(0, 0, step) + [OutputSwitch(Off)]
  {
    var s1 := SafeSetSourceVoltage(Apply(s, MeasureVolt), p, step, 0);
    assert Lower("off") == "off";
    if s.output == On {
      SafeSetOutputTurnsOff(s1, p, step, "off");
    }
  }

  /** `r` is `s` followed by writes that each keep the safety rule. */
  predicate SafeTransition(s: DeviceState, r: DeviceState, step: Step) {
    |s.log| <= |r.log| && r.log[..|s.log|] == s.log &&
    Replay(s, r.log[|s.log|..]) == r && SafeFrom(s, r.log[|s.log|..], step)
  }

  lemma {:induction false} SafeTransitionByWrites(s: DeviceState, cmds: seq<Command>, step: Step)
    requires SafeFrom(s, cmds, step)
    ensures SafeTransition(s, Replay(s, cmds), step)
  {
    var r := Replay(s, cmds);
    assert r.log[..|s.log|] == s.log && r.log[|s.log|..] == cmds;
  }

  lemma {:induction false} SafeTransitionTrans(s: DeviceState, m: DeviceState, r: DeviceState, step: Step)
    requires SafeTransition(s, m, step) && SafeTransition(m, r, step)
    ensures SafeTransition(s, r, step)
  {
    var a, b := m.log[|s.log|..], r.log[|m.log|..];
    assert m.log == s.log + a;
    assert r.log == m.log + b;
    assert r.log[|s.log|..] == a + b;
    ReplayAppend(s, a, b);
    SafeFromAppend(s, a, b, step);
    assert r.log[..|s.log|] == s.log;
  }

  /** The safe `set_source_voltage` keeps the safety rule from any state. */
  lemma SafeSetSourceVoltageIsSafe(s: DeviceState, p: Polarity, step: Step, requested: int)
    ensures SafeTransition(s, SafeSetSourceVoltage(s, p, step, requested), step)
  {
    var target := Coerce(p, requested);
    if s.output == Off {
      assert SafeFrom(Apply(s, VoltLevel(target)), [], step);
      assert [VoltLevel(target)][1..] == [];
      SafeTransitionByWrites(s, [VoltLevel(target)], step);
    } else {
      RampReachesTargetSafely(s, target, step);
      SafeTransitionByWrites(s, RampLog(s.voltage, target, step), step);
    }
  }

  /** The safe `set_output` keeps the safety rule from any state, whether it
      succeeds or fails. */
  lemma SafeSetOutputIsSafe(s: DeviceState, p: Polarity, step: Step, state: string)
    ensures SafeTransition(s, SafeSetOutput(s, p, step, state).0, step)
  {
    var r := SafeSetOutput(s, p, step, state).0;
    ParseOutputArgOff(state);
    if r == s {
      assert s.log[|s.log|..] == [];
    } else if Lower(state) == "off" {
      var m := SafeSetSourceVoltage(s, p, step, 0);
      SafeSetSourceVoltageIsSafe(s, p, step, 0);
      var c := OutputSwitch(Off);
      assert SafeFrom(Apply(m, c), [], step);
      assert [c][1..] == [];
      SafeTransitionByWrites(m, [c], step);
      SafeTransitionTrans(s, m, r, step);
    } else {
      var z := VoltLevel(0);
      var m := Apply(s, z);
      assert SafeFrom(m, [], step);
      assert [z][1..] == [];
      SafeTransitionByWrites(s, [z], step);
      if ParseOutputArg(state) == Some(On) {
        var c := OutputSwitch(On);
        var m2 := Apply(m, c);
        assert SafeFrom(m2, [], step);
        assert [c][1..] == [];
        SafeTransitionByWrites(m, [c], step);
        SafeTransitionTrans(s, m, m2, step);
        SafeSetSourceVoltageIsSafe(m2, p, step, s.voltage);
        SafeTransitionTrans(s, m2, r, step);
      }
    }
  }

  /** The operations a user of the safe controller can call. */
  datatype Operation =
    | SetVoltage(requested: int)
    | SwitchOutput(state: string)
    | Beep(frequency: real, time: real)

  function Perform(s: DeviceState, p: Polarity, step: Step, op: Operation): (DeviceState, Outcome<Error>) {
    match op
    case SetVoltage(v) => (SafeSetSourceVoltage(s, p, step, v), Pass)
    case SwitchOutput(state) => SafeSetOutput(s, p, step, state)
    case Beep(f, t) => BaseBeep(s, f, t)
  }

  /** The instrument after a session: start-up, then each operation in
      turn; an operation that fails leaves what it wrote and the session
      goes on. */
  function Session(s: DeviceState, p: Polarity, step: Step, ops: seq<Operation>): DeviceState
    decreases |ops|
  {
    if ops == [] then s
    else Session(Perform(s, p, step, ops[0]).0, p, step, ops[1..])
  }

  /** The point of the safe controller: from start-up on, whatever the
      instrument's state when connected and whatever operations follow,
      the output is switched only at 0 V and no voltage write made while
      the output is on moves by more than `volt_step`. */
  lemma {:induction false} SessionIsSafe(s: DeviceState, p: Polarity, step: Step, ops: seq<Operation>)
    ensures SafeTransition(s, Session(SafeStartup(s, p, step), p, step, ops), step)
  {
    var m := Apply(s, MeasureVolt);
    assert SafeFrom(m, [], step);
    assert [MeasureVolt][1..] == [];
    SafeTransitionByWrites(s, [MeasureVolt], step);
    var m2 := SafeSetSourceVoltage(m, p, step, 0);
    SafeSetSourceVoltageIsSafe(m, p, step, 0);
    SafeTransitionTrans(s, m, m2, step);
    SafeSetOutputIsSafe(m2, p, step, "off");
    SafeTransitionTrans(s, m2, SafeStartup(s, p, step), step);
    OperationsAreSafe(SafeStartup(s, p, step), p, step, ops);
    SafeTransitionTrans(s, SafeStartup(s, p, step), Session(SafeStartup(s, p, step), p, step, ops), step);
  }

  lemma {:induction false} OperationsAreSafe(s: DeviceState, p: Polarity, step: Step, ops: seq<Operation>)
    ensures SafeTransition(s, Session(s, p, step, ops), step)
    decreases |ops|
  {
    if ops == [] {
      assert s.log[|s.log|..] == [];
    } else {
      var m := Perform(s, p, step, ops[0]).0;
      match ops[0] {
        case SetVoltage(v) => SafeSetSourceVoltageIsSafe(s, p, step, v);
        case SwitchOutput(state) => SafeSetOutputIsSafe(s, p, step, state);
        case Beep(f, t) =>
          if m != s {
            assert SafeFrom(m, [], step);
            assert [Beeper(f, t)][1..] == [];
            SafeTransitionByWrites(s, [Beeper(f, t)], step);
          } else {
            assert s.log[|s.log|..] == [];
          }
      }
      OperationsAreSafe(m, p, step, ops[1..]);
      SafeTransitionTrans(s, m, Session(s, p, step, ops), step);
    }
  }

  /** The example of a negative-polarity controller with a 2.5 V step (in
      millivolts), output on at 0 V, asked for -10 V: four writes, -2.5,
      -5, -7.5 and -10 V. Asking for +10 V gives the same ramp. */
  lemma NegativeRampExample()
    ensures RampWrites(0, Coerce(Negative, -10000), 2500) == [-2500, -5000, -7500, -10000]
    ensures Coerce(Negative, 10000) == Coerce(Negative, -10000)
  {
    assert Coerce(Negative, -10000) == -10000;
    assert RampWrites(-7500, -10000, 2500) == [-10000];
    assert RampWrites(-5000, -10000, 2500) == [-7500, -10000];
    assert RampWrites(-2500, -10000, 2500) == [-5000, -7500, -10000];
  }
}
