/** The driver itself: the instrument behind the link, the base driver
    `Keithley2470` and the safe driver `Keithley2470SafeForLGADs`. The
    safe driver holds a base driver and calls it where the source calls
    `super()`. Each method's effect on the instrument is the function of
    the same name in Device or Controller applied to the state before the
    call. */
module Keithley {
  import opened Wrappers
  import opened Text
  import opened Scpi
  import opened Device
  import opened Ramp
  import opened Controller

  /** The physical instrument. It honours every write at once and answers
      queries truthfully from its state. */
  class Instrument {
    const idn: string
    var voltage: int
    var output: OutputState
    var log: seq<Command>

    constructor (idn: string, voltage: int, output: OutputState)
      ensures this.idn == idn && State() == DeviceState(voltage, output, [])
    {
      this.idn := idn;
      this.voltage := voltage;
      this.output := output;
      this.log := [];
    }

    function State(): DeviceState
      reads this
    {
      DeviceState(voltage, output, log)
    }

    /** A command written to the instrument. */
    method Receive(c: Command)
      modifies this
      ensures State() == Apply(old(State()), c)
    {
      log := log + [c];
      match c {
        case VoltLevel(v) => voltage := v;
        case OutputSwitch(o) => output := o;
        case _ =>
      }
    }

    /** The pause the ramp takes between two steps: nothing is sent, the
        pause is only recorded in the log. */
    method Pause()
      modifies this
      ensures State() == Apply(old(State()), Wait)
    {
      log := log + [Wait];
    }

    /** The reply to `*IDN?`. */
    method AnswerIdentity() returns (reply: string)
      ensures reply == idn
    {
      reply := idn;
    }

    /** The reply to `:OUTPUT:STATE?`. */
    method AnswerOutputState() returns (reply: string)
      ensures reply == EncodeOutput(output)
    {
      reply := EncodeOutput(output);
    }

    /** The reply to `:SOUR:VOLT?`. */
    method AnswerSourceVoltage() returns (volts: int)
      ensures volts == voltage
    {
      volts := voltage;
    }
  }

  class Keithley2470 {
    const inst: Instrument
    var idn: string

    /** Opening the resource; nothing is sent yet. */
    constructor Open(inst: Instrument)
      ensures this.inst == inst && idn == ""
    {
      this.inst := inst;
      idn := "";
    }

    /** Asks `*IDN?`, keeps the reply and checks it. */
    method CheckIdentity() returns (r: Outcome<Error>)
      modifies this
      ensures idn == inst.idn && r == IdentityCheck(inst.idn)
    {
      idn := inst.AnswerIdentity();
      r := IdentityCheck(idn);
    }

    /** The constructor: fails without writing anything unless the identity
      names a Keithley Model 2470; otherwise a discarded measurement,
      voltage 0 and output off. */
    static method Connect(inst: Instrument) returns (r: Result<Keithley2470, Error>)
      modifies inst
      ensures IdentityCheck(inst.idn).Fail? ==>
        r == Err(NotAKeithley2470(inst.idn)) && inst.State() == old(inst.State())
      ensures IdentityCheck(inst.idn) == Pass ==>
        r.Ok? && r.value.inst == inst && r.value.idn == inst.idn &&
        inst.State() == BaseStartup(old(inst.State()))
    {
      var k := new Keithley2470.Open(inst);
      var identity := k.CheckIdentity();
      if identity.Fail? {
        return Err(identity.error);
      }
      k.MeasureVoltage();
      k.SetSourceVoltage(0);
      assert Upper("off") == "OFF";
      var switched := k.SetOutput("off");
      r := Ok(k);
    }

    /** `set_output`: "on" or "off" in any case, else an error before any
      write. */
    method SetOutput(state: string) returns (r: Outcome<Error>)
      modifies inst
      ensures (inst.State(), r) == BaseSetOutput(old(inst.State()), state)
    {
      var upper := Upper(state);
      if upper != "ON" && upper != "OFF" {
        return Fail(InvalidOutputArgument(state));
      }
      inst.Receive(OutputSwitch(if upper == "ON" then On else Off));
      r := Pass;
    }

    /** The `output` property: the reply of the instrument, parsed. */
    method Output() returns (r: Result<OutputState, Error>)
      ensures r == Ok(inst.output)
    {
      var reply := inst.AnswerOutputState();
      ParseOutputReplyRoundTrip(inst.output, "", "");
      assert "" + reply + "" == reply;
      r := ParseOutputReply(reply);
    }

    method GetSourceVoltage() returns (volts: int)
      ensures volts == inst.voltage
    {
      volts := inst.AnswerSourceVoltage();
    }

    method SetSourceVoltage(volts: int)
      modifies inst
      ensures inst.State() == Apply(old(inst.State()), VoltLevel(volts))
    {
      inst.Receive(VoltLevel(volts));
    }

    /** `beep`: the frequency bound is checked first, then the time bound;
      one beeper command when both hold. */
    method Beep(frequency: real, time: real) returns (r: Outcome<Error>)
      modifies inst
      ensures (inst.State(), r) == BaseBeep(old(inst.State()), frequency, time)
    {
      if !(200.0 <= frequency <= 5000.0) {
        return Fail(BeepFrequencyOutOfRange);
      }
      if time > 1.0 {
        return Fail(BeepTimeTooLong);
      }
      inst.Receive(Beeper(frequency, time));
      r := Pass;
    }

    /** `measure_voltage`, as far as the model goes: the query is sent and
      its reply, which the model does not carry, is dropped. */
    method MeasureVoltage()
      modifies inst
      ensures inst.State() == Apply(old(inst.State()), MeasureVolt)
    {
      inst.Receive(MeasureVolt);
    }
  }

  class Keithley2470SafeForLGADs {
    const base: Keithley2470
    const polarity: Polarity
    const slewRate: real
    const voltStep: Step

    constructor Wrap(base: Keithley2470, polarity: Polarity, slewRate: real, voltStep: Step)
      ensures this.base == base && this.polarity == polarity
      ensures this.slewRate == slewRate && this.voltStep == voltStep
    {
      this.base := base;
      this.polarity := polarity;
      this.slewRate := slewRate;
      this.voltStep := voltStep;
    }

    /** The constructor: the polarity string is validated before anything is
      sent, then the identity is checked, then start-up runs through the
      safe setters. */
    static method Connect(inst: Instrument, polarity: string, slewRate: real, voltStep: Step)
      returns (r: Result<Keithley2470SafeForLGADs, Error>)
      modifies inst
      ensures ParsePolarity(polarity).Err? ==>
        r == Err(InvalidPolarity(polarity)) && inst.State() == old(inst.State())
      ensures ParsePolarity(polarity).Ok? && IdentityCheck(inst.idn).Fail? ==>
        r == Err(NotAKeithley2470(inst.idn)) && inst.State() == old(inst.State())
      ensures ParsePolarity(polarity).Ok? && IdentityCheck(inst.idn) == Pass ==>
        r.Ok? && r.value.base.inst == inst && r.value.polarity == ParsePolarity(polarity).value &&
        r.value.slewRate == slewRate && r.value.voltStep == voltStep &&
        inst.State() == SafeStartup(old(inst.State()), r.value.polarity, voltStep)
    {
      var p :- ParsePolarity(polarity);
      var b := new Keithley2470.Open(inst);
      var identity := b.CheckIdentity();
      if identity.Fail? {
        return Err(identity.error);
      }
      var k := new Keithley2470SafeForLGADs.Wrap(b, p, slewRate, voltStep);
      b.MeasureVoltage();
      k.SetSourceVoltage(0);
      var switched := k.SetOutput("off");
      r := Ok(k);
    }

    /** `set_source_voltage`: the value is forced to the polarity; with the
      output off it is written at once, with the output on the voltage is
      ramped to it, re-reading the instrument on every pass. */
    method SetSourceVoltage(requested: int)
      modifies base.inst
      ensures base.inst.State() == SafeSetSourceVoltage(old(base.inst.State()), polarity, voltStep, requested)
    {
      var target := Coerce(polarity, requested);
      var out := base.Output();
      if out == Ok(Off) {
        base.SetSourceVoltage(target);
        return;
      }
      ghost var start := base.inst.State();
      while true
        invariant base.inst.output == On
        invariant Replay(base.inst.State(), RampLog(base.inst.voltage, target, voltStep)) ==
          Replay(start, RampLog(start.voltage, target, voltStep))
        decreases Abs(target - base.inst.voltage)
      {
        ghost var before := base.inst.State();
        RampLogUnfold(before.voltage, target, voltStep);
        var volts := base.GetSourceVoltage();
        if Abs(target - volts) > voltStep {
          volts := base.GetSourceVoltage();
          if target - volts > voltStep {
            volts := base.GetSourceVoltage();
            base.SetSourceVoltage(volts + voltStep);
          } else {
            volts := base.GetSourceVoltage();
            base.SetSourceVoltage(volts - voltStep);
          }
        } else {
          base.SetSourceVoltage(target);
          ReplayOne(before, VoltLevel(target));
          break;
        }
        // the pause of volt_step / slew_rate seconds
        base.inst.Pause();
        var next := StepToward(before.voltage, target, voltStep);
        ReplayTwo(before, VoltLevel(next), Wait);
        ReplayAppend(before, [VoltLevel(next), Wait], RampLog(next, target, voltStep));
      }
    }

    /** `set_output`: see SafeSetOutput for the sequence of writes. */
    method SetOutput(state: string) returns (r: Outcome<Error>)
      modifies base.inst
      ensures (base.inst.State(), r) == SafeSetOutput(old(base.inst.State()), polarity, voltStep, state)
    {
      if Lower(state) == "off" {
        var out := base.Output();
        if out == Ok(Off) {
          return Pass;
        }
        SetSourceVoltage(0);
        r := base.SetOutput(state);
      } else {
        var out := base.Output();
        if out == Ok(On) {
          return Pass;
        }
        var saved := base.GetSourceVoltage();
        base.SetSourceVoltage(0);
        r := base.SetOutput(state);
        if r.Fail? {
          return;
        }
        SetSourceVoltage(saved);
      }
    }
  }
}
