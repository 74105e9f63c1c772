/** The instrument seen as a value: its source voltage, its output state and
    the log of what the driver has sent it. A write takes effect at once
    (the instrument honours every write). The base class's setters are
    specified here as functions of that value. */
module Device {
  import opened Wrappers
  import opened Scpi

  datatype DeviceState = DeviceState(voltage: int, output: OutputState, log: seq<Command>)

  /** The instrument receiving one command. */
  function Apply(s: DeviceState, c: Command): DeviceState {
    match c
    case VoltLevel(v) => DeviceState(v, s.output, s.log + [c])
    case OutputSwitch(o) => DeviceState(s.voltage, o, s.log + [c])
    case _ => DeviceState(s.voltage, s.output, s.log + [c])
  }

  /** The instrument receiving a sequence of commands, in order. */
  function Replay(s: DeviceState, cmds: seq<Command>): (r: DeviceState)
    ensures r.log == s.log + cmds
    decreases |cmds|
  {
    if cmds == [] then s
    else
      assert cmds == [cmds[0]] + cmds[1..];
      Replay(Apply(s, cmds[0]), cmds[1..])
  }

  /** Sending `a` and then `b` is sending `a + b`. */
  lemma {:induction false} ReplayAppend(s: DeviceState, a: seq<Command>, b: seq<Command>)
    ensures Replay(s, a + b) == Replay(Replay(s, a), b)
    decreases |a|
  {
    if a != [] {
      assert (a + b)[0] == a[0];
      assert (a + b)[1..] == a[1..] + b;
      ReplayAppend(Apply(s, a[0]), a[1..], b);
    } else {
      assert a + b == b;
    }
  }

  lemma ReplayOne(s: DeviceState, c: Command)
    ensures Replay(s, [c]) == Apply(s, c)
  {
    assert [c][1..] == [];
  }

  lemma ReplayTwo(s: DeviceState, c: Command, d: Command)
    ensures Replay(s, [c, d]) == Apply(Apply(s, c), d)
  {
    assert [c, d][1..] == [d];
    ReplayOne(Apply(s, c), d);
  }

  /** Base `set_output`: one `:OUTPUT` write for "on" or "off" in any case;
      any other argument is rejected before anything is written. */
  function BaseSetOutput(s: DeviceState, state: string): (r: (DeviceState, Outcome<Error>))
    ensures r.1 == Pass <==> ParseOutputArg(state).Some?
    ensures r.1 == Pass ==> r.0 == DeviceState(s.voltage, ParseOutputArg(state).value, s.log + [OutputSwitch(ParseOutputArg(state).value)])
    ensures r.1.Fail? ==> r.0 == s && r.1.error == InvalidOutputArgument(state)
  {
    match ParseOutputArg(state)
    case None => (s, Fail(InvalidOutputArgument(state)))
    case Some(o) => (Apply(s, OutputSwitch(o)), Pass)
  }

  /** `beep`: one beeper command when the bounds hold, nothing otherwise. */
  function BaseBeep(s: DeviceState, frequency: real, time: real): (r: (DeviceState, Outcome<Error>))
    ensures r.1 == Pass <==> 200.0 <= frequency <= 5000.0 && time <= 1.0
    ensures r.1 == Pass ==> r.0 == DeviceState(s.voltage, s.output, s.log + [Beeper(frequency, time)])
    ensures r.1.Fail? ==> r.0 == s
    ensures r.1 == BeepCheck(frequency, time)
  {
    var check := BeepCheck(frequency, time);
    if check == Pass then (Apply(s, Beeper(frequency, time)), Pass) else (s, check)
  }

  /** The base constructor's start-up, once the identity has been checked:
      a discarded measurement, voltage 0, output off. */
  function BaseStartup(s: DeviceState): (r: DeviceState)
    ensures r.voltage == 0 && r.output == Off
    ensures r.log == s.log + [MeasureVolt, VoltLevel(0), OutputSwitch(Off)]
  {
    Apply(Apply(Apply(s, MeasureVolt), VoltLevel(0)), OutputSwitch(Off))
  }
}
