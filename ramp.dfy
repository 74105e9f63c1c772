/** The voltage ramp of the safe controller, as a specification: the
    voltages it writes while the output is on, the log it leaves, and the
    safety rule it exists to keep. */
module Ramp {
  import opened Scpi
  import opened Device

  /** `volt_step`: the largest change one ramp step may make. */
  type Step = s: int | s > 0 witness 1

  function Abs(x: int): nat {
    if x < 0 then -x else x
  }

  function Min(a: int, b: int): int {
    if a <= b then a else b
  }

  function Max(a: int, b: int): int {
    if a <= b then b else a
  }

  /** The write the ramp makes when the device reads `cur` and the target
      is more than `step` away: one step up if the target is above, one
      step down otherwise. */
  function StepToward(cur: int, target: int, step: Step): (r: int)
    ensures Abs(r - cur) == step
    ensures Abs(target - cur) > step ==> Abs(target - r) == Abs(target - cur) - step
  {
    if target - cur > step then cur + step else cur - step
  }

  /** The voltages the ramp writes, in order, starting from a device that
      reads `cur`: steps of `step` while the gap exceeds `step`, then the
      target itself. */
  function RampWrites(cur: int, target: int, step: Step): (ws: seq<int>)
    ensures |ws| >= 1 && ws[|ws| - 1] == target
    decreases Abs(target - cur)
  {
    if Abs(target - cur) > step then
      var next := StepToward(cur, target, step);
      [next] + RampWrites(next, target, step)
    else [target]
  }

  /** Voltage writes with a pause after every one but the last. */
  function WithWaits(ws: seq<int>): seq<Command>
    decreases |ws|
  {
    if ws == [] then []
    else if |ws| == 1 then [VoltLevel(ws[0])]
    else [VoltLevel(ws[0]), Wait] + WithWaits(ws[1..])
  }

  /** What the ramp leaves in the log when the device reads `cur`. */
  function RampLog(cur: int, target: int, step: Step): seq<Command> {
    WithWaits(RampWrites(cur, target, step))
  }

  /** One pass of the loop: a step and a pause when the gap exceeds `step`,
      otherwise the final write of the target. */
  lemma RampLogUnfold(cur: int, target: int, step: Step)
    ensures Abs(target - cur) > step ==>
      RampLog(cur, target, step) ==
        [VoltLevel(StepToward(cur, target, step)), Wait] + RampLog(StepToward(cur, target, step), target, step)
    ensures Abs(target - cur) <= step ==> RampLog(cur, target, step) == [VoltLevel(target)]
  {
  }

  /** Every write but the last is exactly one `step` away from the voltage
      read just before it, in the direction of the target, and is taken
      only while the gap exceeds `step`; the last write, the target, is
      taken once the gap is at most `step`. */
  lemma {:induction false} RampStepsTowardTarget(cur: int, target: int, step: Step)
    ensures var p := [cur] + RampWrites(cur, target, step);
      forall i :: 0 <= i < |p| - 2 ==>
        Abs(target - p[i]) > step && p[i + 1] == (if target > p[i] then p[i] + step else p[i] - step)
    ensures var p := [cur] + RampWrites(cur, target, step);
      Abs(target - p[|p| - 2]) <= step && p[|p| - 1] == target
    decreases Abs(target - cur)
  {
    var p := [cur] + RampWrites(cur, target, step);
    if Abs(target - cur) > step {
      var next := StepToward(cur, target, step);
      RampStepsTowardTarget(next, target, step);
      var q := [next] + RampWrites(next, target, step);
      assert p == [cur] + q;
      forall i | 0 <= i < |p| - 2
        ensures Abs(target - p[i]) > step && p[i + 1] == (if target > p[i] then p[i] + step else p[i] - step)
      {
        if i > 0 {
          assert p[i] == q[i - 1] && p[i + 1] == q[i];
        }
      }
      assert p[|p| - 2] == q[|q| - 2];
    }
  }

  /** The ramp never overshoots: every write lies between the starting
      voltage and the target. */
  lemma {:induction false} RampNeverOvershoots(cur: int, target: int, step: Step)
    ensures forall i :: 0 <= i < |RampWrites(cur, target, step)| ==>
      Min(cur, target) <= RampWrites(cur, target, step)[i] <= Max(cur, target)
    decreases Abs(target - cur)
  {
    var ws := RampWrites(cur, target, step);
    if Abs(target - cur) > step {
      var next := StepToward(cur, target, step);
      RampNeverOvershoots(next, target, step);
      var rest := RampWrites(next, target, step);
      assert ws == [next] + rest;
      assert Min(cur, target) <= next <= Max(cur, target);
      assert Min(cur, target) <= Min(next, target) && Max(next, target) <= Max(cur, target);
      forall i | 0 <= i < |ws|
        ensures Min(cur, target) <= ws[i] <= Max(cur, target)
      {
        if i > 0 {
          assert ws[i] == rest[i - 1];
        }
      }
    }
  }

  /** The ramp makes ceil(gap / step) writes (one when the gap is 0): the
      loop terminates after that many passes. */
  lemma {:induction false} RampLength(cur: int, target: int, step: Step)
    ensures var n := |RampWrites(cur, target, step)|;
      Abs(target - cur) <= n * step && (n == 1 || (n - 1) * step < Abs(target - cur))
    decreases Abs(target - cur)
  {
    if Abs(target - cur) > step {
      var next := StepToward(cur, target, step);
      RampLength(next, target, step);
      var m := |RampWrites(next, target, step)|;
      assert |RampWrites(cur, target, step)| == m + 1;
      assert Abs(target - next) == Abs(target - cur) - step;
      assert (m + 1) * step == m * step + step;
    }
  }

  /** The safety rule the controller keeps for a single write: while the
      output is on, a voltage write moves by at most `step`; the output is
      switched on or off only at 0 V. */
  predicate SafeWrite(s: DeviceState, c: Command, step: Step) {
    match c
    case VoltLevel(v) => s.output == On ==> Abs(v - s.voltage) <= step
    case OutputSwitch(o) => o != s.output ==> s.voltage == 0
    case _ => true
  }

  /** Every write of `cmds`, sent in order from `s`, keeps the rule. */
  predicate SafeFrom(s: DeviceState, cmds: seq<Command>, step: Step)
    decreases |cmds|
  {
    cmds == [] || (SafeWrite(s, cmds[0], step) && SafeFrom(Apply(s, cmds[0]), cmds[1..], step))
  }

  /** A sequence of writes is safe exactly when its two halves are, the
      second taken from where the first leaves the device. */
  lemma {:induction false} SafeFromAppend(s: DeviceState, a: seq<Command>, b: seq<Command>, step: Step)
    ensures SafeFrom(s, a + b, step) <==> SafeFrom(s, a, step) && SafeFrom(Replay(s, a), b, step)
    decreases |a|
  {
    if a == [] {
      assert a + b == b;
    } else {
      assert (a + b)[0] == a[0];
      assert (a + b)[1..] == a[1..] + b;
      SafeFromAppend(Apply(s, a[0]), a[1..], b, step);
    }
  }

  /** With the device honouring every write, the ramp leaves it at the
      target with the output untouched, and every write of the ramp keeps
      the safety rule whatever the output state. */
  lemma {:induction false} RampReachesTargetSafely(s: DeviceState, target: int, step: Step)
    ensures Replay(s, RampLog(s.voltage, target, step)) ==
      DeviceState(target, s.output, s.log + RampLog(s.voltage, target, step))
    ensures SafeFrom(s, RampLog(s.voltage, target, step), step)
    decreases Abs(target - s.voltage)
  {
    var log := RampLog(s.voltage, target, step);
    RampLogUnfold(s.voltage, target, step);
    if Abs(target - s.voltage) > step {
      var next := StepToward(s.voltage, target, step);
      var s2 := Apply(Apply(s, VoltLevel(next)), Wait);
      RampReachesTargetSafely(s2, target, step);
      ReplayAppend(s, [VoltLevel(next), Wait], RampLog(next, target, step));
      assert Replay(s, [VoltLevel(next), Wait]) == s2 by {
        assert [VoltLevel(next), Wait][1..] == [Wait];
        assert [Wait][1..] == [];
        assert Replay(Apply(s, VoltLevel(next)), [Wait]) == Replay(s2, []);
      }
      SafeFromAppend(s, [VoltLevel(next), Wait], RampLog(next, target, step), step);
      assert SafeFrom(s, [VoltLevel(next), Wait], step) by {
        assert [VoltLevel(next), Wait][1..] == [Wait];
        assert SafeFrom(Apply(s, VoltLevel(next)), [Wait], step);
      }
    } else {
      assert SafeFrom(Apply(s, VoltLevel(target)), [], step);
    }
  }
}
