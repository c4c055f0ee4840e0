/**
 * The windowed hysteresis automation engine (`AutomationController`).
 * Temperature and illuminance samples are summed over a time window; when the
 * window has lasted at least `windowSeconds`, the averages drive two
 * independent on/off hysteresis bands, one for the fan and one for the light,
 * and one actuation command is produced per device whose power changed.
 */
module Automation {
  import opened Wrappers

  datatype Power = On | Off

  datatype Device = Fan01 | Light01

  /** The device id as it appears on the wire. */
  function DeviceId(d: Device): string
  {
    match d
    case Fan01 => "fan_01"
    case Light01 => "light_01"
  }

  /** The request id `auto-<device>-<ms>`, kept as its two components. */
  datatype RequestId = AutoRequestId(device: Device, millis: int)

  /** An engine-originated command; `sentAt` is the window-closing timestamp in seconds. */
  datatype ActuationCommand = ActuationCommand(
    requestId: RequestId,
    deviceId: Device,
    power: Power,
    source: string,
    sentAt: real)

  const AutomationSource: string := "automation"

  /** Python's `int()` on a float: truncation toward zero. */
  function TruncateToInt(x: real): (n: int)
    ensures 0.0 <= x ==> n as real <= x < n as real + 1.0
    ensures x < 0.0 ==> n as real - 1.0 < x <= n as real
  {
    if x >= 0.0 then x.Floor else -((-x).Floor)
  }

  /** `_build_command`: the command record for one device change. */
  function BuildCommand(device: Device, power: Power, sentAt: real): (c: ActuationCommand)
    ensures c.deviceId == device && c.power == power && c.sentAt == sentAt
    ensures c.source == AutomationSource
    ensures c.requestId.device == device
    ensures 0.0 <= sentAt ==> c.requestId.millis as real <= sentAt * 1000.0 < c.requestId.millis as real + 1.0
  {
    ActuationCommand(AutoRequestId(device, TruncateToInt(sentAt * 1000.0)), device, power, AutomationSource, sentAt)
  }

  /**
   * A hysteresis step: an actuator that is off turns on when `turnOn` holds,
   * one that is on turns off when `turnOff` holds, otherwise it keeps its state.
   */
  function Hysteresis(current: Power, turnOn: bool, turnOff: bool): Power
  {
    if current == Off && turnOn then On
    else if current == On && turnOff then Off
    else current
  }

  /** The fan band: on strictly above `onAbove`, off strictly below `offBelow`. */
  function NextFan(current: Power, avgTempC: real, onAbove: real, offBelow: real): Power
  {
    Hysteresis(current, avgTempC > onAbove, avgTempC < offBelow)
  }

  /** The light band, inverted: on strictly below `onBelow`, off strictly above `offAbove`. */
  function NextLight(current: Power, avgLux: real, onBelow: real, offAbove: real): Power
  {
    Hysteresis(current, avgLux < onBelow, avgLux > offAbove)
  }

  /**
   * The commands a window produces: one per device whose power changed,
   * fan first, each carrying the new power.
   */
  function ChangeCommands(fanBefore: Power, fanAfter: Power, lightBefore: Power, lightAfter: Power, sentAt: real)
    : (cmds: seq<ActuationCommand>)
    ensures |cmds| == (if fanAfter != fanBefore then 1 else 0) + (if lightAfter != lightBefore then 1 else 0)
    ensures fanAfter != fanBefore ==> cmds[0] == BuildCommand(Fan01, fanAfter, sentAt)
    ensures lightAfter != lightBefore ==> cmds[|cmds| - 1] == BuildCommand(Light01, lightAfter, sentAt)
    ensures forall c :: c in cmds ==> c.source == AutomationSource && c.sentAt == sentAt
    ensures forall c :: c in cmds ==>
      c.power == (if c.deviceId == Fan01 then fanAfter else lightAfter) &&
      c.power != (if c.deviceId == Fan01 then fanBefore else lightBefore)
    ensures forall i, j :: 0 <= i < j < |cmds| ==> cmds[i].deviceId == Fan01 && cmds[j].deviceId == Light01
  {
    (if fanAfter != fanBefore then [BuildCommand(Fan01, fanAfter, sentAt)] else []) +
    (if lightAfter != lightBefore then [BuildCommand(Light01, lightAfter, sentAt)] else [])
  }

  /** The running sum, added left to right as `+=` does. */
  function Sum(s: seq<real>): real
  {
    if s == [] then 0.0 else Sum(s[..|s| - 1]) + s[|s| - 1]
  }

  /** Adding a sample to the running sum extends the window's sum by that sample. */
  lemma SumAppend(s: seq<real>, x: real)
    ensures Sum(s + [x]) == Sum(s) + x
  {
    assert (s + [x])[..|s|] == s;
  }

  /** The arithmetic mean of a non-empty window. */
  function Mean(s: seq<real>): real
    requires |s| > 0
  {
    Sum(s) / |s| as real
  }

  /** A two-sample window averages to the midpoint of its samples. */
  lemma MeanOfPair(a: real, b: real)
    ensures Mean([a, b]) == (a + b) / 2.0
  {
    SumAppend([], a);
    SumAppend([a], b);
    assert [] + [a] == [a] && [a] + [b] == [a, b];
  }

  lemma {:induction false} SumBounds(s: seq<real>, lo: real, hi: real)
    requires forall i :: 0 <= i < |s| ==> lo <= s[i] <= hi
    ensures |s| as real * lo <= Sum(s) <= |s| as real * hi
  {
    if s != [] {
      SumBounds(s[..|s| - 1], lo, hi);
    }
  }

  /**
   * A window average stays within any bounds every sample of the window
   * respects.
   */
  lemma MeanWithin(s: seq<real>, lo: real, hi: real)
    requires |s| > 0
    requires forall i :: 0 <= i < |s| ==> lo <= s[i] <= hi
    ensures lo <= Mean(s) <= hi
  {
    SumBounds(s, lo, hi);
    var n := |s| as real;
    assert Sum(s) / n >= lo by {
      assert Sum(s) >= n * lo;
    }
    assert Sum(s) / n <= hi by {
      assert Sum(s) <= n * hi;
    }
  }

  /**
   * The fan's transitions: off to on exactly when the average is strictly
   * above the on-threshold, on to off exactly when it is strictly below the
   * off-threshold.
   */
  lemma FanTransitions(avgTempC: real, onAbove: real, offBelow: real)
    ensures NextFan(Off, avgTempC, onAbove, offBelow) == On <==> avgTempC > onAbove
    ensures NextFan(On, avgTempC, onAbove, offBelow) == Off <==> avgTempC < offBelow
  {
  }

  /** The light's transitions: on below the on-threshold, off above the off-threshold. */
  lemma LightTransitions(avgLux: real, onBelow: real, offAbove: real)
    ensures NextLight(Off, avgLux, onBelow, offAbove) == On <==> avgLux < onBelow
    ensures NextLight(On, avgLux, onBelow, offAbove) == Off <==> avgLux > offAbove
  {
  }

  /** The fan state after a run of consecutive closed windows with the given averages. */
  function FanAfterWindows(p: Power, avgs: seq<real>, onAbove: real, offBelow: real): Power
  {
    if avgs == [] then p
    else NextFan(FanAfterWindows(p, avgs[..|avgs| - 1], onAbove, offBelow), avgs[|avgs| - 1], onAbove, offBelow)
  }

  /** The light state after a run of consecutive closed windows with the given averages. */
  function LightAfterWindows(p: Power, avgs: seq<real>, onBelow: real, offAbove: real): Power
  {
    if avgs == [] then p
    else NextLight(LightAfterWindows(p, avgs[..|avgs| - 1], onBelow, offAbove), avgs[|avgs| - 1], onBelow, offAbove)
  }

  /**
   * The deadband: however many windows in a row average inside the closed
   * band between the two fan thresholds (ends included), the fan never toggles.
   */
  lemma {:induction false} FanStableInDeadband(p: Power, avgs: seq<real>, onAbove: real, offBelow: real)
    requires forall i :: 0 <= i < |avgs| ==> offBelow <= avgs[i] <= onAbove
    ensures FanAfterWindows(p, avgs, onAbove, offBelow) == p
  {
    if avgs != [] {
      FanStableInDeadband(p, avgs[..|avgs| - 1], onAbove, offBelow);
    }
  }

  /** The same deadband property for the light, whose band is inverted. */
  lemma {:induction false} LightStableInDeadband(p: Power, avgs: seq<real>, onBelow: real, offAbove: real)
    requires forall i :: 0 <= i < |avgs| ==> onBelow <= avgs[i] <= offAbove
    ensures LightAfterWindows(p, avgs, onBelow, offAbove) == p
  {
    if avgs != [] {
      LightStableInDeadband(p, avgs[..|avgs| - 1], onBelow, offAbove);
    }
  }

  /**
   * Toggling back on the very next window needs a swing of the average wider
   * than the deadband.
   */
  lemma FanToggleBackNeedsFullSwing(p: Power, a1: real, a2: real, onAbove: real, offBelow: real)
    requires NextFan(p, a1, onAbove, offBelow) != p
    requires NextFan(NextFan(p, a1, onAbove, offBelow), a2, onAbove, offBelow) == p
    ensures (if p == Off then a1 - a2 else a2 - a1) > onAbove - offBelow
  {
  }

  /** The light counterpart: toggling back needs a swing wider than its (inverted) band. */
  lemma LightToggleBackNeedsFullSwing(p: Power, a1: real, a2: real, onBelow: real, offAbove: real)
    requires NextLight(p, a1, onBelow, offAbove) != p
    requires NextLight(NextLight(p, a1, onBelow, offAbove), a2, onBelow, offAbove) == p
    ensures (if p == Off then a2 - a1 else a1 - a2) > offAbove - onBelow
  {
  }

  /** `AutomationController`: thresholds, the open window, and the two actuator states. */
  class AutomationController {
    const windowSeconds: int
    const fanOnTempC: real
    const fanOffTempC: real
    const lightOnLux: real
    const lightOffLux: real

    var windowStartedAt: Option<real>
    var sumTempC: real
    var sumLux: real
    var sampleCount: nat
    var fanPower: Power
    var lightPower: Power

    /** The samples of the open window, oldest first. */
    ghost var windowTemps: seq<real>
    ghost var windowLux: seq<real>

    /**
     * The sums are those of the open window's samples, and a window is open
     * exactly when it holds a sample, so the averages never divide by zero.
     */
    ghost predicate Valid()
      reads this
    {
      && |windowTemps| == sampleCount
      && |windowLux| == sampleCount
      && sumTempC == Sum(windowTemps)
      && sumLux == Sum(windowLux)
      && (windowStartedAt.Some? <==> sampleCount > 0)
    }

    ghost predicate WindowEmpty()
      reads this
    {
      && windowStartedAt.None?
      && sumTempC == 0.0 && sumLux == 0.0 && sampleCount == 0
      && windowTemps == [] && windowLux == []
    }

    constructor (windowSeconds: int, fanOnTempC: real, fanOffTempC: real, lightOnLux: real, lightOffLux: real)
      ensures Valid() && WindowEmpty()
      ensures this.windowSeconds == windowSeconds
      ensures this.fanOnTempC == fanOnTempC && this.fanOffTempC == fanOffTempC
      ensures this.lightOnLux == lightOnLux && this.lightOffLux == lightOffLux
      ensures fanPower == Off && lightPower == Off
    {
      this.windowSeconds := windowSeconds;
      this.fanOnTempC := fanOnTempC;
      this.fanOffTempC := fanOffTempC;
      this.lightOnLux := lightOnLux;
      this.lightOffLux := lightOffLux;
      windowStartedAt := None;
      sumTempC := 0.0;
      sumLux := 0.0;
      sampleCount := 0;
      fanPower := Off;
      lightPower := Off;
      windowTemps := [];
      windowLux := [];
    }

    /**
     * `add_sample`: open the window on the first sample, fold the sample in,
     * and once at least `windowSeconds` have elapsed since the window opened,
     * decide on the averages of every sample of the window (this one
     * included) and empty the window.
     */
    method AddSample(temperatureC: real, lux: real, observedAt: real) returns (commands: seq<ActuationCommand>)
      requires Valid()
      modifies this
      ensures Valid()
      ensures var start := if old(windowStartedAt).Some? then old(windowStartedAt).value else observedAt;
        observedAt - start < windowSeconds as real ==>
          && windowStartedAt == Some(start)
          && windowTemps == old(windowTemps) + [temperatureC]
          && windowLux == old(windowLux) + [lux]
          && fanPower == old(fanPower) && lightPower == old(lightPower)
          && commands == []
      ensures var start := if old(windowStartedAt).Some? then old(windowStartedAt).value else observedAt;
        observedAt - start >= windowSeconds as real ==>
          && WindowEmpty()
          && fanPower == NextFan(old(fanPower), Mean(old(windowTemps) + [temperatureC]), fanOnTempC, fanOffTempC)
          && lightPower == NextLight(old(lightPower), Mean(old(windowLux) + [lux]), lightOnLux, lightOffLux)
          && commands == ChangeCommands(old(fanPower), fanPower, old(lightPower), lightPower, observedAt)
    {
      SumAppend(windowTemps, temperatureC);
      SumAppend(windowLux, lux);
      if windowStartedAt.None? {
        windowStartedAt := Some(observedAt);
      }

      sumTempC := sumTempC + temperatureC;
      sumLux := sumLux + lux;
      sampleCount := sampleCount + 1;
      windowTemps := windowTemps + [temperatureC];
      windowLux := windowLux + [lux];

      var elapsed := observedAt - windowStartedAt.value;
      if elapsed < windowSeconds as real {
        return [];
      }

      var avgTempC := sumTempC / sampleCount as real;
      var avgLux := sumLux / sampleCount as real;
      assert avgTempC == Mean(windowTemps);
      assert avgLux == Mean(windowLux);

      commands := Evaluate(avgTempC, avgLux, observedAt);
      ResetWindow();
    }

    /** `_reset_window`: close the window and clear the accumulator. */
    method ResetWindow()
      modifies this`windowStartedAt, this`sumTempC, this`sumLux, this`sampleCount, this`windowTemps, this`windowLux
      ensures Valid() && WindowEmpty()
    {
      windowStartedAt := None;
      sumTempC := 0.0;
      sumLux := 0.0;
      sampleCount := 0;
      windowTemps := [];
      windowLux := [];
    }

    /**
     * `_evaluate`: apply both hysteresis bands to the averages, store a
     * state only when it changes, and list one command per change, fan first.
     */
    method Evaluate(avgTempC: real, avgLux: real, observedAt: real) returns (commands: seq<ActuationCommand>)
      modifies this`fanPower, this`lightPower
      ensures fanPower == NextFan(old(fanPower), avgTempC, fanOnTempC, fanOffTempC)
      ensures lightPower == NextLight(old(lightPower), avgLux, lightOnLux, lightOffLux)
      ensures commands == ChangeCommands(old(fanPower), fanPower, old(lightPower), lightPower, observedAt)
    {
      commands := [];

      var fanNext := fanPower;
      if fanPower == Off && avgTempC > fanOnTempC {
        fanNext := On;
      } else if fanPower == On && avgTempC < fanOffTempC {
        fanNext := Off;
      }

      var lightNext := lightPower;
      if lightPower == Off && avgLux < lightOnLux {
        lightNext := On;
      } else if lightPower == On && avgLux > lightOffLux {
        lightNext := Off;
      }

      if fanNext != fanPower {
        fanPower := fanNext;
        commands := commands + [BuildCommand(Fan01, fanNext, observedAt)];
      }

      if lightNext != lightPower {
        lightPower := lightNext;
        commands := commands + [BuildCommand(Light01, lightNext, observedAt)];
      }
    }
  }

  /** The window of `test_emits_commands_after_two_minute_window`: both devices turn on. */
  method ScenarioTwoMinuteWindow()
  {
    var start := 1771243200.0;
    var c := new AutomationController(120, 29.0, 27.5, 300.0, 380.0);
    var r1 := c.AddSample(30.0, 200.0, start);
    assert r1 == [];
    var r2 := c.AddSample(31.0, 180.0, start + 60.0);
    assert r2 == [];
    var r3 := c.AddSample(30.0, 210.0, start + 121.0);
    assert c.fanPower == On && c.lightPower == On;
    assert |r3| == 2;
    assert DeviceId(r3[0].deviceId) == "fan_01" && r3[0].power == On && r3[0].source == "automation";
    assert DeviceId(r3[1].deviceId) == "light_01" && r3[1].power == On && r3[1].source == "automation";
  }

  /**
   * The first window shared by the deadband and off-threshold tests: two
   * samples of (30.0 °C, 200 lux) 121 s apart turn both devices on with two
   * commands and leave the window empty.
   */
  method FirstWindowBothOn(start: real) returns (c: AutomationController)
    ensures fresh(c) && c.Valid() && c.WindowEmpty()
    ensures c.windowSeconds == 120 && c.fanOnTempC == 29.0 && c.fanOffTempC == 27.5
    ensures c.lightOnLux == 300.0 && c.lightOffLux == 380.0
    ensures c.fanPower == On && c.lightPower == On
  {
    c := new AutomationController(120, 29.0, 27.5, 300.0, 380.0);
    var r := c.AddSample(30.0, 200.0, start);
    assert r == [] && c.windowTemps == [30.0] && c.windowLux == [200.0];
    MeanOfPair(30.0, 30.0);
    MeanOfPair(200.0, 200.0);
    assert NextFan(Off, 30.0, 29.0, 27.5) == On && NextLight(Off, 200.0, 300.0, 380.0) == On;
    r := c.AddSample(30.0, 200.0, start + 121.0);
    assert |r| == 2;
  }

  /** `test_hysteresis_does_not_toggle_in_deadband`: averages inside both bands change nothing. */
  method ScenarioDeadband()
  {
    var start := 1771243200.0;
    var c := FirstWindowBothOn(start);
    var r := c.AddSample(28.2, 340.0, start + 122.0);
    assert r == [] && c.windowTemps == [28.2] && c.windowLux == [340.0];
    assert c.windowStartedAt == Some(start + 122.0);
    assert c.windowTemps + [28.0] == [28.2, 28.0] && c.windowLux + [350.0] == [340.0, 350.0];
    MeanOfPair(28.2, 28.0);
    MeanOfPair(340.0, 350.0);
    assert NextFan(On, 28.1, 29.0, 27.5) == On && NextLight(On, 345.0, 300.0, 380.0) == On;
    r := c.AddSample(28.0, 350.0, start + 243.0);
    assert r == [];
  }

  /** `test_turns_devices_off_when_off_threshold_crosses`: both devices turn off. */
  method ScenarioOffThreshold()
  {
    var start := 1771243200.0;
    var c := FirstWindowBothOn(start);
    var r := c.AddSample(26.8, 420.0, start + 122.0);
    assert r == [] && c.windowTemps == [26.8] && c.windowLux == [420.0];
    assert c.windowStartedAt == Some(start + 122.0);
    assert c.windowTemps + [26.9] == [26.8, 26.9] && c.windowLux + [410.0] == [420.0, 410.0];
    MeanOfPair(26.8, 26.9);
    MeanOfPair(420.0, 410.0);
    assert NextFan(On, 26.85, 29.0, 27.5) == Off && NextLight(On, 415.0, 300.0, 380.0) == Off;
    r := c.AddSample(26.9, 410.0, start + 243.0);
    assert |r| == 2 && r[0].power == Off && r[1].power == Off;
    assert DeviceId(r[0].deviceId) == "fan_01" && DeviceId(r[1].deviceId) == "light_01";
  }
}
