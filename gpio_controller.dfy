/**
 * The hardware layer of src/gpio_controller.py: pin set-up, the servo's PWM
 * channel, the status LED and the button's edge detection.
 *
 * The GPIO driver is not modelled electrically: every call the controller
 * makes into it (and every `sleep` between them) is appended to an ordered
 * command log, and duty cycles are exact `real` values.
 */
module Gpio {
  import opened Wrappers
  import Config

  datatype Level = Low | High
  datatype Edge = Falling | Rising

  /** The identity of a function registered as the button's handler. */
  datatype CallbackRef = CallbackRef(name: string)

  datatype Command =
    | SetModeBcm
    | SetupInputPullUp(pin: nat)
    | SetupOutput(pin: nat)
    | PwmCreate(pin: nat, frequency: int)
    | PwmStart(duty: real)
    | ChangeDutyCycle(duty: real)
    | Sleep(seconds: real)
    | Output(pin: nat, level: Level)
    | AddEventDetect(pin: nat, edge: Edge, callback: CallbackRef, bounceMs: nat)
    | PwmStop
    | GpioCleanup

  /** Seconds `set_servo_angle` holds a position before it stops the signal. */
  const SETTLE_SECONDS: real := 0.5
  /** Seconds between two steps of the sweep. */
  const SWEEP_STEP_SECONDS: real := 0.01
  /** Angles 0, 1, ..., ROTATION_STEPS - 1 make up the sweep. */
  const ROTATION_STEPS: nat := 160
  /** The button's debounce time, in milliseconds. */
  const BOUNCE_TIME_MS: nat := 300

  /** The servo's duty cycle (in percent) for an angle in degrees: 2 + angle / 18. */
  function Duty(angle: real): (d: real)
    ensures (d - 2.0) * 18.0 == angle
    ensures 0.0 <= angle <= 180.0 ==> 2.0 <= d <= 12.0
  {
    2.0 + angle / 18.0
  }

  /** The angle a duty cycle stands for: the inverse of `Duty`. */
  function AngleOf(duty: real): real {
    (duty - 2.0) * 18.0
  }

  lemma DutyRoundTrip(angle: real, duty: real)
    ensures AngleOf(Duty(angle)) == angle
    ensures Duty(AngleOf(duty)) == duty
  {
  }

  /** The calibration points: 0 degrees is 2%, 90 is 7%, 180 is 12%. */
  lemma DutyCalibration()
    ensures Duty(0.0) == 2.0 && Duty(90.0) == 7.0 && Duty(180.0) == 12.0
  {
  }

  lemma DutyStrictlyIncreasing(a: real, b: real)
    requires a < b
    ensures Duty(a) < Duty(b)
  {
  }

  /** The level written to the LED pin for a requested state. */
  function LevelOf(on: bool): (l: Level)
    ensures l == High <==> on
  {
    if on then High else Low
  }

  /** The commands the constructor issues. */
  function InitCommands(): seq<Command> {
    [SetModeBcm,
     SetupInputPullUp(Config.BUTTON_PIN),
     SetupOutput(Config.SERVO_PIN),
     SetupOutput(Config.LED_PIN),
     PwmCreate(Config.SERVO_PIN, Config.SERVO_PWM_FREQUENCY),
     PwmStart(0.0)]
  }

  /** The commands of `set_servo_angle`. */
  function ServoAngleCommands(angle: real): seq<Command> {
    [ChangeDutyCycle(Duty(angle)), Sleep(SETTLE_SECONDS), ChangeDutyCycle(0.0)]
  }

  /** The commands of the first `n` steps of the sweep. */
  function RotationCommands(n: nat): seq<Command> {
    if n == 0 then []
    else RotationCommands(n - 1) + [ChangeDutyCycle(Duty((n - 1) as real)), Sleep(SWEEP_STEP_SECONDS)]
  }

  /** The duty cycles sent to the PWM channel, in order. */
  function DutyTrace(cmds: seq<Command>): seq<real> {
    if cmds == [] then [] else
      var last := cmds[|cmds| - 1];
      DutyTrace(cmds[..|cmds| - 1]) + (if last.ChangeDutyCycle? then [last.duty] else [])
  }

  /** The levels written to `pin`, in order. */
  function OutputLevels(pin: nat, cmds: seq<Command>): seq<Level> {
    if cmds == [] then [] else
      var last := cmds[|cmds| - 1];
      OutputLevels(pin, cmds[..|cmds| - 1]) + (if last.Output? && last.pin == pin then [last.level] else [])
  }

  lemma {:induction false} DutyTraceAppend(a: seq<Command>, b: seq<Command>)
    ensures DutyTrace(a + b) == DutyTrace(a) + DutyTrace(b)
    decreases |b|
  {
    if b == [] {
      assert a + b == a;
    } else {
      assert (a + b)[..|a + b| - 1] == a + b[..|b| - 1];
      DutyTraceAppend(a, b[..|b| - 1]);
    }
  }

  lemma {:induction false} OutputLevelsAppend(pin: nat, a: seq<Command>, b: seq<Command>)
    ensures OutputLevels(pin, a + b) == OutputLevels(pin, a) + OutputLevels(pin, b)
    decreases |b|
  {
    if b == [] {
      assert a + b == a;
    } else {
      assert (a + b)[..|a + b| - 1] == a + b[..|b| - 1];
      OutputLevelsAppend(pin, a, b[..|b| - 1]);
    }
  }

  /** `set_servo_angle` sends the angle's duty cycle and then 0, and nothing else. */
  lemma ServoAngleDuties(angle: real)
    ensures DutyTrace(ServoAngleCommands(angle)) == [Duty(angle), 0.0]
  {
    var a, b, c := ChangeDutyCycle(Duty(angle)), Sleep(SETTLE_SECONDS), ChangeDutyCycle(0.0);
    assert ServoAngleCommands(angle) == [a] + [b] + [c];
    DutyTraceAppend([a] + [b], [c]);
    DutyTraceAppend([a], [b]);
    assert [a][..0] == [] && [b][..0] == [] && [c][..0] == [];
  }

  /** Step `k` of the sweep is the duty for `k` degrees followed by the step's sleep. */
  lemma {:induction false} RotationCommandsShape(n: nat)
    ensures |RotationCommands(n)| == 2 * n
    ensures forall k :: 0 <= k < n ==>
      RotationCommands(n)[2 * k] == ChangeDutyCycle(Duty(k as real)) &&
      RotationCommands(n)[2 * k + 1] == Sleep(SWEEP_STEP_SECONDS)
  {
    if n > 0 {
      RotationCommandsShape(n - 1);
    }
  }

  /** The sweep's duty cycles are exactly Duty(0), ..., Duty(n - 1). */
  lemma {:induction false} RotationDuties(n: nat)
    ensures |DutyTrace(RotationCommands(n))| == n
    ensures forall k :: 0 <= k < n ==> DutyTrace(RotationCommands(n))[k] == Duty(k as real)
  {
    if n > 0 {
      RotationDuties(n - 1);
      var step := [ChangeDutyCycle(Duty((n - 1) as real)), Sleep(SWEEP_STEP_SECONDS)];
      DutyTraceAppend(RotationCommands(n - 1), step);
      assert step[..1][..0] == [];
      assert step[..1] == [step[0]];
      assert DutyTrace(step[..1]) == [Duty((n - 1) as real)];
      assert DutyTrace(step) == [Duty((n - 1) as real)];
    }
  }

  /**
   * The full sweep sends 160 duty cycles, strictly increasing from 2%, and
   * its last command is a sleep: no zero duty is sent at the end.
   */
  lemma RotationSweep()
    ensures var duties := DutyTrace(RotationCommands(ROTATION_STEPS));
      |duties| == ROTATION_STEPS &&
      duties[0] == 2.0 &&
      (forall i, j :: 0 <= i < j < |duties| ==> duties[i] < duties[j]) &&
      (forall i :: 0 <= i < |duties| ==> duties[i] != 0.0)
    ensures |RotationCommands(ROTATION_STEPS)| == 2 * ROTATION_STEPS &&
      RotationCommands(ROTATION_STEPS)[2 * ROTATION_STEPS - 1] == Sleep(SWEEP_STEP_SECONDS)
  {
    RotationDuties(ROTATION_STEPS);
    RotationCommandsShape(ROTATION_STEPS);
    var duties := DutyTrace(RotationCommands(ROTATION_STEPS));
    forall i, j | 0 <= i < j < |duties| ensures duties[i] < duties[j] {
      DutyStrictlyIncreasing(i as real, j as real);
    }
  }

  /** The commands of a series of `set_led` calls. */
  function LedCommands(states: seq<bool>): seq<Command> {
    if states == [] then []
    else LedCommands(states[..|states| - 1]) + [Output(Config.LED_PIN, LevelOf(states[|states| - 1]))]
  }

  /** A series of `set_led` calls writes the matching series of levels: HIGH exactly for `true`. */
  lemma {:induction false} LedLevelsFollowStates(states: seq<bool>)
    ensures |OutputLevels(Config.LED_PIN, LedCommands(states))| == |states|
    ensures forall k :: 0 <= k < |states| ==>
      (OutputLevels(Config.LED_PIN, LedCommands(states))[k] == High <==> states[k])
    decreases |states|
  {
    if states != [] {
      var init := states[..|states| - 1];
      LedLevelsFollowStates(init);
      var last := [Output(Config.LED_PIN, LevelOf(states[|states| - 1]))];
      OutputLevelsAppend(Config.LED_PIN, LedCommands(init), last);
      assert last[..0] == [];
      forall k | 0 <= k < |init| ensures init[k] == states[k] { }
    }
  }

  class GpioController {
    /** Every driver call made so far, in order. */
    var commands: seq<Command>
    /** The handler registered for the button, if any. */
    var buttonCallback: Option<CallbackRef>

    /** Sets the pin modes and starts the servo's PWM channel at duty 0. */
    constructor ()
      ensures commands == InitCommands()
      ensures buttonCallback == None
    {
      commands := InitCommands();
      buttonCallback := None;
    }

    /** Moves the servo to `angle`, holds it, then stops the signal. */
    method SetServoAngle(angle: real)
      modifies this
      ensures commands == old(commands) + ServoAngleCommands(angle)
      ensures buttonCallback == old(buttonCallback)
    {
      var dutyCycle := 2.0 + angle / 18.0;
      commands := commands + [ChangeDutyCycle(dutyCycle)];
      commands := commands + [Sleep(SETTLE_SECONDS)];
      commands := commands + [ChangeDutyCycle(0.0)];
    }

    /** Sweeps the servo through the angles 0..159, one degree per step. */
    method RotateServo()
      modifies this
      ensures commands == old(commands) + RotationCommands(ROTATION_STEPS)
      ensures buttonCallback == old(buttonCallback)
    {
      for angle := 0 to ROTATION_STEPS
        invariant commands == old(commands) + RotationCommands(angle)
        invariant buttonCallback == old(buttonCallback)
      {
        var duty := angle as real / 18.0 + 2.0;
        commands := commands + [ChangeDutyCycle(duty), Sleep(SWEEP_STEP_SECONDS)];
      }
    }

    /** Drives the LED pin HIGH for `true` and LOW for `false`. */
    method SetLed(on: bool)
      modifies this
      ensures commands == old(commands) + [Output(Config.LED_PIN, LevelOf(on))]
      ensures buttonCallback == old(buttonCallback)
    {
      commands := commands + [Output(Config.LED_PIN, if on then High else Low)];
    }

    /** Stores the handler and registers it for falling edges on the button pin, debounced. */
    method RegisterButtonCallback(callback: CallbackRef)
      modifies this
      ensures buttonCallback == Some(callback)
      ensures commands == old(commands) + [AddEventDetect(Config.BUTTON_PIN, Falling, callback, BOUNCE_TIME_MS)]
    {
      buttonCallback := Some(callback);
      commands := commands + [AddEventDetect(Config.BUTTON_PIN, Falling, callback, BOUNCE_TIME_MS)];
    }

    /** Stops the PWM channel, then releases the pins. */
    method Cleanup()
      modifies this
      ensures commands == old(commands) + [PwmStop, GpioCleanup]
      ensures buttonCallback == old(buttonCallback)
    {
      commands := commands + [PwmStop];
      commands := commands + [GpioCleanup];
    }
  }
}
