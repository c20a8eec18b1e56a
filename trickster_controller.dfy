/**
 * The scare sequencer of src/trickster_controller.py: a busy flag
 * (`callbackInProgress`) guarding a fixed sequence of effects that runs
 * under try/finally, plus the controller's start-up and shut-down order.
 *
 * The two worker threads are not modelled as threads: starting and joining
 * each is an event of the controller's effect trace. The random delay is a
 * nondeterministic choice within the configured range. A fault is an abrupt
 * exit at one step, given as a parameter; because the source has no
 * `except`, a fault always propagates to the caller after the `finally`
 * block has run.
 */
module Trickster {
  import opened Wrappers
  import Config
  import Audio
  import Gpio

  /** The steps of the try block, in program order. */
  datatype Step = LedOnStep | AudioStartStep | DelayStep | ServoStartStep | AudioJoinStep | ServoJoinStep

  datatype Effect =
    | BusySet(busy: bool)
    | LedSet(on: bool)
    | AudioWorkerStarted
    | Slept(seconds: real)
    | ServoWorkerStarted
    | AudioWorkerJoined
    | ServoWorkerJoined
    | AudioLoaded
    | ButtonCallbackRegistered
    | GpioCleanedUp
    | AudioCleanedUp

  /** A step of the try block that raises, with the error it raises. */
  datatype BodyFault = BodyFault(at: Step, error: string)

  /** The faults of one callback: at most one in the try block, and possibly one in the LED-off call of the finally block. */
  datatype Faults = Faults(body: Option<BodyFault>, ledOff: Option<string>)

  datatype Outcome = Ignored | Completed | Raised(error: string)

  /** What one callback does: its effects, the flag afterwards, and how it ends. */
  datatype Run = Run(effects: seq<Effect>, busyAfter: bool, outcome: Outcome)

  /** The handler registered for the button. */
  const BUTTON_CALLBACK: Gpio.CallbackRef := Gpio.CallbackRef("TricksterController.button_callback")

  function StepIndex(s: Step): nat {
    match s
    case LedOnStep => 0
    case AudioStartStep => 1
    case DelayStep => 2
    case ServoStartStep => 3
    case AudioJoinStep => 4
    case ServoJoinStep => 5
  }

  /** The effects of the try block when no step raises. */
  function BodyEffects(delay: real): seq<Effect> {
    [LedSet(true), AudioWorkerStarted, Slept(delay), ServoWorkerStarted, AudioWorkerJoined, ServoWorkerJoined]
  }

  /** The effects of the try block: those before the step that raises, if one does. */
  function BodyDone(delay: real, fault: Option<BodyFault>): seq<Effect> {
    match fault
    case None => BodyEffects(delay)
    case Some(f) => BodyEffects(delay)[..StepIndex(f.at)]
  }

  /** The try block's effects for each step that can raise. */
  lemma BodyDoneCases(delay: real, fault: Option<BodyFault>)
    ensures fault.None? ==> BodyDone(delay, fault) == BodyEffects(delay)
    ensures fault.Some? && fault.value.at == LedOnStep ==> BodyDone(delay, fault) == []
    ensures fault.Some? && fault.value.at == AudioStartStep ==> BodyDone(delay, fault) == [LedSet(true)]
    ensures fault.Some? && fault.value.at == DelayStep ==>
      BodyDone(delay, fault) == [LedSet(true), AudioWorkerStarted]
    ensures fault.Some? && fault.value.at == ServoStartStep ==>
      BodyDone(delay, fault) == [LedSet(true), AudioWorkerStarted, Slept(delay)]
    ensures fault.Some? && fault.value.at == AudioJoinStep ==>
      BodyDone(delay, fault) == [LedSet(true), AudioWorkerStarted, Slept(delay), ServoWorkerStarted]
    ensures fault.Some? && fault.value.at == ServoJoinStep ==>
      BodyDone(delay, fault) == [LedSet(true), AudioWorkerStarted, Slept(delay), ServoWorkerStarted, AudioWorkerJoined]
  {
  }

  /** One button callback, starting with the flag at `busy`. */
  function ButtonCallbackRun(busy: bool, delay: real, faults: Faults): Run {
    if busy then Run([], true, Ignored)
    else
      var done := [BusySet(true)] + BodyDone(delay, faults.body);
      match faults.ledOff
      case Some(e) => Run(done, true, Raised(e))
      case None =>
        Run(done + [LedSet(false), BusySet(false)], false,
            if faults.body.Some? then Raised(faults.body.value.error) else Completed)
  }

  /** The flag after a trace, starting from `busy`. */
  function FlagAfter(busy: bool, effects: seq<Effect>): bool {
    if effects == [] then busy else
      var last := effects[|effects| - 1];
      if last.BusySet? then last.busy else FlagAfter(busy, effects[..|effects| - 1])
  }

  /** The LED state after a trace, starting from `on`. */
  function LedAfter(on: bool, effects: seq<Effect>): bool {
    if effects == [] then on else
      var last := effects[|effects| - 1];
      if last.LedSet? then last.on else LedAfter(on, effects[..|effects| - 1])
  }

  /** The number of worker threads a trace starts. */
  function WorkersStarted(effects: seq<Effect>): nat {
    multiset(effects)[AudioWorkerStarted] + multiset(effects)[ServoWorkerStarted]
  }

  /** The number of worker threads a trace joins. */
  function WorkersJoined(effects: seq<Effect>): nat {
    multiset(effects)[AudioWorkerJoined] + multiset(effects)[ServoWorkerJoined]
  }

  lemma {:induction false} FlagAfterAppend(busy: bool, a: seq<Effect>, b: seq<Effect>)
    ensures FlagAfter(busy, a + b) == FlagAfter(FlagAfter(busy, a), b)
    decreases |b|
  {
    if b == [] {
      assert a + b == a;
    } else {
      assert (a + b)[..|a + b| - 1] == a + b[..|b| - 1];
      FlagAfterAppend(busy, a, b[..|b| - 1]);
    }
  }

  lemma {:induction false} LedAfterAppend(on: bool, a: seq<Effect>, b: seq<Effect>)
    ensures LedAfter(on, a + b) == LedAfter(LedAfter(on, a), b)
    decreases |b|
  {
    if b == [] {
      assert a + b == a;
    } else {
      assert (a + b)[..|a + b| - 1] == a + b[..|b| - 1];
      LedAfterAppend(on, a, b[..|b| - 1]);
    }
  }

  /** One more effect changes the flag only if it sets it. */
  lemma FlagAfterStep(busy: bool, effects: seq<Effect>, e: Effect)
    ensures FlagAfter(busy, effects + [e]) == if e.BusySet? then e.busy else FlagAfter(busy, effects)
  {
    assert (effects + [e])[..|effects + [e]| - 1] == effects;
  }

  /** A trace without flag changes leaves the flag as it was. */
  lemma {:induction false} FlagAfterNoBusySet(busy: bool, effects: seq<Effect>)
    requires forall i :: 0 <= i < |effects| ==> !effects[i].BusySet?
    ensures FlagAfter(busy, effects) == busy
    decreases |effects|
  {
    if effects != [] {
      FlagAfterNoBusySet(busy, effects[..|effects| - 1]);
    }
  }

  // ---------------------------------------------------------------------
  // Properties of one callback

  /** A callback while busy does nothing at all and leaves the flag set. */
  lemma BusyCallbackIgnored(delay: real, faults: Faults)
    ensures ButtonCallbackRun(true, delay, faults) == Run([], true, Ignored)
  {
  }

  /**
   * A callback from idle sets the flag before any other effect. Unless the
   * LED-off call itself raises, it ends by turning the LED off and then
   * clearing the flag, and a fault in the try block is passed on to the
   * caller rather than swallowed.
   */
  lemma IdleCallbackReleases(delay: real, faults: Faults)
    requires faults.ledOff.None?
    ensures var r := ButtonCallbackRun(false, delay, faults);
      |r.effects| >= 3 &&
      r.effects[0] == BusySet(true) &&
      r.effects[|r.effects| - 2..] == [LedSet(false), BusySet(false)] &&
      !r.busyAfter &&
      (r.outcome.Raised? <==> faults.body.Some?) &&
      (faults.body.Some? ==> r.outcome == Raised(faults.body.value.error)) &&
      (r.outcome == Completed <==> faults.body.None?)
  {
  }

  /** If the LED-off call of the finally block raises, the flag is never cleared. */
  lemma LedOffFaultLeavesBusy(delay: real, faults: Faults)
    requires faults.ledOff.Some?
    ensures var r := ButtonCallbackRun(false, delay, faults);
      r.busyAfter && r.outcome == Raised(faults.ledOff.value)
  {
  }

  /**
   * Between the flag being set and being cleared, the effects are a prefix
   * of the fixed order (LED on, audio start, delay, servo start, audio join,
   * servo join) followed by LED off.
   */
  lemma IdleCallbackOrder(delay: real, faults: Faults)
    requires faults.ledOff.None?
    ensures var r := ButtonCallbackRun(false, delay, faults);
      var middle := r.effects[1..|r.effects| - 2];
      |middle| <= 6 && middle == BodyEffects(delay)[..|middle|] &&
      (faults.body.None? ==> middle == BodyEffects(delay))
  {
    var r := ButtonCallbackRun(false, delay, faults);
    var done := BodyDone(delay, faults.body);
    assert r.effects == [BusySet(true)] + done + [LedSet(false), BusySet(false)];
    assert r.effects[1..|r.effects| - 2] == done;
  }

  /** A run that completes starts exactly two workers, and sleeps for its delay. */
  lemma CompletedRunStartsTwoWorkers(delay: real)
    ensures var r := ButtonCallbackRun(false, delay, Faults(None, None));
      WorkersStarted(r.effects) == 2 && Slept(delay) in r.effects
  {
    var e := ButtonCallbackRun(false, delay, Faults(None, None)).effects;
    assert e[3] == Slept(delay);
  }

  /**
   * The flag the trace shows always agrees with the flag the run leaves, and
   * from the first effect of a run from idle to its last one, the flag stays
   * set: no press can start a second run before this one has released the
   * flag. (That is about the callback itself; a worker it started may still
   * be running after the release, see `FaultLeavesWorkerRunning`.)
   */
  lemma {:induction false} FlagFollowsTrace(busy: bool, delay: real, faults: Faults)
    ensures var r := ButtonCallbackRun(busy, delay, faults);
      FlagAfter(busy, r.effects) == r.busyAfter &&
      (!busy ==> forall k :: 1 <= k < |r.effects| ==> FlagAfter(busy, r.effects[..k]))
  {
    var r := ButtonCallbackRun(busy, delay, faults);
    if !busy {
      var done := BodyDone(delay, faults.body);
      var head := [BusySet(true)] + done;
      assert done == BodyEffects(delay)[..|done|];
      assert forall i :: 0 <= i < |done| ==> !done[i].BusySet?;
      FlagAfterAppend(busy, [BusySet(true)], done);
      FlagAfterNoBusySet(true, done);
      assert FlagAfter(busy, [BusySet(true)]) by {
        assert [BusySet(true)][..0] == [];
      }
      forall k | 1 <= k < |r.effects| ensures FlagAfter(busy, r.effects[..k]) {
        if k <= |head| {
          assert r.effects[..k] == [BusySet(true)] + done[..k - 1];
          FlagAfterAppend(busy, [BusySet(true)], done[..k - 1]);
          FlagAfterNoBusySet(true, done[..k - 1]);
        } else {
          assert faults.ledOff.None? && k == |head| + 1;
          assert r.effects[..k] == head + [LedSet(false)];
          FlagAfterAppend(busy, head, [LedSet(false)]);
          assert [LedSet(false)][..0] == [];
        }
      }
      if faults.ledOff.None? {
        FlagAfterAppend(busy, head, [LedSet(false), BusySet(false)]);
      }
    }
  }

  /**
   * A run from idle whose LED-off call does not raise clears the flag while
   * a worker it started is still unjoined exactly when a step from the delay
   * on raises: the try block is left after a worker was started and before
   * it was joined. A later press is then accepted and starts a second
   * sequence beside the running worker.
   */
  lemma FaultLeavesWorkerRunning(delay: real, faults: Faults)
    requires faults.ledOff.None?
    ensures var r := ButtonCallbackRun(false, delay, faults);
      !r.busyAfter &&
      (WorkersJoined(r.effects) < WorkersStarted(r.effects) <==>
         faults.body.Some? && StepIndex(faults.body.value.at) >= 2) &&
      (!ButtonCallbackRun(r.busyAfter, delay, faults).outcome.Ignored?)
  {
    var done := BodyDone(delay, faults.body);
    assert ButtonCallbackRun(false, delay, faults).effects == [BusySet(true)] + done + [LedSet(false), BusySet(false)];
    WorkerCountsOfBody(delay, faults.body);
    WorkerCountsOfRelease(done);
  }

  /** Setting and clearing the flag and the LED start and join no worker. */
  lemma WorkerCountsOfRelease(done: seq<Effect>)
    ensures var e := [BusySet(true)] + done + [LedSet(false), BusySet(false)];
      WorkersStarted(e) == WorkersStarted(done) && WorkersJoined(e) == WorkersJoined(done)
  {
    var e := [BusySet(true)] + done + [LedSet(false), BusySet(false)];
    assert multiset(e) == multiset([BusySet(true)]) + multiset(done) + multiset([LedSet(false), BusySet(false)]);
  }

  /** Workers started and joined by the try block, by the step that raises. */
  lemma WorkerCountsOfBody(delay: real, fault: Option<BodyFault>)
    ensures WorkersJoined(BodyDone(delay, fault)) < WorkersStarted(BodyDone(delay, fault))
        <==> fault.Some? && StepIndex(fault.value.at) >= 2
  {
    BodyDoneCases(delay, fault);
    if fault.None? {
      assert multiset(BodyDone(delay, fault))
          == multiset{LedSet(true), AudioWorkerStarted, Slept(delay), ServoWorkerStarted,
                      AudioWorkerJoined, ServoWorkerJoined};
    } else {
      match fault.value.at
      case LedOnStep =>
      case AudioStartStep =>
        assert multiset(BodyDone(delay, fault)) == multiset{LedSet(true)};
      case DelayStep =>
        assert multiset(BodyDone(delay, fault)) == multiset{LedSet(true), AudioWorkerStarted};
      case ServoStartStep =>
        assert multiset(BodyDone(delay, fault)) == multiset{LedSet(true), AudioWorkerStarted, Slept(delay)};
      case AudioJoinStep =>
        assert multiset(BodyDone(delay, fault))
            == multiset{LedSet(true), AudioWorkerStarted, Slept(delay), ServoWorkerStarted};
      case ServoJoinStep =>
        assert multiset(BodyDone(delay, fault))
            == multiset{LedSet(true), AudioWorkerStarted, Slept(delay), ServoWorkerStarted, AudioWorkerJoined};
    }
  }

  /** A run appended to a trace that shows flag `busy` leaves the trace showing the flag the run leaves. */
  lemma FlagAfterRun(prefix: seq<Effect>, busy: bool, delay: real, faults: Faults)
    requires FlagAfter(false, prefix) == busy
    ensures var r := ButtonCallbackRun(busy, delay, faults);
      FlagAfter(false, prefix + r.effects) == r.busyAfter
  {
    var r := ButtonCallbackRun(busy, delay, faults);
    FlagAfterAppend(false, prefix, r.effects);
    FlagFollowsTrace(busy, delay, faults);
  }

  // ---------------------------------------------------------------------
  // Several callbacks, one after another

  /** One button press as the environment delivers it: the delay the run would draw and its faults. */
  datatype Press = Press(delay: real, faults: Faults)

  /** The effects, final flag and outcomes of several callbacks run one after the other. */
  datatype Session = Session(effects: seq<Effect>, busyAfter: bool, outcomes: seq<Outcome>)

  function RunPresses(busy: bool, presses: seq<Press>): (s: Session)
    ensures |s.outcomes| == |presses|
    decreases |presses|
  {
    if presses == [] then Session([], busy, [])
    else
      var r := ButtonCallbackRun(busy, presses[0].delay, presses[0].faults);
      var rest := RunPresses(r.busyAfter, presses[1..]);
      Session(r.effects + rest.effects, rest.busyAfter, [r.outcome] + rest.outcomes)
  }

  predicate NoLedOffFault(presses: seq<Press>) {
    forall i :: 0 <= i < |presses| ==> presses[i].faults.ledOff.None?
  }

  /** While the flag is set, every press is ignored and nothing happens. */
  lemma {:induction false} PressesWhileBusyIgnored(presses: seq<Press>)
    ensures var s := RunPresses(true, presses);
      s.effects == [] && s.busyAfter && forall i :: 0 <= i < |s.outcomes| ==> s.outcomes[i] == Ignored
    decreases |presses|
  {
    if presses != [] {
      PressesWhileBusyIgnored(presses[1..]);
    }
  }

  /**
   * Presses handled one after another from idle, none of whose LED-off calls
   * raise, are never ignored, and leave the flag clear and the LED off.
   */
  lemma {:induction false} SequentialPressesFromIdle(presses: seq<Press>)
    requires NoLedOffFault(presses)
    ensures var s := RunPresses(false, presses);
      !s.busyAfter &&
      (forall i :: 0 <= i < |s.outcomes| ==> s.outcomes[i] != Ignored) &&
      !LedAfter(false, s.effects)
    decreases |presses|
  {
    if presses != [] {
      var p := presses[0];
      var r := ButtonCallbackRun(false, p.delay, p.faults);
      assert NoLedOffFault(presses[1..]) by {
        forall i | 0 <= i < |presses[1..]| ensures presses[1..][i].faults.ledOff.None? {
          assert presses[1..][i] == presses[i + 1];
        }
      }
      SequentialPressesFromIdle(presses[1..]);
      var rest := RunPresses(false, presses[1..]);
      IdleCallbackReleases(p.delay, p.faults);
      LedAfterAppend(false, r.effects, rest.effects);
      assert !LedAfter(false, r.effects) by {
        var head := r.effects[..|r.effects| - 1];
        assert r.effects[|r.effects| - 1] == BusySet(false);
        assert head[|head| - 1] == LedSet(false);
      }
      LedAfterFixed(LedAfter(false, r.effects), rest.effects);
    }
  }

  /** The LED state after a trace that sets it depends only on the trace. */
  lemma {:induction false} LedAfterFixed(on: bool, effects: seq<Effect>)
    requires !LedAfter(false, effects)
    ensures !LedAfter(on, effects) || (forall i :: 0 <= i < |effects| ==> !effects[i].LedSet?)
    decreases |effects|
  {
    if effects != [] && !effects[|effects| - 1].LedSet? {
      LedAfterFixed(on, effects[..|effects| - 1]);
      var init := effects[..|effects| - 1];
      if LedAfter(on, effects) {
        forall i | 0 <= i < |effects| ensures !effects[i].LedSet? {
          if i < |init| {
            assert effects[i] == init[i];
          }
        }
      }
    }
  }

  /** Once an LED-off call raises, the controller stays busy and ignores every later press. */
  lemma LedOffFaultBlocksLaterPresses(p: Press, later: seq<Press>)
    requires p.faults.ledOff.Some?
    ensures var s := RunPresses(false, [p] + later);
      s.busyAfter && forall i :: 1 <= i < |s.outcomes| ==> s.outcomes[i] == Ignored
  {
    assert ([p] + later)[0] == p;
    assert ([p] + later)[1..] == later;
    PressesWhileBusyIgnored(later);
  }

  // ---------------------------------------------------------------------
  // The controller object

  class TricksterController {
    var callbackInProgress: bool
    /** The effects issued so far, in order. */
    ghost var trace: seq<Effect>
    const audio: Audio.AudioManager
    const gpio: Gpio.GpioController

    /** The busy flag is the flag the effects issued so far leave, starting from idle. */
    ghost predicate Valid()
      reads this
    {
      callbackInProgress == FlagAfter(false, trace)
    }

    /** A new controller is idle. */
    constructor (audio: Audio.AudioManager, gpio: Gpio.GpioController)
      ensures Valid()
      ensures !IsBusy() && trace == []
      ensures this.audio == audio && this.gpio == gpio
    {
      this.audio := audio;
      this.gpio := gpio;
      callbackInProgress := false;
      trace := [];
    }

    /** Whether a callback is in progress; it reads the flag and changes nothing. */
    function IsBusy(): (busy: bool)
      reads this
      ensures busy <==> callbackInProgress
    {
      callbackInProgress
    }

    /**
     * Handles one button press (`channel` is unused, as in the source). The
     * ghost result is the delay drawn for the servo.
     */
    method ButtonCallback(channel: Option<nat>, faults: Faults) returns (outcome: Outcome, ghost delay: real)
      requires Valid()
      modifies this
      ensures Valid()
      ensures !old(callbackInProgress) ==> Config.InDelayRange(delay)
      ensures var r := ButtonCallbackRun(old(callbackInProgress), delay, faults);
        trace == old(trace) + r.effects && IsBusy() == r.busyAfter && outcome == r.outcome
    {
      delay := Config.MIN_DELAY as real;
      if callbackInProgress {
        return Ignored, delay;
      }
      callbackInProgress := true;
      trace := trace + [BusySet(true)];
      FlagAfterStep(false, old(trace), BusySet(true));
      delay := TryBlock(faults.body);
      FlagAfterRun(old(trace), false, delay, faults);
      // the finally block
      if faults.ledOff.Some? {
        assert trace == old(trace) + ButtonCallbackRun(false, delay, faults).effects;
        return Raised(faults.ledOff.value), delay;
      }
      trace := trace + [LedSet(false)];
      callbackInProgress := false;
      trace := trace + [BusySet(false)];
      outcome := if faults.body.Some? then Raised(faults.body.value.error) else Completed;
    }

    /**
     * The try block of the callback: the steps up to the one that raises, if
     * one does. The ghost result is the delay drawn for the servo.
     */
    method TryBlock(fault: Option<BodyFault>) returns (ghost delay: real)
      requires Valid() && callbackInProgress
      modifies this`trace
      ensures Config.InDelayRange(delay)
      ensures trace == old(trace) + BodyDone(delay, fault)
    {
      delay := Config.MIN_DELAY as real;
      BodyDoneCases(delay, fault);
      if fault.Some? && fault.value.at == LedOnStep { return; }
      trace := trace + [LedSet(true)];
      if fault.Some? && fault.value.at == AudioStartStep { return; }
      trace := trace + [AudioWorkerStarted];
      assert Config.InDelayRange(Config.MIN_DELAY as real);
      var d: real :| Config.InDelayRange(d);
      delay := d;
      BodyDoneCases(d, fault);
      if fault.Some? && fault.value.at == DelayStep { return; }
      trace := trace + [Slept(d)];
      if fault.Some? && fault.value.at == ServoStartStep { return; }
      trace := trace + [ServoWorkerStarted];
      if fault.Some? && fault.value.at == AudioJoinStep { return; }
      trace := trace + [AudioWorkerJoined];
      if fault.Some? && fault.value.at == ServoJoinStep { return; }
      trace := trace + [ServoWorkerJoined];
    }

    /** Loads the sound library, then registers the button handler. */
    method Initialize(dir: Audio.Folder, decode: string -> Audio.DecodeOutcome)
      modifies this, audio, gpio
      ensures audio.Valid() && audio.Contents() == Audio.Load(dir, decode)
      ensures audio.mixerInitialized == old(audio.mixerInitialized)
      ensures gpio.buttonCallback == Some(BUTTON_CALLBACK)
      ensures gpio.commands == old(gpio.commands)
        + [Gpio.AddEventDetect(Config.BUTTON_PIN, Gpio.Falling, BUTTON_CALLBACK, Gpio.BOUNCE_TIME_MS)]
      requires Valid()
      ensures Valid()
      ensures trace == old(trace) + [AudioLoaded, ButtonCallbackRegistered]
      ensures callbackInProgress == old(callbackInProgress)
    {
      audio.LoadAudioFiles(dir, decode);
      FlagAfterStep(false, trace, AudioLoaded);
      trace := trace + [AudioLoaded];
      gpio.RegisterButtonCallback(BUTTON_CALLBACK);
      FlagAfterStep(false, trace, ButtonCallbackRegistered);
      trace := trace + [ButtonCallbackRegistered];
    }

    /** Releases the GPIO first, then shuts the audio mixer down. */
    method Cleanup()
      modifies this, audio, gpio
      ensures gpio.commands == old(gpio.commands) + [Gpio.PwmStop, Gpio.GpioCleanup]
      ensures gpio.buttonCallback == old(gpio.buttonCallback)
      ensures !audio.mixerInitialized
      ensures audio.preloadedSounds == old(audio.preloadedSounds)
      ensures audio.audioFilenames == old(audio.audioFilenames)
      requires Valid()
      ensures Valid()
      ensures trace == old(trace) + [GpioCleanedUp, AudioCleanedUp]
      ensures callbackInProgress == old(callbackInProgress)
    {
      gpio.Cleanup();
      FlagAfterStep(false, trace, GpioCleanedUp);
      trace := trace + [GpioCleanedUp];
      audio.Cleanup();
      FlagAfterStep(false, trace, AudioCleanedUp);
      trace := trace + [AudioCleanedUp];
    }
  }
}
