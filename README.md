# Trickster Pi, modelled in Dafny

Trickster Pi is a Raspberry Pi Halloween prop. A push button (or an HTTP
`/trigger` request) starts a scare sequence:

1. A busy flag is set so that further presses are ignored.
2. A status LED goes on.
3. An audio worker plays random sounds for at least a minute.
4. After a random delay of 10 to 20 seconds, a servo sweeps from 0 to 159 degrees.
5. Both workers are joined.
6. The LED goes off and the flag is cleared.

A small HTTP API plays a sound, reports status, lists and reloads the sound library, and triggers the sequence.

This project models the sequential logic of that program and proves its rules. It has one Dafny module per core source file:

| file | module | models |
|---|---|---|
| `wrappers.dfy` | `Wrappers` | the `Option` type |
| `config.dfy` | `Config` | the configuration constants and the bounds they satisfy (`src/config.py`) |
| `audio_manager.dfy` | `Audio` | the sound library `AudioManager` (`src/audio_manager.py`) |
| `gpio_controller.dfy` | `Gpio` | servo, LED and button commands of `GPIOController` (`src/gpio_controller.py`) |
| `trickster_controller.dfy` | `Trickster` | the busy-flag sequencer `TricksterController` (`src/trickster_controller.py`) |
| `api_routes.dfy` | `Api` | the five HTTP handlers (`src/api_routes.py`) |

How the environment is represented:

- **Audio folder.** It is a `Folder` value: missing, unreadable, or a listing of entry names.
- **Decoding.** It is an oracle from a path to a `DecodeOutcome`, and there are three outcomes:
  - the sound decodes;
  - the audio engine's own error occurs, and that one file is skipped;
  - any other exception occurs, which the outer handler of the load catches, so the scan stops and keeps what it has.
- **Load specification.** The load is specified by the function `Audio.Load`. The method `AudioManager.LoadAudioFiles` is a loop over the listing proved to compute it.
- **Random choices.** Each random choice is a nondeterministic `:|` choice within the source's bounds.
- **Time.** Time is an abstract elapsed clock, advanced by waits and pauses.
- **GPIO and PWM.** Every driver call (and every `sleep` between them) is appended to the `GpioController.commands` log. Duty cycles are exact `real` values.
- **Button callback.** It is a class method with a busy-flag field and a ghost effect trace, proved against the function `Trickster.ButtonCallbackRun`. The two worker threads appear as start and join events in that trace.
- **Faults.** A fault is given as a parameter:
  - at most one step of the `try` block raises;
  - independently, the LED-off call of the `finally` block may raise.
- **HTTP replies.** Each handler's reply is a datatype with the fields of the JSON object it returns.

The source has no `except` in `button_callback` (`src/trickster_controller.py:33-62`). So a fault in the `try` block is passed on to the caller after the `finally` block has run. The project's own test of this case (`tests/test_trickster_controller.py:89-94`) expects the call not to raise. The model follows the code: the run's outcome is `Raised(error)`.

Two consequences of the code are proved rather than assumed away:

- If the LED-off call in the `finally` block raises, the flag is never cleared, and every later press is ignored (`Trickster.LedOffFaultLeavesBusy`, `Trickster.LedOffFaultBlocksLaterPresses`).
- If a step from the delay on raises, the `finally` block clears the flag while a worker it started was never joined. The next press is then accepted and starts a second sequence beside the still running worker (`Trickster.FaultLeavesWorkerRunning`). The flag therefore guards the callback, not the workers.

## Model

| member | source | states |
|---|---|---|
| `Config.PinsDistinct` | src/config.py:6-8 | the button, servo and LED pins are pairwise distinct |
| `Config.PinsInRange` | src/config.py:6-8 | every pin is a header GPIO line in 0..27 |
| `Config.DelayRangeOrdered` | src/config.py:15-16 | 0 < MIN_DELAY < MAX_DELAY |
| `Config.PauseRangeOrdered` | src/config.py:17-18 | 0 < MIN_PAUSE_BETWEEN_SOUNDS < MAX_PAUSE_BETWEEN_SOUNDS |
| `Config.TargetDurationPositive` | src/config.py:12 | the target audio duration is positive |
| `Config.PortAndFrequencyInRange` | src/config.py:22-26 | the API port is in 1024..65535 and the PWM frequency in 20..100 Hz |
| `Audio.Preload` | src/audio_manager.py:36-57 | the scan always yields as many sounds as file names |
| `Audio.PreloadPaired` | src/audio_manager.py:38-45 | every kept name has a `.wav`/`.mp3` extension (case-insensitive), and the sound at the same index is what decoding that name's joined path gave |
| `Audio.PreloadSelects` | src/audio_manager.py:37-50 | when no file raises an unexpected error, the kept names are exactly the listing filtered to the entries with an audio extension that decode, in listing order and as often as listed (`KeptNames`). So a name is kept if and only if it is such an entry, and the kept names are a subsequence of the listing |
| `Audio.PreloadConcat` | src/audio_manager.py:37-50 | the scan of a listing `a + b` keeps what `a` keeps followed by what `b` keeps, provided no entry of `a` raises an unexpected error |
| `Audio.PreloadInsertKept` | src/audio_manager.py:37-50 | a playable file inserted anywhere into a listing without unexpected errors is kept at that place, and the load gains exactly one name |
| `Audio.PreloadStopsAtUnexpected` | src/audio_manager.py:36-57 | an unexpected error at an entry ends the load: the library is what came before that entry, and nothing after it is kept |
| `Audio.LoadMixedCaseExample` | src/audio_manager.py:37-45 | `sound1.wav`, `sound2.mp3`, `sound3.WAV`, `ignore.txt` with all files decoding load as the first three names |
| `Audio.LoadDecodeFailureExample` | src/audio_manager.py:41-50 | a `bad.mp3` that fails to decode is dropped and `good.wav` is kept with its sound |
| `Audio.AudioManager.constructor` | src/audio_manager.py:18-25 | a new manager has its mixer initialised and both lists empty |
| `Audio.AudioManager.LoadAudioFiles` | src/audio_manager.py:27-57 | the new lists are exactly `Load(dir, decode)`. They do not depend on the previous contents, so a reload replaces rather than appends, and two loads of the same folder give the same state. A missing or unreadable folder leaves both lists empty. The lists stay the same length, and the mixer is untouched |
| `Audio.AudioManager.PlayRandomSound` | src/audio_manager.py:97-123 | an empty library gives failure with "No audio files available to play." and plays nothing. A playback error gives failure with "Error playing audio: " and the error text. Otherwise some index in range is played, and its file name, "Playing " and the name, and the total count are returned. The lists are not changed |
| `Audio.AudioManager.PlayAudioSequence` | src/audio_manager.py:59-95 | an empty library chooses and plays nothing. Every chosen index is in range, and the recorded name and the started sound are those at the index. A non-empty library records at least one name. A sequence that is not cut short by an error starts as many sounds as it records names (so at least one), and ends only once the elapsed time reaches the target duration. A sequence cut short by an error started either every recorded sound or all but the last, depending on whether starting that sound raised. Every round starts before the target duration: the first at time 0, and each later one at least the minimum pause after the one before. The number of rounds is bounded through the minimum pause |
| `Audio.AudioManager.GetAudioInfo` | src/audio_manager.py:125-131 | the snapshot holds the count of sounds, the file names (equal to the list) and the audio folder, and reads without changing anything |
| `Audio.AudioManager.Cleanup` | src/audio_manager.py:133-135 | the mixer is shut down, and the library lists are unchanged |
| `Gpio.Duty` | src/gpio_controller.py:36 | the duty cycle `d` satisfies `(d - 2) * 18 == angle`, and lies in [2, 12] for angles in [0, 180] |
| `Gpio.DutyRoundTrip` | src/gpio_controller.py:36 | the duty map is invertible: every duty cycle comes from exactly one angle, through the inverse `AngleOf` |
| `Gpio.DutyCalibration` | src/gpio_controller.py:36 | 0, 90 and 180 degrees give duty 2, 7 and 12 |
| `Gpio.DutyStrictlyIncreasing` | src/gpio_controller.py:36 | a larger angle gives a larger duty cycle |
| `Gpio.LevelOf` | src/gpio_controller.py:49-51 | the LED level is HIGH exactly when the requested state is on |
| `Gpio.ServoAngleDuties` | src/gpio_controller.py:34-39 | `set_servo_angle` sends exactly two duty cycles: the angle's duty, then 0 |
| `Gpio.RotationCommandsShape` | src/gpio_controller.py:41-47 | the sweep's commands alternate the duty for each angle k and a 10 ms sleep, 2n commands for n steps |
| `Gpio.RotationDuties` | src/gpio_controller.py:41-47 | the sweep's duty cycles are exactly Duty(0), ..., Duty(n - 1) in that order |
| `Gpio.RotationSweep` | src/gpio_controller.py:41-47 | the full sweep sends 160 duty cycles. They start at 2, are strictly increasing and are never 0. The last command is a sleep, so no trailing zero duty is sent |
| `Gpio.LedLevelsFollowStates` | src/gpio_controller.py:49-51 | a series of `set_led` calls writes one level per call to the LED pin, HIGH exactly for the calls with `true` |
| `Gpio.GpioController.constructor` | src/gpio_controller.py:19-32 | BCM mode is set, the button is an input with pull-up, and servo and LED are outputs. The servo PWM channel is created at 50 Hz and started at duty 0. No button callback is registered |
| `Gpio.GpioController.SetServoAngle` | src/gpio_controller.py:34-39 | appends the angle's duty, a 0.5 s sleep and duty 0 to the command log |
| `Gpio.GpioController.RotateServo` | src/gpio_controller.py:41-47 | appends the 160-step sweep to the command log, and keeps the registered callback |
| `Gpio.GpioController.SetLed` | src/gpio_controller.py:49-51 | appends one output command on the LED pin with the requested level |
| `Gpio.GpioController.RegisterButtonCallback` | src/gpio_controller.py:53-59 | stores the callback and registers it for falling edges on the button pin with a 300 ms debounce |
| `Gpio.GpioController.Cleanup` | src/gpio_controller.py:78-81 | stops the PWM channel, then releases the GPIO |
| `Trickster.BusyCallbackIgnored` | src/trickster_controller.py:26-28 | a callback while busy has no effect at all (no LED change, no worker), and the flag stays set |
| `Trickster.IdleCallbackReleases` | src/trickster_controller.py:23-62 | a callback from idle sets the flag before any other effect. Unless the LED-off call raises, it ends with LED off and then flag cleared. A fault in the try block is passed on to the caller with its own error, and a run without one completes |
| `Trickster.LedOffFaultLeavesBusy` | src/trickster_controller.py:59-62 | if the LED-off call of the finally block raises, the flag is never cleared and that error is passed on |
| `Trickster.IdleCallbackOrder` | src/trickster_controller.py:33-62 | between setting and clearing the flag, the effects are a prefix of LED on, audio start, delay, servo start, audio join, servo join, and the whole order when no step raises |
| `Trickster.CompletedRunStartsTwoWorkers` | src/trickster_controller.py:38-55 | a run without faults starts exactly two workers and sleeps for its delay |
| `Trickster.FlagFollowsTrace` | src/trickster_controller.py:23-62 | the flag the effect trace shows agrees with the flag the run leaves, and after a run's first effect the flag stays set until its last one |
| `Trickster.FaultLeavesWorkerRunning` | src/trickster_controller.py:33-62 | in a run from idle whose LED-off call does not raise, the flag is cleared with a started worker never joined exactly when a step from the delay on raises, and a press after it is accepted |
| `Trickster.PressesWhileBusyIgnored` | src/trickster_controller.py:26-28 | any number of presses while busy are all ignored, with no effects, and the flag stays set |
| `Trickster.SequentialPressesFromIdle` | src/trickster_controller.py:23-62 | presses handled one after another are never ignored when no LED-off call raises, and they leave the flag clear and the LED off |
| `Trickster.LedOffFaultBlocksLaterPresses` | src/trickster_controller.py:23-62 | once an LED-off call raises, every later press is ignored and the controller stays busy |
| `Trickster.TricksterController.constructor` | src/trickster_controller.py:20-21 | a new controller is not busy and has issued no effects, so its flag agrees with its (empty) trace (`Valid`) |
| `Trickster.TricksterController.IsBusy` | src/trickster_controller.py:64-66 | reports the busy flag and changes nothing. After a callback it reports the flag the run left (`ButtonCallback`), and a new controller reports idle |
| `Trickster.TricksterController.ButtonCallback` | src/trickster_controller.py:23-62 | the flag, the trace and the outcome are those of `ButtonCallbackRun` for the flag before the call, and a run from idle draws its delay in [MIN_DELAY, MAX_DELAY]. It keeps the real flag equal to the flag its trace leaves, starting from idle (`Valid`), so the `if` at line 26 tests the flag the earlier runs left |
| `Trickster.TricksterController.TryBlock` | src/trickster_controller.py:33-55 | runs only once the flag is set and agrees with the trace. The try block issues its steps in order up to the one that raises, and the drawn delay is in [MIN_DELAY, MAX_DELAY] |
| `Trickster.TricksterController.Initialize` | src/trickster_controller.py:68-74 | loads the audio folder, then registers the button callback on the falling edge. The flag is unchanged and still agrees with the trace |
| `Trickster.TricksterController.Cleanup` | src/trickster_controller.py:80-83 | cleans up the GPIO first and then the audio, and leaves the library lists and the flag unchanged. The flag still agrees with the trace |
| `Api.ApiPlaySound` | src/api_routes.py:16-20 | the reply is the library's random-playback reply, with its empty-library, error and success cases |
| `Api.ApiStatus` | src/api_routes.py:23-34 | the status is always "running". The busy flag is the controller's, and the count and folder are the library's. Sounds count as loaded exactly when the library has a file name |
| `Api.ApiListSounds` | src/api_routes.py:37-45 | the reply lists the library's file names and their number |
| `Api.StatusAfterLoad` | src/api_routes.py:23-34 | after a load without unexpected errors, the status reports sounds loaded exactly when some listing entry is an audio file that decodes |
| `Api.StatusOfEmptyLibrary` | src/api_routes.py:23-34 | after a load of a missing folder, the status reports no sounds and a count of 0 |
| `Api.TriggerFor` | src/api_routes.py:48-68 | when busy: failure with "Action already in progress, ignoring trigger", and no task is started. When idle: success, the triggered message, the delay range "10-20 seconds", and exactly one background callback with no channel |
| `Api.ApiTriggerDelayed` | src/api_routes.py:48-68 | the trigger is rejected with nothing started exactly while the controller is busy, and otherwise starts one task. For a controller whose flag agrees with its trace, the trigger is accepted exactly when the effects so far leave the controller idle |
| `Api.TriggerDuringRunRejected` | src/api_routes.py:51-55 | a trigger that arrives while an accepted callback is running (after its first effect, before its last) is rejected and starts nothing |
| `Api.DelayRangeMatchesConfig` | src/api_routes.py:64-68 | the announced delay range is MIN_DELAY and MAX_DELAY written in decimal, joined by "-", then " seconds" |
| `Api.ReloadReportsLoad` | src/api_routes.py:74-94 | a reload reports success with the count before the load and the count after it. The change is their difference, and the loaded files are the new file names |
| `Api.ReloadTwoNewFiles` | src/api_routes.py:74-94 | two playable files that appear anywhere in a listing without unexpected errors make the reload report a change of 2, and both are among the loaded files |
| `Api.ApiReloadSounds` | src/api_routes.py:71-102 | reads the snapshot before the load, loads once, and reads the snapshot again. The library is the newly loaded one in every case. The reply is built from the two snapshots. When an exception reaches the handler, the reply is failure with "Error reloading audio files: " and the error text. The mixer is untouched |

## Left out

- Threads and interleaving. The audio and servo workers, the `/trigger` thread and the button's event thread appear only as events in a sequential trace. The flag's check and set in `button_callback` are not atomic, and no mutual exclusion under concurrency is claimed.
- `start_monitoring` in both controllers (`src/gpio_controller.py:61-76`, `src/trickster_controller.py:76-78`). It is an endless sleep loop on a daemon thread.
- `src/main.py`, `src/trickster.py`, `src/__init__.py` and `run_tests.py` are not part of this model. They hold process start-up and shutdown, a superseded stand-alone script, package metadata, and the test runner.
- Flask routing, JSON encoding and the answer to non-GET methods. These belong to the web framework.
- The audio engine and the GPIO driver themselves. Decoding is an oracle, and playing a sound is an element of a returned sequence. The driver calls are entries of a command log, with no electrical behaviour.
- Random distributions. A random index, delay or pause is any value in its range, with no uniformity.
- Wall-clock time. In `Audio.AudioManager.PlayAudioSequence` the polling of the mixer until it is idle is one wait of any non-negative length. The clock advances only by these waits and the pauses.
- Python floating point. Duty cycles and times are exact reals.
- Logging and console output.
- `Audio.Lower`: lowercases ASCII letters only. No Unicode case mapping is done, which does not change the outcome of the `.wav`/`.mp3` suffix test for ASCII names.
- `Audio.AudioManager.PlayAudioSequence`: an exception inside the sequence is one nondeterministic fault per round (`completed` is false). Its error text is not modelled, because the source only prints it.
- `Api.ApiReloadSounds`: the exception the handler catches is raised after the load has run. The load empties both lists first (`src/audio_manager.py:29-30`) and handles its own failures. So what can still raise is its console output (`src/audio_manager.py:33`, `:57`) or the building of the reply (`src/api_routes.py:83-94`), and in both cases the library already holds the new load. Which of these raised is not modelled.
- `Trickster.TricksterController.ButtonCallback`: the `channel` argument is ignored, as in the source.
- `Trickster.TricksterController.Initialize` and `Trickster.TricksterController.Cleanup`: the order of the two calls (load before registration, GPIO before audio) is recorded only in the controller's trace, next to each call. Neither object keeps a log the other can see, so the order of the calls themselves is not checked against the objects' state.
- The controller's effects on the audio and GPIO objects during a button run are modelled only as trace events. The effects of the workers, the sequence and the sweep are proved separately, on `Audio.AudioManager.PlayAudioSequence` and `Gpio.GpioController.RotateServo`.
