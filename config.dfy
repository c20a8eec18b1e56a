/**
 * The configuration constants of src/config.py, and the bounds that the
 * project's configuration tests require of them.
 */
module Config {

  // GPIO pin numbers (BCM numbering)
  const BUTTON_PIN: nat := 17
  const SERVO_PIN: nat := 12
  const LED_PIN: nat := 16

  // Audio configuration
  const AUDIO_FOLDER: string := "/mnt/samba/"
  /** Minimum length of one audio sequence, in seconds. */
  const TARGET_AUDIO_DURATION: int := 60

  // Timing configuration, in seconds
  const MIN_DELAY: int := 10
  const MAX_DELAY: int := 20
  const MIN_PAUSE_BETWEEN_SOUNDS: real := 0.5
  const MAX_PAUSE_BETWEEN_SOUNDS: real := 2.0

  /** A pause length the audio sequence may draw. */
  predicate InPauseRange(pause: real) {
    MIN_PAUSE_BETWEEN_SOUNDS <= pause <= MAX_PAUSE_BETWEEN_SOUNDS
  }

  /** A servo delay the controller may draw. */
  predicate InDelayRange(delay: real) {
    MIN_DELAY as real <= delay <= MAX_DELAY as real
  }

  // HTTP configuration
  const API_HOST: string := "0.0.0.0"
  const API_PORT: int := 5000
  const API_DEBUG: bool := false

  /** PWM frequency of the servo channel, in Hz. */
  const SERVO_PWM_FREQUENCY: int := 50

  /** The three pins are pairwise distinct. */
  lemma PinsDistinct()
    ensures BUTTON_PIN != SERVO_PIN && BUTTON_PIN != LED_PIN && SERVO_PIN != LED_PIN
  {
  }

  /** Every pin is a GPIO line of the Raspberry Pi header (0..27). */
  lemma PinsInRange()
    ensures BUTTON_PIN <= 27 && SERVO_PIN <= 27 && LED_PIN <= 27
  {
  }

  /** The servo delay range is a non-empty interval of positive durations. */
  lemma DelayRangeOrdered()
    ensures 0 < MIN_DELAY < MAX_DELAY
  {
  }

  /** The pause between sounds is a non-empty interval of positive durations. */
  lemma PauseRangeOrdered()
    ensures 0.0 < MIN_PAUSE_BETWEEN_SOUNDS < MAX_PAUSE_BETWEEN_SOUNDS
  {
  }

  /** An audio sequence always has some positive length to fill. */
  lemma TargetDurationPositive()
    ensures TARGET_AUDIO_DURATION > 0
  {
  }

  /** The HTTP port is unprivileged and the PWM frequency is a usual servo frequency. */
  lemma PortAndFrequencyInRange()
    ensures 1024 <= API_PORT <= 65535
    ensures 20 <= SERVO_PWM_FREQUENCY <= 100
  {
  }
}
