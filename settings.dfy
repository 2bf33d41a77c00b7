/** The constants of code/settings.py that the core reads. */
module Settings {
  const PLAYER_SPEED: real := 7.0
  const LASER_SPEED: real := 9.0
  /** METEOR_SPEED_RANGE = [3, 4]. */
  const METEOR_SPEED_MIN: real := 3.0
  const METEOR_SPEED_MAX: real := 4.0
}
