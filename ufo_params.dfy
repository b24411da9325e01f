/** The UFO's tuning, shared with the sheep that it lifts. */
module UfoParams {
  /** Height at which a UFO hovers, and the ceiling of an abducted sheep's ascent. */
  const UFO_HEIGHT: real := 15.0

  /** Length of an abduction, in seconds. */
  const UFO_ABDUCTION_SECONDS: real := 8.0

  /** Pause after an abduction before a new target is picked, in seconds. */
  const UFO_POST_ABDUCTION_PAUSE_SECONDS: real := 3.0

  /** Ground speed of a UFO, in units per second. */
  const UFO_SPEED: real := 7.0

  /** Ground distance at which a target counts as reached. */
  const UFO_TARGET_REACHED_DISTANCE: real := 0.5
}
