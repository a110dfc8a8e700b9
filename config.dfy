/** The tuning constants of the game, with the values its configuration gives them.
    All quantities are reals; speeds and rates are per second unless noted. */
module Config {

  // Player settings
  const WALK_SPEED: real := 120.0
  const RUN_SPEED: real := 240.0
  const MAX_STAMINA: real := 100.0
  const STAMINA_DRAIN_RATE: real := 15.0
  const STAMINA_REGEN_RATE: real := 10.0
  const MAX_HEALTH: real := 100.0

  // Stealth settings
  const MAX_SUSPICION: real := 100.0
  const SUSPICION_DECAY_RATE: real := 5.0
  const DETECTION_THRESHOLD: real := 75.0
  const SUSPICION_INCREASE_BASE: real := 10.0

  // NPC settings
  const DETECTION_RANGE: real := 200.0
  const DETECTION_ANGLE: real := 90.0   // degrees
  const PATROL_SPEED: real := 80.0
  const CHASE_SPEED: real := 150.0
  const ALERT_THRESHOLD: real := 30.0
}
