/** Simulation constants of the combat engine: arena geometry, physics and the fixed
    tick counts and magnitudes that the fighters' rules use. Cosmetic constants
    (colours, fonts, frame rate) belong to the renderer and are not modelled. */
module Config {

  // Arena and physics
  const SCREEN_WIDTH: real := 800.0
  const SCREEN_HEIGHT: real := 600.0
  const GRAVITY: real := 0.6
  const JUMP_STRENGTH: real := -12.0
  const FLOOR_HEIGHT: real := SCREEN_HEIGHT - 100.0

  // Attack timing. The attack duration is 20 ticks for every archetype; the special
  // winds up for 1.5 times as long, which is again a whole number of ticks.
  const ATTACK_DURATION: nat := 20
  const SPECIAL_DURATION: nat := ATTACK_DURATION * 3 / 2
  const SPECIAL_COOLDOWN: nat := 120
  const HIT_INVULNERABILITY: nat := 15
  const COMBO_WINDOW: nat := 90

  // Damage application
  const BLOCK_FACTOR: real := 0.3
  const BASE_KNOCKBACK: real := 5.0
  const SPECIAL_KNOCKBACK: real := 10.0
  const HIT_BURST: nat := 10

  // Shadow Ninja
  const DASH_SPEED: real := 15.0
  const DASH_COOLDOWN: nat := 45
  const DASH_BURST: nat := 10
  const DOUBLE_JUMP_FACTOR: real := 0.8
  const DOUBLE_JUMP_BURST: nat := 5
  /** int(attack_duration * 0.75): the cooldown value at which the special teleports. */
  const TELEPORT_TICK: nat := ATTACK_DURATION * 3 / 4
  const TELEPORT_GAP: real := 10.0
  const SMOKE_BURST: nat := 15

  // Volt Striker
  const MAX_CHARGE: real := 100.0
  const CHARGE_RATE: real := 0.2
  const CHARGE_PER_ATTACK: real := 10.0
  const CHARGE_PER_SPECIAL: real := 50.0
  const ELECTRIC_BASE_DAMAGE: real := 12.0
  const LIGHTNING_BURST: nat := 30

  // Flame Master
  const MAX_HEAT: real := 100.0
  const HEAT_PER_ATTACK: real := 15.0
  const HEAT_PER_SPECIAL: real := 40.0
  const COOLING_RATE: real := 0.5
  const FIRE_BASE_DAMAGE: real := 15.0
  const FIREBALL_COOLDOWN: nat := 90
  const FIREBALL_RANGE: real := 150.0
  /** int(attack_duration * 0.8): the cooldown value at which the fireball flies. */
  const FIREBALL_TICK: nat := ATTACK_DURATION * 4 / 5
  const FIREBALL_BURST: nat := 20

  // Stone Titan
  const MAX_STONE_ARMOR: real := 30.0
  const ARMOR_REGEN_RATE: real := 0.1
  const ARMOR_KNOCKBACK_FACTOR: real := 0.7
  const SLAM_SPEED_FACTOR: real := 0.8
  const ERUPTION_BURST: nat := 30
}
