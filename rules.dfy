/** The rules of the combat engine as functions on a value snapshot of one fighter.
    Each function gives the state after one operation of the fighter: its physics and
    timers tick, the guarded action requests, damage application and the hit check,
    with the archetype overrides dispatched on the fighter's resource payload. The
    class in module Fighters performs the same operations in place and is proved to
    agree with these functions. */
module Rules {
  import opened Config
  import opened Particles

  /** The four archetypes: NinjaFighter, ElectricFighter, FireFighter, EarthFighter. */
  datatype Kind = Ninja | Electric | Fire | Earth

  /** The action state; exactly one is active at a time. */
  datatype Pose = Idle | Walk | Jump | Attack | Special | Hit | Block

  /** The archetype-specific resource state. */
  datatype Gear =
    | NinjaGear(dashCooldown: nat, canDoubleJump: bool, hasDoubleJumped: bool)
    | ElectricGear(charge: real)
    | FireGear(heat: real, overheated: bool, fireballCooldown: nat)
    | EarthGear(stoneArmor: real)

  /** Every field of a fighter that the simulation reads or writes. */
  datatype Body = Body(
    x: real, y: real, width: real, height: real,
    velX: real, velY: real,
    hp: real, maxHp: real, speed: real, jumpStrength: real,
    facingRight: bool, isJumping: bool, isAttacking: bool, isBlocking: bool,
    attackCooldown: nat, specialCooldown: nat, hitCooldown: nat,
    comboCounter: nat, comboTimer: nat,
    attackDamage: real, attackRange: real,
    state: Pose, particles: seq<Particle>, gear: Gear)

  /** The new state and the success flag of a request that reports one. */
  datatype Step = Step(after: Body, ok: bool)

  /** Both fighters after a hit check, and whether the boxes overlapped. */
  datatype Exchange = Exchange(attacker: Body, defender: Body, hit: bool)

  /** An axis-aligned rectangle: corner, width and height. */
  datatype Box = Box(x: real, y: real, w: real, h: real)

  function KindOf(g: Gear): Kind {
    match g
    case NinjaGear(_, _, _) => Ninja
    case ElectricGear(_) => Electric
    case FireGear(_, _, _) => Fire
    case EarthGear(_) => Earth
  }

  function Min(a: real, b: real): (m: real)
    ensures m <= a && m <= b && (m == a || m == b)
  {
    if b < a then b else a
  }

  /** A tick timer's next value: one less, but never below zero. */
  function CountDown(n: nat): (m: nat)
    ensures m + 1 == n || m == n == 0
  {
    if n > 0 then n - 1 else 0
  }

  // ---------------------------------------------------------------------------
  // Invariants

  /** The resource meters stay in their ranges; a Flame Master is overheated only
      with heat left to shed, and below the maximum unless overheated. */
  predicate GearValid(g: Gear) {
    match g
    case NinjaGear(dc, _, _) => dc <= DASH_COOLDOWN
    case ElectricGear(c) => 0.0 <= c <= MAX_CHARGE
    case FireGear(h, o, fc) =>
      0.0 <= h <= MAX_HEAT && (o ==> h > 0.0) && (!o ==> h < MAX_HEAT) && fc <= FIREBALL_COOLDOWN
    case EarthGear(a) => 0.0 <= a <= MAX_STONE_ARMOR
  }

  /** What every fighter satisfies from its creation on: a positive size that fits the
      arena, hit points never above the maximum, timers within their windows, the
      attacking flag set exactly while the attack cooldown runs, and valid meters. */
  predicate Valid(b: Body) {
    && 0.0 < b.width <= SCREEN_WIDTH && 0.0 < b.height
    && 0.0 < b.maxHp && b.hp <= b.maxHp
    && 0.0 <= b.attackDamage
    && (b.isAttacking <==> b.attackCooldown > 0)
    && b.attackCooldown <= SPECIAL_DURATION
    && b.specialCooldown <= SPECIAL_COOLDOWN
    && b.hitCooldown <= HIT_INVULNERABILITY
    && b.comboTimer <= COMBO_WINDOW
    && GearValid(b.gear)
  }

  // ---------------------------------------------------------------------------
  // Creation

  /** Fighter.__init__ with the archetype's stats, before the subclass overrides. */
  function Fresh(x: real, y: real, width: real, height: real, hp: real,
                 speed: real, jumpStrength: real, gear: Gear): Body
  {
    Body(x, y, width, height, 0.0, 0.0, hp, hp, speed, jumpStrength,
         true, false, false, false, 0, 0, 0, 0, 0, 10.0, 60.0, Idle, [], gear)
  }

  /** A newly created fighter of the given archetype at (x, y). */
  function Initial(kind: Kind, x: real, y: real): (b: Body)
    ensures Valid(b) && KindOf(b.gear) == kind
    ensures b.x == x && b.y == y && b.velX == 0.0 && b.velY == 0.0
    ensures b.hp == b.maxHp && b.state == Idle && b.particles == [] && b.facingRight
    ensures !b.isJumping && !b.isAttacking && !b.isBlocking
    ensures b.attackCooldown == b.specialCooldown == b.hitCooldown == b.comboCounter == b.comboTimer == 0
  {
    match kind
    case Ninja =>
      Fresh(x, y, 40.0, 80.0, 100.0, 5.0, JUMP_STRENGTH - 2.0, NinjaGear(0, true, false))
        .(attackDamage := 8.0, attackRange := 50.0)
    case Electric =>
      Fresh(x, y, 50.0, 90.0, 90.0, 4.0, JUMP_STRENGTH, ElectricGear(0.0))
        .(attackDamage := ELECTRIC_BASE_DAMAGE)
    case Fire =>
      Fresh(x, y, 55.0, 85.0, 110.0, 3.5, JUMP_STRENGTH + 1.0, FireGear(0.0, false, 0))
        .(attackDamage := FIRE_BASE_DAMAGE)
    case Earth =>
      Fresh(x, y, 60.0, 95.0, 140.0, 2.5, JUMP_STRENGTH + 3.0, EarthGear(MAX_STONE_ARMOR))
        .(attackDamage := 20.0, attackRange := 50.0)
  }

  // ---------------------------------------------------------------------------
  // The per-tick update

  /** Whether this tick's fall carries the fighter's bottom edge below the floor. */
  predicate Lands(b: Body) {
    b.y + (b.velY + GRAVITY) + b.height > FLOOR_HEIGHT
  }

  /** Gravity, motion, the floor and the arena walls. */
  function AfterPhysics(b: Body): (r: Body)
    ensures r == b.(x := r.x, y := r.y, velY := r.velY, isJumping := r.isJumping)
    ensures r.y + r.height <= FLOOR_HEIGHT
    ensures Lands(b) ==> r.y + r.height == FLOOR_HEIGHT && r.velY == 0.0 && !r.isJumping
    ensures !Lands(b) ==> r.velY == b.velY + GRAVITY && r.y == b.y + r.velY && r.isJumping == b.isJumping
    ensures b.width <= SCREEN_WIDTH ==> 0.0 <= r.x <= SCREEN_WIDTH - b.width
    ensures 0.0 <= b.x + b.velX <= SCREEN_WIDTH - b.width ==> r.x == b.x + b.velX
    ensures b.width <= SCREEN_WIDTH && b.x + b.velX < 0.0 ==> r.x == 0.0
    ensures b.width <= SCREEN_WIDTH && b.x + b.velX + b.width > SCREEN_WIDTH ==> r.x == SCREEN_WIDTH - b.width
  {
    var vy := b.velY + GRAVITY;
    var nx := b.x + b.velX;
    var ny := b.y + vy;
    var landed := ny + b.height > FLOOR_HEIGHT;
    var lx := if nx < 0.0 then 0.0 else nx;
    var rx := if lx + b.width > SCREEN_WIDTH then SCREEN_WIDTH - b.width else lx;
    b.(x := rx,
       y := if landed then FLOOR_HEIGHT - b.height else ny,
       velY := if landed then 0.0 else vy,
       isJumping := b.isJumping && !landed)
  }

  /** The attack, special and invulnerability countdowns and the combo window. */
  function AfterTimers(b: Body): (r: Body)
    ensures r == b.(attackCooldown := r.attackCooldown, isAttacking := r.isAttacking,
                    specialCooldown := r.specialCooldown, hitCooldown := r.hitCooldown,
                    comboTimer := r.comboTimer, comboCounter := r.comboCounter)
    ensures r.attackCooldown == CountDown(b.attackCooldown)
    ensures r.specialCooldown == CountDown(b.specialCooldown)
    ensures r.hitCooldown == CountDown(b.hitCooldown)
    ensures r.comboTimer == CountDown(b.comboTimer)
    ensures r.isAttacking <==> b.isAttacking && b.attackCooldown != 1
    ensures r.comboCounter == if b.comboTimer == 0 then 0 else b.comboCounter
  {
    b.(attackCooldown := CountDown(b.attackCooldown),
       isAttacking := b.isAttacking && b.attackCooldown != 1,
       specialCooldown := CountDown(b.specialCooldown),
       hitCooldown := CountDown(b.hitCooldown),
       comboTimer := CountDown(b.comboTimer),
       comboCounter := if b.comboTimer > 0 then b.comboCounter else 0)
  }

  /** Face the opponent: right exactly when the own centre is left of the opponent's. */
  function Faced(b: Body, opp: Body): (r: Body)
    ensures r == b.(facingRight := r.facingRight)
    ensures r.facingRight <==> b.x + b.width / 2.0 < opp.x + opp.width / 2.0
  {
    b.(facingRight := b.x + b.width / 2.0 < opp.x + opp.width / 2.0)
  }

  /** Fighter.update: physics, timers, particle aging, then facing. */
  function AfterBaseUpdate(b: Body, opp: Body): (r: Body)
    ensures var p := AfterPhysics(b);
      r.x == p.x && r.y == p.y && r.velY == p.velY && r.isJumping == p.isJumping
    ensures r.attackCooldown == CountDown(b.attackCooldown) && r.comboTimer == CountDown(b.comboTimer)
    ensures r.particles == Survivors(b.particles)
    ensures r.facingRight <==> r.x + r.width / 2.0 < opp.x + opp.width / 2.0
    ensures r.gear == b.gear && r.state == b.state && r.hp == b.hp && r.velX == b.velX
  {
    var t := AfterTimers(AfterPhysics(b));
    Faced(t.(particles := Survivors(t.particles)), opp)
  }

  /** The archetype's resources after one tick, given whether the fighter is in the
      air and whether it is attacking (both as the base update left them). */
  function GearTick(g: Gear, jumping: bool, attacking: bool): (r: Gear)
    ensures KindOf(r) == KindOf(g)
    ensures GearValid(g) ==> GearValid(r)
    ensures g.NinjaGear? ==>
      r.dashCooldown == CountDown(g.dashCooldown)
      && r.canDoubleJump == g.canDoubleJump
      && r.hasDoubleJumped == (g.hasDoubleJumped && jumping)
    ensures g.ElectricGear? ==>
      if !jumping && !attacking
      then r.charge == Min(MAX_CHARGE, g.charge + CHARGE_RATE)
      else r.charge == g.charge
    ensures g.FireGear? ==>
      && r.fireballCooldown == CountDown(g.fireballCooldown)
      && (!g.overheated ==> !r.overheated && r.heat == g.heat)
      && (g.overheated && r.overheated ==> r.heat == g.heat - COOLING_RATE > 0.0)
      && (g.overheated && !r.overheated ==> r.heat == 0.0 && g.heat - COOLING_RATE <= 0.0)
    ensures g.EarthGear? ==>
      r.stoneArmor == if g.stoneArmor < MAX_STONE_ARMOR
                      then Min(MAX_STONE_ARMOR, g.stoneArmor + ARMOR_REGEN_RATE)
                      else g.stoneArmor
  {
    match g
    case NinjaGear(dc, can, has) =>
      NinjaGear(CountDown(dc), can, if !jumping then false else has)
    case ElectricGear(c) =>
      if !jumping && !attacking then ElectricGear(Min(MAX_CHARGE, c + CHARGE_RATE)) else g
    case FireGear(h, o, fc) =>
      var cooled := h - COOLING_RATE;
      var h' := if !o then h else if cooled <= 0.0 then 0.0 else cooled;
      var o' := o && cooled > 0.0;
      FireGear(h', o', CountDown(fc))
    case EarthGear(a) =>
      if a < MAX_STONE_ARMOR then EarthGear(Min(MAX_STONE_ARMOR, a + ARMOR_REGEN_RATE)) else g
  }

  /** The archetype part of update, run after the base update. */
  function AfterGearTick(b: Body): (r: Body)
    ensures r == b.(gear := r.gear)
    ensures KindOf(r.gear) == KindOf(b.gear)
    ensures GearValid(b.gear) ==> GearValid(r.gear)
  {
    b.(gear := GearTick(b.gear, b.isJumping, b.isAttacking))
  }

  /** One tick of a fighter against the given opponent (base update, then the
      archetype's). The pose is never touched here: an expired attack or hit keeps its
      pose until a move or block request rewrites it. */
  function AfterUpdate(b: Body, opp: Body): (r: Body)
    ensures Valid(b) ==> Valid(r)
    ensures KindOf(r.gear) == KindOf(b.gear)
    ensures b.width <= SCREEN_WIDTH ==> 0.0 <= r.x <= SCREEN_WIDTH - r.width
    ensures r.y + r.height <= FLOOR_HEIGHT
    ensures Lands(b) ==> r.y + r.height == FLOOR_HEIGHT && r.velY == 0.0 && !r.isJumping
    ensures var p := AfterPhysics(b);
      r.x == p.x && r.y == p.y && r.velY == p.velY && r.isJumping == p.isJumping
    ensures r.facingRight <==> r.x + r.width / 2.0 < opp.x + opp.width / 2.0
    ensures r.attackCooldown == CountDown(b.attackCooldown)
    ensures r.specialCooldown == CountDown(b.specialCooldown)
    ensures r.hitCooldown == CountDown(b.hitCooldown)
    ensures r.comboTimer == CountDown(b.comboTimer)
    ensures r.isAttacking <==> b.isAttacking && b.attackCooldown != 1
    ensures r.comboCounter == if b.comboTimer == 0 then 0 else b.comboCounter
    ensures r.particles == Survivors(b.particles)
    ensures r.gear == GearTick(b.gear, r.isJumping, r.isAttacking)
    ensures r.state == b.state && r.hp == b.hp && r.velX == b.velX && r.isBlocking == b.isBlocking
    ensures r.width == b.width && r.height == b.height && r.maxHp == b.maxHp && r.speed == b.speed
    ensures r.jumpStrength == b.jumpStrength && r.attackDamage == b.attackDamage && r.attackRange == b.attackRange
  {
    AfterGearTick(AfterBaseUpdate(b, opp))
  }

  // ---------------------------------------------------------------------------
  // Action requests

  /** Fighter.move: ignored while attacking or blocking. */
  function AfterMove(b: Body, direction: int): (r: Body)
    ensures Valid(b) ==> Valid(r)
    ensures b.isAttacking || b.isBlocking ==> r == b
    ensures !b.isAttacking && !b.isBlocking ==>
      r == b.(velX := b.speed * direction as real, state := if direction != 0 then Walk else Idle)
  {
    if !b.isAttacking && !b.isBlocking then
      b.(velX := b.speed * direction as real, state := if direction != 0 then Walk else Idle)
    else b
  }

  predicate CanJump(b: Body) {
    !b.isJumping && !b.isAttacking && !b.isBlocking
  }

  /** Fighter.jump. */
  function AfterBaseJump(b: Body): (r: Body)
    ensures !CanJump(b) ==> r == b
    ensures CanJump(b) ==> r == b.(velY := b.jumpStrength, isJumping := true, state := Jump)
  {
    if CanJump(b) then b.(velY := b.jumpStrength, isJumping := true, state := Jump) else b
  }

  /** Whether a jump request is the Shadow Ninja's extra jump in mid-air. */
  predicate DoubleJumps(b: Body) {
    b.gear.NinjaGear? && b.isJumping && b.gear.canDoubleJump && !b.gear.hasDoubleJumped
  }

  /** A jump request, with the Shadow Ninja's mid-air jump (which, unlike the ground
      jump, does not look at the attacking or blocking flags). */
  function AfterJump(b: Body, noise: Noise): (r: Body)
    ensures Valid(b) ==> Valid(r)
    ensures KindOf(r.gear) == KindOf(b.gear)
    ensures !DoubleJumps(b) ==> r == AfterBaseJump(b)
    ensures DoubleJumps(b) ==>
      && r == b.(velY := b.jumpStrength * DOUBLE_JUMP_FACTOR, state := Jump,
                 gear := b.gear.(hasDoubleJumped := true), particles := r.particles)
      && |r.particles| == |b.particles| + DOUBLE_JUMP_BURST
      && r.particles[..|b.particles|] == b.particles
  {
    match b.gear
    case NinjaGear(dc, can, has) =>
      if !b.isJumping then AfterBaseJump(b)
      else if can && !has then
        b.(velY := b.jumpStrength * DOUBLE_JUMP_FACTOR, gear := NinjaGear(dc, can, true), state := Jump,
           particles := b.particles + Burst(b.x + b.width / 2.0, b.y + b.height, noise, DOUBLE_JUMP_BURST))
      else b
    case _ => AfterBaseJump(b)
  }

  predicate CanAttack(b: Body) {
    !b.isAttacking && !b.isBlocking && b.attackCooldown == 0
  }

  /** Fighter.attack. */
  function AfterBaseAttack(b: Body): (r: Step)
    ensures r.ok <==> CanAttack(b)
    ensures !r.ok ==> r.after == b
    ensures r.ok ==> r.after == b.(isAttacking := true, attackCooldown := ATTACK_DURATION, state := Attack, velX := 0.0)
  {
    if CanAttack(b) then
      Step(b.(isAttacking := true, attackCooldown := ATTACK_DURATION, state := Attack, velX := 0.0), true)
    else Step(b, false)
  }

  /** Python's int() on a real: truncation toward zero. */
  function Trunc(v: real): (n: int)
    ensures v >= 0.0 ==> 0 <= n && n as real <= v < n as real + 1.0
    ensures v < 0.0 ==> n <= 0 && v <= n as real < v + 1.0
  {
    if v >= 0.0 then v.Floor else -((-v).Floor)
  }

  /** int(level / 20): the bonus damage a meter grants. */
  function MeterBonus(level: real): (bonus: real)
    ensures 0.0 <= level ==> bonus == bonus.Floor as real && 0.0 <= bonus <= level / 20.0 < bonus + 1.0
    ensures 0.0 <= level <= MAX_CHARGE ==> bonus <= 5.0
  {
    Trunc(level / 20.0) as real
  }

  /** An attack request with the archetype overrides: the Volt Striker spends charge
      for bonus damage, the Flame Master cannot attack while overheated and builds heat. */
  function AfterAttack(b: Body): (r: Step)
    ensures Valid(b) ==> Valid(r.after)
    ensures KindOf(r.after.gear) == KindOf(b.gear)
    ensures r.ok <==> CanAttack(b) && !(b.gear.FireGear? && b.gear.overheated)
    ensures !r.ok ==> r.after == b
    ensures r.ok ==> r.after.isAttacking && r.after.attackCooldown == ATTACK_DURATION
                     && r.after.state == Attack && r.after.velX == 0.0
    ensures r.ok ==> r.after == AfterBaseAttack(b).after.(attackDamage := r.after.attackDamage, gear := r.after.gear)
    ensures b.gear.NinjaGear? || b.gear.EarthGear? ==> r == AfterBaseAttack(b)
    ensures r.ok && b.gear.ElectricGear? ==>
      if b.gear.charge > CHARGE_PER_ATTACK
      then r.after.attackDamage == ELECTRIC_BASE_DAMAGE + MeterBonus(b.gear.charge)
           && r.after.gear.charge == b.gear.charge - CHARGE_PER_ATTACK
      else r.after.attackDamage == ELECTRIC_BASE_DAMAGE && r.after.gear.charge == b.gear.charge
    ensures r.ok && b.gear.FireGear? ==>
      && r.after.gear.fireballCooldown == b.gear.fireballCooldown
      && r.after.gear.heat == Min(MAX_HEAT, b.gear.heat + HEAT_PER_ATTACK)
      && r.after.attackDamage == FIRE_BASE_DAMAGE + MeterBonus(r.after.gear.heat)
      && (r.after.gear.overheated <==> r.after.gear.heat >= MAX_HEAT)
  {
    var s := AfterBaseAttack(b);
    match b.gear
    case ElectricGear(c) =>
      if !s.ok then s
      else if c > CHARGE_PER_ATTACK then
        Step(s.after.(attackDamage := ELECTRIC_BASE_DAMAGE + MeterBonus(c),
                      gear := ElectricGear(c - CHARGE_PER_ATTACK)), true)
      else Step(s.after.(attackDamage := ELECTRIC_BASE_DAMAGE), true)
    case FireGear(h, o, fc) =>
      if o || !s.ok then Step(b, false)
      else
        var h' := Min(MAX_HEAT, h + HEAT_PER_ATTACK);
        Step(s.after.(gear := FireGear(h', h' >= MAX_HEAT, fc),
                      attackDamage := FIRE_BASE_DAMAGE + MeterBonus(h')), true)
    case _ => s
  }

  predicate CanSpecial(b: Body) {
    !b.isAttacking && !b.isBlocking && b.specialCooldown == 0
  }

  /** The archetype's resource precondition for a special, checked before the base one. */
  predicate SpecialGate(g: Gear) {
    match g
    case ElectricGear(c) => c >= CHARGE_PER_SPECIAL
    case FireGear(h, o, fc) => !o && h >= HEAT_PER_SPECIAL && fc == 0
    case _ => true
  }

  /** Fighter.special_attack. */
  function AfterBaseSpecial(b: Body): (r: Step)
    ensures r.ok <==> CanSpecial(b)
    ensures !r.ok ==> r.after == b
    ensures r.ok ==> r.after == b.(isAttacking := true, attackCooldown := SPECIAL_DURATION,
                                   specialCooldown := SPECIAL_COOLDOWN, state := Special, velX := 0.0)
  {
    if CanSpecial(b) then
      Step(b.(isAttacking := true, attackCooldown := SPECIAL_DURATION,
              specialCooldown := SPECIAL_COOLDOWN, state := Special, velX := 0.0), true)
    else Step(b, false)
  }

  /** A special request with the archetype overrides: the Volt Striker needs and spends
      50 charge, the Flame Master needs 40 heat, no overheat and a ready fireball, the
      Stone Titan restores its armor and slows down. */
  function AfterSpecial(b: Body, noise: Noise): (r: Step)
    ensures Valid(b) ==> Valid(r.after)
    ensures KindOf(r.after.gear) == KindOf(b.gear)
    ensures r.ok <==> SpecialGate(b.gear) && CanSpecial(b)
    ensures !r.ok ==> r.after == b
    ensures r.ok ==> r.after.isAttacking && r.after.attackCooldown == SPECIAL_DURATION
                     && r.after.specialCooldown == SPECIAL_COOLDOWN && r.after.state == Special
                     && r.after.velX == 0.0
    ensures r.ok ==> r.after == AfterBaseSpecial(b).after.(gear := r.after.gear, speed := r.after.speed,
                                                            particles := r.after.particles)
    ensures |r.after.particles| >= |b.particles| && r.after.particles[..|b.particles|] == b.particles
    ensures !b.gear.EarthGear? ==> r.after.speed == b.speed
    ensures b.gear.NinjaGear? ==> r == AfterBaseSpecial(b)
    ensures b.gear.FireGear? ==> r.after.particles == b.particles
    ensures r.ok && b.gear.ElectricGear? ==>
      r.after.gear.charge == b.gear.charge - CHARGE_PER_SPECIAL
      && |r.after.particles| == |b.particles| + LIGHTNING_BURST
    ensures r.ok && b.gear.FireGear? ==>
      r.after.gear.heat == b.gear.heat - HEAT_PER_SPECIAL
      && r.after.gear.fireballCooldown == FIREBALL_COOLDOWN && !r.after.gear.overheated
    ensures r.ok && b.gear.EarthGear? ==>
      r.after.gear.stoneArmor == MAX_STONE_ARMOR && r.after.speed == b.speed * SLAM_SPEED_FACTOR
      && |r.after.particles| == |b.particles| + ERUPTION_BURST
  {
    match b.gear
    case NinjaGear(_, _, _) => AfterBaseSpecial(b)
    case ElectricGear(c) =>
      if c < CHARGE_PER_SPECIAL then Step(b, false)
      else
        var s := AfterBaseSpecial(b);
        if !s.ok then s
        else
          Step(s.after.(gear := ElectricGear(c - CHARGE_PER_SPECIAL),
                        particles := s.after.particles + Burst(b.x + b.width / 2.0, 0.0, noise, LIGHTNING_BURST)), true)
    case FireGear(h, o, fc) =>
      if o || h < HEAT_PER_SPECIAL || fc != 0 then Step(b, false)
      else
        var s := AfterBaseSpecial(b);
        if !s.ok then Step(b, false)
        else Step(s.after.(gear := FireGear(h - HEAT_PER_SPECIAL, o, FIREBALL_COOLDOWN)), true)
    case EarthGear(_) =>
      var s := AfterBaseSpecial(b);
      if !s.ok then s
      else
        Step(s.after.(gear := EarthGear(MAX_STONE_ARMOR), speed := b.speed * SLAM_SPEED_FACTOR,
                      particles := s.after.particles + Burst(b.x + b.width / 2.0, FLOOR_HEIGHT, noise, ERUPTION_BURST)), true)
  }

  /** Fighter.block: ignored while attacking. */
  function AfterBlock(b: Body, blocking: bool): (r: Body)
    ensures Valid(b) ==> Valid(r)
    ensures b.isAttacking ==> r == b
    ensures !b.isAttacking ==>
      r == b.(isBlocking := blocking, state := if blocking then Block else Idle,
              velX := if blocking then 0.0 else b.velX)
  {
    if b.isAttacking then b
    else if blocking then b.(isBlocking := true, state := Block, velX := 0.0)
    else b.(isBlocking := false, state := Idle)
  }

  /** NinjaFighter.dash: a burst of horizontal speed, gated by its own cooldown. */
  function AfterDash(b: Body, direction: int, noise: Noise): (r: Step)
    requires b.gear.NinjaGear?
    ensures Valid(b) ==> Valid(r.after)
    ensures r.ok <==> b.gear.dashCooldown == 0 && !b.isAttacking
    ensures !r.ok ==> r.after == b
    ensures r.ok ==>
      && r.after == b.(velX := direction as real * DASH_SPEED, gear := b.gear.(dashCooldown := DASH_COOLDOWN),
                       particles := r.after.particles)
      && |r.after.particles| == |b.particles| + DASH_BURST
      && r.after.particles[..|b.particles|] == b.particles
  {
    if b.gear.dashCooldown == 0 && !b.isAttacking then
      var edge := if direction > 0 then b.x else b.x + b.width;
      Step(b.(velX := direction as real * DASH_SPEED, gear := b.gear.(dashCooldown := DASH_COOLDOWN),
              particles := b.particles + Burst(edge, b.y, noise, DASH_BURST)), true)
    else Step(b, false)
  }

  // ---------------------------------------------------------------------------
  // Damage application

  /** The damage that reaches the hit points: 30% of it while blocking. */
  function Mitigated(damage: real, blocking: bool): (dealt: real)
    ensures blocking ==> dealt == damage * 3.0 / 10.0
    ensures !blocking ==> dealt == damage
    ensures damage >= 0.0 ==> 0.0 <= dealt <= damage
  {
    if blocking then damage * BLOCK_FACTOR else damage
  }

  /** Fighter.take_damage: rejected during the invulnerability window; otherwise the
      hit points drop, a fresh window starts, the knockback pushes away from the side
      the fighter faces and a burst of hit particles appears. */
  function AfterBaseDamage(b: Body, damage: real, knockback: real, noise: Noise): (r: Step)
    ensures Valid(b) && damage >= 0.0 ==> Valid(r.after)
    ensures r.after.gear == b.gear
    ensures r.ok <==> b.hitCooldown == 0
    ensures !r.ok ==> r.after == b
    ensures r.ok ==>
      && r.after == b.(hp := r.after.hp, hitCooldown := HIT_INVULNERABILITY, state := Hit,
                       velX := r.after.velX, particles := r.after.particles)
      && b.hp - r.after.hp == Mitigated(damage, b.isBlocking)
      && r.after.velX == (if b.facingRight then -knockback else knockback)
      && |r.after.particles| == |b.particles| + HIT_BURST
      && r.after.particles[..|b.particles|] == b.particles
  {
    if b.hitCooldown == 0 then
      var direction := if b.facingRight then -1.0 else 1.0;
      Step(b.(hp := b.hp - Mitigated(damage, b.isBlocking), hitCooldown := HIT_INVULNERABILITY,
              state := Hit, velX := knockback * direction,
              particles := b.particles + Burst(b.x + b.width / 2.0, b.y + b.height / 2.0, noise, HIT_BURST)), true)
    else Step(b, false)
  }

  /** The armor a Stone Titan spends on a hit: min(armor, damage) when it has any. */
  function Absorbed(armor: real, damage: real): (a: real)
    ensures armor > 0.0 ==> a == Min(armor, damage)
    ensures armor <= 0.0 ==> a == 0.0
  {
    if armor > 0.0 then Min(armor, damage) else 0.0
  }

  /** The length of range(int(absorbed / 2)): the number of stone particles. */
  function ShardCount(absorbed: real): (n: nat)
    ensures absorbed >= 0.0 ==> n as real <= absorbed / 2.0 < n as real + 1.0
    ensures absorbed < 2.0 ==> n == 0
  {
    var t := Trunc(absorbed / 2.0);
    if t > 0 then t else 0
  }

  /** The Stone Titan's armor step before the base take_damage: the armor spends
      min(armor, damage) and sheds one particle per two points absorbed. */
  function AfterArmor(b: Body, damage: real, noise: Noise): (r: Body)
    requires b.gear.EarthGear?
    ensures r == b.(gear := r.gear, particles := r.particles)
    ensures r.gear.EarthGear?
    ensures r.gear.stoneArmor == b.gear.stoneArmor - Absorbed(b.gear.stoneArmor, damage)
    ensures b.gear.stoneArmor >= 0.0 ==> r.gear.stoneArmor >= 0.0
    ensures GearValid(b.gear) && damage >= 0.0 ==> GearValid(r.gear)
    ensures |r.particles| == |b.particles| + ShardCount(Absorbed(b.gear.stoneArmor, damage))
    ensures r.particles[..|b.particles|] == b.particles
  {
    var absorbed := Absorbed(b.gear.stoneArmor, damage);
    b.(gear := EarthGear(b.gear.stoneArmor - absorbed),
       particles := b.particles + Burst(b.x, b.y, noise, ShardCount(absorbed)))
  }

  /** take_damage with the Stone Titan's override: its armor absorbs damage first, even
      when the base logic then rejects the hit, and knockback is cut to 70%. */
  function AfterDamage(b: Body, damage: real, knockback: real, noise: Noise): (r: Step)
    ensures r.ok <==> b.hitCooldown == 0
    ensures !b.gear.EarthGear? ==> r == AfterBaseDamage(b, damage, knockback, noise)
    ensures b.gear.EarthGear? ==>
      var absorbed := Absorbed(b.gear.stoneArmor, damage);
      r == AfterBaseDamage(AfterArmor(b, damage, noise), damage - absorbed,
                           knockback * ARMOR_KNOCKBACK_FACTOR, Shift(noise, ShardCount(absorbed)))
  {
    match b.gear
    case EarthGear(armor) =>
      var absorbed := Absorbed(armor, damage);
      AfterBaseDamage(AfterArmor(b, damage, noise), damage - absorbed,
                      knockback * ARMOR_KNOCKBACK_FACTOR, Shift(noise, ShardCount(absorbed)))
    case _ => AfterBaseDamage(b, damage, knockback, noise)
  }

  // ---------------------------------------------------------------------------
  // The hit check

  /** The strike rectangle: the attack range in front of the leading edge, full height. */
  function Hitbox(a: Body): (h: Box)
    ensures h.w == a.attackRange && h.y == a.y && h.h == a.height
    ensures a.facingRight ==> h.x == a.x + a.width
    ensures !a.facingRight ==> h.x + h.w == a.x
  {
    if a.facingRight then Box(a.x + a.width, a.y, a.attackRange, a.height)
    else Box(a.x - a.attackRange, a.y, a.attackRange, a.height)
  }

  function Hurtbox(d: Body): Box {
    Box(d.x, d.y, d.width, d.height)
  }

  /** Strict axis-aligned overlap: touching edges do not count. */
  predicate Overlaps(p: Box, q: Box) {
    p.x < q.x + q.w && p.x + p.w > q.x && p.y < q.y + q.h && p.y + p.h > q.y
  }

  /** An attack can connect only during the first half of its window. */
  predicate StrikeLive(a: Body) {
    a.isAttacking && a.attackCooldown as real > ATTACK_DURATION as real / 2.0
  }

  /** The damage of a strike: doubled for a special, then 10% more per combo hit. */
  function StrikeDamage(base: real, special: bool, combo: nat): (d: real)
    ensures d == base * (if special then 2.0 else 1.0) * (1.0 + combo as real / 10.0)
    ensures base >= 0.0 ==> d >= 0.0
  {
    var d0 := if special then base * 2.0 else base;
    if combo > 0 then d0 * (1.0 + combo as real * 0.1) else d0
  }

  function StrikeKnockback(special: bool): real {
    if special then SPECIAL_KNOCKBACK else BASE_KNOCKBACK
  }

  /** Fighter.check_hit: a live strike whose box overlaps the opponent is submitted to
      the opponent's take_damage; only a hit that take_damage accepts advances the
      combo. The result reports the overlap, whether or not the hit was accepted. */
  function AfterBaseCheckHit(a: Body, d: Body, noise: Noise): (r: Exchange)
    ensures r.hit <==> StrikeLive(a) && Overlaps(Hitbox(a), Hurtbox(d))
    ensures !r.hit ==> r.attacker == a && r.defender == d
    ensures r.hit ==>
      var special := a.state == Special;
      var s := AfterDamage(d, StrikeDamage(a.attackDamage, special, a.comboCounter), StrikeKnockback(special), noise);
      && r.defender == s.after
      && r.attacker == if s.ok then a.(comboCounter := a.comboCounter + 1, comboTimer := COMBO_WINDOW) else a
  {
    if StrikeLive(a) && Overlaps(Hitbox(a), Hurtbox(d)) then
      var special := a.state == Special;
      var s := AfterDamage(d, StrikeDamage(a.attackDamage, special, a.comboCounter), StrikeKnockback(special), noise);
      var a' := if s.ok then a.(comboCounter := a.comboCounter + 1, comboTimer := COMBO_WINDOW) else a;
      Exchange(a', s.after, true)
    else Exchange(a, d, false)
  }

  /** Where the Shadow Ninja's special puts it: just past the opponent's far side, or
      just before its near side when that would leave the arena. */
  function TeleportX(a: Body, d: Body): (tx: real)
    ensures tx >= d.x + d.width + TELEPORT_GAP || tx + a.width + TELEPORT_GAP <= d.x
    ensures d.x + d.width + TELEPORT_GAP + a.width <= SCREEN_WIDTH ==> tx == d.x + d.width + TELEPORT_GAP
    ensures d.x + d.width + TELEPORT_GAP + a.width > SCREEN_WIDTH ==> tx + a.width + TELEPORT_GAP == d.x
  {
    var behind := d.x + d.width + TELEPORT_GAP;
    if behind + a.width > SCREEN_WIDTH then d.x - a.width - TELEPORT_GAP else behind
  }

  /** The teleport with a smoke burst at the old and at the new centre. */
  function Teleported(a: Body, d: Body, noise: Noise): (r: Body)
    ensures r == a.(x := TeleportX(a, d), particles := r.particles)
    ensures |r.particles| == |a.particles| + 2 * SMOKE_BURST
    ensures r.particles[..|a.particles|] == a.particles
  {
    var tx := TeleportX(a, d);
    var cy := a.y + a.height / 2.0;
    a.(x := tx,
       particles := a.particles + Burst(a.x + a.width / 2.0, cy, noise, SMOKE_BURST)
                                + Burst(tx + a.width / 2.0, cy, Shift(noise, SMOKE_BURST), SMOKE_BURST))
  }

  predicate TeleportsNow(a: Body) {
    a.gear.NinjaGear? && a.state == Special && a.attackCooldown == TELEPORT_TICK
  }

  predicate FireballNow(a: Body) {
    a.gear.FireGear? && a.state == Special && a.attackCooldown == FIREBALL_TICK
  }

  /** The Flame Master's fireball tick before the check: a burst of flame at the
      leading edge and the range stretched to 150. */
  function Aimed(a: Body, noise: Noise): (r: Body)
    ensures r == a.(attackRange := FIREBALL_RANGE, particles := r.particles)
    ensures |r.particles| == |a.particles| + FIREBALL_BURST
    ensures r.particles[..|a.particles|] == a.particles
  {
    var front := if a.facingRight then a.x + a.width else a.x;
    a.(attackRange := FIREBALL_RANGE,
       particles := a.particles + Burst(front, a.y + a.height / 2.0, noise, FIREBALL_BURST))
  }

  /** check_hit with the overrides: the Shadow Ninja teleports at one tick of its
      special, the Flame Master's fireball tick checks with range 150 and then puts its
      range back. */
  function AfterCheckHit(a: Body, d: Body, noise: Noise): (r: Exchange)
    ensures r.attacker.attackRange == a.attackRange
    ensures !TeleportsNow(a) && !FireballNow(a) ==> r == AfterBaseCheckHit(a, d, noise)
    ensures TeleportsNow(a) ==> r == AfterBaseCheckHit(Teleported(a, d, noise), d, Shift(noise, 2 * SMOKE_BURST))
    ensures FireballNow(a) ==>
      var e := AfterBaseCheckHit(Aimed(a, noise), d, Shift(noise, FIREBALL_BURST));
      r == Exchange(e.attacker.(attackRange := a.attackRange), e.defender, e.hit)
  {
    if TeleportsNow(a) then
      AfterBaseCheckHit(Teleported(a, d, noise), d, Shift(noise, 2 * SMOKE_BURST))
    else if FireballNow(a) then
      var e := AfterBaseCheckHit(Aimed(a, noise), d, Shift(noise, FIREBALL_BURST));
      Exchange(e.attacker.(attackRange := a.attackRange), e.defender, e.hit)
    else AfterBaseCheckHit(a, d, noise)
  }
}
