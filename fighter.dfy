/** The fighter as the program keeps it: an object whose methods update its fields
    in place. The archetype subclasses' extra fields are the `gear` payload and their
    overrides are dispatched on it; the Base* methods are the base-class behaviour that
    the overrides reach through super(). Every method is proved to leave the object in
    the state the matching function of module Rules gives for the old state.

    An operation that writes several fields comes in two layers: XFields performs the
    writes in the program's order, may change only those fields, and states each
    written field's new value; X states the whole fighter afterwards. Operations that
    are built from others call the whole-fighter forms. */
module Fighters {
  import opened Config
  import opened Particles
  import opened Rules

  class Fighter {
    var x: real
    var y: real
    const width: real
    const height: real
    var velX: real
    var velY: real
    var hp: real
    const maxHp: real
    var speed: real
    const jumpStrength: real
    var facingRight: bool
    var isJumping: bool
    var isAttacking: bool
    var isBlocking: bool
    var attackCooldown: nat
    var specialCooldown: nat
    var hitCooldown: nat
    var comboCounter: nat
    var comboTimer: nat
    var attackDamage: real
    var attackRange: real
    var state: Pose
    var particles: seq<Particle>
    var gear: Gear

    /** The fighter's fields as a value. */
    ghost function Snap(): Body
      reads this
    {
      Body(x, y, width, height, velX, velY, hp, maxHp, speed, jumpStrength,
           facingRight, isJumping, isAttacking, isBlocking,
           attackCooldown, specialCooldown, hitCooldown, comboCounter, comboTimer,
           attackDamage, attackRange, state, particles, gear)
    }

    ghost predicate Valid()
      reads this
    {
      Rules.Valid(Snap())
    }

    /** A fighter of the given archetype at (x0, y0) with its archetype's stats. */
    constructor (kind: Kind, x0: real, y0: real)
      ensures Snap() == Initial(kind, x0, y0)
      ensures Valid()
    {
      var w, h, hp0, sp, js, dmg, rng, g;
      match kind {
      case Ninja =>
        w, h, hp0, sp, js := 40.0, 80.0, 100.0, 5.0, JUMP_STRENGTH - 2.0;
        dmg, rng, g := 8.0, 50.0, NinjaGear(0, true, false);
      case Electric =>
        w, h, hp0, sp, js := 50.0, 90.0, 90.0, 4.0, JUMP_STRENGTH;
        dmg, rng, g := ELECTRIC_BASE_DAMAGE, 60.0, ElectricGear(0.0);
      case Fire =>
        w, h, hp0, sp, js := 55.0, 85.0, 110.0, 3.5, JUMP_STRENGTH + 1.0;
        dmg, rng, g := FIRE_BASE_DAMAGE, 60.0, FireGear(0.0, false, 0);
      case Earth =>
        w, h, hp0, sp, js := 60.0, 95.0, 140.0, 2.5, JUMP_STRENGTH + 3.0;
        dmg, rng, g := 20.0, 50.0, EarthGear(MAX_STONE_ARMOR);
      }
      x, y, width, height := x0, y0, w, h;
      maxHp, hp, speed, jumpStrength := hp0, hp0, sp, js;
      velX, velY := 0.0, 0.0;
      facingRight, isJumping, isAttacking, isBlocking := true, false, false, false;
      attackCooldown, specialCooldown, hitCooldown, comboCounter, comboTimer := 0, 0, 0, 0, 0;
      particles := [];
      state := Idle;
      attackDamage, attackRange := dmg, rng;
      gear := g;
    }

    /** Appends the n particles of a burst at one anchor. */
    method EmitFields(cx: real, cy: real, noise: Noise, n: nat)
      modifies this`particles
      ensures particles == old(particles) + Burst(cx, cy, noise, n)
    {
      var i := 0;
      while i < n
        invariant 0 <= i <= n
        invariant particles == old(particles) + Burst(cx, cy, noise, i)
      {
        particles := particles + [Spawn(cx, cy, noise(i))];
        i := i + 1;
      }
    }

    /** Appends a burst; the rest of the fighter is unchanged. */
    method Emit(cx: real, cy: real, noise: Noise, n: nat)
      modifies this
      ensures Snap() == old(Snap()).(particles := old(particles) + Burst(cx, cy, noise, n))
    {
      EmitFields(cx, cy, noise, n);
    }

    // -------------------------------------------------------------------------
    // The tick

    /** Fighter.update, first part: gravity, motion, the floor and the walls. */
    method ApplyPhysicsFields()
      modifies this`x, this`y, this`velY, this`isJumping
      ensures var r := AfterPhysics(old(Snap()));
        x == r.x && y == r.y && velY == r.velY && isJumping == r.isJumping
    {
      velY := velY + GRAVITY;
      x := x + velX;
      y := y + velY;
      if y + height > FLOOR_HEIGHT {
        y := FLOOR_HEIGHT - height;
        velY := 0.0;
        isJumping := false;
      }
      if x < 0.0 {
        x := 0.0;
      }
      if x + width > SCREEN_WIDTH {
        x := SCREEN_WIDTH - width;
      }
    }

    /** The physics step on the whole fighter. */
    method ApplyPhysics()
      modifies this
      ensures Snap() == AfterPhysics(old(Snap()))
    {
      ApplyPhysicsFields();
    }

    /** Fighter.update, second part: the countdowns and the combo window. */
    method TickTimersFields()
      modifies this`attackCooldown, this`isAttacking, this`specialCooldown, this`hitCooldown,
               this`comboTimer, this`comboCounter
      ensures var r := AfterTimers(old(Snap()));
        && attackCooldown == r.attackCooldown && isAttacking == r.isAttacking
        && specialCooldown == r.specialCooldown && hitCooldown == r.hitCooldown
        && comboTimer == r.comboTimer && comboCounter == r.comboCounter
    {
      if attackCooldown > 0 {
        attackCooldown := attackCooldown - 1;
        if attackCooldown == 0 {
          isAttacking := false;
        }
      }
      if specialCooldown > 0 {
        specialCooldown := specialCooldown - 1;
      }
      if hitCooldown > 0 {
        hitCooldown := hitCooldown - 1;
      }
      if comboTimer > 0 {
        comboTimer := comboTimer - 1;
      } else {
        comboCounter := 0;
      }
    }

    /** The timer step on the whole fighter. */
    method TickTimers()
      modifies this
      ensures Snap() == AfterTimers(old(Snap()))
    {
      TickTimersFields();
    }

    /** Fighter.update: physics, timers, particle aging, then face the opponent. */
    method BaseUpdate(opp: Fighter)
      requires opp != this
      modifies this
      ensures Snap() == AfterBaseUpdate(old(Snap()), opp.Snap())
    {
      ApplyPhysics();
      TickTimers();
      particles := AgeAll(particles);
      facingRight := x + width / 2.0 < opp.x + opp.width / 2.0;
    }

    /** The archetype part of update: the dash cooldown and double-jump reset, charge
        build-up, heat decay and fireball cooldown, armor regeneration. */
    method GearUpdateFields()
      modifies this`gear
      ensures gear == GearTick(old(gear), isJumping, isAttacking)
    {
      match gear
      case NinjaGear(_, _, _) =>
        if gear.dashCooldown > 0 {
          gear := gear.(dashCooldown := gear.dashCooldown - 1);
        }
        if !isJumping {
          gear := gear.(hasDoubleJumped := false);
        }
      case ElectricGear(c) =>
        if !isJumping && !isAttacking {
          gear := ElectricGear(Min(MAX_CHARGE, c + CHARGE_RATE));
        }
      case FireGear(_, _, _) =>
        if gear.overheated {
          gear := gear.(heat := gear.heat - COOLING_RATE);
          if gear.heat <= 0.0 {
            gear := gear.(heat := 0.0, overheated := false);
          }
        }
        if gear.fireballCooldown > 0 {
          gear := gear.(fireballCooldown := gear.fireballCooldown - 1);
        }
      case EarthGear(a) =>
        if a < MAX_STONE_ARMOR {
          gear := EarthGear(Min(MAX_STONE_ARMOR, a + ARMOR_REGEN_RATE));
        }
    }

    /** The archetype step of update on the whole fighter. */
    method GearUpdate()
      modifies this
      ensures Snap() == AfterGearTick(old(Snap()))
    {
      GearUpdateFields();
    }

    /** One tick against the opponent: the base update, then the archetype's. */
    method Update(opp: Fighter)
      requires opp != this
      modifies this
      ensures Snap() == AfterUpdate(old(Snap()), opp.Snap())
    {
      BaseUpdate(opp);
      GearUpdate();
    }

    // -------------------------------------------------------------------------
    // Action requests

    /** Fighter.move: ignored while attacking or blocking. */
    method Move(direction: int)
      modifies this
      ensures Snap() == AfterMove(old(Snap()), direction)
    {
      if !isAttacking && !isBlocking {
        velX := speed * direction as real;
        if direction != 0 {
          state := Walk;
        } else {
          state := Idle;
        }
      }
    }

    /** Fighter.jump. */
    method BaseJumpFields()
      modifies this`velY, this`isJumping, this`state
      ensures var r := AfterBaseJump(old(Snap()));
        velY == r.velY && isJumping == r.isJumping && state == r.state
    {
      if !isJumping && !isAttacking && !isBlocking {
        velY := jumpStrength;
        isJumping := true;
        state := Pose.Jump;
      }
    }

    /** Fighter.jump on the whole fighter. */
    method BaseJump()
      modifies this
      ensures Snap() == AfterBaseJump(old(Snap()))
    {
      BaseJumpFields();
    }

    /** The Shadow Ninja's extra jump in mid-air, with a puff of particles at its feet. */
    method DoubleJumpFields(noise: Noise)
      requires DoubleJumps(Snap())
      modifies this`velY, this`gear, this`state, this`particles
      ensures var r := AfterJump(old(Snap()), noise);
        velY == r.velY && gear == r.gear && state == r.state && particles == r.particles
    {
      velY := jumpStrength * DOUBLE_JUMP_FACTOR;
      gear := gear.(hasDoubleJumped := true);
      state := Pose.Jump;
      EmitFields(x + width / 2.0, y + height, noise, DOUBLE_JUMP_BURST);
    }

    /** The mid-air jump on the whole fighter. */
    method DoubleJump(noise: Noise)
      requires DoubleJumps(Snap())
      modifies this
      ensures Snap() == AfterJump(old(Snap()), noise)
    {
      DoubleJumpFields(noise);
    }

    /** A jump request: NinjaFighter.jump for the Shadow Ninja, Fighter.jump otherwise. */
    method Jump(noise: Noise)
      modifies this
      ensures Snap() == AfterJump(old(Snap()), noise)
    {
      if gear.NinjaGear? {
        if !isJumping {
          BaseJump();
        } else if gear.canDoubleJump && !gear.hasDoubleJumped {
          DoubleJump(noise);
        }
      } else {
        BaseJump();
      }
    }

    /** Fighter.attack. */
    method BaseAttackFields() returns (ok: bool)
      modifies this`isAttacking, this`attackCooldown, this`state, this`velX
      ensures var s := AfterBaseAttack(old(Snap()));
        && ok == s.ok && isAttacking == s.after.isAttacking && attackCooldown == s.after.attackCooldown
        && state == s.after.state && velX == s.after.velX
    {
      ok := false;
      if !isAttacking && !isBlocking && attackCooldown == 0 {
        isAttacking := true;
        attackCooldown := ATTACK_DURATION;
        state := Pose.Attack;
        velX := 0.0;
        ok := true;
      }
    }

    /** Fighter.attack on the whole fighter, with its success flag. */
    method BaseAttack() returns (ok: bool)
      modifies this
      ensures Step(Snap(), ok) == AfterBaseAttack(old(Snap()))
    {
      ok := BaseAttackFields();
    }

    /** ElectricFighter.attack: a granted attack spends 10 charge, when there is more
        than that, for a bonus of a twentieth of the charge. */
    method VoltAttack() returns (ok: bool)
      requires gear.ElectricGear?
      modifies this
      ensures Step(Snap(), ok) == AfterAttack(old(Snap()))
    {
      ok := BaseAttack();
      if ok {
        if gear.charge > CHARGE_PER_ATTACK {
          attackDamage := ELECTRIC_BASE_DAMAGE + Trunc(gear.charge / 20.0) as real;
          gear := gear.(charge := gear.charge - CHARGE_PER_ATTACK);
        } else {
          attackDamage := ELECTRIC_BASE_DAMAGE;
        }
      }
    }

    /** FireFighter.attack: refused while overheated; a granted attack builds heat. */
    method FlameAttack() returns (ok: bool)
      requires gear.FireGear?
      modifies this
      ensures Step(Snap(), ok) == AfterAttack(old(Snap()))
    {
      ok := false;
      if !gear.overheated {
        ok := BaseAttack();
        if ok {
          gear := gear.(heat := Min(MAX_HEAT, gear.heat + HEAT_PER_ATTACK));
          var heatBonus := Trunc(gear.heat / 20.0);
          attackDamage := FIRE_BASE_DAMAGE + heatBonus as real;
          if gear.heat >= MAX_HEAT {
            gear := gear.(overheated := true);
          }
        }
      }
    }

    /** An attack request, dispatched to the archetype's override. */
    method Attack() returns (ok: bool)
      modifies this
      ensures Step(Snap(), ok) == AfterAttack(old(Snap()))
    {
      match gear {
        case ElectricGear(_) => ok := VoltAttack();
        case FireGear(_, _, _) => ok := FlameAttack();
        case _ => ok := BaseAttack();
      }
    }

    /** Fighter.special_attack. */
    method BaseSpecialAttackFields() returns (ok: bool)
      modifies this`isAttacking, this`attackCooldown, this`specialCooldown, this`state, this`velX
      ensures var s := AfterBaseSpecial(old(Snap()));
        && ok == s.ok && isAttacking == s.after.isAttacking && attackCooldown == s.after.attackCooldown
        && specialCooldown == s.after.specialCooldown && state == s.after.state && velX == s.after.velX
    {
      ok := false;
      if !isAttacking && !isBlocking && specialCooldown == 0 {
        isAttacking := true;
        attackCooldown := SPECIAL_DURATION;
        specialCooldown := SPECIAL_COOLDOWN;
        state := Special;
        velX := 0.0;
        ok := true;
      }
    }

    /** Fighter.special_attack on the whole fighter, with its success flag; the
        Shadow Ninja's override only calls it. */
    method BaseSpecialAttack() returns (ok: bool)
      modifies this
      ensures Step(Snap(), ok) == AfterBaseSpecial(old(Snap()))
    {
      ok := BaseSpecialAttackFields();
    }

    /** ElectricFighter.special_attack: needs 50 charge, spends it and strikes lightning. */
    method VoltSpecial(noise: Noise) returns (ok: bool)
      requires gear.ElectricGear?
      modifies this
      ensures Step(Snap(), ok) == AfterSpecial(old(Snap()), noise)
    {
      ok := false;
      if gear.charge >= CHARGE_PER_SPECIAL {
        ok := BaseSpecialAttack();
        if ok {
          gear := gear.(charge := gear.charge - CHARGE_PER_SPECIAL);
          Emit(x + width / 2.0, 0.0, noise, LIGHTNING_BURST);
        }
      }
    }

    /** FireFighter.special_attack: needs 40 heat, no overheat and a ready fireball. */
    method FlameSpecial() returns (ok: bool)
      requires gear.FireGear?
      modifies this
      ensures forall noise: Noise :: Step(Snap(), ok) == AfterSpecial(old(Snap()), noise)
    {
      ok := false;
      if !gear.overheated && gear.heat >= HEAT_PER_SPECIAL && gear.fireballCooldown == 0 {
        ok := BaseSpecialAttack();
        if ok {
          gear := gear.(heat := gear.heat - HEAT_PER_SPECIAL, fireballCooldown := FIREBALL_COOLDOWN);
        }
      }
    }

    /** EarthFighter.special_attack: restores the armor, slows down, erupts the ground. */
    method StoneSpecial(noise: Noise) returns (ok: bool)
      requires gear.EarthGear?
      modifies this
      ensures Step(Snap(), ok) == AfterSpecial(old(Snap()), noise)
    {
      ok := BaseSpecialAttack();
      if ok {
        gear, speed := EarthGear(MAX_STONE_ARMOR), speed * SLAM_SPEED_FACTOR;
        Emit(x + width / 2.0, FLOOR_HEIGHT, noise, ERUPTION_BURST);
      }
    }

    /** A special request, dispatched to the archetype's override. */
    method SpecialAttack(noise: Noise) returns (ok: bool)
      modifies this
      ensures Step(Snap(), ok) == AfterSpecial(old(Snap()), noise)
    {
      match gear {
        case NinjaGear(_, _, _) => ok := BaseSpecialAttack();
        case ElectricGear(_) => ok := VoltSpecial(noise);
        case FireGear(_, _, _) => ok := FlameSpecial();
        case EarthGear(_) => ok := StoneSpecial(noise);
      }
    }

    /** Fighter.block: ignored while attacking. */
    method Block(blocking: bool)
      modifies this
      ensures Snap() == AfterBlock(old(Snap()), blocking)
    {
      if !isAttacking {
        isBlocking := blocking;
        if blocking {
          state := Pose.Block;
          velX := 0.0;
        } else {
          state := Idle;
        }
      }
    }

    /** NinjaFighter.dash: refused while its cooldown runs or while attacking. */
    method DashFields(direction: int, noise: Noise) returns (ok: bool)
      requires gear.NinjaGear?
      modifies this`velX, this`gear, this`particles
      ensures var s := AfterDash(old(Snap()), direction, noise);
        ok == s.ok && velX == s.after.velX && gear == s.after.gear && particles == s.after.particles
    {
      ok := false;
      if gear.dashCooldown == 0 && !isAttacking {
        velX := direction as real * DASH_SPEED;
        gear := gear.(dashCooldown := DASH_COOLDOWN);
        EmitFields(if direction > 0 then x else x + width, y, noise, DASH_BURST);
        ok := true;
      }
    }

    /** NinjaFighter.dash on the whole fighter; only the Shadow Ninja has it. */
    method Dash(direction: int, noise: Noise) returns (ok: bool)
      requires gear.NinjaGear?
      modifies this
      ensures Step(Snap(), ok) == AfterDash(old(Snap()), direction, noise)
    {
      ok := DashFields(direction, noise);
    }

    // -------------------------------------------------------------------------
    // Damage application and the hit check

    /** Fighter.take_damage. */
    method BaseTakeDamageFields(damage: real, knockback: real, noise: Noise) returns (ok: bool)
      modifies this`hp, this`hitCooldown, this`state, this`velX, this`particles
      ensures var s := AfterBaseDamage(old(Snap()), damage, knockback, noise);
        && ok == s.ok && hp == s.after.hp && hitCooldown == s.after.hitCooldown
        && state == s.after.state && velX == s.after.velX && particles == s.after.particles
    {
      ok := false;
      if hitCooldown == 0 {
        var dealt := damage;
        if isBlocking {
          dealt := damage * BLOCK_FACTOR;
        }
        hp := hp - dealt;
        hitCooldown := HIT_INVULNERABILITY;
        state := Hit;
        var direction := if facingRight then -1.0 else 1.0;
        velX := knockback * direction;
        EmitFields(x + width / 2.0, y + height / 2.0, noise, HIT_BURST);
        ok := true;
      }
    }

    /** Fighter.take_damage on the whole fighter, with its success flag. */
    method BaseTakeDamage(damage: real, knockback: real, noise: Noise) returns (ok: bool)
      modifies this
      ensures Step(Snap(), ok) == AfterBaseDamage(old(Snap()), damage, knockback, noise)
    {
      ok := BaseTakeDamageFields(damage, knockback, noise);
    }

    /** The Stone Titan's armor step: spend min(armor, damage) of the armor and shed
        one stone particle per two points absorbed. */
    method SpendArmorFields(damage: real, noise: Noise) returns (absorbed: real, shards: nat)
      requires gear.EarthGear?
      modifies this`gear, this`particles
      ensures absorbed == Absorbed(old(gear.stoneArmor), damage) && shards == ShardCount(absorbed)
      ensures var r := AfterArmor(old(Snap()), damage, noise);
        gear == r.gear && particles == r.particles
    {
      absorbed, shards := 0.0, 0;
      if gear.stoneArmor > 0.0 {
        absorbed := Min(gear.stoneArmor, damage);
        gear := gear.(stoneArmor := gear.stoneArmor - absorbed);
        shards := ShardCount(absorbed);
        EmitFields(x, y, noise, shards);
      }
    }

    /** The armor step on the whole fighter. */
    method SpendArmor(damage: real, noise: Noise) returns (absorbed: real, shards: nat)
      requires gear.EarthGear?
      modifies this
      ensures absorbed == Absorbed(old(gear.stoneArmor), damage) && shards == ShardCount(absorbed)
      ensures Snap() == AfterArmor(old(Snap()), damage, noise)
    {
      absorbed, shards := SpendArmorFields(damage, noise);
    }

    /** A hit submitted to the fighter: EarthFighter.take_damage for the Stone Titan,
        Fighter.take_damage otherwise. */
    method TakeDamage(damage: real, knockback: real, noise: Noise) returns (ok: bool)
      modifies this
      ensures Step(Snap(), ok) == AfterDamage(old(Snap()), damage, knockback, noise)
    {
      if gear.EarthGear? {
        var absorbed, shards := SpendArmor(damage, noise);
        ok := BaseTakeDamage(damage - absorbed, knockback * ARMOR_KNOCKBACK_FACTOR, Shift(noise, shards));
      } else {
        ok := BaseTakeDamage(damage, knockback, noise);
      }
    }

    /** The damage and knockback of the current strike: a special doubles the damage
        and uses the special knockback, and each combo hit adds 10%. */
    method StrikePower() returns (damage: real, knockback: real)
      ensures damage == attackDamage * (if state == Special then 2.0 else 1.0) * (1.0 + comboCounter as real / 10.0)
      ensures damage == StrikeDamage(attackDamage, state == Special, comboCounter)
      ensures knockback == StrikeKnockback(state == Special)
    {
      damage := attackDamage;
      knockback := BASE_KNOCKBACK;
      if state == Special {
        damage := damage * 2.0;
        knockback := SPECIAL_KNOCKBACK;
      }
      if comboCounter > 0 {
        damage := damage * (1.0 + comboCounter as real * 0.1);
      }
    }

    /** An accepted hit: one more in the combo and a fresh combo window. */
    method ExtendCombo()
      modifies this
      ensures Snap() == old(Snap()).(comboCounter := old(comboCounter) + 1, comboTimer := COMBO_WINDOW)
    {
      comboCounter := comboCounter + 1;
      comboTimer := COMBO_WINDOW;
    }

    /** A strike that connects: the opponent takes its damage and an accepted hit
        extends the combo. */
    method Strike(opp: Fighter, noise: Noise)
      requires opp != this
      requires StrikeLive(Snap()) && Overlaps(Hitbox(Snap()), Hurtbox(opp.Snap()))
      modifies this, opp
      ensures Exchange(Snap(), opp.Snap(), true) == AfterBaseCheckHit(old(Snap()), old(opp.Snap()), noise)
    {
      var damage, knockback := StrikePower();
      var landed := opp.TakeDamage(damage, knockback, noise);
      if landed {
        ExtendCombo();
      }
    }

    /** Fighter.check_hit. */
    method BaseCheckHit(opp: Fighter, noise: Noise) returns (hit: bool)
      requires opp != this
      modifies this, opp
      ensures Exchange(Snap(), opp.Snap(), hit) == AfterBaseCheckHit(old(Snap()), old(opp.Snap()), noise)
    {
      hit := false;
      ghost var a0, d0 := Snap(), opp.Snap();
      if isAttacking && attackCooldown as real > ATTACK_DURATION as real / 2.0 {
        var attackX, attackWidth;
        if facingRight {
          attackX := x + width;
          attackWidth := attackRange;
        } else {
          attackX := x - attackRange;
          attackWidth := attackRange;
        }
        assert Box(attackX, y, attackWidth, height) == Hitbox(a0);
        if attackX < opp.x + opp.width && attackX + attackWidth > opp.x
           && y < opp.y + opp.height && y + height > opp.y
        {
          Strike(opp, noise);
          hit := true;
        }
      }
    }

    /** The Shadow Ninja's teleport past the opponent, with smoke at both ends. */
    method TeleportFields(opp: Fighter, noise: Noise)
      requires opp != this
      modifies this`x, this`particles
      ensures var r := Teleported(old(Snap()), opp.Snap(), noise);
        x == r.x && particles == r.particles
    {
      var teleportX := opp.x + opp.width + TELEPORT_GAP;
      if teleportX + width > SCREEN_WIDTH {
        teleportX := opp.x - width - TELEPORT_GAP;
      }
      EmitFields(x + width / 2.0, y + height / 2.0, noise, SMOKE_BURST);
      x := teleportX;
      EmitFields(x + width / 2.0, y + height / 2.0, Shift(noise, SMOKE_BURST), SMOKE_BURST);
    }

    /** The teleport on the whole fighter. */
    method Teleport(opp: Fighter, noise: Noise)
      requires opp != this
      modifies this
      ensures Snap() == Teleported(old(Snap()), opp.Snap(), noise)
    {
      TeleportFields(opp, noise);
    }

    /** NinjaFighter.check_hit: at one tick of its special the Shadow Ninja teleports
        past the opponent before the check. */
    method ShadowCheckHit(opp: Fighter, noise: Noise) returns (hit: bool)
      requires opp != this && gear.NinjaGear?
      modifies this, opp
      ensures Exchange(Snap(), opp.Snap(), hit) == AfterCheckHit(old(Snap()), old(opp.Snap()), noise)
    {
      if state == Special && attackCooldown == TELEPORT_TICK {
        Teleport(opp, noise);
        hit := BaseCheckHit(opp, Shift(noise, 2 * SMOKE_BURST));
      } else {
        hit := BaseCheckHit(opp, noise);
      }
    }

    /** The Flame Master's fireball: flames at the leading edge and the range stretched. */
    method LaunchFireballFields(noise: Noise)
      modifies this`attackRange, this`particles
      ensures var r := Aimed(old(Snap()), noise);
        attackRange == r.attackRange && particles == r.particles
    {
      EmitFields(if facingRight then x + width else x, y + height / 2.0, noise, FIREBALL_BURST);
      attackRange := FIREBALL_RANGE;
    }

    /** The fireball on the whole fighter. */
    method LaunchFireball(noise: Noise)
      modifies this
      ensures Snap() == Aimed(old(Snap()), noise)
    {
      LaunchFireballFields(noise);
    }

    /** Puts back the attack range saved before the fireball check. */
    method RestoreRange(range: real)
      modifies this
      ensures Snap() == old(Snap()).(attackRange := range)
    {
      attackRange := range;
    }

    /** FireFighter.check_hit: at one tick of its special the Flame Master checks with
        the fireball's range, then puts its own range back. */
    method FlameCheckHit(opp: Fighter, noise: Noise) returns (hit: bool)
      requires opp != this && gear.FireGear?
      modifies this, opp
      ensures Exchange(Snap(), opp.Snap(), hit) == AfterCheckHit(old(Snap()), old(opp.Snap()), noise)
    {
      if state == Special && attackCooldown == FIREBALL_TICK {
        var oldRange := attackRange;
        LaunchFireball(noise);
        hit := BaseCheckHit(opp, Shift(noise, FIREBALL_BURST));
        RestoreRange(oldRange);
      } else {
        hit := BaseCheckHit(opp, noise);
      }
    }

    /** A hit check against the opponent, dispatched to the archetype's override. */
    method CheckHit(opp: Fighter, noise: Noise) returns (hit: bool)
      requires opp != this
      modifies this, opp
      ensures Exchange(Snap(), opp.Snap(), hit) == AfterCheckHit(old(Snap()), old(opp.Snap()), noise)
    {
      match gear {
        case NinjaGear(_, _, _) => hit := ShadowCheckHit(opp, noise);
        case FireGear(_, _, _) => hit := FlameCheckHit(opp, noise);
        case _ => hit := BaseCheckHit(opp, noise);
      }
    }
  }
}
