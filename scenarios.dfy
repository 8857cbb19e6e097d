/** Properties of the rules over several operations: what runs of ticks do to the
    combo window, the attack window and an overheated Flame Master, the Shadow Ninja's
    one extra jump, the gates in front of take_damage, the geometry of the hit test and
    of the teleport, and two worked first hits. */
module Scenarios {
  import opened Config
  import opened Particles
  import opened Rules
  import opened Properties
  import Match

  /** The fighter after one update per opponent snapshot in turn. */
  function Ticks(b: Body, opps: seq<Body>): Body
    decreases |opps|
  {
    if opps == [] then b else Ticks(AfterUpdate(b, opps[0]), opps[1..])
  }

  // ---------------------------------------------------------------------------
  // Clocks

  /** The combo window: for as many ticks as the timer shows, the combo count is kept
      and the timer runs down; the count is cleared on the tick after the timer has
      reached zero, so it survives one tick longer than the timer. */
  lemma {:induction false} ComboClock(b: Body, opps: seq<Body>)
    ensures var r := Ticks(b, opps);
      && r.comboTimer == (if |opps| <= b.comboTimer then b.comboTimer - |opps| else 0)
      && r.comboCounter == (if |opps| <= b.comboTimer then b.comboCounter else 0)
    decreases |opps|
  {
    if opps != [] {
      ComboClock(AfterUpdate(b, opps[0]), opps[1..]);
    }
  }

  /** The attack cooldown runs down one per tick, the attacking flag drops on the tick
      it reaches zero, and neither the pose nor blocking is touched on the way. */
  lemma {:induction false} AttackClock(b: Body, opps: seq<Body>)
    requires b.isAttacking <==> b.attackCooldown > 0
    ensures var r := Ticks(b, opps);
      && r.attackCooldown == (if |opps| <= b.attackCooldown then b.attackCooldown - |opps| else 0)
      && (r.isAttacking <==> |opps| < b.attackCooldown)
      && r.state == b.state && r.isBlocking == b.isBlocking
    decreases |opps|
  {
    if opps != [] {
      AttackClock(AfterUpdate(b, opps[0]), opps[1..]);
    }
  }

  /** A granted attack can connect during its first ten ticks only, ends after
      twenty, and then leaves the fighter free to attack again while still showing the
      attack pose. */
  lemma AttackLifecycle(b: Body, opps: seq<Body>)
    requires AfterAttack(b).ok
    ensures var r := Ticks(AfterAttack(b).after, opps);
      && (StrikeLive(r) <==> |opps| < ATTACK_DURATION / 2)
      && (r.isAttacking <==> |opps| < ATTACK_DURATION)
      && r.state == Attack
      && (|opps| >= ATTACK_DURATION ==> CanAttack(r))
  {
    AttackClock(AfterAttack(b).after, opps);
  }

  /** During a granted special the Shadow Ninja's teleport tick comes exactly once,
      fifteen ticks later, while the strike is live. */
  lemma TeleportTickOnce(b: Body, noise: Noise, opps: seq<Body>)
    requires b.gear.NinjaGear? && AfterSpecial(b, noise).ok
    ensures var r := Ticks(AfterSpecial(b, noise).after, opps);
      && (TeleportsNow(r) <==> |opps| == SPECIAL_DURATION - TELEPORT_TICK)
      && (TeleportsNow(r) ==> StrikeLive(r))
  {
    var s := AfterSpecial(b, noise).after;
    assert s.state == Special && s.isAttacking && s.attackCooldown == SPECIAL_DURATION && s.gear.NinjaGear?;
    SpecialClock(s, opps);
  }

  lemma SpecialClock(s: Body, opps: seq<Body>)
    requires s.gear.NinjaGear? && s.state == Special && s.isAttacking && s.attackCooldown == SPECIAL_DURATION
    ensures var r := Ticks(s, opps);
      && (TeleportsNow(r) <==> |opps| == SPECIAL_DURATION - TELEPORT_TICK)
      && (TeleportsNow(r) ==> StrikeLive(r))
  {
    AttackClock(s, opps);
    TicksKeepKind(s, opps);
  }

  lemma {:induction false} TicksKeepKind(b: Body, opps: seq<Body>)
    ensures KindOf(Ticks(b, opps).gear) == KindOf(b.gear)
    decreases |opps|
  {
    if opps != [] {
      TicksKeepKind(AfterUpdate(b, opps[0]), opps[1..]);
    }
  }

  /** A Flame Master that is not overheated keeps its heat through any run of ticks. */
  lemma {:induction false} CoolStaysCool(b: Body, opps: seq<Body>)
    requires b.gear.FireGear? && !b.gear.overheated
    ensures var r := Ticks(b, opps);
      r.gear.FireGear? && !r.gear.overheated && r.gear.heat == b.gear.heat
    decreases |opps|
  {
    if opps != [] {
      CoolStaysCool(AfterUpdate(b, opps[0]), opps[1..]);
    }
  }

  /** An overheated Flame Master sheds half a point of heat per tick and stays
      overheated while heat is left; on the tick the heat would reach zero or below it
      is clamped to zero and the latch is released. */
  lemma {:induction false} Cooling(b: Body, opps: seq<Body>)
    requires b.gear.FireGear? && b.gear.overheated && GearValid(b.gear)
    ensures var r := Ticks(b, opps);
      && r.gear.FireGear?
      && (|opps| as real * COOLING_RATE < b.gear.heat ==>
            r.gear.overheated && r.gear.heat == b.gear.heat - |opps| as real * COOLING_RATE)
      && (|opps| as real * COOLING_RATE >= b.gear.heat ==> !r.gear.overheated && r.gear.heat == 0.0)
    decreases |opps|
  {
    if opps != [] {
      var u := AfterUpdate(b, opps[0]);
      if u.gear.overheated {
        Cooling(u, opps[1..]);
      } else {
        CoolStaysCool(u, opps[1..]);
      }
    }
  }

  /** Once overheated, the Flame Master's attacks are refused until the latch drops. */
  lemma OverheatedCannotAttack(b: Body, noise: Noise)
    requires b.gear.FireGear? && b.gear.overheated
    ensures AfterAttack(b) == Step(b, false)
    ensures AfterSpecial(b, noise) == Step(b, false)
  {
  }

  // ---------------------------------------------------------------------------
  // The Shadow Ninja's jumps

  /** The extra jump in mid-air is taken once: it uses 80% of the jump strength and
      a second request in the same flight changes nothing. */
  lemma DoubleJumpOnce(b: Body, n1: Noise, n2: Noise)
    requires DoubleJumps(b)
    ensures var j := AfterJump(b, n1);
      && j.velY == b.jumpStrength * DOUBLE_JUMP_FACTOR && j.gear.hasDoubleJumped && j.isJumping
      && AfterJump(j, n2) == j
  {
  }

  /** The extra jump ignores the attacking and blocking flags that stop a jump from
      the ground. */
  lemma DoubleJumpIgnoresGuards(b: Body, noise: Noise)
    requires DoubleJumps(b) && (b.isAttacking || b.isBlocking)
    ensures AfterBaseJump(b) == b
    ensures AfterJump(b, noise).velY == b.jumpStrength * DOUBLE_JUMP_FACTOR
  {
  }

  /** Landing gives the extra jump back, so the next request in the air is again a
      double jump. */
  lemma LandingRestoresDoubleJump(b: Body, opp: Body)
    requires b.gear.NinjaGear? && Lands(b)
    ensures var u := AfterUpdate(b, opp);
      !u.isJumping && !u.gear.hasDoubleJumped && u.gear.canDoubleJump == b.gear.canDoubleJump
  {
  }

  // ---------------------------------------------------------------------------
  // The gates in front of take_damage

  /** During the invulnerability window a hit is rejected and costs no hit points; only
      the Stone Titan's armor is still spent. */
  lemma InvulnerableTakesNothing(b: Body, damage: real, knockback: real, noise: Noise)
    requires b.hitCooldown > 0
    ensures var r := AfterDamage(b, damage, knockback, noise);
      && !r.ok && r.after.hp == b.hp && r.after.hitCooldown == b.hitCooldown
      && r.after.state == b.state && r.after.velX == b.velX
      && (!b.gear.EarthGear? ==> r.after == b)
      && (b.gear.EarthGear? ==> r.after.gear.stoneArmor == b.gear.stoneArmor - Absorbed(b.gear.stoneArmor, damage))
  {
    if b.gear.EarthGear? {
      var absorbed := Absorbed(b.gear.stoneArmor, damage);
      assert AfterDamage(b, damage, knockback, noise)
          == AfterBaseDamage(AfterArmor(b, damage, noise), damage - absorbed,
                             knockback * ARMOR_KNOCKBACK_FACTOR, Shift(noise, ShardCount(absorbed)));
    }
  }

  /** Without a live strike a hit check reports no hit and leaves the defender alone. */
  lemma NoStrikeNoHit(a: Body, d: Body, noise: Noise)
    requires !StrikeLive(a)
    ensures var r := AfterCheckHit(a, d, noise);
      !r.hit && r.defender == d && r.attacker.comboCounter == a.comboCounter
  {
  }

  /** The combo grows by one exactly when the boxes overlap and the defender is not
      invulnerable; an overlap during the window is still reported as a hit. */
  lemma ComboOnlyOnAcceptedHit(a: Body, d: Body, noise: Noise)
    ensures var r := AfterCheckHit(a, d, noise);
      && r.attacker.comboCounter == (if r.hit && d.hitCooldown == 0 then a.comboCounter + 1 else a.comboCounter)
      && (r.hit && d.hitCooldown > 0 ==> r.defender.hp == d.hp)
  {
    if TeleportsNow(a) {
      BaseComboOnlyOnAcceptedHit(Teleported(a, d, noise), d, Shift(noise, 2 * SMOKE_BURST));
    } else if FireballNow(a) {
      BaseComboOnlyOnAcceptedHit(Aimed(a, noise), d, Shift(noise, FIREBALL_BURST));
    } else {
      BaseComboOnlyOnAcceptedHit(a, d, noise);
    }
  }

  lemma BaseComboOnlyOnAcceptedHit(a: Body, d: Body, noise: Noise)
    ensures var r := AfterBaseCheckHit(a, d, noise);
      && r.attacker.comboCounter == (if r.hit && d.hitCooldown == 0 then a.comboCounter + 1 else a.comboCounter)
      && (r.hit && d.hitCooldown > 0 ==> r.defender.hp == d.hp)
  {
    if StrikeLive(a) && Overlaps(Hitbox(a), Hurtbox(d)) && d.hitCooldown > 0 {
      var special := a.state == Special;
      InvulnerableTakesNothing(d, StrikeDamage(a.attackDamage, special, a.comboCounter), StrikeKnockback(special), noise);
    }
  }

  /** A plain attack that connects with combo count n on a defender that is not
      invulnerable deals the attack damage times 1 + n/10 (30% of it through a block):
      the hit landed after n earlier ones of the combo, so the fifth deals 1.4 times the
      base. The combo then counts this hit and its window restarts. */
  lemma ComboHitDamage(a: Body, d: Body, noise: Noise)
    requires StrikeLive(a) && a.state == Attack && Overlaps(Hitbox(a), Hurtbox(d))
    requires d.hitCooldown == 0 && !d.gear.EarthGear?
    ensures var r := AfterCheckHit(a, d, noise);
      && r.hit
      && d.hp - r.defender.hp == Mitigated(a.attackDamage * (1.0 + a.comboCounter as real / 10.0), d.isBlocking)
      && (a.comboCounter == 4 ==> d.hp - r.defender.hp == Mitigated(a.attackDamage * 1.4, d.isBlocking))
      && r.attacker.comboCounter == a.comboCounter + 1 && r.attacker.comboTimer == COMBO_WINDOW
  {
  }

  // ---------------------------------------------------------------------------
  // Geometry

  /** A point strictly inside a box. */
  predicate Inside(b: Box, px: real, py: real) {
    b.x < px < b.x + b.w && b.y < py < b.y + b.h
  }

  /** For boxes of positive size, the strict overlap test holds exactly when the boxes
      share an interior point. */
  lemma OverlapIffSharedPoint(p: Box, q: Box)
    requires p.w > 0.0 && p.h > 0.0 && q.w > 0.0 && q.h > 0.0
    ensures Overlaps(p, q) <==> exists px, py :: Inside(p, px, py) && Inside(q, px, py)
  {
    if Overlaps(p, q) {
      var left := if p.x < q.x then q.x else p.x;
      var right := if p.x + p.w < q.x + q.w then p.x + p.w else q.x + q.w;
      var top := if p.y < q.y then q.y else p.y;
      var bottom := if p.y + p.h < q.y + q.h then p.y + p.h else q.y + q.h;
      assert Inside(p, (left + right) / 2.0, (top + bottom) / 2.0);
      assert Inside(q, (left + right) / 2.0, (top + bottom) / 2.0);
    }
  }

  /** The overlap test does not depend on the order of the boxes. */
  lemma OverlapsSymmetric(p: Box, q: Box)
    ensures Overlaps(p, q) <==> Overlaps(q, p)
  {
  }

  /** Against an opponent inside the arena, the teleport lands inside the arena as long
      as the opponent and twice the Ninja's width with both gaps fit across it (true of
      every archetype's size). */
  lemma TeleportStaysInArena(a: Body, d: Body)
    requires 0.0 <= d.x && d.x + d.width <= SCREEN_WIDTH && 0.0 < d.width && 0.0 < a.width
    requires d.width + 2.0 * a.width + 2.0 * TELEPORT_GAP <= SCREEN_WIDTH
    ensures 0.0 <= TeleportX(a, d) <= SCREEN_WIDTH - a.width
  {
  }

  /** Over a whole tick both fighters of roster size stay inside the arena: the updates
      clamp them, and a teleport in either hit check happens against an opponent that
      the update has just clamped. */
  lemma RoundStaysInArena(p1: Body, p2: Body, n1: Noise, n2: Noise)
    requires Valid(p1) && Valid(p2) && p1.width <= 60.0 && p2.width <= 60.0
    ensures var r := Match.AfterRound(p1, p2, n1, n2);
      && 0.0 <= r.p1.x <= SCREEN_WIDTH - r.p1.width
      && 0.0 <= r.p2.x <= SCREEN_WIDTH - r.p2.width
  {
    var u1 := AfterUpdate(p1, p2);
    var u2 := AfterUpdate(p2, u1);
    var e1 := AfterCheckHit(u1, u2, n1);
    CheckHitFrame(u1, u2, n1);
    TeleportStaysInArena(u1, u2);
    var e2 := AfterCheckHit(e1.defender, e1.attacker, n2);
    CheckHitFrame(e1.defender, e1.attacker, n2);
    TeleportStaysInArena(e1.defender, e1.attacker);
  }

  /** Without that size bound the teleport can leave the arena: against an opponent at
      the left wall that nearly spans the arena the Ninja lands left of it. */
  lemma TeleportCanLeaveArena()
    ensures var a := Initial(Ninja, 300.0, 420.0);
      var d := Initial(Earth, 0.0, 405.0).(width := 760.0);
      Valid(d) && TeleportX(a, d) < 0.0
  {
  }

  // ---------------------------------------------------------------------------
  // Two worked first hits

  /** A Shadow Ninja attacking a Volt Striker that stands within reach and faces it:
      8 damage, the invulnerability window, a push of 5 away from the attacker, the hit
      burst, and the first combo hit. */
  lemma FirstHitOnVolt(noise: Noise)
    ensures var a := AfterAttack(Initial(Ninja, 100.0, 420.0)).after;
      var d := Initial(Electric, 145.0, 410.0).(facingRight := false);
      var r := AfterCheckHit(a, d, noise);
      && r.hit
      && r.defender.hp == 82.0 && r.defender.hitCooldown == HIT_INVULNERABILITY
      && r.defender.state == Hit && r.defender.velX == BASE_KNOCKBACK
      && |r.defender.particles| == HIT_BURST
      && r.attacker.comboCounter == 1 && r.attacker.comboTimer == COMBO_WINDOW
  {
    var a := AfterAttack(Initial(Ninja, 100.0, 420.0)).after;
    var d := Initial(Electric, 145.0, 410.0).(facingRight := false);
    assert StrikeLive(a) && Overlaps(Hitbox(a), Hurtbox(d));
  }

  /** The same strike on a Stone Titan: its armor soaks all 8 points and sheds four
      stones, its hit points stay full, and the push is cut to 70%. */
  lemma FirstHitOnStone(noise: Noise)
    ensures var a := AfterAttack(Initial(Ninja, 100.0, 420.0)).after;
      var d := Initial(Earth, 145.0, 405.0).(facingRight := false);
      var r := AfterCheckHit(a, d, noise);
      && r.hit
      && r.defender.hp == 140.0 && r.defender.gear == EarthGear(22.0)
      && r.defender.velX == BASE_KNOCKBACK * ARMOR_KNOCKBACK_FACTOR
      && |r.defender.particles| == 4 + HIT_BURST
      && r.attacker.comboCounter == 1
  {
    var a := AfterAttack(Initial(Ninja, 100.0, 420.0)).after;
    var d := Initial(Earth, 145.0, 405.0).(facingRight := false);
    assert !TeleportsNow(a) && !FireballNow(a);
    assert StrikeLive(a) && Overlaps(Hitbox(a), Hurtbox(d));
    assert StrikeDamage(a.attackDamage, false, 0) == 8.0 && a.state != Special;
    assert ShardCount(8.0) == 4;
    ArmorStep(d, 8.0, BASE_KNOCKBACK, noise);
  }

  lemma ArmorStep(d: Body, damage: real, knockback: real, noise: Noise)
    requires d.gear.EarthGear? && d.hitCooldown == 0 && 0.0 <= damage <= d.gear.stoneArmor
    ensures var r := AfterDamage(d, damage, knockback, noise);
      && r.ok && r.after.hp == d.hp && r.after.gear == EarthGear(d.gear.stoneArmor - damage)
      && r.after.velX == (if d.facingRight then -knockback else knockback) * ARMOR_KNOCKBACK_FACTOR
      && |r.after.particles| == |d.particles| + ShardCount(damage) + HIT_BURST
  {
    var absorbed := Absorbed(d.gear.stoneArmor, damage);
    var b1 := AfterArmor(d, damage, noise);
    assert AfterDamage(d, damage, knockback, noise)
        == AfterBaseDamage(b1, damage - absorbed, knockback * ARMOR_KNOCKBACK_FACTOR, Shift(noise, ShardCount(absorbed)));
  }
}
