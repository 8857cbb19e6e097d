/** Properties of the damage and hit-check rules that span several of the functions
    in module Rules: the invariant survives a hit, the Stone Titan's armor takes its
    share first, and what a hit check can and cannot do to either fighter. */
module Properties {
  import opened Config
  import opened Particles
  import opened Rules

  /** Damage application keeps the invariant and the archetype. */
  lemma DamagePreservesValid(b: Body, damage: real, knockback: real, noise: Noise)
    requires Valid(b) && damage >= 0.0
    ensures Valid(AfterDamage(b, damage, knockback, noise).after)
    ensures KindOf(AfterDamage(b, damage, knockback, noise).after.gear) == KindOf(b.gear)
  {
    if b.gear.EarthGear? {
      var absorbed := Absorbed(b.gear.stoneArmor, damage);
      assert Valid(AfterArmor(b, damage, noise));
      assert damage - absorbed >= 0.0;
    }
  }

  /** The Stone Titan's take_damage spends min(armor, damage) of its armor whether or
      not the hit is accepted; an accepted hit costs the hit points only the rest
      (mitigated by blocking) and pushes back with 70% of the knockback. */
  lemma ArmorAbsorbsFirst(b: Body, damage: real, knockback: real, noise: Noise)
    requires b.gear.EarthGear? && b.gear.stoneArmor > 0.0 && damage >= 0.0
    ensures var r := AfterDamage(b, damage, knockback, noise);
      var absorbed := Min(b.gear.stoneArmor, damage);
      && r.after.gear == EarthGear(b.gear.stoneArmor - absorbed)
      && (r.ok ==> b.hp - r.after.hp == Mitigated(damage - absorbed, b.isBlocking)
                   && r.after.velX == (if b.facingRight then -knockback else knockback) * ARMOR_KNOCKBACK_FACTOR)
      && (!r.ok ==> r.after.hp == b.hp)
  {
    var r := AfterDamage(b, damage, knockback, noise);
    var b1 := AfterArmor(b, damage, noise);
    assert r == AfterBaseDamage(b1, damage - Absorbed(b.gear.stoneArmor, damage),
                                knockback * ARMOR_KNOCKBACK_FACTOR,
                                Shift(noise, ShardCount(Absorbed(b.gear.stoneArmor, damage))));
  }

  /** Damage no larger than the armor never reaches the hit points. */
  lemma ArmorSoaksSmallHits(b: Body, damage: real, knockback: real, noise: Noise)
    requires b.gear.EarthGear? && 0.0 <= damage <= b.gear.stoneArmor
    ensures AfterDamage(b, damage, knockback, noise).after.hp == b.hp
  {
    if b.gear.stoneArmor > 0.0 {
      ArmorAbsorbsFirst(b, damage, knockback, noise);
    } else {
      assert Mitigated(damage - Absorbed(b.gear.stoneArmor, damage), b.isBlocking) == 0.0;
    }
  }

  /** A hit check keeps both fighters' invariants and archetypes. */
  lemma BaseCheckHitPreservesValid(a: Body, d: Body, noise: Noise)
    requires Valid(a) && Valid(d)
    ensures var r := AfterBaseCheckHit(a, d, noise);
      && Valid(r.attacker) && Valid(r.defender)
      && KindOf(r.attacker.gear) == KindOf(a.gear) && KindOf(r.defender.gear) == KindOf(d.gear)
  {
    if StrikeLive(a) && Overlaps(Hitbox(a), Hurtbox(d)) {
      var special := a.state == Special;
      DamagePreservesValid(d, StrikeDamage(a.attackDamage, special, a.comboCounter), StrikeKnockback(special), noise);
    }
  }

  lemma CheckHitPreservesValid(a: Body, d: Body, noise: Noise)
    requires Valid(a) && Valid(d)
    ensures var r := AfterCheckHit(a, d, noise);
      && Valid(r.attacker) && Valid(r.defender)
      && KindOf(r.attacker.gear) == KindOf(a.gear) && KindOf(r.defender.gear) == KindOf(d.gear)
  {
    if TeleportsNow(a) {
      BaseCheckHitPreservesValid(Teleported(a, d, noise), d, Shift(noise, 2 * SMOKE_BURST));
    } else if FireballNow(a) {
      BaseCheckHitPreservesValid(Aimed(a, noise), d, Shift(noise, FIREBALL_BURST));
    } else {
      BaseCheckHitPreservesValid(a, d, noise);
    }
  }

  /** Damage application never moves the fighter nor touches its size, maximum or
      attack damage, and non-negative damage never raises its hit points. */
  lemma DamageFrame(b: Body, damage: real, knockback: real, noise: Noise)
    ensures var r := AfterDamage(b, damage, knockback, noise).after;
      && r.x == b.x && r.y == b.y && r.width == b.width && r.maxHp == b.maxHp
      && r.attackDamage == b.attackDamage
      && (damage >= 0.0 ==> r.hp <= b.hp)
  {
    if b.gear.EarthGear? {
      var absorbed := Absorbed(b.gear.stoneArmor, damage);
      var b1 := AfterArmor(b, damage, noise);
      assert AfterDamage(b, damage, knockback, noise)
          == AfterBaseDamage(b1, damage - absorbed, knockback * ARMOR_KNOCKBACK_FACTOR, Shift(noise, ShardCount(absorbed)));
      assert damage >= 0.0 ==> damage - absorbed >= 0.0;
    }
  }

  /** The base hit check changes only the attacker's combo; the defender keeps its
      place, size, maximum and attack damage, and a strike of non-negative damage never
      raises the defender's hit points. */
  lemma BaseCheckHitFrame(a: Body, d: Body, noise: Noise)
    ensures var r := AfterBaseCheckHit(a, d, noise);
      && r.attacker == a.(comboCounter := r.attacker.comboCounter, comboTimer := r.attacker.comboTimer)
      && r.defender.x == d.x && r.defender.y == d.y && r.defender.width == d.width
      && r.defender.maxHp == d.maxHp && r.defender.attackDamage == d.attackDamage
      && (a.attackDamage >= 0.0 ==> r.defender.hp <= d.hp)
  {
    if StrikeLive(a) && Overlaps(Hitbox(a), Hurtbox(d)) {
      var special := a.state == Special;
      DamageFrame(d, StrikeDamage(a.attackDamage, special, a.comboCounter), StrikeKnockback(special), noise);
    }
  }

  /** What any archetype's hit check leaves alone: the attacker's hit points, maximum,
      size and attack damage, and its position except for the Shadow Ninja's teleport;
      the defender's position, size, maximum and attack damage. A strike of non-negative
      damage never raises the defender's hit points. */
  lemma CheckHitFrame(a: Body, d: Body, noise: Noise)
    ensures var r := AfterCheckHit(a, d, noise);
      && r.attacker.hp == a.hp && r.attacker.maxHp == a.maxHp && r.attacker.width == a.width
      && r.attacker.attackDamage == a.attackDamage
      && r.attacker.x == (if TeleportsNow(a) then TeleportX(a, d) else a.x)
      && r.defender.x == d.x && r.defender.width == d.width
      && r.defender.maxHp == d.maxHp && r.defender.attackDamage == d.attackDamage
      && (a.attackDamage >= 0.0 ==> r.defender.hp <= d.hp)
  {
    if TeleportsNow(a) {
      BaseCheckHitFrame(Teleported(a, d, noise), d, Shift(noise, 2 * SMOKE_BURST));
    } else if FireballNow(a) {
      BaseCheckHitFrame(Aimed(a, noise), d, Shift(noise, FIREBALL_BURST));
    } else {
      BaseCheckHitFrame(a, d, noise);
    }
  }
}
