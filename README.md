# Street-fighter combat engine in Dafny

This project models the combat engine of a two-player, tick-driven fighting game.
Each player controls a fighter of one of four archetypes:

- the Shadow Ninja, with a double jump, a dash and a teleport during its special;
- the Volt Striker, with a charge meter;
- the Flame Master, with a heat meter, an overheat latch, a fireball cooldown and a range stretch on its fireball tick;
- the Stone Titan, with stone armor that soaks damage before its hit points do.

Every tick of a match does four things in order:

1. the first fighter's `update`;
2. the second fighter's `update`;
3. the first fighter's hit check against the second;
4. the second fighter's hit check against the first.

After those steps the game-over test decides the winner. Between ticks, the players' requests reach the fighters: move, jump, attack, special, block and the ninja's dash.

The project has two layers.

- **Module `Rules`** describes each operation as a function on a value `Body`, which snapshots every field a fighter has. These functions carry the properties the program promises.
- **Class `Fighters.Fighter`** is the program's object. Its fields are updated in place, and each method is proved to leave the object in exactly the state given by the matching `Rules` function.
  - The archetype subclasses become a `Gear` payload on the fighter.
  - Overrides are dispatched on the payload.
  - The `Base*` methods are what the overrides reach through `super()`.
  - Most operations that write several fields have two methods. One, named `...Fields`, writes the fields in the program's order. The other states the whole fighter afterwards. The short ones, `Move` and `Block`, state the whole fighter in a single method.

The other modules are:

- `Config` holds the constants.
- `Particles` holds particle aging, the survivor filter and particle bursts.
- `Properties` holds lemmas about damage and the hit check.
- `Match` holds:
  - the roster and the selection cursor;
  - the fighters placed at the start of a match;
  - the tick on two fighter objects, which must be distinct;
  - the winner decision.
- `Scenarios` holds lemmas over runs of ticks and over sequences of requests, plus two worked first hits and a whole tick kept inside the arena.

Modelling choices:

- **Numbers.** Positions, velocities, hit points, damage and meters are exact `real`s. Tick timers are `nat`s. The attack duration is 20 for every archetype, so these derived values are integers: 30 for `1.5 * 20`, 15 for `int(20 * 0.75)` and 16 for `int(20 * 0.8)`. The one-shot teleport and fireball ticks test equality against these integer timers. Python's `int()` is modelled as truncation toward zero (`Rules.Trunc`).
- **Randomness.** Every random draw behind a spawned particle comes from a `Noise` parameter, a function from draw index to draw. What matters is each burst's count, anchor and order. `Shift` hands the unused draws to the next burst.

## Model

| member | source | states |
|---|---|---|
| Particles.Aged | street-fighter-game.py:67-74 | a particle moves by its velocity, gains a tenth of gravity, never shrinks below size 1 (and shrinks otherwise), and ages one tick with its lifetime kept |
| Particles.Survivors | street-fighter-game.py:158 | the surviving list is no longer than before, each survivor is the aged form of some old particle and is alive with size at least 1, and every particle still alive after aging is kept |
| Particles.LiveIndices | street-fighter-game.py:158 | the positions of the particles alive once aged, each a valid position, strictly increasing, and containing a position exactly when that particle is alive after aging |
| Particles.SurvivorsInOrder | street-fighter-game.py:158 | the survivor list has one entry per live position and its k-th entry is the aged particle at the k-th live position, so every live particle is kept once, expired ones are dropped, and the order of the old list is kept |
| Particles.AgeAll | street-fighter-game.py:158 | the loop over the particle list produces exactly the survivor list |
| Particles.Burst | street-fighter-game.py:230-243 | a burst of n particles has n members, the i-th spawned from the i-th draw at the anchor, all of age 0 |
| Particles.Spawn | street-fighter-game.py:230-243 | a spawned particle starts at age 0 with the drawn lifetime and size, offset from its anchor by the drawn offset |
| Rules.CountDown | street-fighter-game.py:140-149 | a timer drops by one per tick and stops at zero |
| Rules.Initial | street-fighter-game.py:85-117 | a new fighter of each archetype satisfies the invariant and has the archetype's payload; it sits at the given point, at rest, at full hit points, idle, facing right, with no particles and every timer at zero |
| Rules.AfterPhysics | street-fighter-game.py:119-137 | only position, vertical speed and the jumping flag change; the fighter ends on or above the floor; a fall past the floor lands it (bottom at the floor, vertical speed 0, not jumping), otherwise gravity is added to the vertical speed, y moves by the new speed and the jumping flag stays; x is x + velX when that fits, 0 when it would pass the left wall and the arena width minus the fighter width when it would pass the right wall |
| Rules.AfterTimers | street-fighter-game.py:139-155 | each of the four timers counts down; the attacking flag drops exactly on the tick the attack cooldown goes from 1 to 0; the combo count is cleared only on a tick that starts with the combo timer at 0; nothing else changes |
| Rules.Faced | street-fighter-game.py:165-170 | the fighter faces right exactly when its centre is left of the opponent's; nothing else changes |
| Rules.AfterBaseUpdate | street-fighter-game.py:119-170 | the base tick moves the fighter as the physics step says, counts the attack cooldown and combo timer down, ages and filters the particles and faces the opponent; the payload, pose, hit points and horizontal speed are untouched |
| Rules.GearTick | street-fighter-game.py:433-441 | the archetype's per-tick resource step keeps the archetype and the meter invariant: ninja dash cooldown counts down and the double-jump flag clears on the ground; volt charge grows by 0.2 up to 100 only on the ground and not attacking; an overheated flame master sheds 0.5 heat and releases the latch at 0 (clamped), and its fireball cooldown counts down; stone armor regenerates 0.1 up to 30 (also lines 540-545, 616-641, 719-724) |
| Rules.AfterGearTick | street-fighter-game.py:433-441 | the subclass part of update changes only the payload, keeps the archetype and keeps the meter ranges (also lines 540-545, 616-641, 719-724) |
| Rules.AfterUpdate | street-fighter-game.py:119-170 | one tick keeps the invariant and the archetype; position, vertical speed and jumping flag are those of the physics step (x moves by velX within the walls, the fall under gravity or the landing); the facing rule, the four countdowns, the attacking-flag drop, the combo reset and the particle survivor filter hold; the gear takes its per-tick step; the pose, hit points, horizontal speed, blocking flag and stats are untouched (the pose is never reset by the tick) |
| Rules.AfterMove | street-fighter-game.py:172-178 | a move is ignored while attacking or blocking; otherwise it sets the horizontal speed to speed times direction and the pose to walk or idle; the invariant is kept |
| Rules.AfterBaseJump | street-fighter-game.py:180-184 | a jump from the ground when not attacking or blocking sets the vertical speed to the jump strength, the jumping flag and the jump pose; every other request changes nothing |
| Rules.AfterJump | street-fighter-game.py:443-463 | the ninja's jump request in mid-air with the extra jump unused takes 80% of the jump strength, marks the extra jump used and appends 5 particles, whatever the attacking or blocking flags; every other request is the base jump; invariant and archetype kept |
| Rules.AfterBaseAttack | street-fighter-game.py:186-194 | an attack is granted iff not attacking, not blocking and the attack cooldown is 0; a granted attack sets attacking, cooldown 20, attack pose and speed 0; a refused one changes nothing |
| Rules.Trunc | street-fighter-game.py:565 | Python's int() on a real: the integer toward zero within one of the value |
| Rules.MeterBonus | street-fighter-game.py:565 | the bonus of a non-negative meter is the whole number of twenties in it: integral, non-negative, at most level/20 and within one of it; at most 5 for a meter in [0, 100] (also line 649) |
| Rules.AfterAttack | street-fighter-game.py:561-570 | an attack is granted iff the base attack would be and the flame master is not overheated; a refused one changes nothing; a granted one is the base attack with only the attack damage and the payload possibly changed, and for the ninja and the stone titan it is exactly the base attack; volt with more than 10 charge deals 12 + int(charge/20) and spends 10, otherwise deals 12 with charge untouched; flame heat becomes min(100, heat + 15), damage 15 + int(heat/20), the latch is set iff heat reached 100 and the fireball cooldown is kept; invariant and archetype kept (also lines 643-657) |
| Rules.AfterBaseSpecial | street-fighter-game.py:196-205 | a special is granted iff not attacking, not blocking and the special cooldown is 0; it then sets attacking, attack cooldown 30, special cooldown 120, the special pose and speed 0; a refused one changes nothing |
| Rules.AfterSpecial | street-fighter-game.py:486-490 | a special is granted iff the archetype's gate (volt charge at least 50; flame not overheated, heat at least 40, fireball ready) and the base gate both hold, and a refused one changes nothing, the gate being checked first; a granted one is the base special with only the payload, speed and particles possibly changed, the old particles always kept in front; the ninja's is exactly the base special; volt spends 50 charge and adds 30 particles; flame spends 40 heat, sets the fireball cooldown to 90 and adds no particles; stone restores the armor to 30, slows to 80% and adds 30 particles; only the stone titan changes speed; invariant and archetype kept (also lines 572-592, 659-666, 750-776) |
| Rules.AfterBlock | street-fighter-game.py:207-214 | a block request is ignored while attacking; otherwise it sets the blocking flag, the block or idle pose, and zero speed when blocking; the invariant is kept |
| Rules.AfterDash | street-fighter-game.py:465-484 | a dash is granted iff the dash cooldown is 0 and the ninja is not attacking; it sets the horizontal speed to 15 times direction and the dash cooldown to 45, and appends 10 particles with the old ones kept in front; a refused one changes nothing |
| Rules.Mitigated | street-fighter-game.py:218-219 | a blocking fighter takes 30% of the damage, any other all of it; never more than the damage nor below zero |
| Rules.AfterBaseDamage | street-fighter-game.py:216-246 | a hit is accepted iff the invulnerability timer is 0; a rejected one changes nothing; an accepted one costs exactly the mitigated damage in hit points, starts a 15-tick invulnerability, sets the hit pose, pushes by the knockback away from the facing side and appends 10 particles, and changes nothing else |
| Rules.Absorbed | street-fighter-game.py:728-729 | the armor spent is min(armor, damage) when there is armor, else none |
| Rules.ShardCount | street-fighter-game.py:734 | one stone particle per two points absorbed, rounded down; none for less than 2 |
| Rules.AfterArmor | street-fighter-game.py:727-745 | the armor drops by the absorbed amount and stays within its range, the shards are appended behind the old particles, and nothing else changes |
| Rules.AfterDamage | street-fighter-game.py:726-748 | a hit on a stone titan is first absorbed by the armor and then submitted to the base take_damage with the rest of the damage and 70% of the knockback, so acceptance still depends only on the invulnerability timer; other archetypes use the base take_damage |
| Rules.Hitbox | street-fighter-game.py:251-256 | the strike box is the attack range wide and the fighter's height tall, starting at the right edge when facing right and ending at the left edge otherwise |
| Rules.StrikeDamage | street-fighter-game.py:265-274 | strike damage is the attack damage, doubled for a special, times 1 + combo/10; non-negative for non-negative damage |
| Rules.AfterBaseCheckHit | street-fighter-game.py:248-281 | the check reports a hit iff the attack is in its first half and the strike box strictly overlaps the opponent; without a hit nobody changes; with one the opponent takes the strike's damage and knockback, and the combo grows and its window restarts only when take_damage accepted the hit |
| Rules.Teleported | street-fighter-game.py:494-529 | the teleport moves the ninja to the teleport target and appends two 15-particle smoke bursts behind the old particles; nothing else changes |
| Rules.TeleportX | street-fighter-game.py:496-498 | the teleport target clears the opponent by the 10-unit gap on one side: just past its far side when the ninja fits before the right wall, otherwise just before its near side |
| Rules.Aimed | street-fighter-game.py:672-689 | the fireball tick stretches the range to 150 and appends 20 flame particles behind the old ones; nothing else changes |
| Rules.AfterCheckHit | street-fighter-game.py:492-531 | on the ninja's special tick 15 the check runs after the teleport; on the flame master's special tick 16 it runs with range 150 after the fireball burst; otherwise it is the base check; the attack range is unchanged afterwards (also lines 668-694) |
| Properties.DamagePreservesValid | street-fighter-game.py:216-246 | taking non-negative damage keeps the invariant and the archetype (also lines 726-748) |
| Properties.ArmorAbsorbsFirst | street-fighter-game.py:726-748 | a stone titan with armor spends min(armor, damage) of it whether or not the hit is accepted; an accepted hit costs only the mitigated remainder and pushes with 70% of the knockback; a rejected one leaves the hit points |
| Properties.ArmorSoaksSmallHits | street-fighter-game.py:726-748 | damage no larger than the armor never reaches the hit points |
| Properties.BaseCheckHitPreservesValid | street-fighter-game.py:248-281 | the base hit check keeps both fighters' invariants and archetypes |
| Properties.CheckHitPreservesValid | street-fighter-game.py:492-531 | every archetype's hit check keeps both fighters' invariants and archetypes (also lines 668-694) |
| Properties.DamageFrame | street-fighter-game.py:216-246 | damage application never moves the fighter or changes its size, maximum or attack damage, and non-negative damage never raises the hit points (also lines 726-748) |
| Properties.BaseCheckHitFrame | street-fighter-game.py:248-281 | the base hit check changes only the attacker's combo; the defender keeps its position, size, maximum and attack damage, and a non-negative strike never raises its hit points |
| Properties.CheckHitFrame | street-fighter-game.py:492-531 | every archetype's hit check leaves the attacker's hit points, maximum, size and attack damage and, except for the ninja's teleport, its position; the defender keeps position, size, maximum and attack damage and never gains hit points from a non-negative strike (also lines 668-694) |
| Fighters.Fighter.constructor | street-fighter-game.py:85-117 | the new object is the initial fighter of the archetype and satisfies the invariant (also lines 424-431, 533-538, 607-614, 710-717) |
| Fighters.Fighter.EmitFields | street-fighter-game.py:230-243 | the burst loop appends exactly the burst's particles and writes nothing else |
| Fighters.Fighter.Emit | street-fighter-game.py:230-243 | the burst loop on the whole fighter: only the particles change |
| Fighters.Fighter.ApplyPhysicsFields | street-fighter-game.py:120-137 | the physics assignments write only position, vertical speed and jumping flag, to their values after the physics step |
| Fighters.Fighter.ApplyPhysics | street-fighter-game.py:120-137 | the whole fighter after the physics assignments is the physics step of the old one |
| Fighters.Fighter.TickTimersFields | street-fighter-game.py:139-155 | the countdown assignments write only the timers, the attacking flag and the combo count, to their values after the timer step |
| Fighters.Fighter.TickTimers | street-fighter-game.py:139-155 | the whole fighter after the countdowns is the timer step of the old one |
| Fighters.Fighter.BaseUpdate | street-fighter-game.py:119-170 | the base update on the object is the base tick of the old state against the opponent |
| Fighters.Fighter.GearUpdateFields | street-fighter-game.py:433-441 | the subclass update assignments write only the payload, to its per-tick step (also lines 540-545, 616-624, 640-641, 719-724) |
| Fighters.Fighter.GearUpdate | street-fighter-game.py:433-441 | the subclass update on the whole fighter changes only the payload, to its per-tick step (also lines 540-545, 616-641, 719-724) |
| Fighters.Fighter.Update | street-fighter-game.py:119-170 | a tick on the object leaves the state of one full tick (so all facts of the tick hold of it) (also lines 433-441, 540-545, 616-641, 719-724) |
| Fighters.Fighter.Move | street-fighter-game.py:172-178 | the move request on the object matches the move rule |
| Fighters.Fighter.BaseJumpFields | street-fighter-game.py:180-184 | the jump assignments write only the vertical speed, jumping flag and pose |
| Fighters.Fighter.BaseJump | street-fighter-game.py:180-184 | the base jump on the whole fighter matches the base jump rule |
| Fighters.Fighter.DoubleJumpFields | street-fighter-game.py:446-463 | the mid-air jump writes only vertical speed, payload, pose and particles, to their values after the double jump |
| Fighters.Fighter.DoubleJump | street-fighter-game.py:446-463 | the mid-air jump on the whole fighter matches the jump rule |
| Fighters.Fighter.Jump | street-fighter-game.py:180-184 | a jump request on the object matches the jump rule for every archetype (also lines 443-463) |
| Fighters.Fighter.BaseAttackFields | street-fighter-game.py:186-194 | the attack assignments write only the attacking flag, cooldown, pose and speed, and report whether the attack was granted |
| Fighters.Fighter.BaseAttack | street-fighter-game.py:186-194 | the base attack on the whole fighter and its result match the base attack rule |
| Fighters.Fighter.VoltAttack | street-fighter-game.py:561-570 | the volt striker's attack and its result match the attack rule |
| Fighters.Fighter.FlameAttack | street-fighter-game.py:643-657 | the flame master's attack and its result match the attack rule |
| Fighters.Fighter.Attack | street-fighter-game.py:186-194 | an attack request on the object and its result match the attack rule for every archetype (also lines 561-570, 643-657) |
| Fighters.Fighter.BaseSpecialAttackFields | street-fighter-game.py:196-205 | the special assignments write only the attacking flag, both cooldowns, pose and speed, and report whether the special was granted |
| Fighters.Fighter.BaseSpecialAttack | street-fighter-game.py:196-205 | the base special on the whole fighter and its result match the base special rule (also lines 486-490) |
| Fighters.Fighter.VoltSpecial | street-fighter-game.py:572-592 | the volt striker's special and its result match the special rule |
| Fighters.Fighter.FlameSpecial | street-fighter-game.py:659-666 | the flame master's special and its result match the special rule, whatever the draws |
| Fighters.Fighter.StoneSpecial | street-fighter-game.py:750-776 | the stone titan's special and its result match the special rule |
| Fighters.Fighter.SpecialAttack | street-fighter-game.py:196-205 | a special request on the object and its result match the special rule for every archetype (also lines 486-490, 572-592, 659-666, 750-776) |
| Fighters.Fighter.Block | street-fighter-game.py:207-214 | the block request on the object matches the block rule |
| Fighters.Fighter.DashFields | street-fighter-game.py:465-484 | the dash writes only horizontal speed, payload and particles, and reports whether it was granted |
| Fighters.Fighter.Dash | street-fighter-game.py:465-484 | the dash on the whole fighter and its result match the dash rule |
| Fighters.Fighter.BaseTakeDamageFields | street-fighter-game.py:216-246 | take_damage writes only hit points, invulnerability timer, pose, speed and particles, and reports whether the hit was accepted |
| Fighters.Fighter.BaseTakeDamage | street-fighter-game.py:216-246 | the base take_damage on the whole fighter and its result match the base damage rule |
| Fighters.Fighter.SpendArmorFields | street-fighter-game.py:727-745 | the armor step returns the absorbed amount and shard count and writes only the payload and the particles |
| Fighters.Fighter.SpendArmor | street-fighter-game.py:727-745 | the armor step on the whole fighter matches the armor rule |
| Fighters.Fighter.TakeDamage | street-fighter-game.py:216-246 | a hit submitted to the object and its result match the damage rule for every archetype (also lines 726-748) |
| Fighters.Fighter.StrikePower | street-fighter-game.py:264-274 | the strike's damage is the attack damage, doubled for a special, times 1 + combo/10, and its knockback is 10 for a special and 5 otherwise; nothing changes |
| Fighters.Fighter.ExtendCombo | street-fighter-game.py:277-278 | an accepted hit adds one to the combo and restarts the 90-tick window; nothing else changes |
| Fighters.Fighter.Strike | street-fighter-game.py:264-280 | a connecting strike on the two objects leaves them as the base hit check says |
| Fighters.Fighter.BaseCheckHit | street-fighter-game.py:248-281 | the base hit check on the two objects and its result match the base hit-check rule |
| Fighters.Fighter.TeleportFields | street-fighter-game.py:494-529 | the teleport writes only x and the particles, to their values after the teleport |
| Fighters.Fighter.Teleport | street-fighter-game.py:494-529 | the teleport on the whole fighter matches the teleport rule |
| Fighters.Fighter.ShadowCheckHit | street-fighter-game.py:492-531 | the ninja's hit check on the two objects and its result match the hit-check rule |
| Fighters.Fighter.LaunchFireballFields | street-fighter-game.py:672-689 | the fireball writes only the range and the particles |
| Fighters.Fighter.LaunchFireball | street-fighter-game.py:672-689 | the fireball on the whole fighter matches the fireball rule |
| Fighters.Fighter.RestoreRange | street-fighter-game.py:691 | only the attack range changes, back to the saved value |
| Fighters.Fighter.FlameCheckHit | street-fighter-game.py:668-694 | the flame master's hit check on the two objects and its result match the hit-check rule, so its range is back afterwards |
| Fighters.Fighter.CheckHit | street-fighter-game.py:248-281 | a hit check on the two objects and its result match the hit-check rule for every archetype (also lines 492-531, 668-694) |
| Match.Cycle | street-fighter-game.py:1028-1035 | a moved cursor always indexes the roster |
| Match.Next | street-fighter-game.py:1031 | a step forward always indexes the roster |
| Match.Prev | street-fighter-game.py:1029 | a step back always indexes the roster |
| Match.CursorSteps | street-fighter-game.py:1028-1035 | forward goes to the following character and wraps from the last to the first; back goes to the previous one and wraps from the first to the last; each undoes the other |
| Match.Forward | street-fighter-game.py:1031 | k forward steps still index the roster |
| Match.CursorRuns | street-fighter-game.py:1031 | k forward steps move the cursor by k modulo the roster size |
| Match.CursorCycles | street-fighter-game.py:1031 | four forward steps return to the same character and fewer never do |
| Match.RosterComplete | street-fighter-game.py:995-1000 | each archetype is on the roster exactly once |
| Match.Opening | street-fighter-game.py:1037-1044 | the two starting fighters satisfy the invariant, have the selected archetypes, face each other with p1 on the left, stand inside the arena above the floor and have full hit points |
| Match.StartMatch | street-fighter-game.py:1037-1044 | the two new objects are distinct and are the opening fighters |
| Match.AfterRound | street-fighter-game.py:1109-1114 | a tick is p1.update, p2.update, p1's hit check and p2's hit check, each on the results of the earlier steps; it keeps both maxima and never raises either fighter's hit points when both attack damages are non-negative |
| Match.RoundPreservesValid | street-fighter-game.py:1109-1114 | a tick keeps both fighters' invariants and archetypes |
| Match.Decide | street-fighter-game.py:1117-1128 | the match goes on iff both have hit points left; a knocked-out fighter loses to a standing one |
| Match.DrawByShare | street-fighter-game.py:1119-1124 | in a double knock-out p1 wins iff its hit-point share is strictly higher, so a tie goes to p2 |
| Match.DrawSymmetry | street-fighter-game.py:1119-1124 | with unequal shares the double knock-out is decided the same way after swapping the sides; with equal shares p2 wins either way |
| Match.Judge | street-fighter-game.py:1117-1128 | the game-over test on the two objects returns the decision and changes nothing |
| Match.Tick | street-fighter-game.py:1109-1128 | one tick on the two objects runs both updates and then both hit checks, each seeing the earlier steps; both invariants are kept, and the result is the winner decision on the new state |
| Scenarios.ComboClock | street-fighter-game.py:151-155 | over n ticks the combo timer runs down by n (stopping at 0), and the combo count survives exactly while n is at most the timer, one tick past its expiry |
| Scenarios.AttackClock | street-fighter-game.py:139-143 | over n ticks the attack cooldown runs down by n (stopping at 0), the fighter attacks exactly while n is below the cooldown, and pose and blocking are never touched |
| Scenarios.AttackLifecycle | street-fighter-game.py:186-194 | a granted attack can connect during its first 10 ticks only, ends after 20, and then leaves the fighter able to attack again while still in the attack pose (also lines 249) |
| Scenarios.TeleportTickOnce | street-fighter-game.py:494 | in a granted ninja special the teleport tick comes exactly once, 15 ticks in, while the strike is live |
| Scenarios.SpecialClock | street-fighter-game.py:494 | from the start of a ninja special the teleport tick comes exactly once, 15 ticks in, while the strike is live |
| Scenarios.TicksKeepKind | street-fighter-game.py:119-170 | any run of ticks keeps the archetype |
| Scenarios.CoolStaysCool | street-fighter-game.py:620-624 | a flame master that is not overheated keeps its heat and stays unlatched through any run of ticks |
| Scenarios.Cooling | street-fighter-game.py:620-624 | an overheated flame master loses 0.5 heat per tick and stays latched while heat is left, and is released at heat 0 on the tick the heat would reach 0 or below |
| Scenarios.OverheatedCannotAttack | street-fighter-game.py:644 | an overheated flame master's attack is refused with nothing changed, and so is its special, whatever the random draws (also lines 660) |
| Scenarios.DoubleJumpOnce | street-fighter-game.py:446-449 | the extra jump uses 80% of the jump strength, and a second request in the same flight changes nothing |
| Scenarios.DoubleJumpIgnoresGuards | street-fighter-game.py:446 | the extra jump is taken while attacking or blocking, when a ground jump would be refused |
| Scenarios.LandingRestoresDoubleJump | street-fighter-game.py:128-131 | a landing tick clears the jumping flag and gives the extra jump back (also lines 440-441) |
| Scenarios.InvulnerableTakesNothing | street-fighter-game.py:217 | during invulnerability a hit is rejected and costs no hit points, timer, pose or speed; only stone armor is still spent (also lines 728-731) |
| Scenarios.NoStrikeNoHit | street-fighter-game.py:249 | without a live strike the check reports no hit, leaves the defender alone and keeps the combo |
| Scenarios.ComboOnlyOnAcceptedHit | street-fighter-game.py:276-280 | the combo grows by one exactly when there is a hit and the defender is not invulnerable; a hit during invulnerability is still reported and costs no hit points |
| Scenarios.BaseComboOnlyOnAcceptedHit | street-fighter-game.py:276-280 | the same for the base hit check |
| Scenarios.ComboHitDamage | street-fighter-game.py:264-280 | a plain attack landing with combo count n on a defender that is not invulnerable costs it the attack damage times 1 + n/10 (30% of that through a block), so the fifth hit of a combo deals 1.4 times the base; the combo then counts the hit and restarts its 90-tick window |
| Scenarios.OverlapIffSharedPoint | street-fighter-game.py:259-262 | for boxes of positive size the strict overlap test holds iff the boxes share an interior point |
| Scenarios.OverlapsSymmetric | street-fighter-game.py:259-262 | the overlap test does not depend on the order of the boxes |
| Scenarios.TeleportStaysInArena | street-fighter-game.py:496-498 | against an opponent inside the arena, the teleport lands inside the arena when the opponent and twice the ninja's width plus both gaps fit across it |
| Scenarios.RoundStaysInArena | street-fighter-game.py:1109-1114 | over a whole tick two valid fighters at most 60 wide (every archetype) both end inside the arena, a teleport in either hit check included (also lines 496-498) |
| Scenarios.TeleportCanLeaveArena | street-fighter-game.py:496-498 | against an opponent 760 wide at the left wall the teleport lands left of the arena |
| Scenarios.FirstHitOnVolt | street-fighter-game.py:248-281 | a ninja's first attack on a volt striker in reach costs it 8 hit points, pushes it 5 away, starts its invulnerability, adds 10 particles and starts the combo |
| Scenarios.FirstHitOnStone | street-fighter-game.py:726-748 | the same strike on a stone titan is soaked by the armor (30 to 22), sheds 4 stones, leaves hit points full and pushes with 70% of the knockback |
| Scenarios.ArmorStep | street-fighter-game.py:726-748 | an accepted hit on a stone titan no larger than its armor spends that much armor, leaves the hit points, pushes with 70% knockback and appends shards and the hit burst |

## Left out

- Rendering, sound and the menu screens are not modelled. This covers every `draw` method, the background, and the menu, selection, fight and game-over screens. None of them has an effect on the simulation.
- The keyboard polling, the event loop and the frame clock are not modelled. Requests are the fighters' methods, called directly.
- The ambient particles are left out; they are probabilistic and cosmetic. These are the electric and fire `update` ones and the energy particles spawned inside `Fighter.draw`. The counted bursts are modelled, with their draws passed in: hit 10, double jump 5, dash 10, teleport 15+15, lightning 30, fireball 20, eruption 30 and stones at one per two absorbed.
- Particle colours and random distributions are not modelled. They come only from the `Noise` input, and the draw ranges are not constrained.
- The animation frame counter is not modelled; it is cosmetic.
- IEEE floating point is not modelled. The decimal constants (0.6, 0.3, 0.7, 0.2, 0.5, 0.1, 0.8) are exact reals, so float rounding is left out.
- Fighter names and colours are left out; nothing in the engine reads them.
- `update` is only ever called with an opponent. The `if opponent` test for a missing opponent is left out, and `Update` takes a distinct fighter object.
- Timers are `nat`, so `attack_cooldown = attack_duration * 1.5` is the integer 30 rather than the float 30.0. The one-shot ticks at `== int(duration * 0.75)` and `== int(duration * 0.8)`, 15 and 16, match exactly because every timer stays integral.
- The pose is not returned to idle when an attack, special or hit expires. This follows the code: `update` never writes the pose, and only `move` and `block` rewrite it.
- The combo count is cleared one tick after the combo timer reaches zero. This follows the code: the clear happens only on a tick that starts with the timer at zero.
- The teleport target, as the code computes it, cannot leave the arena for any two archetypes of the roster. `Scenarios.TeleportStaysInArena` shows this against an opponent inside the arena: the widest opponent plus twice the ninja's width and both gaps is 160, far below 800. `Scenarios.RoundStaysInArena` shows that the opponent is inside the arena whenever a teleport fires during a tick, so both fighters end every tick inside the arena. A position outside the arena needs an opponent far wider than any archetype, as in `Scenarios.TeleportCanLeaveArena`.
