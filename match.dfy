/** The fight as the main loop drives it: the character roster and the wrap-around of
    the selection cursors, the two fighters placed at the start of a match, one tick of
    the fight (both updates, then both hit checks) and the decision of the winner. */
module Match {
  import opened Config
  import opened Particles
  import opened Rules
  import opened Properties
  import opened Fighters

  // ---------------------------------------------------------------------------
  // Character selection

  /** The selectable characters in menu order. */
  const ROSTER: seq<Kind> := [Ninja, Electric, Fire, Earth]

  /** A selection cursor moved by one step: Python's % on a positive modulus, which
      for these operands is Dafny's Euclidean %. */
  function Cycle(i: int, step: int): (r: nat)
    ensures r < |ROSTER|
  {
    (i + step) % |ROSTER|
  }

  function Next(i: int): (r: nat)
    ensures r < |ROSTER|
  {
    Cycle(i, 1)
  }

  function Prev(i: int): (r: nat)
    ensures r < |ROSTER|
  {
    Cycle(i, -1)
  }

  /** Stepping forward moves to the following character and from the last back to the
      first; stepping back undoes a step forward and vice versa. */
  lemma CursorSteps(i: nat)
    requires i < |ROSTER|
    ensures Next(i) == if i == |ROSTER| - 1 then 0 else i + 1
    ensures Prev(i) == if i == 0 then |ROSTER| - 1 else i - 1
    ensures Prev(Next(i)) == i && Next(Prev(i)) == i
  {
  }

  /** Moving the cursor forward k times is moving it by k at once. */
  lemma {:induction false} CursorRuns(i: nat, k: nat)
    requires i < |ROSTER|
    ensures Forward(i, k) == (i + k) % |ROSTER|
    decreases k
  {
    if k > 0 {
      CursorRuns(i, k - 1);
      var j := (i + k - 1) % |ROSTER|;
      assert Forward(i, k) == Next(j);
      assert (j + 1) % |ROSTER| == (i + k) % |ROSTER| by {
        assert i + k - 1 == (i + k - 1) / |ROSTER| * |ROSTER| + j;
      }
    }
  }

  /** The cursor after k steps forward. */
  function Forward(i: nat, k: nat): (r: nat)
    requires i < |ROSTER|
    ensures r < |ROSTER|
  {
    if k == 0 then i else Next(Forward(i, k - 1))
  }

  /** Four steps forward come back round to the same character. */
  lemma CursorCycles(i: nat)
    requires i < |ROSTER|
    ensures Forward(i, |ROSTER|) == i
    ensures forall k: nat :: k < |ROSTER| && k > 0 ==> Forward(i, k) != i
  {
    CursorRuns(i, |ROSTER|);
    forall k: nat | k < |ROSTER| && k > 0
      ensures Forward(i, k) != i
    {
      CursorRuns(i, k);
    }
  }

  /** Every archetype is on the roster exactly once. */
  lemma RosterComplete(kind: Kind)
    ensures exists i :: 0 <= i < |ROSTER| && ROSTER[i] == kind
    ensures forall i, j :: 0 <= i < j < |ROSTER| ==> ROSTER[i] != ROSTER[j]
  {
    match kind
    case Ninja => assert ROSTER[0] == kind;
    case Electric => assert ROSTER[1] == kind;
    case Fire => assert ROSTER[2] == kind;
    case Earth => assert ROSTER[3] == kind;
  }

  // ---------------------------------------------------------------------------
  // The start of a match

  /** Both fighters as a pair of values; p1 is the left-hand player. */
  datatype Pair = Pair(p1: Body, p2: Body)

  const P1_START_X: real := 150.0
  const P2_START_X: real := SCREEN_WIDTH - 200.0
  const START_Y: real := FLOOR_HEIGHT - 100.0

  /** The fighters of a new match: the chosen archetypes 150 from the left and 200 from
      the right edge, 100 above the floor, facing each other. */
  function Opening(k1: Kind, k2: Kind): (r: Pair)
    ensures Valid(r.p1) && Valid(r.p2)
    ensures KindOf(r.p1.gear) == k1 && KindOf(r.p2.gear) == k2
    ensures r.p1.facingRight && !r.p2.facingRight
    ensures r.p1.x + r.p1.width < r.p2.x
    ensures 0.0 <= r.p1.x <= SCREEN_WIDTH - r.p1.width && 0.0 <= r.p2.x <= SCREEN_WIDTH - r.p2.width
    ensures r.p1.y + r.p1.height <= FLOOR_HEIGHT && r.p2.y + r.p2.height <= FLOOR_HEIGHT
    ensures r.p1.hp == r.p1.maxHp && r.p2.hp == r.p2.maxHp
  {
    Pair(Initial(k1, P1_START_X, START_Y), Initial(k2, P2_START_X, START_Y).(facingRight := false))
  }

  /** Starting a match with the two selected characters. */
  method StartMatch(s1: nat, s2: nat) returns (p1: Fighter, p2: Fighter)
    requires s1 < |ROSTER| && s2 < |ROSTER|
    ensures fresh(p1) && fresh(p2) && p1 != p2
    ensures Pair(p1.Snap(), p2.Snap()) == Opening(ROSTER[s1], ROSTER[s2])
    ensures p1.Valid() && p2.Valid()
  {
    p1 := new Fighter(ROSTER[s1], P1_START_X, START_Y);
    p2 := new Fighter(ROSTER[s2], P2_START_X, START_Y);
    p1.facingRight := true;
    p2.facingRight := false;
  }

  // ---------------------------------------------------------------------------
  // One tick of the fight

  /** p1.update(p2), p2.update(p1), p1.check_hit(p2), p2.check_hit(p1), each step
      seeing the results of the ones before it. */
  function AfterRound(p1: Body, p2: Body, n1: Noise, n2: Noise): (r: Pair)
    ensures r.p1.maxHp == p1.maxHp && r.p2.maxHp == p2.maxHp
    ensures 0.0 <= p1.attackDamage && 0.0 <= p2.attackDamage ==> r.p1.hp <= p1.hp && r.p2.hp <= p2.hp
  {
    var u1 := AfterUpdate(p1, p2);
    var u2 := AfterUpdate(p2, u1);
    var e1 := AfterCheckHit(u1, u2, n1);
    CheckHitFrame(u1, u2, n1);
    var e2 := AfterCheckHit(e1.defender, e1.attacker, n2);
    CheckHitFrame(e1.defender, e1.attacker, n2);
    Pair(e2.defender, e2.attacker)
  }

  /** A tick keeps both fighters' invariants and archetypes. */
  lemma RoundPreservesValid(p1: Body, p2: Body, n1: Noise, n2: Noise)
    requires Valid(p1) && Valid(p2)
    ensures var r := AfterRound(p1, p2, n1, n2);
      && Valid(r.p1) && Valid(r.p2)
      && KindOf(r.p1.gear) == KindOf(p1.gear) && KindOf(r.p2.gear) == KindOf(p2.gear)
  {
    var u1 := AfterUpdate(p1, p2);
    var u2 := AfterUpdate(p2, u1);
    CheckHitPreservesValid(u1, u2, n1);
    var e1 := AfterCheckHit(u1, u2, n1);
    CheckHitPreservesValid(e1.defender, e1.attacker, n2);
  }

  /** How a tick ends the fight. */
  datatype Outcome = Ongoing | P1Wins | P2Wins

  /** The game-over test after a tick: the fight goes on while both have hit points
      left; a fighter at zero or below loses; when both are, the higher share of its
      maximum wins and an equal share goes to p2. */
  function Decide(p1: Body, p2: Body): (o: Outcome)
    requires p1.maxHp > 0.0 && p2.maxHp > 0.0
    ensures o == Ongoing <==> p1.hp > 0.0 && p2.hp > 0.0
    ensures p1.hp <= 0.0 && p2.hp > 0.0 ==> o == P2Wins
    ensures p2.hp <= 0.0 && p1.hp > 0.0 ==> o == P1Wins
  {
    if p1.hp <= 0.0 || p2.hp <= 0.0 then
      if p1.hp <= 0.0 && p2.hp <= 0.0 then
        if p1.hp / p1.maxHp > p2.hp / p2.maxHp then P1Wins else P2Wins
      else if p1.hp <= 0.0 then P2Wins
      else P1Wins
    else Ongoing
  }

  /** In a double knock-out p1 wins exactly when its share of its maximum hit points
      is the higher one (compared without division), so equal shares go to p2. */
  lemma DrawByShare(p1: Body, p2: Body)
    requires p1.maxHp > 0.0 && p2.maxHp > 0.0
    requires p1.hp <= 0.0 && p2.hp <= 0.0
    ensures Decide(p1, p2) == P1Wins <==> p1.hp * p2.maxHp > p2.hp * p1.maxHp
    ensures Decide(p1, p2) != Ongoing
  {
    var s1, s2 := p1.hp / p1.maxHp, p2.hp / p2.maxHp;
    assert p1.hp == s1 * p1.maxHp && p2.hp == s2 * p2.maxHp;
    assert p1.hp * p2.maxHp - p2.hp * p1.maxHp == (s1 - s2) * (p1.maxHp * p2.maxHp);
    assert p1.maxHp * p2.maxHp > 0.0;
  }

  /** With unequal shares the decision of a double knock-out does not depend on which
      side a fighter plays; with equal shares it always goes to p2. */
  lemma DrawSymmetry(p1: Body, p2: Body)
    requires p1.maxHp > 0.0 && p2.maxHp > 0.0
    requires p1.hp <= 0.0 && p2.hp <= 0.0
    ensures p1.hp * p2.maxHp != p2.hp * p1.maxHp ==> (Decide(p1, p2) == P1Wins <==> Decide(p2, p1) == P2Wins)
    ensures p1.hp * p2.maxHp == p2.hp * p1.maxHp ==> Decide(p1, p2) == P2Wins && Decide(p2, p1) == P2Wins
  {
    DrawByShare(p1, p2);
    DrawByShare(p2, p1);
  }

  /** The game-over test of the main loop on the two fighter objects. */
  method Judge(p1: Fighter, p2: Fighter) returns (outcome: Outcome)
    requires p1.maxHp > 0.0 && p2.maxHp > 0.0
    ensures outcome == Decide(p1.Snap(), p2.Snap())
  {
    outcome := Ongoing;
    if p1.hp <= 0.0 || p2.hp <= 0.0 {
      if p1.hp <= 0.0 && p2.hp <= 0.0 {
        if p1.hp / p1.maxHp > p2.hp / p2.maxHp {
          outcome := P1Wins;
        } else {
          outcome := P2Wins;
        }
      } else if p1.hp <= 0.0 {
        outcome := P2Wins;
      } else {
        outcome := P1Wins;
      }
    }
  }

  /** One tick of the fight on the two fighter objects, and whether it ended it. */
  method Tick(p1: Fighter, p2: Fighter, n1: Noise, n2: Noise) returns (outcome: Outcome)
    requires p1 != p2 && p1.Valid() && p2.Valid()
    modifies p1, p2
    ensures Pair(p1.Snap(), p2.Snap()) == AfterRound(old(p1.Snap()), old(p2.Snap()), n1, n2)
    ensures p1.Valid() && p2.Valid()
    ensures outcome == Decide(p1.Snap(), p2.Snap())
  {
    ghost var b1, b2 := p1.Snap(), p2.Snap();
    p1.Update(p2);
    p2.Update(p1);
    var hit1 := p1.CheckHit(p2, n1);
    var hit2 := p2.CheckHit(p1, n2);
    RoundPreservesValid(b1, b2, n1, n2);
    outcome := Judge(p1, p2);
  }
}
