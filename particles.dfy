/** Transient visual-effect particles: how one ages per tick, which survive, and
    how a burst of freshly spawned particles is built from the random source. */
module Particles {
  import opened Config

  /** One particle: position, velocity, size, lifetime and age in ticks. */
  datatype Particle = Particle(x: real, y: real, velX: real, velY: real, size: real, lifetime: int, age: int)

  /** The random draws behind one spawned particle: an offset from the spawn anchor,
      a velocity, a size and a lifetime. */
  datatype Spark = Spark(dx: real, dy: real, velX: real, velY: real, size: real, lifetime: int)

  /** The random source: the i-th draw of an operation. */
  type Noise = nat -> Spark

  /** The draws that remain after the first k have been used. */
  function Shift(noise: Noise, k: nat): (r: Noise)
    ensures forall i: nat :: r(i) == noise(i + k)
  {
    (i: nat) => noise(i + k)
  }

  predicate Live(p: Particle) {
    p.age < p.lifetime
  }

  /** One tick of a particle: it moves by its velocity, falls with a tenth of gravity,
      shrinks by 5% down to a floor of size 1 and grows one tick older. */
  function Aged(p: Particle): (q: Particle)
    ensures q.age == p.age + 1 && q.lifetime == p.lifetime
    ensures q.x == p.x + p.velX && q.y == p.y + p.velY && q.velX == p.velX
    ensures q.velY - p.velY == GRAVITY / 10.0
    ensures q.size >= 1.0
    ensures p.size > 0.0 ==> q.size == 1.0 || q.size < p.size
  {
    var shrunk := p.size * 0.95;
    Particle(p.x + p.velX, p.y + p.velY, p.velX, p.velY + GRAVITY * 0.1,
             if shrunk > 1.0 then shrunk else 1.0, p.lifetime, p.age + 1)
  }

  /** The particle list after one tick: every particle aged, the expired ones dropped,
      the order kept. */
  function Survivors(ps: seq<Particle>): (r: seq<Particle>)
    ensures |r| <= |ps|
    ensures forall i :: 0 <= i < |r| ==> Live(r[i]) && r[i].size >= 1.0
    ensures forall i :: 0 <= i < |r| ==> exists j :: 0 <= j < |ps| && r[i] == Aged(ps[j])
    ensures forall j :: 0 <= j < |ps| && Live(Aged(ps[j])) ==> Aged(ps[j]) in r
  {
    if ps == [] then []
    else
      var init := ps[..|ps| - 1];
      var kept := Survivors(init);
      var q := Aged(ps[|ps| - 1]);
      assert forall j :: 0 <= j < |init| ==> init[j] == ps[j];
      if Live(q) then kept + [q] else kept
  }

  /** The positions, in increasing order, of the particles still alive once aged. */
  function LiveIndices(ps: seq<Particle>): (ix: seq<nat>)
    ensures forall k :: 0 <= k < |ix| ==> ix[k] < |ps|
    ensures forall k, l :: 0 <= k < l < |ix| ==> ix[k] < ix[l]
    ensures forall j :: 0 <= j < |ps| ==> (j in ix <==> Live(Aged(ps[j])))
  {
    if ps == [] then []
    else
      var init := ps[..|ps| - 1];
      var kept := LiveIndices(init);
      assert forall j :: 0 <= j < |init| ==> init[j] == ps[j];
      if Live(Aged(ps[|ps| - 1])) then kept + [|ps| - 1] else kept
  }

  /** The survivors are exactly the aged live particles, each once and in the order
      of the old list. */
  lemma {:induction false} SurvivorsInOrder(ps: seq<Particle>)
    ensures |Survivors(ps)| == |LiveIndices(ps)|
    ensures forall k :: 0 <= k < |Survivors(ps)| ==> Survivors(ps)[k] == Aged(ps[LiveIndices(ps)[k]])
    decreases |ps|
  {
    if ps != [] {
      var n := |ps| - 1;
      var init := ps[..n];
      SurvivorsInOrder(init);
      var kept, ki := Survivors(init), LiveIndices(init);
      var q := Aged(ps[n]);
      var r, ix := Survivors(ps), LiveIndices(ps);
      if Live(q) {
        assert r == kept + [q] && ix == ki + [n];
      } else {
        assert r == kept && ix == ki;
      }
      forall k | 0 <= k < |r|
        ensures r[k] == Aged(ps[ix[k]])
      {
        if k < |kept| {
          var j := ki[k];
          assert r[k] == kept[k] == Aged(init[j]) && ix[k] == j < n;
          assert init[j] == ps[j];
        } else {
          assert r[k] == q && ix[k] == n;
        }
      }
    }
  }

  /** The list comprehension that ages the particles and keeps the live ones. */
  method AgeAll(ps: seq<Particle>) returns (r: seq<Particle>)
    ensures r == Survivors(ps)
  {
    r := [];
    var i := 0;
    while i < |ps|
      invariant 0 <= i <= |ps|
      invariant r == Survivors(ps[..i])
    {
      var q := Aged(ps[i]);
      assert ps[..i + 1][..i] == ps[..i];
      if q.age < q.lifetime {
        r := r + [q];
      }
      i := i + 1;
    }
    assert ps[..|ps|] == ps;
  }

  /** A particle spawned at an anchor point with the given random draws; it starts at age 0. */
  function Spawn(cx: real, cy: real, s: Spark): (p: Particle)
    ensures p.age == 0 && p.lifetime == s.lifetime && p.size == s.size
    ensures p.x - cx == s.dx && p.y - cy == s.dy
  {
    Particle(cx + s.dx, cy + s.dy, s.velX, s.velY, s.size, s.lifetime, 0)
  }

  /** The n particles that `for _ in range(n)` appends at one anchor, the i-th from the
      i-th draw. */
  function Burst(cx: real, cy: real, noise: Noise, n: nat): (r: seq<Particle>)
    ensures |r| == n
    ensures forall i :: 0 <= i < n ==> r[i] == Spawn(cx, cy, noise(i))
    ensures forall i :: 0 <= i < n ==> r[i].age == 0
  {
    if n == 0 then [] else Burst(cx, cy, noise, n - 1) + [Spawn(cx, cy, noise(n - 1))]
  }
}
