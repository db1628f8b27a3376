/** `addParticles` and the start-up population, which both implementations
    share: each new particle draws four values of `Math.random`, for its
    `x`, `y`, `vx` and `vy` in that order. */
module Spawning {
  import opened Common
  import opened Host
  import opened Particles

  /** The particle `addParticles` creates from the draws `k .. k + 3`. */
  function Fresh(group: Group, c: Canvas, stream: nat -> real, k: nat): Body {
    Body(
      stream(k) * c.width as real,
      stream(k + 1) * c.height as real,
      group,
      (stream(k + 2) - 1.0) / 1000.0,
      (stream(k + 3) - 1.0) / 1000.0)
  }

  /** `addParticles(group, count)` on particle values: particle `i` takes the
      four draws after `k + 4 * i`. */
  function Spawned(group: Group, count: nat, c: Canvas, stream: nat -> real, k: nat): seq<Body> {
    seq(count, i requires 0 <= i < count => Fresh(group, c, stream, k + 4 * i))
  }

  /** The start-up population: 300 particles of each population, in
      population order. */
  function Population(c: Canvas, stream: nat -> real, k: nat): seq<Body> {
    Spawned(Group1, 300, c, stream, k)
      + Spawned(Group2, 300, c, stream, k + 1200)
      + Spawned(Group3, 300, c, stream, k + 2400)
  }

  /** A coordinate lies in `[0, side)`, or is 0 on a side of length 0. */
  predicate OnSide(p: real, side: nat) {
    0.0 <= p && (p < side as real || (side == 0 && p == 0.0))
  }

  /** A velocity component lies in `[-0.001, 0)`. */
  predicate Drift(v: real) {
    -0.001 <= v < 0.0
  }

  /** A particle lies on the canvas and moves slowly up and left. */
  predicate Spawnlike(b: Body, c: Canvas) {
    OnSide(b.x, c.width) && OnSide(b.y, c.height) && Drift(b.vx) && Drift(b.vy)
  }

  /** Every particle `addParticles` creates has the requested group and
      starts on the canvas with a small negative velocity. */
  lemma SpawnedRanges(group: Group, count: nat, c: Canvas, stream: nat -> real, k: nat)
    requires forall n: nat :: 0.0 <= stream(n) < 1.0
    ensures var s := Spawned(group, count, c, stream, k);
      |s| == count && forall i :: 0 <= i < |s| ==> s[i].group == group && Spawnlike(s[i], c)
  {
    var s := Spawned(group, count, c, stream, k);
    forall i | 0 <= i < |s| ensures Spawnlike(s[i], c) {
      FreshRanges(group, c, stream, k + 4 * i);
    }
  }

  /** One new particle lies on the canvas with a small negative velocity. */
  lemma FreshRanges(group: Group, c: Canvas, stream: nat -> real, k: nat)
    requires forall n: nat :: 0.0 <= stream(n) < 1.0
    ensures Spawnlike(Fresh(group, c, stream, k), c)
  {
    var rx, ry, rvx, rvy := stream(k), stream(k + 1), stream(k + 2), stream(k + 3);
    UnitScale(rx, c.width);
    UnitScale(ry, c.height);
    DriftRange(rvx);
    DriftRange(rvy);
  }

  /** A draw in `[0, 1)` scaled by a side length lands in `[0, side)`. */
  lemma UnitScale(r: real, side: nat)
    requires 0.0 <= r < 1.0
    ensures OnSide(r * side as real, side)
  {
    if side > 0 {
      assert r * side as real < 1.0 * side as real;
    }
  }

  /** `(r - 1) / 1000` for a draw `r` lies in `[-0.001, 0)`. */
  lemma DriftRange(r: real)
    requires 0.0 <= r < 1.0
    ensures Drift((r - 1.0) / 1000.0)
  {
  }

  /** The start-up population holds 900 particles, particles `300 * g` to
      `300 * g + 299` of population `g`, each on the canvas with a small
      negative velocity. */
  lemma PopulationLayout(c: Canvas, stream: nat -> real, k: nat)
    requires forall n: nat :: 0.0 <= stream(n) < 1.0
    ensures var p := Population(c, stream, k);
      && |p| == 900
      && forall i :: 0 <= i < |p| ==> p[i].group == Populations[i / 300] && Spawnlike(p[i], c)
  {
    var s1, s2, s3 := Spawned(Group1, 300, c, stream, k), Spawned(Group2, 300, c, stream, k + 1200),
      Spawned(Group3, 300, c, stream, k + 2400);
    SpawnedRanges(Group1, 300, c, stream, k);
    SpawnedRanges(Group2, 300, c, stream, k + 1200);
    SpawnedRanges(Group3, 300, c, stream, k + 2400);
    var p := Population(c, stream, k);
    forall i | 0 <= i < |p| ensures p[i].group == Populations[i / 300] && Spawnlike(p[i], c) {
      if i < 300 {
        assert p[i] == s1[i];
      } else if i < 600 {
        assert p[i] == s2[i - 300];
      } else {
        assert p[i] == s3[i - 600];
      }
    }
  }

  /** `addParticles(group, count)`: `count` new particle records, each made
      from four draws of `Math.random`. */
  method AddParticles(group: Group, count: nat, c: Canvas, rng: Random) returns (ps: seq<Particle>)
    requires rng.Valid()
    modifies rng
    ensures rng.next == old(rng.next) + 4 * count
    ensures States(ps) == Spawned(group, count, c, rng.stream, old(rng.next))
    ensures Distinct(ps) && forall p :: p in ps ==> fresh(p)
  {
    ghost var k0 := rng.next;
    ps := [];
    for i := 0 to count
      invariant rng.next == k0 + 4 * i
      invariant States(ps) == Spawned(group, i, c, rng.stream, k0)
      invariant Distinct(ps) && forall p :: p in ps ==> fresh(p)
    {
      var p := Spawn(group, c, rng);
      assert p !in ps;
      StatesPush(ps, p);
      ps := ps + [p];
      assert Spawned(group, i + 1, c, rng.stream, k0)
        == Spawned(group, i, c, rng.stream, k0) + [Fresh(group, c, rng.stream, k0 + 4 * i)];
    }
  }

  /** The body of the `map` in `addParticles`: one particle record from
      four draws, in the order x, y, vx, vy. */
  method Spawn(group: Group, c: Canvas, rng: Random) returns (p: Particle)
    requires rng.Valid()
    modifies rng
    ensures fresh(p)
    ensures rng.next == old(rng.next) + 4
    ensures p.State() == Fresh(group, c, rng.stream, old(rng.next))
  {
    var rx := rng.Next();
    var ry := rng.Next();
    var rvx := rng.Next();
    var rvy := rng.Next();
    p := new Particle(rx * c.width as real, ry * c.height as real, group, (rvx - 1.0) / 1000.0, (rvy - 1.0) / 1000.0);
  }

  /** Appending a record appends its value. */
  lemma StatesPush(ps: seq<Particle>, p: Particle)
    ensures States(ps + [p]) == States(ps) + [p.State()]
  {
    assert forall m :: 0 <= m < |ps| ==> (ps + [p])[m] == ps[m];
  }

  /** `GROUPS.flatMap((c) => addParticles(c, 300))`. */
  method InitialParticles(c: Canvas, rng: Random) returns (ps: seq<Particle>)
    requires rng.Valid()
    modifies rng
    ensures rng.next == old(rng.next) + 3600
    ensures States(ps) == Population(c, rng.stream, old(rng.next))
    ensures Distinct(ps) && forall p :: p in ps ==> fresh(p)
  {
    ghost var k0 := rng.next;
    var a := AddParticles(Group1, 300, c, rng);
    var b := AddParticles(Group2, 300, c, rng);
    assert forall x, y :: x in a && y in b ==> x != y;
    var d := AddParticles(Group3, 300, c, rng);
    assert forall x, y :: x in a + b && y in d ==> x != y;
    ps := a + b + d;
    assert States(ps) == States(a) + States(b) + States(d);
    DistinctConcat(a, b);
    DistinctConcat(a + b, d);
  }
}
