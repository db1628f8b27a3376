/** The force law between two particles, the damping and integration of the
    source particle, and the near-field recoil of the target: the arithmetic
    of `applyAttraction`, which both implementations share. */
module Forces {
  import opened Particles
  import opened Host

  /** `bounceDistance`: the distance `d` from `p1` to `p2` and the offset
      `(dx, dy)` pointing from `p1` to `p2`. */
  datatype Separation = Separation(d: real, dx: real, dy: real)

  function BounceDistance(b1: Body, b2: Body, sqrt: real -> real): Separation {
    var dx := b2.x - b1.x;
    var dy := b2.y - b1.y;
    Separation(sqrt(dx * dx + dy * dy), dx, dy)
  }

  /** With a genuine square root, `d` is the Euclidean length of the offset. */
  lemma SeparationIsEuclidean(b1: Body, b2: Body, sqrt: real -> real)
    requires IsSqrt(sqrt)
    ensures var s := BounceDistance(b1, b2, sqrt);
      && s.dx == b2.x - b1.x && s.dy == b2.y - b1.y
      && 0.0 <= s.d
      && s.d * s.d == s.dx * s.dx + s.dy * s.dy
  {
    var s := BounceDistance(b1, b2, sqrt);
    assert 0.0 <= s.dx * s.dx && 0.0 <= s.dy * s.dy;
  }

  /** The three exclusive regimes of `applyAttraction`, chosen from the
      distance `d`, the particle radius and the rule's reach. */
  datatype Regime = FarField | NearField | OutOfRange

  function RegimeOf(d: real, radius: real, reach: real): (g: Regime)
    ensures g == NearField <==> d < radius * 2.0
    ensures g == FarField <==> radius * 2.0 < d < reach
    ensures g == OutOfRange <==> d == radius * 2.0 || (d > radius * 2.0 && d >= reach)
  {
    if d > radius * 2.0 && d < reach then FarField
    else if d < radius * 2.0 then NearField
    else OutOfRange
  }

  /** The one case `applyAttraction` computes with NaN: a near-field hit at
      distance zero, where the repulsion divides by `d`. */
  predicate DividesByZero(sep: Separation, radius: real, reach: real) {
    RegimeOf(sep.d, radius, reach) == NearField && sep.d == 0.0
  }

  datatype Vec = Vec(x: real, y: real)

  const Zero: Vec := Vec(0.0, 0.0)

  /** The far-field force for the attraction `a`: `a / d` along the offset. */
  function FarForce(a: real, sep: Separation): (f: Vec)
    requires sep.d != 0.0
    ensures a == 0.0 ==> f == Zero
  {
    var F := a / sep.d;
    Vec(F * sep.dx, F * sep.dy)
  }

  /** The far-field force is `a / d` times the offset. */
  lemma FarForceScalesOffset(a: real, sep: Separation)
    requires sep.d != 0.0
    ensures FarForce(a, sep) == Vec(a * sep.dx / sep.d, a * sep.dy / sep.d)
  {
    var F := a / sep.d;
    assert F * sep.dx == a * sep.dx / sep.d;
    assert F * sep.dy == a * sep.dy / sep.d;
  }

  /** The far-field law: the force has magnitude `|a|` (it is `a / d` times an
      offset of length `d`), and it points towards the target for a positive
      attraction and away from it for a negative one. */
  lemma FarForceLaw(a: real, sep: Separation)
    requires 0.0 < sep.d && sep.d * sep.d == sep.dx * sep.dx + sep.dy * sep.dy
    ensures var f := FarForce(a, sep);
      && f == Vec(a * sep.dx / sep.d, a * sep.dy / sep.d)
      && f.x * f.x + f.y * f.y == a * a
      && f.x * sep.dx + f.y * sep.dy == a * sep.d
  {
    var F := a / sep.d;
    assert F * sep.d == a;
    var f := FarForce(a, sep);
    assert f.x * f.x + f.y * f.y == F * F * (sep.dx * sep.dx + sep.dy * sep.dy);
    assert F * F * (sep.d * sep.d) == (F * sep.d) * (F * sep.d);
    assert f.x * sep.dx + f.y * sep.dy == F * (sep.d * sep.d);
  }

  /** The near-field (nucleus) force: a repulsion of strength
      `0.01 * nucleusRepulsion * (2 * radius / d)` along the offset. */
  function NearForce(s: Settings, sep: Separation): Vec
    requires sep.d != 0.0 && s.radius != 0.0
  {
    var F := 0.01 * s.nucleusRepulsion * (1.0 / (sep.d / (s.radius * 2.0)));
    Vec(-1.0 * F * sep.dx, -1.0 * F * sep.dy)
  }

  /** The near-field law: the strength is `0.01 * nucleusRepulsion * 2r / d`,
      so the force has magnitude `0.01 * nucleusRepulsion * 2r` and never
      points towards the target. */
  lemma NearForceLaw(s: Settings, sep: Separation)
    requires s.Valid()
    requires 0.0 < sep.d && sep.d * sep.d == sep.dx * sep.dx + sep.dy * sep.dy
    ensures var f, G := NearForce(s, sep), 0.01 * s.nucleusRepulsion * (s.radius * 2.0);
      && f == Vec(-(G / sep.d) * sep.dx, -(G / sep.d) * sep.dy)
      && f.x * f.x + f.y * f.y == G * G
      && f.x * sep.dx + f.y * sep.dy == -G * sep.d
      && f.x * sep.dx + f.y * sep.dy <= 0.0
  {
    var G := 0.01 * s.nucleusRepulsion * (s.radius * 2.0);
    var F := 0.01 * s.nucleusRepulsion * (1.0 / (sep.d / (s.radius * 2.0)));
    assert 1.0 / (sep.d / (s.radius * 2.0)) == (s.radius * 2.0) / sep.d;
    assert F == G / sep.d;
    assert F * sep.d == G;
    var f := NearForce(s, sep);
    assert f.x * f.x + f.y * f.y == F * F * (sep.d * sep.d);
    assert F * F * (sep.d * sep.d) == (F * sep.d) * (F * sep.d);
    assert f.x * sep.dx + f.y * sep.dy == -F * (sep.d * sep.d);
    assert 0.0 <= G;
  }

  /** The far-field branch of `applyAttraction` once the attraction `a` is
      known: `F = a / distance`, then `(F * dx, F * dy)`. */
  method FarPull(a: real, sep: Separation) returns (fx: real, fy: real)
    requires sep.d != 0.0
    ensures Vec(fx, fy) == FarForce(a, sep)
  {
    var F := a / sep.d;
    fx := F * sep.dx;
    fy := F * sep.dy;
  }

  /** The near-field branch's force: `F = 0.01 * nucleusRepulsion *
      (1 / (distance / (2 * radius)))`, then `(-F * dx, -F * dy)`. */
  method NearPush(s: Settings, sep: Separation) returns (fx: real, fy: real)
    requires sep.d != 0.0 && s.radius != 0.0
    ensures Vec(fx, fy) == NearForce(s, sep)
  {
    var F := 0.01 * s.nucleusRepulsion * (1.0 / (sep.d / (s.radius * 2.0)));
    fx := -1.0 * F * sep.dx;
    fy := -1.0 * F * sep.dy;
  }

  /** The force `applyAttraction` computes for a pair at separation `sep`
      under a rule of reach `reach` whose attraction evaluates to `a`. */
  function Force(a: real, reach: real, s: Settings, sep: Separation): (f: Vec)
    requires s.Valid()
    requires RegimeOf(sep.d, s.radius, reach) == NearField ==> sep.d != 0.0
    ensures RegimeOf(sep.d, s.radius, reach) == OutOfRange ==> f == Zero
  {
    match RegimeOf(sep.d, s.radius, reach)
    case FarField => FarForce(a, sep)
    case NearField => NearForce(s, sep)
    case OutOfRange => Zero
  }

  /** The per-interaction velocity factor `1 - friction / 2000`. */
  function Damping(friction: real): (k: real)
    ensures 0.0 <= friction <= 1000.0 ==> 0.5 <= k <= 1.0
  {
    1.0 - friction / 2000.0
  }

  /** The source particle's integration step: damp `(v + f)` and move by
      the new velocity. */
  function Moved(b: Body, f: Vec, friction: real): Body {
    var vx := (b.vx + f.x) * Damping(friction);
    var vy := (b.vy + f.y) * Damping(friction);
    b.(vx := vx, vy := vy, x := b.x + vx, y := b.y + vy)
  }

  /** The source particle's update once its force is known: the integration
      step, then `bounceLimits`. */
  function Advance(b: Body, f: Vec, s: Settings, c: Canvas): Body {
    Bounce(Moved(b, f, s.friction), c, s)
  }

  /** The tail of `applyAttraction`: the source particle's velocity becomes
      the damped `v + f`, its position moves by it, and `bounceLimits`
      clamps it. */
  method Integrate(p1: Particle, fx: real, fy: real, s: Settings, c: Canvas)
    modifies p1
    ensures p1.State() == Advance(old(p1.State()), Vec(fx, fy), s, c)
  {
    ghost var moved := Moved(p1.State(), Vec(fx, fy), s.friction);
    assert Damping(s.friction) == 1.0 - s.friction / 2000.0;
    p1.vx := (p1.vx + fx) * (1.0 - s.friction / 2000.0);
    p1.vy := (p1.vy + fy) * (1.0 - s.friction / 2000.0);
    assert p1.vx == moved.vx && p1.vy == moved.vy;
    p1.x := p1.x + p1.vx;
    p1.y := p1.y + p1.vy;
    assert p1.State() == moved;
    BounceLimits(p1, c, s);
  }

  /** The update keeps the particle's group and ends in the margin box. */
  lemma AdvanceSpec(b: Body, f: Vec, s: Settings, c: Canvas)
    requires 0.0 <= s.margin <= 100.0
    ensures Advance(b, f, s, c).group == b.group
    ensures InBox(Advance(b, f, s, c), c, s.margin)
  {
    BounceSpec(Moved(b, f, s.friction), c, s);
  }

  /** Without friction, and when the move does not leave the box, the
      velocity changes by exactly the force and the position by the new
      velocity. */
  lemma FrictionlessAdvance(b: Body, f: Vec, s: Settings, c: Canvas)
    requires s.friction == 0.0 && 0.0 <= s.margin <= 100.0
    requires InBox(b.(x := b.x + (b.vx + f.x), y := b.y + (b.vy + f.y)), c, s.margin)
    ensures Advance(b, f, s, c)
      == b.(vx := b.vx + f.x, vy := b.vy + f.y, x := b.x + (b.vx + f.x), y := b.y + (b.vy + f.y))
  {
    var moved := b.(vx := b.vx + f.x, vy := b.vy + f.y, x := b.x + (b.vx + f.x), y := b.y + (b.vy + f.y));
    assert Damping(s.friction) == 1.0;
    BounceSpec(moved, c, s);
  }

  /** The far-field law seen through the source particle's update: without
      friction, and when the move stays inside the margin box, the velocity
      changes by exactly `a * (dx, dy) / d` and the position by the new
      velocity. */
  lemma FrictionlessFarFieldKick(b: Body, a: real, sep: Separation, s: Settings, c: Canvas)
    requires sep.d != 0.0 && s.friction == 0.0 && 0.0 <= s.margin <= 100.0
    requires var vx, vy := b.vx + a * sep.dx / sep.d, b.vy + a * sep.dy / sep.d;
      InBox(b.(x := b.x + vx, y := b.y + vy), c, s.margin)
    ensures var vx, vy := b.vx + a * sep.dx / sep.d, b.vy + a * sep.dy / sep.d;
      Advance(b, FarForce(a, sep), s, c) == b.(vx := vx, vy := vy, x := b.x + vx, y := b.y + vy)
  {
    var f := FarForce(a, sep);
    FarForceScalesOffset(a, sep);
    FrictionlessAdvance(b, f, s, c);
  }

  /** The target's velocity component after a near-field hit, before the
      jitter factor: `-(v + f) * (1 - friction / 2000)`. */
  function Recoil(v: real, f: real, friction: real): real {
    -1.0 * (v + f) * Damping(friction)
  }

  /** The jitter factor `Math.random() * 0.9 + 0.2`. */
  function Jitter(r: real): (j: real)
    ensures 0.0 <= r < 1.0 ==> 0.2 <= j < 1.1
  {
    r * 0.9 + 0.2
  }
}
