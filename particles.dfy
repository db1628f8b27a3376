/** Particles, their groups, the global tunables, and the boundary clamp
    `bounceLimits`, which both implementations share word for word. */
module Particles {
  import opened Common

  /** The three particle populations and the two synthetic targets. */
  datatype Group = Group1 | Group2 | Group3 | Mouse | Gravity

  /** `GROUPS`: the populations that particles are created in, in order. */
  const Populations: seq<Group> := [Group1, Group2, Group3]

  /** The value of a particle record at one moment. */
  datatype Body = Body(x: real, y: real, group: Group, vx: real, vy: real)

  /** The canvas size in pixels. */
  datatype Canvas = Canvas(width: nat, height: nat)

  /** The tunables of `globalParams` that the physics reads. */
  datatype Settings = Settings(
    radius: real,
    edgeDumping: real,
    friction: real,
    nucleusRepulsion: real,
    margin: real)
  {
    /** The ranges the control panel's sliders allow; nothing else writes
        these values. */
    predicate Valid() {
      && 1.0 <= radius <= 5.0
      && 0.0 <= edgeDumping <= 1.0
      && 0.0 <= friction <= 1000.0
      && 0.0 <= nucleusRepulsion <= 1.0
      && 0.0 <= margin <= 100.0
    }
  }

  /** A particle record, mutated in place by the engine. */
  class Particle {
    var x: real
    var y: real
    const group: Group
    var vx: real
    var vy: real

    constructor (x: real, y: real, group: Group, vx: real, vy: real)
      ensures State() == Body(x, y, group, vx, vy)
    {
      this.x, this.y, this.group, this.vx, this.vy := x, y, group, vx, vy;
    }

    function State(): Body
      reads this
    {
      Body(x, y, group, vx, vy)
    }
  }

  /** The records of an array of particles, element by element. */
  function States(ps: seq<Particle>): seq<Body>
    reads ps
  {
    seq(|ps|, k requires 0 <= k < |ps| reads ps => ps[k].State())
  }

  /** The distance of the box's edges from the canvas edges along an axis of
      length `extent`, for a margin given in percent. */
  function EdgeMargin(extent: nat, margin: real): real {
    (extent as real / 2.0) * (margin / 100.0)
  }

  /** The body lies in the box the margin leaves, edges included. */
  predicate InBox(b: Body, c: Canvas, margin: real) {
    var hm := EdgeMargin(c.height, margin);
    var wm := EdgeMargin(c.width, margin);
    hm <= b.y <= c.height as real - hm && wm <= b.x <= c.width as real - wm
  }

  predicate AllInBox(bs: seq<Body>, c: Canvas, margin: real) {
    forall k :: 0 <= k < |bs| ==> InBox(bs[k], c, margin)
  }

  /** Two sequences of records describe particles of the same groups. */
  predicate SameGroups(a: seq<Body>, b: seq<Body>) {
    |a| == |b| && forall k :: 0 <= k < |a| ==> a[k].group == b[k].group
  }

  /** A point of the canvas: the mouse position. */
  datatype Point = Point(x: real, y: real)

  /** The mouse pseudo-particle: at the mouse position, at rest. */
  function MouseTarget(m: Point): Body {
    Body(m.x, m.y, Mouse, 0.0, 0.0)
  }

  /** Position and velocity along one axis. */
  datatype Axis = Axis(pos: real, vel: real)

  /** One axis of `bounceLimits`: the test against the far edge `hi` comes
      first, then the test against the near edge `lo`; a coordinate past an
      edge is put on that edge and its velocity multiplied by `k`. */
  function Reflect(a: Axis, lo: real, hi: real, k: real): Axis {
    var a' := if a.pos > hi then Axis(hi, a.vel * k) else a;
    if a'.pos < lo then Axis(lo, a'.vel * k) else a'
  }

  /** On a non-empty interval the reflected coordinate lies inside it; one
      that was inside is untouched, and one that had escaped sits on the
      edge it crossed with its velocity scaled by `k`. */
  lemma ReflectSpec(a: Axis, lo: real, hi: real, k: real)
    requires lo <= hi
    ensures var r := Reflect(a, lo, hi, k);
      && lo <= r.pos <= hi
      && (lo <= a.pos <= hi ==> r == a)
      && (a.pos > hi ==> r == Axis(hi, a.vel * k))
      && (a.pos < lo ==> r == Axis(lo, a.vel * k))
  {
  }

  /** The margin box is never empty while the margin is at most 100 percent. */
  lemma MarginFits(extent: nat, margin: real)
    requires 0.0 <= margin <= 100.0
    ensures 0.0 <= EdgeMargin(extent, margin) <= extent as real - EdgeMargin(extent, margin)
  {
    var h, q := extent as real / 2.0, margin / 100.0;
    assert 0.0 <= h && 0.0 <= q <= 1.0;
    assert 0.0 <= h * q <= h by {
      assert 0.0 <= h * (1.0 - q);
    }
  }

  /** The effect of `bounceLimits` on a particle record: the y axis is
      clamped to the margin box, then the x axis, independently. */
  function Bounce(b: Body, c: Canvas, s: Settings): Body {
    var k := -1.0 + s.edgeDumping;
    var hm := EdgeMargin(c.height, s.margin);
    var wm := EdgeMargin(c.width, s.margin);
    var v := Reflect(Axis(b.y, b.vy), hm, c.height as real - hm, k);
    var h := Reflect(Axis(b.x, b.vx), wm, c.width as real - wm, k);
    b.(x := h.pos, vx := h.vel, y := v.pos, vy := v.vel)
  }

  /** What `bounceLimits` promises: afterwards the particle is in the margin
      box; a coordinate that was inside is untouched together with its
      velocity; one that had escaped sits exactly on the edge it crossed and
      its velocity is scaled by `-1 + edgeDumping`. The two axes do not
      influence each other, and the group never changes. */
  lemma BounceSpec(b: Body, c: Canvas, s: Settings)
    requires 0.0 <= s.margin <= 100.0
    ensures var r := Bounce(b, c, s);
      var hm, wm, k := EdgeMargin(c.height, s.margin), EdgeMargin(c.width, s.margin), -1.0 + s.edgeDumping;
      && r.group == b.group
      && InBox(r, c, s.margin)
      && (InBox(b, c, s.margin) ==> r == b)
      && (b.y > c.height as real - hm ==> r.y == c.height as real - hm && r.vy == b.vy * k)
      && (b.y < hm ==> r.y == hm && r.vy == b.vy * k)
      && (hm <= b.y <= c.height as real - hm ==> r.y == b.y && r.vy == b.vy)
      && (b.x > c.width as real - wm ==> r.x == c.width as real - wm && r.vx == b.vx * k)
      && (b.x < wm ==> r.x == wm && r.vx == b.vx * k)
      && (wm <= b.x <= c.width as real - wm ==> r.x == b.x && r.vx == b.vx)
  {
    MarginFits(c.height, s.margin);
    MarginFits(c.width, s.margin);
    var hm, wm, k := EdgeMargin(c.height, s.margin), EdgeMargin(c.width, s.margin), -1.0 + s.edgeDumping;
    ReflectSpec(Axis(b.y, b.vy), hm, c.height as real - hm, k);
    ReflectSpec(Axis(b.x, b.vx), wm, c.width as real - wm, k);
  }

  /** A second clamp changes nothing. */
  lemma BounceIdempotent(b: Body, c: Canvas, s: Settings)
    requires 0.0 <= s.margin <= 100.0
    ensures Bounce(Bounce(b, c, s), c, s) == Bounce(b, c, s)
  {
    BounceSpec(b, c, s);
    BounceSpec(Bounce(b, c, s), c, s);
  }

  /** `bounceLimits(particle)`. */
  method BounceLimits(p: Particle, c: Canvas, s: Settings)
    modifies p
    ensures p.State() == Bounce(old(p.State()), c, s)
  {
    ghost var b := p.State();
    var heightMargin := (c.height as real / 2.0) * (s.margin / 100.0);
    var widthMargin := (c.width as real / 2.0) * (s.margin / 100.0);
    ghost var k := -1.0 + s.edgeDumping;
    ghost var v := Reflect(Axis(b.y, b.vy), heightMargin, c.height as real - heightMargin, k);
    ghost var h := Reflect(Axis(b.x, b.vx), widthMargin, c.width as real - widthMargin, k);

    if p.y > c.height as real - heightMargin {
      p.vy := p.vy * (-1.0 + s.edgeDumping);
      p.y := c.height as real - heightMargin;
    }
    if p.y < heightMargin {
      p.vy := p.vy * (-1.0 + s.edgeDumping);
      p.y := heightMargin;
    }
    assert p.y == v.pos && p.vy == v.vel && p.x == b.x && p.vx == b.vx;
    if p.x > c.width as real - widthMargin {
      p.vx := p.vx * (-1.0 + s.edgeDumping);
      p.x := c.width as real - widthMargin;
    }
    if p.x < 0.0 + widthMargin {
      p.vx := p.vx * (-1.0 + s.edgeDumping);
      p.x := widthMargin;
    }
    assert p.x == h.pos && p.vx == h.vel && p.y == v.pos && p.vy == v.vel;
    assert EdgeMargin(c.height, s.margin) == heightMargin;
    assert EdgeMargin(c.width, s.margin) == widthMargin;
    assert Bounce(b, c, s) == b.(x := h.pos, vx := h.vel, y := v.pos, vy := v.vel);
  }
}
