/** The engine of `src/index.ts`: a 15-rule table whose gravity rules read the
    gravity force live, `applyAttraction` with a random jitter on the
    near-field recoil, and `applyRules` with a gravity and a mouse
    pseudo-particle after each particle's pairwise sweep. */
module Engine {
  import opened Common
  import opened Host
  import opened Particles
  import opened Forces
  import opened Rules

  /** `number | (() => number)`: a fixed attraction, or the gravity rules'
      provider, which reads `globalParams.gravity.force` each time it is
      called. */
  datatype Attraction = Fixed(value: real) | GravityForce

  /** The attraction a rule exerts when `applyAttraction` evaluates it. */
  function Resolve(a: Attraction, gravityForce: real): real {
    match a
    case Fixed(v) => v
    case GravityForce => gravityForce
  }

  /** The targets each population gets a rule for, in the order the
      construction loop pushes them. */
  const Targets: seq<Group> := [Group1, Group2, Group3, Mouse, Gravity]

  /** The rule the construction loop pushes for `(who, to)`. */
  function DefaultRule(who: Group, to: Group): RuleValue<Attraction> {
    if to == Gravity then RuleValue(who, to, MaxValue, GravityForce)
    else RuleValue(who, to, 100.0, Fixed(0.0))
  }

  /** The table as the start-up loops build it: for each population, its
      rules towards the three populations, then the mouse, then gravity. */
  function InitialTable(): seq<RuleValue<Attraction>> {
    seq(15, k requires 0 <= k < 15 => DefaultRule(Populations[k / 5], Targets[k % 5]))
  }

  /** The start-up table grows one rule at a time: rule `5 * w + c` is the
      rule of population `w` towards target `c`. */
  lemma InitialTableGrows(w: nat, c: nat)
    requires w < 3 && c < 5
    ensures InitialTable()[..5 * w + c + 1]
      == InitialTable()[..5 * w + c] + [DefaultRule(Populations[w], Targets[c])]
  {
    var n := 5 * w + c;
    assert n / 5 == w && n % 5 == c;
    assert InitialTable()[..n + 1] == InitialTable()[..n] + [InitialTable()[n]];
  }

  /** The start-up table holds 15 rules, exactly one per ordered pair of a
      population and a target. `find` succeeds exactly when the source is a
      population, and returns the default rule for the pair: distance 100
      and attraction 0, except towards gravity, where the distance is
      `Number.MAX_VALUE` and the attraction is the live gravity force. */
  lemma InitialTableLayout(who: Group, to: Group)
    ensures |InitialTable()| == 15 && KeysUnique(InitialTable())
    ensures Find(InitialTable(), who, to).Some? <==> who in Populations
    ensures var r := Find(InitialTable(), who, to);
      r.Some? ==> InitialTable()[r.value] == DefaultRule(who, to)
  {
    var t := InitialTable();
    forall i, j | 0 <= i < j < |t| ensures Keys(t)[i] != Keys(t)[j] {
      assert Keys(t)[i] == (Populations[i / 5], Targets[i % 5]);
      assert Keys(t)[j] == (Populations[j / 5], Targets[j % 5]);
    }
    if who in Populations {
      var w := match who case Group1 => 0 case Group2 => 1 case _ => 2;
      var c := match to case Group1 => 0 case Group2 => 1 case Group3 => 2 case Mouse => 3 case Gravity => 4;
      assert Populations[w] == who && Targets[c] == to;
      var k := 5 * w + c;
      assert k / 5 == w && k % 5 == c;
      assert t[k] == DefaultRule(who, to);
      FindUnique(t, who, to, k);
    } else {
      forall k | 0 <= k < |t| ensures !Matches(t[k], who, to) {
        assert t[k].who == Populations[k / 5];
      }
    }
  }

  /** What one frame of the physics reads besides the particles and the
      rules: the tunables, the canvas, the gravity switch and force, the
      mouse switch and position, and `Math.sqrt`. */
  datatype Env = Env(
    settings: Settings,
    canvas: Canvas,
    gravityEnabled: bool,
    gravityForce: real,
    mouseInteraction: bool,
    mouse: Point,
    sqrt: real -> real)
  {
    /** The ranges the control panel allows. */
    predicate Valid() {
      settings.Valid() && 0.0 <= gravityForce <= 1.0
    }
  }

  /** The two particle records after `applyAttraction(p1, p2)`, and how many
      draws of `Math.random` have been made by then. */
  datatype Outcome = Outcome(p1: Body, p2: Body, cursor: nat)

  /** `applyAttraction(p1, p2)` once the rule `rule` has been found, on
      particle values, with `stream(k)` the next draw of `Math.random`. The
      one case the source computes with NaN, a near-field hit at distance
      zero, is excluded. */
  function Hit(b1: Body, b2: Body, rule: RuleValue<Attraction>, env: Env, stream: nat -> real, k: nat): Outcome
    requires env.Valid()
    requires !DividesByZero(BounceDistance(b1, b2, env.sqrt), env.settings.radius, rule.distance)
  {
    var s, sep := env.settings, BounceDistance(b1, b2, env.sqrt);
    var regime := RegimeOf(sep.d, s.radius, rule.distance);
    var f := Force(Resolve(rule.attraction, env.gravityForce), rule.distance, s, sep);
    var p2 :=
      if regime == NearField then
        b2.(vx := Recoil(b2.vx, f.x, s.friction) * Jitter(stream(k)),
            vy := Recoil(b2.vy, f.y, s.friction) * Jitter(stream(k + 1)))
      else b2;
    Outcome(Advance(b1, f, s, env.canvas), p2, if regime == NearField then k + 2 else k)
  }

  /** `applyAttraction(p1, p2)` on particle values. `None` is the one case
      the source computes with NaN: two particles at distance zero that have
      a rule, which is the near-field regime with a division by zero. */
  function Interact(b1: Body, b2: Body, t: seq<RuleValue<Attraction>>, env: Env, stream: nat -> real, k: nat): Option<Outcome>
    requires env.Valid()
  {
    match Find(t, b1.group, b2.group)
    case None => Some(Outcome(b1, b2, k))
    case Some(i) =>
      if DividesByZero(BounceDistance(b1, b2, env.sqrt), env.settings.radius, t[i].distance) then None
      else Some(Hit(b1, b2, t[i], env, stream, k))
  }

  /** The one pair `applyAttraction` computes with NaN: two particles with a
      rule that are at distance zero, which is inside the near field. */
  predicate Singular(b1: Body, b2: Body, t: seq<RuleValue<Attraction>>, env: Env)
    requires env.Valid()
  {
    match Find(t, b1.group, b2.group)
    case None => false
    case Some(i) =>
      DividesByZero(BounceDistance(b1, b2, env.sqrt), env.settings.radius, t[i].distance)
  }

  /** With no rule for the pair, `applyAttraction` returns at once: neither
      particle changes, no random number is drawn. */
  lemma MissingRuleChangesNothing(b1: Body, b2: Body, t: seq<RuleValue<Attraction>>, env: Env, stream: nat -> real, k: nat)
    requires env.Valid()
    requires forall i :: 0 <= i < |t| ==> !Matches(t[i], b1.group, b2.group)
    ensures Interact(b1, b2, t, env, stream, k) == Some(Outcome(b1, b2, k))
  {
  }

  /** `applyAttraction` is undefined only for coincident particles that
      have a rule: the near field then divides by a zero distance. */
  lemma InteractDefinedness(b1: Body, b2: Body, t: seq<RuleValue<Attraction>>, env: Env, stream: nat -> real, k: nat)
    requires env.Valid()
    ensures Interact(b1, b2, t, env, stream, k).None? <==> Singular(b1, b2, t, env)
    ensures Singular(b1, b2, t, env) <==>
      (Find(t, b1.group, b2.group).Some? && BounceDistance(b1, b2, env.sqrt).d == 0.0)
  {
  }

  /** When a rule is found, the source particle's velocity becomes the
      damped `v + f` for the force of the regime, its position moves by that
      velocity, and the clamp puts it in the margin box. */
  lemma InteractAdvancesSource(b1: Body, b2: Body, t: seq<RuleValue<Attraction>>, env: Env, stream: nat -> real, k: nat)
    requires env.Valid()
    requires Find(t, b1.group, b2.group).Some?
    requires Interact(b1, b2, t, env, stream, k).Some?
    ensures var rule, sep := t[Find(t, b1.group, b2.group).value], BounceDistance(b1, b2, env.sqrt);
      var f := Force(Resolve(rule.attraction, env.gravityForce), rule.distance, env.settings, sep);
      var p1 := Interact(b1, b2, t, env, stream, k).value.p1;
      && p1 == Advance(b1, f, env.settings, env.canvas)
      && InBox(p1, env.canvas, env.settings.margin)
  {
    var rule, sep := t[Find(t, b1.group, b2.group).value], BounceDistance(b1, b2, env.sqrt);
    var f := Force(Resolve(rule.attraction, env.gravityForce), rule.distance, env.settings, sep);
    AdvanceSpec(b1, f, env.settings, env.canvas);
  }

  /** Outside the near field the target particle is not touched and no
      random number is drawn; in every regime it keeps its position and
      group. */
  lemma InteractTargetOutsideNearField(b1: Body, b2: Body, t: seq<RuleValue<Attraction>>, env: Env, stream: nat -> real, k: nat)
    requires env.Valid()
    requires Interact(b1, b2, t, env, stream, k).Some?
    ensures var o, r := Interact(b1, b2, t, env, stream, k).value, Find(t, b1.group, b2.group);
      var sep := BounceDistance(b1, b2, env.sqrt);
      && o.p2.x == b2.x && o.p2.y == b2.y && o.p2.group == b2.group
      && (r.None? || RegimeOf(sep.d, env.settings.radius, t[r.value].distance) != NearField ==>
            o.p2 == b2 && o.cursor == k)
  {
  }

  /** In the near field the target's velocity components become
      `-(v + f) * (1 - friction / 2000) * j`, with a fresh jitter factor `j`
      in [0.2, 1.1) for each component, so two random numbers are drawn. */
  lemma NearFieldRecoil(b1: Body, b2: Body, t: seq<RuleValue<Attraction>>, env: Env, stream: nat -> real, k: nat)
    requires env.Valid()
    requires forall n: nat :: 0.0 <= stream(n) < 1.0
    requires Find(t, b1.group, b2.group).Some?
    requires var rule, sep := t[Find(t, b1.group, b2.group).value], BounceDistance(b1, b2, env.sqrt);
      RegimeOf(sep.d, env.settings.radius, rule.distance) == NearField && sep.d != 0.0
    ensures var rule, sep := t[Find(t, b1.group, b2.group).value], BounceDistance(b1, b2, env.sqrt);
      var f, s := NearForce(env.settings, sep), env.settings;
      var o := Interact(b1, b2, t, env, stream, k);
      && o.Some? && o.value.cursor == k + 2
      && 0.2 <= Jitter(stream(k)) < 1.1 && 0.2 <= Jitter(stream(k + 1)) < 1.1
      && o.value.p2.vx == -1.0 * (b2.vx + f.x) * (1.0 - s.friction / 2000.0) * Jitter(stream(k))
      && o.value.p2.vy == -1.0 * (b2.vy + f.y) * (1.0 - s.friction / 2000.0) * Jitter(stream(k + 1))
  {
  }

  /** The gravity rules of the start-up table read the gravity force when
      they are applied, not when they were built: in the far field a
      population particle is pulled by `gravity.force / d` along the offset
      to the gravity pseudo-particle, whatever the force is at that moment. */
  lemma GravityRuleIsLive(b: Body, well: Body, env: Env, stream: nat -> real, k: nat)
    requires env.Valid() && b.group in Populations && well.group == Gravity
    requires RegimeOf(BounceDistance(b, well, env.sqrt).d, env.settings.radius, MaxValue) == FarField
    ensures var sep := BounceDistance(b, well, env.sqrt);
      Interact(b, well, InitialTable(), env, stream, k)
        == Some(Outcome(Advance(b, FarForce(env.gravityForce, sep), env.settings, env.canvas), well, k))
  {
    InitialTableLayout(b.group, Gravity);
  }

  /** The gravity pseudo-particle `applyRules` builds for a particle at `b`
      from one draw `r` of `Math.random`: on the bottom edge of the canvas,
      within a quarter pixel of `b` horizontally. */
  function GravityWell(b: Body, r: real, c: Canvas, force: real): (g: Body)
    ensures g.group == Gravity && g.y == c.height as real
    ensures 0.0 <= r < 1.0 ==> b.x - 0.25 <= g.x < b.x + 0.25
  {
    Body(b.x + r * 0.5 - 0.25, c.height as real, Gravity, 0.0, force)
  }

  /** The particle records and the number of random draws made so far. */
  datatype World = World(bodies: seq<Body>, cursor: nat)

  /** `applyAttraction(particles[i], particles[j])` for `i != j`. */
  function PairStep(w: World, i: nat, j: nat, t: seq<RuleValue<Attraction>>, env: Env, stream: nat -> real): (r: Option<World>)
    requires i < |w.bodies| && j < |w.bodies| && i != j && env.Valid()
    ensures r.Some? ==> |r.value.bodies| == |w.bodies|
  {
    match Interact(w.bodies[i], w.bodies[j], t, env, stream, w.cursor)
    case None => None
    case Some(o) => Some(World(w.bodies[j := o.p2][i := o.p1], o.cursor))
  }

  /** Interactions never change a particle's group. */
  lemma InteractGroups(b1: Body, b2: Body, t: seq<RuleValue<Attraction>>, env: Env, stream: nat -> real, k: nat)
    requires env.Valid()
    ensures var o := Interact(b1, b2, t, env, stream, k);
      o.Some? ==> o.value.p1.group == b1.group && o.value.p2.group == b2.group
  {
  }

  /** The first `n` iterations of the inner loop for particle `i`: every
      other particle in array order, skipping `i` itself. */
  function Row(w: World, i: nat, n: nat, t: seq<RuleValue<Attraction>>, env: Env, stream: nat -> real): (r: Option<World>)
    requires i < |w.bodies| && n <= |w.bodies| && env.Valid()
    ensures r.Some? ==> |r.value.bodies| == |w.bodies|
    decreases n
  {
    if n == 0 then Some(w)
    else
      match Row(w, i, n - 1, t, env, stream)
      case None => None
      case Some(v) => Meet(v, i, n - 1, t, env, stream)
  }

  /** One iteration of the inner loop: particle `i` meets particle `j`,
      unless it is itself. */
  function Meet(w: World, i: nat, j: nat, t: seq<RuleValue<Attraction>>, env: Env, stream: nat -> real): (r: Option<World>)
    requires i < |w.bodies| && j < |w.bodies| && env.Valid()
    ensures r.Some? ==> |r.value.bodies| == |w.bodies|
  {
    if j == i then Some(w) else PairStep(w, i, j, t, env, stream)
  }

  /** The gravity pseudo-particle's interaction with particle `i`, when
      gravity is enabled; its position draws one random number first. */
  function WithGravity(w: World, i: nat, t: seq<RuleValue<Attraction>>, env: Env, stream: nat -> real): (r: Option<World>)
    requires i < |w.bodies| && env.Valid()
    ensures r.Some? ==> |r.value.bodies| == |w.bodies|
  {
    if !env.gravityEnabled then Some(w)
    else
      var well := GravityWell(w.bodies[i], stream(w.cursor), env.canvas, env.gravityForce);
      match Interact(w.bodies[i], well, t, env, stream, w.cursor + 1)
      case None => None
      case Some(o) => Some(World(w.bodies[i := o.p1], o.cursor))
  }

  /** The mouse pseudo-particle's interaction with particle `i`, when mouse
      interaction is on. */
  function WithMouse(w: World, i: nat, t: seq<RuleValue<Attraction>>, env: Env, stream: nat -> real): (r: Option<World>)
    requires i < |w.bodies| && env.Valid()
    ensures r.Some? ==> |r.value.bodies| == |w.bodies|
  {
    if !env.mouseInteraction then Some(w)
    else
      match Interact(w.bodies[i], MouseTarget(env.mouse), t, env, stream, w.cursor)
      case None => None
      case Some(o) => Some(World(w.bodies[i := o.p1], o.cursor))
  }

  /** One iteration of the outer loop: particle `i` against every other
      particle, then against gravity, then against the mouse. */
  function Visit(w: World, i: nat, t: seq<RuleValue<Attraction>>, env: Env, stream: nat -> real): (r: Option<World>)
    requires i < |w.bodies| && env.Valid()
    ensures r.Some? ==> |r.value.bodies| == |w.bodies|
  {
    match Row(w, i, |w.bodies|, t, env, stream)
    case None => None
    case Some(v) =>
      match WithGravity(v, i, t, env, stream)
      case None => None
      case Some(g) => WithMouse(g, i, t, env, stream)
  }

  /** The first `n` iterations of the outer loop of `applyRules`. */
  function Sweep(w: World, n: nat, t: seq<RuleValue<Attraction>>, env: Env, stream: nat -> real): (r: Option<World>)
    requires n <= |w.bodies| && env.Valid()
    ensures r.Some? ==> |r.value.bodies| == |w.bodies|
    decreases n
  {
    if n == 0 then Some(w)
    else
      match Sweep(w, n - 1, t, env, stream)
      case None => None
      case Some(v) => Visit(v, n - 1, t, env, stream)
  }

  /** One call of `applyRules`. */
  function Tick(w: World, t: seq<RuleValue<Attraction>>, env: Env, stream: nat -> real): Option<World>
    requires env.Valid()
  {
    Sweep(w, |w.bodies|, t, env, stream)
  }

  /** Every prefix of a sweep that completes completes too. */
  lemma {:induction false} SweepPrefix(w: World, i: nat, n: nat, t: seq<RuleValue<Attraction>>, env: Env, stream: nat -> real)
    requires i <= n <= |w.bodies| && env.Valid()
    requires Sweep(w, n, t, env, stream).Some?
    ensures Sweep(w, i, t, env, stream).Some?
    decreases n
  {
    if i < n {
      SweepPrefix(w, i, n - 1, t, env, stream);
    }
  }

  /** Every prefix of a row that completes completes too. */
  lemma {:induction false} RowPrefix(w: World, i: nat, j: nat, n: nat, t: seq<RuleValue<Attraction>>, env: Env, stream: nat -> real)
    requires i < |w.bodies| && j <= n <= |w.bodies| && env.Valid()
    requires Row(w, i, n, t, env, stream).Some?
    ensures Row(w, i, j, t, env, stream).Some?
    decreases n
  {
    if j < n {
      RowPrefix(w, i, j, n - 1, t, env, stream);
    }
  }

  /** Step `i` of a sweep that completes continues its first `i` steps by
      one visit, which is defined. */
  lemma SweepNext(w: World, i: nat, n: nat, t: seq<RuleValue<Attraction>>, env: Env, stream: nat -> real)
    requires i < n <= |w.bodies| && env.Valid()
    requires Sweep(w, n, t, env, stream).Some?
    ensures Sweep(w, i, t, env, stream).Some?
    ensures var v := Sweep(w, i, t, env, stream).value;
      && i < |v.bodies|
      && Visit(v, i, t, env, stream).Some?
      && Sweep(w, i + 1, t, env, stream) == Visit(v, i, t, env, stream)
  {
    SweepPrefix(w, i + 1, n, t, env, stream);
  }

  /** Step `j` of a row that completes continues its first `j` steps by one
      meeting, which is defined. */
  lemma RowNext(w: World, i: nat, j: nat, n: nat, t: seq<RuleValue<Attraction>>, env: Env, stream: nat -> real)
    requires i < |w.bodies| && j < n <= |w.bodies| && env.Valid()
    requires Row(w, i, n, t, env, stream).Some?
    ensures Row(w, i, j, t, env, stream).Some?
    ensures var v := Row(w, i, j, t, env, stream).value;
      && Meet(v, i, j, t, env, stream).Some?
      && Row(w, i, j + 1, t, env, stream) == Meet(v, i, j, t, env, stream)
  {
    RowPrefix(w, i, j + 1, n, t, env, stream);
  }

  /** A tick keeps the number of particles and the group of each. */
  lemma TickKeepsGroups(w: World, t: seq<RuleValue<Attraction>>, env: Env, stream: nat -> real)
    requires env.Valid() && Tick(w, t, env, stream).Some?
    ensures SameGroups(w.bodies, Tick(w, t, env, stream).value.bodies)
  {
    SweepKeepsGroups(w, |w.bodies|, t, env, stream);
  }

  lemma {:induction false} SweepKeepsGroups(w: World, n: nat, t: seq<RuleValue<Attraction>>, env: Env, stream: nat -> real)
    requires n <= |w.bodies| && env.Valid()
    requires Sweep(w, n, t, env, stream).Some?
    ensures SameGroups(w.bodies, Sweep(w, n, t, env, stream).value.bodies)
    decreases n
  {
    if n > 0 {
      SweepKeepsGroups(w, n - 1, t, env, stream);
      var v := Sweep(w, n - 1, t, env, stream).value;
      VisitKeepsGroups(v, n - 1, t, env, stream);
    }
  }

  lemma VisitKeepsGroups(w: World, i: nat, t: seq<RuleValue<Attraction>>, env: Env, stream: nat -> real)
    requires i < |w.bodies| && env.Valid()
    requires Visit(w, i, t, env, stream).Some?
    ensures SameGroups(w.bodies, Visit(w, i, t, env, stream).value.bodies)
  {
    RowKeepsGroups(w, i, |w.bodies|, t, env, stream);
    var v := Row(w, i, |w.bodies|, t, env, stream).value;
    if env.gravityEnabled {
      var well := GravityWell(v.bodies[i], stream(v.cursor), env.canvas, env.gravityForce);
      InteractGroups(v.bodies[i], well, t, env, stream, v.cursor + 1);
    }
    var g := WithGravity(v, i, t, env, stream).value;
    if env.mouseInteraction {
      InteractGroups(g.bodies[i], MouseTarget(env.mouse), t, env, stream, g.cursor);
    }
  }

  lemma {:induction false} RowKeepsGroups(w: World, i: nat, n: nat, t: seq<RuleValue<Attraction>>, env: Env, stream: nat -> real)
    requires i < |w.bodies| && n <= |w.bodies| && env.Valid()
    requires Row(w, i, n, t, env, stream).Some?
    ensures SameGroups(w.bodies, Row(w, i, n, t, env, stream).value.bodies)
    decreases n
  {
    if n > 0 {
      RowKeepsGroups(w, i, n - 1, t, env, stream);
      var v := Row(w, i, n - 1, t, env, stream).value;
      if n - 1 != i {
        InteractGroups(v.bodies[i], v.bodies[n - 1], t, env, stream, v.cursor);
      }
    }
  }

  /** A particle that starts a tick in the margin box ends it there: every
      interaction either leaves it alone, clamps it back into the box, or
      (as a target) changes only its velocity. */
  lemma {:induction false} SweepKeepsBox(w: World, n: nat, t: seq<RuleValue<Attraction>>, env: Env, stream: nat -> real)
    requires n <= |w.bodies| && env.Valid()
    requires AllInBox(w.bodies, env.canvas, env.settings.margin)
    requires Sweep(w, n, t, env, stream).Some?
    ensures AllInBox(Sweep(w, n, t, env, stream).value.bodies, env.canvas, env.settings.margin)
    decreases n
  {
    if n > 0 {
      SweepKeepsBox(w, n - 1, t, env, stream);
      var v := Sweep(w, n - 1, t, env, stream).value;
      VisitKeepsBox(v, n - 1, t, env, stream);
    }
  }

  lemma VisitKeepsBox(w: World, i: nat, t: seq<RuleValue<Attraction>>, env: Env, stream: nat -> real)
    requires i < |w.bodies| && env.Valid()
    requires AllInBox(w.bodies, env.canvas, env.settings.margin)
    requires Visit(w, i, t, env, stream).Some?
    ensures AllInBox(Visit(w, i, t, env, stream).value.bodies, env.canvas, env.settings.margin)
  {
    RowKeepsBox(w, i, |w.bodies|, t, env, stream);
    var v := Row(w, i, |w.bodies|, t, env, stream).value;
    if env.gravityEnabled {
      var well := GravityWell(v.bodies[i], stream(v.cursor), env.canvas, env.gravityForce);
      InteractKeepsBox(v.bodies[i], well, t, env, stream, v.cursor + 1);
    }
    var g := WithGravity(v, i, t, env, stream).value;
    if env.mouseInteraction {
      InteractKeepsBox(g.bodies[i], MouseTarget(env.mouse), t, env, stream, g.cursor);
    }
  }

  lemma {:induction false} RowKeepsBox(w: World, i: nat, n: nat, t: seq<RuleValue<Attraction>>, env: Env, stream: nat -> real)
    requires i < |w.bodies| && n <= |w.bodies| && env.Valid()
    requires AllInBox(w.bodies, env.canvas, env.settings.margin)
    requires Row(w, i, n, t, env, stream).Some?
    ensures AllInBox(Row(w, i, n, t, env, stream).value.bodies, env.canvas, env.settings.margin)
    decreases n
  {
    if n > 0 {
      RowKeepsBox(w, i, n - 1, t, env, stream);
      var v := Row(w, i, n - 1, t, env, stream).value;
      if n - 1 != i {
        InteractKeepsBox(v.bodies[i], v.bodies[n - 1], t, env, stream, v.cursor);
      }
    }
  }

  /** An interaction between two particles in the margin box leaves both in
      it. */
  lemma InteractKeepsBox(b1: Body, b2: Body, t: seq<RuleValue<Attraction>>, env: Env, stream: nat -> real, k: nat)
    requires env.Valid()
    ensures var o := Interact(b1, b2, t, env, stream, k);
      o.Some? && InBox(b1, env.canvas, env.settings.margin) ==>
        InBox(o.value.p1, env.canvas, env.settings.margin)
        && (InBox(b2, env.canvas, env.settings.margin) ==> InBox(o.value.p2, env.canvas, env.settings.margin))
  {
    if Find(t, b1.group, b2.group).Some? && Interact(b1, b2, t, env, stream, k).Some? {
      InteractAdvancesSource(b1, b2, t, env, stream, k);
    }
  }

  /** A lone particle with gravity and the mouse switched off is left
      exactly as it was: the inner loop only meets the particle itself,
      which it skips. */
  lemma LoneParticleRests(b: Body, t: seq<RuleValue<Attraction>>, env: Env, stream: nat -> real, k: nat)
    requires env.Valid() && !env.gravityEnabled && !env.mouseInteraction
    ensures Tick(World([b], k), t, env, stream) == Some(World([b], k))
  {
    var w := World([b], k);
    assert Row(w, 0, 1, t, env, stream) == Some(w);
    assert Visit(w, 0, t, env, stream) == Some(w);
    assert Sweep(w, 1, t, env, stream) == Some(w);
  }

  /** `randomizeRules` on rule values: rule `i` takes draws `2i` and `2i + 1`
      after `k`, for its distance and its attraction. */
  function Randomized(t: seq<RuleValue<Attraction>>, stream: nat -> real, k: nat): seq<RuleValue<Attraction>> {
    seq(|t|, i requires 0 <= i < |t| => Reroll(t[i], stream, k + 2 * i))
  }

  /** One rule of `randomizeRules`, drawing `stream(k)` for its distance and
      `stream(k + 1)` for its attraction. */
  function Reroll(r: RuleValue<Attraction>, stream: nat -> real, k: nat): RuleValue<Attraction> {
    r.(distance := Round(stream(k) * 1000.0) as real, attraction := Fixed(stream(k + 1) * 2.0 - 1.0))
  }

  /** After `randomizeRules` the table has the same rules for the same pairs,
      so every lookup finds the same slot; each distance is a whole number in
      [0, 1000] and each attraction a constant in [-1, 1). In particular the
      gravity rules no longer follow the gravity force. */
  lemma RandomizedSpec(t: seq<RuleValue<Attraction>>, stream: nat -> real, k: nat)
    requires forall n: nat :: 0.0 <= stream(n) < 1.0
    ensures var r := Randomized(t, stream, k);
      && |r| == |t| && Keys(r) == Keys(t)
      && (forall who, to :: Find(r, who, to) == Find(t, who, to))
      && forall i :: 0 <= i < |r| ==>
           && r[i].distance == r[i].distance.Floor as real
           && 0.0 <= r[i].distance <= 1000.0
           && r[i].attraction.Fixed?
           && -1.0 <= r[i].attraction.value < 1.0
  {
    var r := Randomized(t, stream, k);
    assert Keys(r) == Keys(t);
    forall who, to ensures Find(r, who, to) == Find(t, who, to) {
      FindSameKeys(r, t, who, to);
    }
    forall i | 0 <= i < |r|
      ensures r[i].distance == r[i].distance.Floor as real && 0.0 <= r[i].distance <= 1000.0
    {
      RoundThousandth(stream(k + 2 * i));
    }
  }

  /** The engine's mutable state: the rule array and the particle array. */
  class Simulator {
    var rules: seq<Rule<Attraction>>
    var particles: seq<Particle>

    /** Each rule record and each particle record occurs once in its array. */
    ghost predicate Valid()
      reads this
    {
      Distinct(rules) && Distinct(particles)
    }

    /** The rule table's current values. */
    function Table(): seq<RuleValue<Attraction>>
      reads this, rules
    {
      Snapshot(rules)
    }

    /** The particles' current values. */
    function Bodies(): seq<Body>
      reads this, particles
    {
      States(particles)
    }

    /** Start-up: the nested loops that push the rule table, over a given
        particle array. */
    constructor (particles: seq<Particle>)
      requires Distinct(particles)
      ensures Valid() && this.particles == particles
      ensures Table() == InitialTable()
    {
      this.particles := particles;
      rules := [];
      new;
      for w := 0 to 3
        invariant this.particles == particles
        invariant Distinct(rules)
        invariant Snapshot(rules) == InitialTable()[..5 * w]
      {
        PushRulesOf(w);
      }
    }

    /** One pass of the outer start-up loop: the rules of population `w`
        towards the three populations, the mouse and gravity, in that order. */
    method PushRulesOf(w: nat)
      requires w < 3
      requires Distinct(rules) && Snapshot(rules) == InitialTable()[..5 * w]
      modifies this`rules
      ensures Distinct(rules) && Snapshot(rules) == InitialTable()[..5 * w + 5]
    {
      var who := Populations[w];
      for c := 0 to 3
        invariant Distinct(rules)
        invariant Snapshot(rules) == InitialTable()[..5 * w + c]
      {
        var r := new Rule(who, Populations[c], 100.0, Fixed(0.0));
        PushRule(r);
        InitialTableGrows(w, c);
      }
      var m := new Rule(who, Mouse, 100.0, Fixed(0.0));
      PushRule(m);
      InitialTableGrows(w, 3);
      var g := new Rule(who, Gravity, MaxValue, GravityForce);
      PushRule(g);
      InitialTableGrows(w, 4);
    }

    /** `rules.push(r)` for a rule record not yet in the table. */
    method PushRule(r: Rule<Attraction>)
      requires Distinct(rules) && r !in rules
      modifies this`rules
      ensures Distinct(rules)
      ensures rules == old(rules) + [r]
      ensures Snapshot(rules) == old(Snapshot(rules)) + [r.Value()]
    {
      rules := rules + [r];
    }

    /** `applyAttraction(p1, p2)`: look the rule up, compute the force of the
        regime, let a near-field hit overwrite the target's velocity, then
        damp, move and clamp the source particle. */
    method ApplyAttraction(p1: Particle, p2: Particle, env: Env, rng: Random)
      requires env.Valid() && rng.Valid() && p1 != p2
      requires !Singular(p1.State(), p2.State(), Table(), env)
      modifies p1, p2, rng
      ensures Interact(old(p1.State()), old(p2.State()), Table(), env, rng.stream, old(rng.next))
        == Some(Outcome(p1.State(), p2.State(), rng.next))
    {
      var found := Find(Snapshot(rules), p1.group, p2.group);
      if found.None? {
        return;
      }
      var rule := rules[found.value];
      assert rule.Value() == Table()[found.value];
      Exert(p1, p2, rule.Value(), env, rng);
    }

    /** The body of `applyAttraction` after the lookup: the force of the
        regime, the near-field overwrite of the target's velocity, then the
        damping, move and clamp of the source particle. */
    method Exert(p1: Particle, p2: Particle, rule: RuleValue<Attraction>, env: Env, rng: Random)
      requires env.Valid() && rng.Valid() && p1 != p2
      requires !DividesByZero(BounceDistance(p1.State(), p2.State(), env.sqrt), env.settings.radius, rule.distance)
      modifies p1, p2, rng
      ensures Hit(old(p1.State()), old(p2.State()), rule, env, rng.stream, old(rng.next))
        == Outcome(p1.State(), p2.State(), rng.next)
    {
      ghost var b1 := p1.State();
      var s := env.settings;
      var fx, fy := 0.0, 0.0;
      var sep := BounceDistance(p1.State(), p2.State(), env.sqrt);
      var distance := sep.d;
      ghost var f := Force(Resolve(rule.attraction, env.gravityForce), rule.distance, s, sep);
      if distance > s.radius * 2.0 && distance < rule.distance {
        var F: real;
        match rule.attraction {
          case GravityForce => F := env.gravityForce;
          case Fixed(a) => F := a;
        }
        assert f == FarForce(F, sep);
        fx, fy := FarPull(F, sep);
      } else if distance < s.radius * 2.0 {
        assert f == NearForce(s, sep);
        fx, fy := NearPush(s, sep);
        RecoilTarget(p2, fx, fy, s, rng);
      } else {
        assert f == Zero;
      }
      assert p1.State() == b1;
      Integrate(p1, fx, fy, s, env.canvas);
    }

    /** The near-field branch's overwrite of the target's velocity, one
        component at a time, each with its own draw of `Math.random`. */
    method RecoilTarget(p2: Particle, fx: real, fy: real, s: Settings, rng: Random)
      requires rng.Valid()
      modifies p2, rng
      ensures rng.next == old(rng.next) + 2
      ensures p2.State() == old(p2.State()).(
        vx := Recoil(old(p2.vx), fx, s.friction) * Jitter(rng.stream(old(rng.next))),
        vy := Recoil(old(p2.vy), fy, s.friction) * Jitter(rng.stream(old(rng.next) + 1)))
    {
      var r1 := rng.Next();
      p2.vx := -1.0 * (p2.vx + fx) * (1.0 - s.friction / 2000.0) * (r1 * 0.9 + 0.2);
      var r2 := rng.Next();
      p2.vy := -1.0 * (p2.vy + fy) * (1.0 - s.friction / 2000.0) * (r2 * 0.9 + 0.2);
    }

    /** `randomizeRules()`: each rule in turn draws its distance, then its
        attraction. */
    method RandomizeRules(rng: Random)
      requires Valid() && rng.Valid()
      modifies rules, rng
      ensures Table() == Randomized(old(Table()), rng.stream, old(rng.next))
      ensures rng.next == old(rng.next) + 2 * |rules|
    {
      ghost var t0, k0 := Table(), rng.next;
      for i := 0 to |rules|
        invariant rng.next == k0 + 2 * i
        invariant forall m :: 0 <= m < i ==> rules[m].Value() == Randomized(t0, rng.stream, k0)[m]
        invariant forall m :: i <= m < |rules| ==> rules[m].Value() == t0[m]
      {
        var rule := rules[i];
        ghost var before := rule.Value();
        var r1 := rng.Next();
        rule.distance := Round(r1 * 1000.0) as real;
        var r2 := rng.Next();
        rule.attraction := Fixed(r2 * 2.0 - 1.0);
        assert rule.Value() == Reroll(before, rng.stream, k0 + 2 * i);
        assert forall m :: 0 <= m < |rules| && m != i ==> rules[m] != rule;
      }
      assert Table() == Randomized(t0, rng.stream, k0);
    }

    /** `applyRules()`: for each particle in array order, its interaction
        with every other particle in array order, then with the gravity
        pseudo-particle, then with the mouse pseudo-particle. */
    method ApplyRules(env: Env, rng: Random)
      requires Valid() && env.Valid() && rng.Valid()
      requires Tick(World(Bodies(), rng.next), Table(), env, rng.stream).Some?
      modifies particles, rng
      ensures Tick(World(old(Bodies()), old(rng.next)), Table(), env, rng.stream) == Some(World(Bodies(), rng.next))
    {
      ghost var w0, t := World(Bodies(), rng.next), Table();
      for i := 0 to |particles|
        invariant Table() == t && rng.Valid()
        invariant Sweep(w0, i, t, env, rng.stream) == Some(World(Bodies(), rng.next))
      {
        SweepNext(w0, i, |particles|, t, env, rng.stream);
        VisitParticle(i, env, rng);
      }
    }

    /** One pass of the outer loop of `applyRules`: `particles[i]` against
        every other particle, then gravity, then the mouse. */
    method VisitParticle(i: nat, env: Env, rng: Random)
      requires Valid() && env.Valid() && rng.Valid() && i < |particles|
      requires Visit(World(Bodies(), rng.next), i, Table(), env, rng.stream).Some?
      modifies particles, rng
      ensures Visit(World(old(Bodies()), old(rng.next)), i, Table(), env, rng.stream)
        == Some(World(Bodies(), rng.next))
    {
      ApplyRow(i, env, rng);
      if env.gravityEnabled {
        ApplyGravity(i, env, rng);
      }
      if env.mouseInteraction {
        ApplyMouse(i, env, rng);
      }
    }

    /** The inner loop of `applyRules` for `particles[i]`: every particle in
        array order, skipping `particles[i]` itself. */
    method ApplyRow(i: nat, env: Env, rng: Random)
      requires Valid() && env.Valid() && rng.Valid() && i < |particles|
      requires Row(World(Bodies(), rng.next), i, |particles|, Table(), env, rng.stream).Some?
      modifies particles, rng
      ensures Row(World(old(Bodies()), old(rng.next)), i, |particles|, Table(), env, rng.stream)
        == Some(World(Bodies(), rng.next))
    {
      ghost var v, t := World(Bodies(), rng.next), Table();
      ghost var total := Row(v, i, |particles|, t, env, rng.stream);
      assert Row(v, i, 0, t, env, rng.stream) == Some(v);
      for j := 0 to |particles|
        invariant Table() == t && rng.Valid() && total.Some?
        invariant Row(v, i, j, t, env, rng.stream) == Some(World(Bodies(), rng.next))
      {
        MeetParticle(v, i, j, env, rng);
      }
    }

    /** The body of the inner loop of `applyRules` for `particles[i]` in
        iteration `j`: `particles[i]` is skipped by identity, any other
        particle is attracted. Started from the records `v` of the loop's
        entry, it extends the inner loop's first `j` steps by one. */
    method MeetParticle(ghost v: World, i: nat, j: nat, env: Env, rng: Random)
      requires Valid() && env.Valid() && rng.Valid()
      requires i < |particles| && j < |particles| == |v.bodies|
      requires Row(v, i, |particles|, Table(), env, rng.stream).Some?
      requires Row(v, i, j, Table(), env, rng.stream) == Some(World(Bodies(), rng.next))
      modifies particles, rng
      ensures Row(v, i, j + 1, Table(), env, rng.stream) == Some(World(Bodies(), rng.next))
    {
      RowNext(v, i, j, |particles|, Table(), env, rng.stream);
      var p1, p2 := particles[i], particles[j];
      if p1 == p2 {
        return;
      }
      ApplyPair(i, j, env, rng);
    }

    /** `applyAttraction(particle1, particle2)` for two particles of the
        array, seen on the whole array. */
    method ApplyPair(i: nat, j: nat, env: Env, rng: Random)
      requires Valid() && env.Valid() && rng.Valid()
      requires i < |particles| && j < |particles| && i != j
      requires PairStep(World(Bodies(), rng.next), i, j, Table(), env, rng.stream).Some?
      modifies particles[i], particles[j], rng
      ensures PairStep(World(old(Bodies()), old(rng.next)), i, j, Table(), env, rng.stream)
        == Some(World(Bodies(), rng.next))
    {
      ghost var bs := Bodies();
      var p1, p2 := particles[i], particles[j];
      InteractDefinedness(p1.State(), p2.State(), Table(), env, rng.stream, rng.next);
      ApplyAttraction(p1, p2, env, rng);
      ghost var o := Outcome(p1.State(), p2.State(), rng.next);
      assert Bodies() == bs[j := o.p2][i := o.p1] by {
        forall m | 0 <= m < |particles| ensures Bodies()[m] == bs[j := o.p2][i := o.p1][m] {
          if m != i && m != j {
            assert particles[m] != p1 && particles[m] != p2;
          }
        }
      }
    }

    /** The gravity branch of `applyRules`: a pseudo-particle of the gravity
        group at the canvas bottom, a random quarter pixel to either side of
        `particle1`, whose velocity carries the gravity force. */
    method ApplyGravity(i: nat, env: Env, rng: Random)
      requires Valid() && env.Valid() && rng.Valid() && env.gravityEnabled
      requires i < |particles|
      requires WithGravity(World(Bodies(), rng.next), i, Table(), env, rng.stream).Some?
      modifies particles[i], rng
      ensures WithGravity(World(old(Bodies()), old(rng.next)), i, Table(), env, rng.stream)
        == Some(World(Bodies(), rng.next))
    {
      ghost var bs, k := Bodies(), rng.next;
      var p1 := particles[i];
      var r := rng.Next();
      var well := new Particle(p1.x + r * 0.5 - 0.25, env.canvas.height as real, Gravity, 0.0, env.gravityForce);
      assert well.State() == GravityWell(bs[i], rng.stream(k), env.canvas, env.gravityForce);
      InteractDefinedness(p1.State(), well.State(), Table(), env, rng.stream, rng.next);
      ApplyAttraction(p1, well, env, rng);
      assert Bodies() == bs[i := p1.State()] by {
        forall m | 0 <= m < |particles| ensures Bodies()[m] == bs[i := p1.State()][m] {
          if m != i {
            assert particles[m] != p1;
          }
        }
      }
    }

    /** The mouse branch of `applyRules`: a pseudo-particle of the mouse
        group at rest at the mouse position. */
    method ApplyMouse(i: nat, env: Env, rng: Random)
      requires Valid() && env.Valid() && rng.Valid() && env.mouseInteraction
      requires i < |particles|
      requires WithMouse(World(Bodies(), rng.next), i, Table(), env, rng.stream).Some?
      modifies particles[i], rng
      ensures WithMouse(World(old(Bodies()), old(rng.next)), i, Table(), env, rng.stream)
        == Some(World(Bodies(), rng.next))
    {
      ghost var bs := Bodies();
      var p1 := particles[i];
      var mouse := new Particle(env.mouse.x, env.mouse.y, Mouse, 0.0, 0.0);
      InteractDefinedness(p1.State(), mouse.State(), Table(), env, rng.stream, rng.next);
      ApplyAttraction(p1, mouse, env, rng);
      assert Bodies() == bs[i := p1.State()] by {
        forall m | 0 <= m < |particles| ensures Bodies()[m] == bs[i := p1.State()][m] {
          if m != i {
            assert particles[m] != p1;
          }
        }
      }
    }
  }
}
