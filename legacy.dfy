/** The engine of `simulator.js`, the older copy of the same physics: a
    12-rule table without gravity rules, plain numeric attractions,
    `applyAttraction` with a deterministic near-field recoil, and
    `applyRules` with only the mouse pseudo-particle. */
module LegacyEngine {
  import opened Common
  import opened Host
  import opened Particles
  import opened Forces
  import opened Rules

  /** The targets each population gets a rule for, in the order the
      construction loop pushes them: the three populations, then the mouse. */
  const Targets: seq<Group> := [Group1, Group2, Group3, Mouse]

  /** The rule the construction loop pushes for `(who, to)`. */
  function DefaultRule(who: Group, to: Group): RuleValue<real> {
    RuleValue(who, to, 100.0, 0.0)
  }

  /** The table as the start-up loops build it. */
  function InitialTable(): seq<RuleValue<real>> {
    seq(12, k requires 0 <= k < 12 => DefaultRule(Populations[k / 4], Targets[k % 4]))
  }

  /** The start-up table grows one rule at a time: rule `4 * w + c` is the
      rule of population `w` towards target `c`. */
  lemma InitialTableGrows(w: nat, c: nat)
    requires w < 3 && c < 4
    ensures InitialTable()[..4 * w + c + 1]
      == InitialTable()[..4 * w + c] + [DefaultRule(Populations[w], Targets[c])]
  {
    var n := 4 * w + c;
    assert n / 4 == w && n % 4 == c;
    assert InitialTable()[..n + 1] == InitialTable()[..n] + [InitialTable()[n]];
  }

  /** The start-up table holds 12 rules, exactly one per ordered pair of a
      population and a population or the mouse, all at distance 100 and
      attraction 0. There is no rule towards gravity, and none from the
      mouse. */
  lemma InitialTableLayout(who: Group, to: Group)
    ensures |InitialTable()| == 12 && KeysUnique(InitialTable())
    ensures Find(InitialTable(), who, to).Some? <==> who in Populations && to != Gravity
    ensures var r := Find(InitialTable(), who, to);
      r.Some? ==> InitialTable()[r.value] == RuleValue(who, to, 100.0, 0.0)
  {
    var t := InitialTable();
    forall i, j | 0 <= i < j < |t| ensures Keys(t)[i] != Keys(t)[j] {
      assert Keys(t)[i] == (Populations[i / 4], Targets[i % 4]);
      assert Keys(t)[j] == (Populations[j / 4], Targets[j % 4]);
    }
    if who in Populations && to != Gravity {
      var w := match who case Group1 => 0 case Group2 => 1 case _ => 2;
      var c := match to case Group1 => 0 case Group2 => 1 case Group3 => 2 case _ => 3;
      var k := 4 * w + c;
      assert k / 4 == w && k % 4 == c;
      assert t[k] == DefaultRule(who, to);
      FindUnique(t, who, to, k);
    } else {
      forall k | 0 <= k < |t| ensures !Matches(t[k], who, to) {
        assert t[k].who == Populations[k / 4] && t[k].to == Targets[k % 4];
      }
    }
  }

  /** What one frame of the physics reads besides the particles and the
      rules: the tunables, the canvas, the mouse switch and position, and
      `Math.sqrt`. */
  datatype Env = Env(
    settings: Settings,
    canvas: Canvas,
    mouseInteraction: bool,
    mouse: Point,
    sqrt: real -> real)
  {
    /** The ranges the control panel allows. */
    predicate Valid() {
      settings.Valid()
    }
  }

  /** The two particle records after `applyAttraction(p1, p2)`. */
  datatype Outcome = Outcome(p1: Body, p2: Body)

  /** `applyAttraction(p1, p2)` once the rule `rule` has been found, on
      particle values. The near-field hit at distance zero, which the source
      computes with NaN, is excluded. */
  function Hit(b1: Body, b2: Body, rule: RuleValue<real>, env: Env): Outcome
    requires env.Valid()
    requires !DividesByZero(BounceDistance(b1, b2, env.sqrt), env.settings.radius, rule.distance)
  {
    var s, sep := env.settings, BounceDistance(b1, b2, env.sqrt);
    var regime := RegimeOf(sep.d, s.radius, rule.distance);
    var f := Force(rule.attraction, rule.distance, s, sep);
    var p2 :=
      if regime == NearField then
        b2.(vx := Recoil(b2.vx, f.x, s.friction), vy := Recoil(b2.vy, f.y, s.friction))
      else b2;
    Outcome(Advance(b1, f, s, env.canvas), p2)
  }

  /** `applyAttraction(p1, p2)` on particle values; `None` is the pair at
      distance zero that has a rule. */
  function Interact(b1: Body, b2: Body, t: seq<RuleValue<real>>, env: Env): Option<Outcome>
    requires env.Valid()
  {
    match Find(t, b1.group, b2.group)
    case None => Some(Outcome(b1, b2))
    case Some(i) =>
      if DividesByZero(BounceDistance(b1, b2, env.sqrt), env.settings.radius, t[i].distance) then None
      else Some(Hit(b1, b2, t[i], env))
  }

  /** The one pair `applyAttraction` computes with NaN: two particles with a
      rule that are at distance zero, which is inside the near field. */
  predicate Singular(b1: Body, b2: Body, t: seq<RuleValue<real>>, env: Env)
    requires env.Valid()
  {
    match Find(t, b1.group, b2.group)
    case None => false
    case Some(i) =>
      DividesByZero(BounceDistance(b1, b2, env.sqrt), env.settings.radius, t[i].distance)
  }

  /** With no rule for the pair, `applyAttraction` returns at once and
      neither particle changes. */
  lemma MissingRuleChangesNothing(b1: Body, b2: Body, t: seq<RuleValue<real>>, env: Env)
    requires env.Valid()
    requires forall i :: 0 <= i < |t| ==> !Matches(t[i], b1.group, b2.group)
    ensures Interact(b1, b2, t, env) == Some(Outcome(b1, b2))
  {
  }

  /** `applyAttraction` is undefined only for coincident particles that
      have a rule. */
  lemma InteractDefinedness(b1: Body, b2: Body, t: seq<RuleValue<real>>, env: Env)
    requires env.Valid()
    ensures Interact(b1, b2, t, env).None? <==> Singular(b1, b2, t, env)
    ensures Singular(b1, b2, t, env) <==>
      (Find(t, b1.group, b2.group).Some? && BounceDistance(b1, b2, env.sqrt).d == 0.0)
  {
  }

  /** When a rule is found, the source particle's velocity becomes the
      damped `v + f` for the force of the regime, its position moves by that
      velocity, and the clamp puts it in the margin box. */
  lemma InteractAdvancesSource(b1: Body, b2: Body, t: seq<RuleValue<real>>, env: Env)
    requires env.Valid()
    requires Find(t, b1.group, b2.group).Some?
    requires Interact(b1, b2, t, env).Some?
    ensures var rule, sep := t[Find(t, b1.group, b2.group).value], BounceDistance(b1, b2, env.sqrt);
      var f := Force(rule.attraction, rule.distance, env.settings, sep);
      var p1 := Interact(b1, b2, t, env).value.p1;
      && p1 == Advance(b1, f, env.settings, env.canvas)
      && InBox(p1, env.canvas, env.settings.margin)
  {
    var rule, sep := t[Find(t, b1.group, b2.group).value], BounceDistance(b1, b2, env.sqrt);
    var f := Force(rule.attraction, rule.distance, env.settings, sep);
    AdvanceSpec(b1, f, env.settings, env.canvas);
  }

  /** Outside the near field the target particle is not touched; in every
      regime it keeps its position and group. */
  lemma InteractTargetOutsideNearField(b1: Body, b2: Body, t: seq<RuleValue<real>>, env: Env)
    requires env.Valid()
    requires Interact(b1, b2, t, env).Some?
    ensures var o, r := Interact(b1, b2, t, env).value, Find(t, b1.group, b2.group);
      var sep := BounceDistance(b1, b2, env.sqrt);
      && o.p2.x == b2.x && o.p2.y == b2.y && o.p2.group == b2.group
      && (r.None? || RegimeOf(sep.d, env.settings.radius, t[r.value].distance) != NearField ==> o.p2 == b2)
  {
  }

  /** In the near field the target's velocity components become exactly
      `-(v + f) * (1 - friction / 2000)`: no random factor. */
  lemma NearFieldRecoil(b1: Body, b2: Body, t: seq<RuleValue<real>>, env: Env)
    requires env.Valid()
    requires Find(t, b1.group, b2.group).Some?
    requires var rule, sep := t[Find(t, b1.group, b2.group).value], BounceDistance(b1, b2, env.sqrt);
      RegimeOf(sep.d, env.settings.radius, rule.distance) == NearField && sep.d != 0.0
    ensures var sep, s := BounceDistance(b1, b2, env.sqrt), env.settings;
      var f := NearForce(s, sep);
      var o := Interact(b1, b2, t, env);
      && o.Some?
      && o.value.p2.vx == -1.0 * (b2.vx + f.x) * (1.0 - s.friction / 2000.0)
      && o.value.p2.vy == -1.0 * (b2.vy + f.y) * (1.0 - s.friction / 2000.0)
  {
  }

  /** Interactions never change a particle's group. */
  lemma InteractGroups(b1: Body, b2: Body, t: seq<RuleValue<real>>, env: Env)
    requires env.Valid()
    ensures var o := Interact(b1, b2, t, env);
      o.Some? ==> o.value.p1.group == b1.group && o.value.p2.group == b2.group
  {
  }

  /** `applyAttraction(particles[i], particles[j])` for `i != j`. */
  function PairStep(bs: seq<Body>, i: nat, j: nat, t: seq<RuleValue<real>>, env: Env): (r: Option<seq<Body>>)
    requires i < |bs| && j < |bs| && i != j && env.Valid()
    ensures r.Some? ==> |r.value| == |bs|
  {
    match Interact(bs[i], bs[j], t, env)
    case None => None
    case Some(o) => Some(bs[j := o.p2][i := o.p1])
  }

  /** One iteration of the inner loop: particle `i` meets particle `j`,
      unless it is itself. */
  function Meet(bs: seq<Body>, i: nat, j: nat, t: seq<RuleValue<real>>, env: Env): (r: Option<seq<Body>>)
    requires i < |bs| && j < |bs| && env.Valid()
    ensures r.Some? ==> |r.value| == |bs|
  {
    if j == i then Some(bs) else PairStep(bs, i, j, t, env)
  }

  /** The first `n` iterations of the inner loop for particle `i`. */
  function Row(bs: seq<Body>, i: nat, n: nat, t: seq<RuleValue<real>>, env: Env): (r: Option<seq<Body>>)
    requires i < |bs| && n <= |bs| && env.Valid()
    ensures r.Some? ==> |r.value| == |bs|
    decreases n
  {
    if n == 0 then Some(bs)
    else
      match Row(bs, i, n - 1, t, env)
      case None => None
      case Some(v) => Meet(v, i, n - 1, t, env)
  }

  /** The mouse pseudo-particle's interaction with particle `i`, when mouse
      interaction is on. */
  function WithMouse(bs: seq<Body>, i: nat, t: seq<RuleValue<real>>, env: Env): (r: Option<seq<Body>>)
    requires i < |bs| && env.Valid()
    ensures r.Some? ==> |r.value| == |bs|
  {
    if !env.mouseInteraction then Some(bs)
    else
      match Interact(bs[i], MouseTarget(env.mouse), t, env)
      case None => None
      case Some(o) => Some(bs[i := o.p1])
  }

  /** One iteration of the outer loop: particle `i` against every other
      particle, then against the mouse. */
  function Visit(bs: seq<Body>, i: nat, t: seq<RuleValue<real>>, env: Env): (r: Option<seq<Body>>)
    requires i < |bs| && env.Valid()
    ensures r.Some? ==> |r.value| == |bs|
  {
    match Row(bs, i, |bs|, t, env)
    case None => None
    case Some(v) => WithMouse(v, i, t, env)
  }

  /** The first `n` iterations of the outer loop of `applyRules`. */
  function Sweep(bs: seq<Body>, n: nat, t: seq<RuleValue<real>>, env: Env): (r: Option<seq<Body>>)
    requires n <= |bs| && env.Valid()
    ensures r.Some? ==> |r.value| == |bs|
    decreases n
  {
    if n == 0 then Some(bs)
    else
      match Sweep(bs, n - 1, t, env)
      case None => None
      case Some(v) => Visit(v, n - 1, t, env)
  }

  /** One call of `applyRules`. */
  function Tick(bs: seq<Body>, t: seq<RuleValue<real>>, env: Env): Option<seq<Body>>
    requires env.Valid()
  {
    Sweep(bs, |bs|, t, env)
  }

  /** Every prefix of a sweep that completes completes too. */
  lemma {:induction false} SweepPrefix(bs: seq<Body>, i: nat, n: nat, t: seq<RuleValue<real>>, env: Env)
    requires i <= n <= |bs| && env.Valid()
    requires Sweep(bs, n, t, env).Some?
    ensures Sweep(bs, i, t, env).Some?
    decreases n
  {
    if i < n {
      SweepPrefix(bs, i, n - 1, t, env);
    }
  }

  /** Every prefix of a row that completes completes too. */
  lemma {:induction false} RowPrefix(bs: seq<Body>, i: nat, j: nat, n: nat, t: seq<RuleValue<real>>, env: Env)
    requires i < |bs| && j <= n <= |bs| && env.Valid()
    requires Row(bs, i, n, t, env).Some?
    ensures Row(bs, i, j, t, env).Some?
    decreases n
  {
    if j < n {
      RowPrefix(bs, i, j, n - 1, t, env);
    }
  }

  /** Step `i` of a sweep that completes continues its first `i` steps by
      one visit, which is defined. */
  lemma SweepNext(bs: seq<Body>, i: nat, n: nat, t: seq<RuleValue<real>>, env: Env)
    requires i < n <= |bs| && env.Valid()
    requires Sweep(bs, n, t, env).Some?
    ensures Sweep(bs, i, t, env).Some?
    ensures var v := Sweep(bs, i, t, env).value;
      && i < |v|
      && Visit(v, i, t, env).Some?
      && Sweep(bs, i + 1, t, env) == Visit(v, i, t, env)
  {
    SweepPrefix(bs, i + 1, n, t, env);
  }

  /** Step `j` of a row that completes continues its first `j` steps by one
      meeting, which is defined. */
  lemma RowNext(bs: seq<Body>, i: nat, j: nat, n: nat, t: seq<RuleValue<real>>, env: Env)
    requires i < |bs| && j < n <= |bs| && env.Valid()
    requires Row(bs, i, n, t, env).Some?
    ensures Row(bs, i, j, t, env).Some?
    ensures var v := Row(bs, i, j, t, env).value;
      && Meet(v, i, j, t, env).Some?
      && Row(bs, i, j + 1, t, env) == Meet(v, i, j, t, env)
  {
    RowPrefix(bs, i, j + 1, n, t, env);
  }

  /** A tick keeps the number of particles and the group of each. */
  lemma TickKeepsGroups(bs: seq<Body>, t: seq<RuleValue<real>>, env: Env)
    requires env.Valid() && Tick(bs, t, env).Some?
    ensures SameGroups(bs, Tick(bs, t, env).value)
  {
    SweepKeepsGroups(bs, |bs|, t, env);
  }

  lemma {:induction false} SweepKeepsGroups(bs: seq<Body>, n: nat, t: seq<RuleValue<real>>, env: Env)
    requires n <= |bs| && env.Valid()
    requires Sweep(bs, n, t, env).Some?
    ensures SameGroups(bs, Sweep(bs, n, t, env).value)
    decreases n
  {
    if n > 0 {
      SweepKeepsGroups(bs, n - 1, t, env);
      var v := Sweep(bs, n - 1, t, env).value;
      RowKeepsGroups(v, n - 1, |v|, t, env);
      var r := Row(v, n - 1, |v|, t, env).value;
      if env.mouseInteraction {
        InteractGroups(r[n - 1], MouseTarget(env.mouse), t, env);
      }
    }
  }

  lemma {:induction false} RowKeepsGroups(bs: seq<Body>, i: nat, n: nat, t: seq<RuleValue<real>>, env: Env)
    requires i < |bs| && n <= |bs| && env.Valid()
    requires Row(bs, i, n, t, env).Some?
    ensures SameGroups(bs, Row(bs, i, n, t, env).value)
    decreases n
  {
    if n > 0 {
      RowKeepsGroups(bs, i, n - 1, t, env);
      var v := Row(bs, i, n - 1, t, env).value;
      if n - 1 != i {
        InteractGroups(v[i], v[n - 1], t, env);
      }
    }
  }

  /** A particle that starts a tick in the margin box ends it there: every
      interaction either leaves it alone, clamps it back into the box, or
      (as a target) changes only its velocity. */
  lemma {:induction false} SweepKeepsBox(bs: seq<Body>, n: nat, t: seq<RuleValue<real>>, env: Env)
    requires n <= |bs| && env.Valid()
    requires AllInBox(bs, env.canvas, env.settings.margin)
    requires Sweep(bs, n, t, env).Some?
    ensures AllInBox(Sweep(bs, n, t, env).value, env.canvas, env.settings.margin)
    decreases n
  {
    if n > 0 {
      SweepKeepsBox(bs, n - 1, t, env);
      var v := Sweep(bs, n - 1, t, env).value;
      RowKeepsBox(v, n - 1, |v|, t, env);
      var r := Row(v, n - 1, |v|, t, env).value;
      if env.mouseInteraction {
        InteractKeepsBox(r[n - 1], MouseTarget(env.mouse), t, env);
      }
    }
  }

  lemma {:induction false} RowKeepsBox(bs: seq<Body>, i: nat, n: nat, t: seq<RuleValue<real>>, env: Env)
    requires i < |bs| && n <= |bs| && env.Valid()
    requires AllInBox(bs, env.canvas, env.settings.margin)
    requires Row(bs, i, n, t, env).Some?
    ensures AllInBox(Row(bs, i, n, t, env).value, env.canvas, env.settings.margin)
    decreases n
  {
    if n > 0 {
      RowKeepsBox(bs, i, n - 1, t, env);
      var v := Row(bs, i, n - 1, t, env).value;
      if n - 1 != i {
        InteractKeepsBox(v[i], v[n - 1], t, env);
      }
    }
  }

  /** An interaction between two particles in the margin box leaves both in
      it. */
  lemma InteractKeepsBox(b1: Body, b2: Body, t: seq<RuleValue<real>>, env: Env)
    requires env.Valid()
    ensures var o := Interact(b1, b2, t, env);
      o.Some? && InBox(b1, env.canvas, env.settings.margin) ==>
        InBox(o.value.p1, env.canvas, env.settings.margin)
        && (InBox(b2, env.canvas, env.settings.margin) ==> InBox(o.value.p2, env.canvas, env.settings.margin))
  {
    if Find(t, b1.group, b2.group).Some? && Interact(b1, b2, t, env).Some? {
      InteractAdvancesSource(b1, b2, t, env);
    }
  }

  /** A lone particle with the mouse switched off is left exactly as it
      was: the inner loop only meets the particle itself, which it skips. */
  lemma LoneParticleRests(b: Body, t: seq<RuleValue<real>>, env: Env)
    requires env.Valid() && !env.mouseInteraction
    ensures Tick([b], t, env) == Some([b])
  {
    assert Row([b], 0, 1, t, env) == Some([b]);
    assert Visit([b], 0, t, env) == Some([b]);
  }

  /** `randomizeRules` on rule values: rule `i` takes draws `2i` and `2i + 1`
      after `k`, for its distance and its attraction. */
  function Randomized(t: seq<RuleValue<real>>, stream: nat -> real, k: nat): seq<RuleValue<real>> {
    seq(|t|, i requires 0 <= i < |t| => Reroll(t[i], stream, k + 2 * i))
  }

  /** One rule of `randomizeRules`, drawing `stream(k)` for its distance and
      `stream(k + 1)` for its attraction. */
  function Reroll(r: RuleValue<real>, stream: nat -> real, k: nat): RuleValue<real> {
    r.(distance := Round(stream(k) * 1000.0) as real, attraction := stream(k + 1) * 2.0 - 1.0)
  }

  /** After `randomizeRules` the table has the same rules for the same pairs,
      so every lookup finds the same slot; each distance is a whole number in
      [0, 1000] and each attraction lies in [-1, 1). */
  lemma RandomizedSpec(t: seq<RuleValue<real>>, stream: nat -> real, k: nat)
    requires forall n: nat :: 0.0 <= stream(n) < 1.0
    ensures var r := Randomized(t, stream, k);
      && |r| == |t| && Keys(r) == Keys(t)
      && (forall who, to :: Find(r, who, to) == Find(t, who, to))
      && forall i :: 0 <= i < |r| ==>
           && r[i].distance == r[i].distance.Floor as real
           && 0.0 <= r[i].distance <= 1000.0
           && -1.0 <= r[i].attraction < 1.0
  {
    var r := Randomized(t, stream, k);
    assert Keys(r) == Keys(t);
    forall who, to ensures Find(r, who, to) == Find(t, who, to) {
      FindSameKeys(r, t, who, to);
    }
    forall i | 0 <= i < |r|
      ensures r[i].distance == r[i].distance.Floor as real && 0.0 <= r[i].distance <= 1000.0
    {
      RoundThousandth(stream(k + 2 * i));
    }
  }

  /** The engine's mutable state: the rule array and the particle array. */
  class Simulator {
    var rules: seq<Rule<real>>
    var particles: seq<Particle>

    /** Each rule record and each particle record occurs once in its array. */
    ghost predicate Valid()
      reads this
    {
      Distinct(rules) && Distinct(particles)
    }

    /** The rule table's current values. */
    function Table(): seq<RuleValue<real>>
      reads this, rules
    {
      Snapshot(rules)
    }

    /** The particles' current values. */
    function Bodies(): seq<Body>
      reads this, particles
    {
      States(particles)
    }

    /** Start-up: the nested loops that push the rule table, over a given
        particle array. */
    constructor (particles: seq<Particle>)
      requires Distinct(particles)
      ensures Valid() && this.particles == particles
      ensures Table() == InitialTable()
    {
      this.particles := particles;
      rules := [];
      new;
      for w := 0 to 3
        invariant this.particles == particles
        invariant Distinct(rules)
        invariant Snapshot(rules) == InitialTable()[..4 * w]
      {
        PushRulesOf(w);
      }
    }

    /** One pass of the outer start-up loop: the rules of population `w`
        towards the three populations, then the mouse. */
    method PushRulesOf(w: nat)
      requires w < 3
      requires Distinct(rules) && Snapshot(rules) == InitialTable()[..4 * w]
      modifies this`rules
      ensures Distinct(rules) && Snapshot(rules) == InitialTable()[..4 * w + 4]
    {
      var who := Populations[w];
      for c := 0 to 3
        invariant Distinct(rules)
        invariant Snapshot(rules) == InitialTable()[..4 * w + c]
      {
        var r := new Rule(who, Populations[c], 100.0, 0.0);
        PushRule(r);
        InitialTableGrows(w, c);
      }
      var m := new Rule(who, Mouse, 100.0, 0.0);
      PushRule(m);
      InitialTableGrows(w, 3);
    }

    /** `rules.push(r)` for a rule record not yet in the table. */
    method PushRule(r: Rule<real>)
      requires Distinct(rules) && r !in rules
      modifies this`rules
      ensures Distinct(rules)
      ensures rules == old(rules) + [r]
      ensures Snapshot(rules) == old(Snapshot(rules)) + [r.Value()]
    {
      rules := rules + [r];
    }

    /** `applyAttraction(p1, p2)`: look the rule up; with a rule, compute the
        force of the regime, let a near-field hit overwrite the target's
        velocity, then damp, move and clamp the source particle. */
    method ApplyAttraction(p1: Particle, p2: Particle, env: Env)
      requires env.Valid() && p1 != p2
      requires !Singular(p1.State(), p2.State(), Table(), env)
      modifies p1, p2
      ensures Interact(old(p1.State()), old(p2.State()), Table(), env) == Some(Outcome(p1.State(), p2.State()))
    {
      var found := Find(Snapshot(rules), p1.group, p2.group);
      if found.None? {
        return;
      }
      var rule := rules[found.value];
      assert rule.Value() == Table()[found.value];
      Exert(p1, p2, rule.Value(), env);
    }

    /** The body of `applyAttraction` after the lookup. */
    method Exert(p1: Particle, p2: Particle, rule: RuleValue<real>, env: Env)
      requires env.Valid() && p1 != p2
      requires !DividesByZero(BounceDistance(p1.State(), p2.State(), env.sqrt), env.settings.radius, rule.distance)
      modifies p1, p2
      ensures Hit(old(p1.State()), old(p2.State()), rule, env) == Outcome(p1.State(), p2.State())
    {
      ghost var b1 := p1.State();
      var s := env.settings;
      var fx, fy := 0.0, 0.0;
      var sep := BounceDistance(p1.State(), p2.State(), env.sqrt);
      var distance := sep.d;
      ghost var f := Force(rule.attraction, rule.distance, s, sep);
      if distance > s.radius * 2.0 && distance < rule.distance {
        assert f == FarForce(rule.attraction, sep);
        fx, fy := FarPull(rule.attraction, sep);
      } else if distance < s.radius * 2.0 {
        assert f == NearForce(s, sep);
        fx, fy := NearPush(s, sep);
        RecoilTarget(p2, fx, fy, s);
      } else {
        assert f == Zero;
      }
      assert p1.State() == b1;
      Integrate(p1, fx, fy, s, env.canvas);
    }

    /** The near-field branch's overwrite of the target's velocity. */
    method RecoilTarget(p2: Particle, fx: real, fy: real, s: Settings)
      modifies p2
      ensures p2.State() == old(p2.State()).(
        vx := Recoil(old(p2.vx), fx, s.friction),
        vy := Recoil(old(p2.vy), fy, s.friction))
    {
      p2.vx := -1.0 * (p2.vx + fx) * (1.0 - s.friction / 2000.0);
      p2.vy := -1.0 * (p2.vy + fy) * (1.0 - s.friction / 2000.0);
    }

    /** `randomizeRules()`: each rule in turn draws its distance, then its
        attraction. */
    method RandomizeRules(rng: Random)
      requires Valid() && rng.Valid()
      modifies rules, rng
      ensures Table() == Randomized(old(Table()), rng.stream, old(rng.next))
      ensures rng.next == old(rng.next) + 2 * |rules|
    {
      ghost var t0, k0 := Table(), rng.next;
      for i := 0 to |rules|
        invariant rng.next == k0 + 2 * i
        invariant forall m :: 0 <= m < i ==> rules[m].Value() == Randomized(t0, rng.stream, k0)[m]
        invariant forall m :: i <= m < |rules| ==> rules[m].Value() == t0[m]
      {
        var rule := rules[i];
        ghost var before := rule.Value();
        var r1 := rng.Next();
        rule.distance := Round(r1 * 1000.0) as real;
        var r2 := rng.Next();
        rule.attraction := r2 * 2.0 - 1.0;
        assert rule.Value() == Reroll(before, rng.stream, k0 + 2 * i);
        assert forall m :: 0 <= m < |rules| && m != i ==> rules[m] != rule;
      }
      assert Table() == Randomized(t0, rng.stream, k0);
    }

    /** `applyRules()`: for each particle in array order, its interaction
        with every other particle in array order, then with the mouse
        pseudo-particle. */
    method ApplyRules(env: Env)
      requires Valid() && env.Valid()
      requires Tick(Bodies(), Table(), env).Some?
      modifies particles
      ensures Tick(old(Bodies()), Table(), env) == Some(Bodies())
    {
      ghost var bs0, t := Bodies(), Table();
      for i := 0 to |particles|
        invariant Table() == t
        invariant Sweep(bs0, i, t, env) == Some(Bodies())
      {
        SweepNext(bs0, i, |particles|, t, env);
        VisitParticle(i, env);
      }
    }

    /** One pass of the outer loop of `applyRules`. */
    method VisitParticle(i: nat, env: Env)
      requires Valid() && env.Valid() && i < |particles|
      requires Visit(Bodies(), i, Table(), env).Some?
      modifies particles
      ensures Visit(old(Bodies()), i, Table(), env) == Some(Bodies())
    {
      ApplyRow(i, env);
      if env.mouseInteraction {
        ApplyMouse(i, env);
      }
    }

    /** The inner loop of `applyRules` for `particles[i]`. */
    method ApplyRow(i: nat, env: Env)
      requires Valid() && env.Valid() && i < |particles|
      requires Row(Bodies(), i, |particles|, Table(), env).Some?
      modifies particles
      ensures Row(old(Bodies()), i, |particles|, Table(), env) == Some(Bodies())
    {
      ghost var v, t := Bodies(), Table();
      for j := 0 to |particles|
        invariant Table() == t
        invariant Row(v, i, j, t, env) == Some(Bodies())
      {
        MeetParticle(v, i, j, env);
      }
    }

    /** The body of the inner loop of `applyRules` for `particles[i]` in
        iteration `j`: `particles[i]` is skipped by identity, any other
        particle is attracted. Started from the records `v` of the loop's
        entry, it extends the inner loop's first `j` steps by one. */
    method MeetParticle(ghost v: seq<Body>, i: nat, j: nat, env: Env)
      requires Valid() && env.Valid()
      requires i < |particles| && j < |particles| == |v|
      requires Row(v, i, |particles|, Table(), env).Some?
      requires Row(v, i, j, Table(), env) == Some(Bodies())
      modifies particles
      ensures Row(v, i, j + 1, Table(), env) == Some(Bodies())
    {
      RowNext(v, i, j, |particles|, Table(), env);
      var p1, p2 := particles[i], particles[j];
      if p1 == p2 {
        return;
      }
      ApplyPair(i, j, env);
    }

    /** `applyAttraction(particle1, particle2)` for two particles of the
        array, seen on the whole array. */
    method ApplyPair(i: nat, j: nat, env: Env)
      requires Valid() && env.Valid()
      requires i < |particles| && j < |particles| && i != j
      requires PairStep(Bodies(), i, j, Table(), env).Some?
      modifies particles[i], particles[j]
      ensures PairStep(old(Bodies()), i, j, Table(), env) == Some(Bodies())
    {
      ghost var bs := Bodies();
      var p1, p2 := particles[i], particles[j];
      InteractDefinedness(p1.State(), p2.State(), Table(), env);
      ApplyAttraction(p1, p2, env);
      ghost var o := Outcome(p1.State(), p2.State());
      assert Bodies() == bs[j := o.p2][i := o.p1] by {
        forall m | 0 <= m < |particles| ensures Bodies()[m] == bs[j := o.p2][i := o.p1][m] {
          if m != i && m != j {
            assert particles[m] != p1 && particles[m] != p2;
          }
        }
      }
    }

    /** The mouse branch of `applyRules`: a pseudo-particle of the mouse
        group at rest at the mouse position. */
    method ApplyMouse(i: nat, env: Env)
      requires Valid() && env.Valid() && env.mouseInteraction
      requires i < |particles|
      requires WithMouse(Bodies(), i, Table(), env).Some?
      modifies particles[i]
      ensures WithMouse(old(Bodies()), i, Table(), env) == Some(Bodies())
    {
      ghost var bs := Bodies();
      var p1 := particles[i];
      var mouse := new Particle(env.mouse.x, env.mouse.y, Mouse, 0.0, 0.0);
      InteractDefinedness(p1.State(), mouse.State(), Table(), env);
      ApplyAttraction(p1, mouse, env);
      assert Bodies() == bs[i := p1.State()] by {
        forall m | 0 <= m < |particles| ensures Bodies()[m] == bs[i := p1.State()][m] {
          if m != i {
            assert particles[m] != p1;
          }
        }
      }
    }
  }
}
