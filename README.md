# Particle life: the force and rule engine

This project models the physics core of a browser "particle life" simulation
and proves properties of it in Dafny. Three populations of particles
(`Group 1`, `Group 2` and `Group 3`) attract or repel one another according
to a table of rules. Each rule is keyed by the ordered pair `(who, to)` and
carries a reach (`distance`) and an `attraction`.

Each frame, `applyRules` does the following:
- It lets every particle interact with every other particle, in array order.
- It then lets the particle interact with two optional pseudo-particles: a
  gravity well under it and the mouse.
- Every interaction is one call of `applyAttraction`. That call:
  - looks the rule up;
  - picks one of three regimes from the separation: far field, near-field
    nucleus repulsion, or out of range;
  - in the near field, overwrites the target's velocity;
  - damps the source particle's velocity by friction, moves it, and clamps
    it into the margin box with `bounceLimits`.

`randomizeRules` gives every rule a random reach and attraction, and
`addParticles` creates the starting population.

The engine exists twice, so it is modelled twice:

- `src/index.ts` (module `Engine`):
  - a 15-rule table whose rules towards gravity read the gravity force each
    time they are applied;
  - a random jitter factor on the near-field recoil;
  - a gravity pseudo-particle whose position takes one random draw.
- `simulator.js` (module `LegacyEngine`):
  - a 12-rule table with no gravity;
  - a deterministic recoil;
  - the mouse as the only pseudo-particle.

What both copies share is defined once:
- `Particles`: particle records, groups, the canvas, the tunables, and
  `bounceLimits`;
- `Forces`: `bounceDistance`, the regimes, the force laws, and the
  integration step;
- `Rules`: rule records and `rules.find`;
- `Spawning`: `addParticles` and the start-up population;
- `Host`: `Math.random`, `Math.round`, `Number.MAX_VALUE`, and what a square
  root must satisfy;
- `Common`: `Option` and duplicate-freedom.

The two sources are identical in those parts.

Mutable state keeps its imperative form:
- Particle records (`Particles.Particle`) and rule records (`Rules.Rule`) are
  classes whose fields the methods assign.
- The engine's rule and particle arrays are fields of a `Simulator` class.
- `BounceLimits`, `ApplyAttraction`, `ApplyRules` and `RandomizeRules` are
  methods written branch for branch and loop for loop like the source.

Each method is proved against a function on values:
- `Bounce` for `bounceLimits`;
- `Interact` for `applyAttraction`;
- `Tick` for `applyRules`, built from `Row` and `Sweep`, which fold over the
  two loops;
- `Randomized` for `randomizeRules`;
- `InitialTable` for the construction loops;
- `Spawned` for `addParticles`.

The lemmas then state what the source promises about those functions. The
bodies of the source's loops are separate methods in the model (for example
`PushRulesOf`, `VisitParticle`, `ApplyRow`, `MeetParticle` and `ApplyPair`),
each proved against one step of the fold.

Host facilities are parameters:
- `Math.sqrt` is a function argument `sqrt`. Only the lemmas that need it
  assume that it is a square root (`Host.IsSqrt`).
- `Math.random` is a `Host.Random` object over a fixed stream of draws in
  `[0, 1)` with a cursor. The value functions take the stream and the cursor,
  so the order of the draws is part of every contract.

Arithmetic is on `real`. The one case where the source computes with NaN is
a pair that has a rule and sits at distance zero, which is inside the near
field (`Forces.DividesByZero`). There `Interact` returns `None` (see `Singular`), and the methods
require that their frame contains no such pair.

## Model

| member | source | states |
|---|---|---|
| Particles.EdgeMargin | src/index.ts:159-160 | The inset of the margin box on one axis, `(extent / 2) * (margin / 100)`. `MarginFits` proves the box it leaves is non-empty. |
| Particles.Reflect | src/index.ts:162-169 | One axis of `bounceLimits` on values: the far-edge test first, then the near-edge test, each putting the coordinate on the edge and scaling the velocity by `k`. Its behaviour is stated in `ReflectSpec`. |
| Particles.Bounce | src/index.ts:158-178 | `bounceLimits` on a particle value: the y axis, then the x axis, with `k = -1 + edgeDumping`. Its properties are `BounceSpec` and `BounceIdempotent`, and `BounceLimits` is proved equal to it. |
| Particles.MouseTarget | src/index.ts:279-285 | The mouse pseudo-particle: group `mouse`, at the mouse position, at rest. `ApplyMouse` of both engines builds exactly this record. |
| Particles.ReflectSpec | src/index.ts:162-177 | One axis of the clamp. On a non-empty interval the result is inside it. A coordinate that was inside is untouched. One past the far or the near edge is put on that edge with its velocity times `k`. |
| Particles.MarginFits | src/index.ts:159-160 | With a margin between 0 and 100 percent, the margin box is non-empty on each axis. |
| Particles.BounceSpec | src/index.ts:158-178 | After the clamp the particle is inside the margin box. An in-bounds coordinate keeps its position and velocity. An escaped coordinate sits exactly on the edge it crossed, and its velocity is multiplied by `-1 + edgeDumping`. The axes are independent, and the group is kept. |
| Particles.BounceIdempotent | src/index.ts:158-178 | A second clamp changes nothing. |
| Particles.BounceLimits | simulator.js:104-123 | The in-place clamp, with the source's four tests in order, leaves the particle record equal to `Bounce` of its old value. |
| Forces.BounceDistance | src/index.ts:180-185 | `bounceDistance` on values: the offset `p2 - p1` and `sqrt` of its squared length. `SeparationIsEuclidean` states what it returns under a genuine square root. |
| Forces.SeparationIsEuclidean | src/index.ts:180-185 | With a genuine square root, `bounceDistance` returns the offset from `p1` to `p2` and a non-negative `d` whose square is the squared length of the offset. |
| Forces.RegimeOf | src/index.ts:223-251 | The three regimes are exclusive and exhaustive. Far field holds iff `2r < d < reach`. Near field holds iff `d < 2r`. Out of range holds iff `d == 2r`, or `d > 2r` and `d >= reach`. |
| Forces.DividesByZero | src/index.ts:233-237 | The one case `applyAttraction` computes with NaN: the near field at distance 0, where `1 / (d / 2r)` divides by zero. `Hit`, `Interact`, `Singular` and `Exert` of both engines all use this one definition. |
| Forces.FarForce | src/index.ts:230-232 | A zero attraction gives a zero far-field force. |
| Forces.FarForceScalesOffset | simulator.js:161-163 | The far-field force is exactly `(a * dx / d, a * dy / d)`. |
| Forces.FarForceLaw | src/index.ts:224-232 | For a Euclidean separation, the far-field force has squared magnitude `a * a`. Its projection on the offset is `a * d`, so it points towards the target when `a > 0` and away when `a < 0`. |
| Forces.NearForce | src/index.ts:233-239 | The near-field force `-(0.01 * nucleusRepulsion * (1 / (d / 2r)))` times the offset. Its magnitude and direction are stated in `NearForceLaw`, and `NearPush` is proved equal to it. |
| Forces.NearForceLaw | src/index.ts:234-239 | The near-field force is `-(0.01 * nucleusRepulsion * 2r / d)` times the offset. Its magnitude is `0.01 * nucleusRepulsion * 2r`, and it never points towards the target. |
| Forces.FarPull | src/index.ts:230-232 | The far-field branch's `F /= distance; fx = F * dx; fy = F * dy` computes exactly `FarForce`. |
| Forces.NearPush | simulator.js:166-170 | The near-field branch's `F` and `(-F * dx, -F * dy)` compute exactly `NearForce`. |
| Forces.Force | simulator.js:157-173 | Out of range the force is zero: `fx` and `fy` keep their initial 0. |
| Forces.Damping | src/index.ts:252-253 | With friction in the slider's range [0, 1000], the damping factor `1 - friction / 2000` lies in [0.5, 1]. |
| Forces.Moved | src/index.ts:252-255 | The damping and move of the source particle: velocity `(v + f) * (1 - friction / 2000)`, then position plus that velocity. `FrictionlessAdvance` states its frictionless case. |
| Forces.Advance | src/index.ts:252-257 | The whole tail step of `applyAttraction`: `Moved`, then `Bounce`. `AdvanceSpec` proves the result is in the margin box with its group, and `Integrate` is proved equal to it. |
| Forces.Integrate | simulator.js:174-178 | The source particle's tail step leaves the record equal to `Advance`: velocity `(v + f) * (1 - friction / 2000)`, position moved by the new velocity, then the clamp. |
| Forces.AdvanceSpec | src/index.ts:252-257 | After the tail step the source particle is in the margin box and keeps its group. |
| Forces.FrictionlessAdvance | src/index.ts:252-255 | Without friction, and when the move stays in the box, the velocity changes by exactly `f` and the position by the new velocity. |
| Forces.FrictionlessFarFieldKick | src/index.ts:223-257 | Without friction in the far field, the velocity change is exactly `a * (dx, dy) / d`, when the move stays in the box. |
| Forces.Recoil | src/index.ts:241-250 | The target velocity component after a near-field hit, before any jitter: `-(v + f) * (1 - friction / 2000)`. `NearFieldRecoil` of both engines states where it is used. |
| Forces.Jitter | src/index.ts:245 | For a draw in [0, 1), the jitter factor `r * 0.9 + 0.2` lies in [0.2, 1.1). |
| Host.Random.Next | src/index.ts:245 | One `Math.random()` returns the next draw of the stream, which lies in [0, 1), and advances the cursor by one. |
| Host.Round | src/index.ts:343 | `Math.round(x)` is the integer `n` with `n - 0.5 <= x < n + 0.5`, so halves round up. |
| Host.RoundThousandth | src/index.ts:343 | `Math.round(r * 1000)` for a draw `r` is an integer in [0, 1000]. |
| Rules.Find | src/index.ts:210-212 | `rules.find` returns the first index whose `who` and `to` equal the pair. It returns `None` iff no rule matches. |
| Rules.FindUnique | src/index.ts:210-212 | In a table without duplicate pairs, `find` returns the one rule of the pair. |
| Rules.FindSameKeys | simulator.js:151-153 | Two tables with the same sequence of pairs give the same `find` answer for every pair. |
| Engine.Resolve | src/index.ts:224-229 | The attraction a rule exerts when applied: a number as is, the gravity provider as the gravity force of that moment. `GravityRuleIsLive` states its effect. |
| Engine.DefaultRule | src/index.ts:100-117 | The rule each push of the construction loops creates: distance 100 and attraction 0, or `Number.MAX_VALUE` and the gravity provider towards gravity. `InitialTableLayout` states the result. |
| Engine.InitialTable | src/index.ts:97-119 | The 15-rule start-up table in push order. `InitialTableGrows` and `InitialTableLayout` state its layout, and the constructor is proved to build it. |
| Engine.InitialTableGrows | src/index.ts:98-119 | Each push of the construction loops appends the rule of population `w` towards target `c` at index `5w + c`. |
| Engine.InitialTableLayout | src/index.ts:98-119 | The table has 15 rules and no duplicate pairs. `find` succeeds iff the source is a population. The rule found is distance 100 with attraction 0, except towards gravity: distance `Number.MAX_VALUE` and the live gravity force. |
| Engine.Simulator.constructor | src/index.ts:97-119 | The nested loops build a duplicate-free rule array whose values are `InitialTable()`. |
| Engine.Simulator.PushRulesOf | src/index.ts:99-118 | One pass of the outer loop pushes a population's five rules in order. |
| Engine.Simulator.PushRule | src/index.ts:100-105 | `rules.push` appends the record, and the table value grows by its value. |
| Engine.Hit | src/index.ts:218-257 | `applyAttraction` after the lookup, on values: the regime force, the jittered near-field recoil with draws `k` and `k + 1`, and the tail step. It is defined whenever `DividesByZero` does not hold. `Exert` is proved equal to it. |
| Engine.Interact | src/index.ts:209-259 | `applyAttraction` on values: no change with no rule, `None` only for a matched pair at distance 0, otherwise `Hit`. Its properties are the `Interact*`, `NearFieldRecoil` and `MissingRuleChangesNothing` lemmas, and `ApplyAttraction` is proved equal to it. |
| Engine.Singular | src/index.ts:210-237 | A rule matches the pair and `DividesByZero` holds. `InteractDefinedness` proves it is exactly where `Interact` is undefined. |
| Engine.MissingRuleChangesNothing | src/index.ts:210-216 | With no matching rule, `applyAttraction` leaves both particles and the random cursor unchanged. |
| Engine.InteractDefinedness | src/index.ts:221-237 | The interaction is undefined (NaN in the source) iff a rule matches and the distance is 0. |
| Engine.InteractAdvancesSource | src/index.ts:252-257 | When a rule matches, `p1` becomes `Advance` of the regime's force and ends in the margin box. This holds for every matched interaction, not once per tick. |
| Engine.InteractTargetOutsideNearField | src/index.ts:221-251 | `p2` keeps its position and group. Outside the near field, or with no rule, it is unchanged and no random draw is made. |
| Engine.NearFieldRecoil | src/index.ts:241-250 | In the near field each target velocity component becomes `-(v + f) * (1 - friction / 2000) * j`, where `j` is the jitter of the next draw (x first, then y). The cursor advances by two. |
| Engine.GravityRuleIsLive | src/index.ts:113-118 | The gravity rule reads the gravity force when applied. In the far field a population particle is pulled by `force / d` along the offset to the well, whatever the force is at that moment. |
| Engine.GravityWell | src/index.ts:270-276 | The gravity pseudo-particle lies on the bottom edge, within a quarter pixel of the particle horizontally. |
| Engine.Simulator.ApplyAttraction | src/index.ts:209-259 | The in-place `applyAttraction` leaves both records and the cursor equal to `Interact` of their old values. |
| Engine.Simulator.Exert | src/index.ts:218-257 | The three regime branches and the tail step match `Hit` for the rule found. |
| Engine.Simulator.RecoilTarget | src/index.ts:241-250 | The target's two velocity components are overwritten one after the other, each with its own draw. |
| Engine.PairStep | src/index.ts:267 | One pairwise step keeps the particle count. |
| Engine.Meet | src/index.ts:264-267 | The identity skip and the pairwise step keep the particle count. |
| Engine.Row | src/index.ts:263-268 | The inner loop keeps the particle count. |
| Engine.WithGravity | src/index.ts:269-277 | The gravity branch keeps the particle count. |
| Engine.WithMouse | src/index.ts:278-286 | The mouse branch keeps the particle count. |
| Engine.Visit | src/index.ts:262-287 | One pass of the outer loop keeps the particle count. |
| Engine.Sweep | src/index.ts:262-287 | The outer loop keeps the particle count. |
| Engine.Tick | src/index.ts:261-288 | `applyRules` on values: `Sweep` over all particles. `TickKeepsGroups` and `SweepKeepsBox` state its properties, and `ApplyRules` is proved equal to it. |
| Engine.SweepPrefix | src/index.ts:262 | If the whole outer loop is defined, so is every prefix of it. |
| Engine.RowPrefix | src/index.ts:263 | If the whole inner loop is defined, so is every prefix of it. |
| Engine.InteractGroups | src/index.ts:209-259 | An interaction never changes either particle's group. |
| Engine.TickKeepsGroups | src/index.ts:261-288 | A tick keeps the number of particles and the group of each. |
| Engine.SweepKeepsGroups | src/index.ts:262-287 | Every prefix of the outer loop keeps the count and the groups. |
| Engine.VisitKeepsGroups | src/index.ts:262-287 | One particle's pass keeps the count and the groups, including the gravity and mouse interactions. |
| Engine.RowKeepsGroups | src/index.ts:263-268 | Every prefix of the inner loop keeps the count and the groups. |
| Engine.SweepKeepsBox | src/index.ts:261-288 | If every particle starts a tick in the margin box, every particle ends it there. |
| Engine.VisitKeepsBox | src/index.ts:262-287 | One particle's pass keeps every particle in the margin box. |
| Engine.RowKeepsBox | src/index.ts:263-268 | The inner loop keeps every particle in the margin box. |
| Engine.InteractKeepsBox | src/index.ts:209-259 | An interaction between particles in the margin box leaves both in it. |
| Engine.LoneParticleRests | src/index.ts:262-266 | A lone particle, with gravity and the mouse off, only meets itself and is left exactly as it was. |
| Engine.Simulator.ApplyRules | src/index.ts:261-288 | The in-place double loop leaves the particle records and the cursor equal to `Tick` of their old values. |
| Engine.Simulator.VisitParticle | src/index.ts:262-287 | One pass of the outer loop: the inner loop, then gravity if enabled, then the mouse if enabled. |
| Engine.Simulator.ApplyRow | src/index.ts:263-268 | The inner loop over `particles` matches `Row`. |
| Engine.Simulator.MeetParticle | src/index.ts:264-267 | One iteration of the inner loop, the identity test `particle1 === particle2` skipping the particle itself, extends `Row` by one step. |
| Engine.Simulator.ApplyPair | src/index.ts:267 | `applyAttraction` on two distinct array records changes those two entries and no other. |
| Engine.Simulator.ApplyGravity | src/index.ts:269-277 | A fresh gravity record at `(x + r * 0.5 - 0.25, height)` with `vy` set to the force, after one draw. Only the particle's own entry changes. |
| Engine.Simulator.ApplyMouse | src/index.ts:278-286 | A fresh mouse record at rest at the mouse position. Only the particle's own entry changes. |
| Engine.Randomized | src/index.ts:341-345 | `randomizeRules` on values: rule `i` rerolled with draws `k + 2i` and `k + 2i + 1`. `RandomizedSpec` states its properties, and `RandomizeRules` is proved equal to it. |
| Engine.Reroll | src/index.ts:343-344 | One rule rerolled: distance `Math.round(r * 1000)`, attraction the constant `r' * 2 - 1`, replacing the gravity provider too. |
| Engine.RandomizedSpec | src/index.ts:341-345 | After randomising, the table has the same count and pairs, and every lookup finds the same slot. Each distance is an integer in [0, 1000]. Each attraction, including the gravity rules', is a constant in [-1, 1). |
| Engine.Simulator.RandomizeRules | src/index.ts:341-345 | The loop gives rule `i` draws `2i` and `2i + 1` for its distance and attraction, and advances the cursor by twice the rule count. |
| LegacyEngine.DefaultRule | simulator.js:60-71 | The rule each push of the construction loops creates: distance 100 and attraction 0. `InitialTableLayout` states the result. |
| LegacyEngine.InitialTable | simulator.js:57-73 | The 12-rule start-up table in push order. `InitialTableGrows` and `InitialTableLayout` state its layout, and the constructor is proved to build it. |
| LegacyEngine.InitialTableGrows | simulator.js:57-73 | Each push appends the rule of population `w` towards target `c` at index `4w + c`. |
| LegacyEngine.InitialTableLayout | simulator.js:57-73 | The table has 12 rules and no duplicate pairs. `find` succeeds iff the source is a population and the target is not gravity. Every rule starts at distance 100 and attraction 0. |
| LegacyEngine.Simulator.constructor | simulator.js:57-73 | The nested loops build a duplicate-free rule array equal to `InitialTable()`. |
| LegacyEngine.Simulator.PushRulesOf | simulator.js:58-72 | One pass of the outer loop pushes a population's four rules in order. |
| LegacyEngine.Simulator.PushRule | simulator.js:60-65 | `rules.push` appends the record. |
| LegacyEngine.Hit | simulator.js:157-178 | `applyAttraction` after the lookup, on values: the regime force, the deterministic near-field recoil, and the tail step. It is defined whenever `DividesByZero` does not hold. `Exert` is proved equal to it. |
| LegacyEngine.Interact | simulator.js:150-180 | `applyAttraction` on values: no change with no rule, `None` only for a matched pair at distance 0, otherwise `Hit`. Its properties are the `Interact*`, `NearFieldRecoil` and `MissingRuleChangesNothing` lemmas, and `ApplyAttraction` is proved equal to it. |
| LegacyEngine.Singular | simulator.js:151-168 | A rule matches the pair and `DividesByZero` holds. `InteractDefinedness` proves it is exactly where `Interact` is undefined. |
| LegacyEngine.MissingRuleChangesNothing | simulator.js:151-156 | With no matching rule, both particles are unchanged. |
| LegacyEngine.InteractDefinedness | simulator.js:159-168 | The interaction is undefined (NaN) iff a rule matches and the distance is 0. |
| LegacyEngine.InteractAdvancesSource | simulator.js:174-178 | When a rule matches, `p1` becomes `Advance` of the regime's force and ends in the margin box. |
| LegacyEngine.InteractTargetOutsideNearField | simulator.js:159-173 | `p2` keeps its position and group, and outside the near field it is unchanged. |
| LegacyEngine.NearFieldRecoil | simulator.js:171-172 | In the near field each target velocity component becomes exactly `-(v + f) * (1 - friction / 2000)`, with no random factor. |
| LegacyEngine.InteractGroups | simulator.js:150-180 | An interaction never changes either particle's group. |
| LegacyEngine.Simulator.ApplyAttraction | simulator.js:150-180 | The in-place `applyAttraction` leaves both records equal to `Interact` of their old values. |
| LegacyEngine.Simulator.Exert | simulator.js:157-178 | The regime branches and the tail step match `Hit` for the rule found. |
| LegacyEngine.Simulator.RecoilTarget | simulator.js:171-172 | The deterministic overwrite of the target's velocity. |
| LegacyEngine.PairStep | simulator.js:187 | One pairwise step keeps the particle count. |
| LegacyEngine.Meet | simulator.js:184-187 | The identity skip and the pairwise step keep the particle count. |
| LegacyEngine.Row | simulator.js:183-188 | The inner loop keeps the particle count. |
| LegacyEngine.WithMouse | simulator.js:189-197 | The mouse branch keeps the particle count. |
| LegacyEngine.Visit | simulator.js:182-198 | One pass of the outer loop keeps the particle count. |
| LegacyEngine.Sweep | simulator.js:182-198 | The outer loop keeps the particle count. |
| LegacyEngine.Tick | simulator.js:181-199 | `applyRules` on values: `Sweep` over all particles. `TickKeepsGroups` and `SweepKeepsBox` state its properties, and `ApplyRules` is proved equal to it. |
| LegacyEngine.SweepPrefix | simulator.js:182 | If the whole outer loop is defined, so is every prefix of it. |
| LegacyEngine.RowPrefix | simulator.js:183 | If the whole inner loop is defined, so is every prefix of it. |
| LegacyEngine.TickKeepsGroups | simulator.js:181-199 | A tick keeps the number of particles and the group of each. |
| LegacyEngine.SweepKeepsGroups | simulator.js:182-198 | Every prefix of the outer loop keeps the count and the groups. |
| LegacyEngine.RowKeepsGroups | simulator.js:183-188 | Every prefix of the inner loop keeps the count and the groups. |
| LegacyEngine.SweepKeepsBox | simulator.js:181-199 | If every particle starts a tick in the margin box, every particle ends it there. |
| LegacyEngine.RowKeepsBox | simulator.js:183-188 | The inner loop keeps every particle in the margin box. |
| LegacyEngine.InteractKeepsBox | simulator.js:150-180 | An interaction between particles in the margin box leaves both in it. |
| LegacyEngine.LoneParticleRests | simulator.js:182-186 | A lone particle with the mouse off is left exactly as it was. |
| LegacyEngine.Simulator.ApplyRules | simulator.js:181-199 | The in-place double loop leaves the particle records equal to `Tick` of their old values. |
| LegacyEngine.Simulator.VisitParticle | simulator.js:182-198 | One pass of the outer loop: the inner loop, then the mouse if enabled. |
| LegacyEngine.Simulator.ApplyRow | simulator.js:183-188 | The inner loop over `particles` matches `Row`. |
| LegacyEngine.Simulator.MeetParticle | simulator.js:184-187 | One iteration of the inner loop, the identity test skipping the particle itself, extends `Row` by one step. |
| LegacyEngine.Simulator.ApplyPair | simulator.js:187 | `applyAttraction` on two distinct array records changes those two entries and no other. |
| LegacyEngine.Simulator.ApplyMouse | simulator.js:189-197 | A fresh mouse record at rest at the mouse position. Only the particle's own entry changes. |
| LegacyEngine.Randomized | simulator.js:248-252 | `randomizeRules` on values: rule `i` rerolled with draws `k + 2i` and `k + 2i + 1`. `RandomizedSpec` states its properties, and `RandomizeRules` is proved equal to it. |
| LegacyEngine.Reroll | simulator.js:250-251 | One rule rerolled: distance `Math.round(r * 1000)`, attraction `r' * 2 - 1`. |
| LegacyEngine.RandomizedSpec | simulator.js:248-252 | After randomising, the table has the same count and pairs, and every lookup finds the same slot. Each distance is an integer in [0, 1000]. Each attraction lies in [-1, 1). |
| LegacyEngine.Simulator.RandomizeRules | simulator.js:248-252 | Rule `i` takes draws `2i` and `2i + 1`, and the cursor advances by twice the rule count. |
| Spawning.Fresh | src/index.ts:147-153 | One particle of `addParticles` from draws `k` to `k + 3`: `x = r0 * W`, `y = r1 * H`, `vx = (r2 - 1) / 1000`, `vy = (r3 - 1) / 1000`. `FreshRanges` states its ranges, and `Spawn` is proved equal to it. |
| Spawning.Spawned | src/index.ts:144-154 | `addParticles(group, count)` on values: particle `i` is `Fresh` from draw `k + 4i`. `SpawnedRanges` states its properties, and `AddParticles` is proved equal to it. |
| Spawning.Population | src/index.ts:156 | The start-up population: 300 particles of each population in order, on consecutive draws. `PopulationLayout` states its layout, and `InitialParticles` is proved equal to it. |
| Spawning.FreshRanges | src/index.ts:147-153 | A new particle lies at `x` in [0, W) and `y` in [0, H), with each velocity component in [-0.001, 0). |
| Spawning.SpawnedRanges | src/index.ts:144-154 | `addParticles(group, count)` gives `count` particles of that group, each in those ranges. |
| Spawning.Spawn | src/index.ts:147-153 | One record of the `map` is built from four consecutive draws, in the order x, y, vx, vy, and matches `Fresh`. |
| Spawning.AddParticles | simulator.js:92-102 | The loop creates `count` distinct fresh records from four draws each, in the order x, y, vx, vy. |
| Spawning.PopulationLayout | src/index.ts:156 | The start-up population has 900 particles. Particles `300g` to `300g + 299` are of population `g`, and all are in the spawn ranges. |
| Spawning.InitialParticles | src/index.ts:156 | `GROUPS.flatMap(addParticles(_, 300))` yields 900 distinct fresh records matching `Population`. |

## Left out

- The control panel, drawing and the event loop are not modelled: lil.GUI wiring, the canvas in `src/shared.ts`, `render`, `requestAnimationFrame`, `drawBoundingBox`, the mouse listeners, colour randomising and `updateDisplay`. They are calls into a foreign library or the DOM. Only their effect on the physics is kept: the slider ranges become `Settings.Valid`, and the mouse position and switch become `Env` fields.
- `applyRules` runs only while `isRunning` is set (src/index.ts:305-307). The model has no frame loop, so one `ApplyRules` call is one running frame.
- `infinityDistance` and `inifintyLoop` are not modelled: their only call is commented out.
- IEEE-754 rounding is not modelled: arithmetic is exact over `real`, and `Number.MAX_VALUE` is a constant. A pair with a rule at distance zero yields NaN in the source. Here it is `None`, and the methods require no such pair.
- `Math.sqrt` is a parameter. That `d == 0` happens exactly for coincident particles follows from `IsSqrt` but is not proved.
- `Math.random` is a parameter: a stream of draws in [0, 1).
- Rule values edited from the control panel between frames are not modelled as an operation. Every engine contract holds for any table, not only the initial one.
- Engine.PairStep: its own contract states only that the particle count is kept. That groups and the margin box are kept is proved in the `*KeepsGroups` and `*KeepsBox` lemmas.
- Engine.Meet: its own contract states only that the particle count is kept. That groups and the margin box are kept is proved in the `*KeepsGroups` and `*KeepsBox` lemmas.
- Engine.Row: its own contract states only that the particle count is kept. That groups and the margin box are kept is proved in the `*KeepsGroups` and `*KeepsBox` lemmas.
- Engine.WithGravity: its own contract states only that the particle count is kept. That groups and the margin box are kept is proved in the `*KeepsGroups` and `*KeepsBox` lemmas.
- Engine.WithMouse: its own contract states only that the particle count is kept. That groups and the margin box are kept is proved in the `*KeepsGroups` and `*KeepsBox` lemmas.
- Engine.Visit: its own contract states only that the particle count is kept. That groups and the margin box are kept is proved in the `*KeepsGroups` and `*KeepsBox` lemmas.
- Engine.Sweep: its own contract states only that the particle count is kept. That groups and the margin box are kept is proved in the `*KeepsGroups` and `*KeepsBox` lemmas.
- LegacyEngine.PairStep: its own contract states only that the particle count is kept. That groups and the margin box are kept is proved in the `*KeepsGroups` and `*KeepsBox` lemmas.
- LegacyEngine.Meet: its own contract states only that the particle count is kept. That groups and the margin box are kept is proved in the `*KeepsGroups` and `*KeepsBox` lemmas.
- LegacyEngine.Row: its own contract states only that the particle count is kept. That groups and the margin box are kept is proved in the `*KeepsGroups` and `*KeepsBox` lemmas.
- LegacyEngine.WithMouse: its own contract states only that the particle count is kept. That groups and the margin box are kept is proved in the `*KeepsGroups` and `*KeepsBox` lemmas.
- LegacyEngine.Visit: its own contract states only that the particle count is kept. That groups and the margin box are kept is proved in the `*KeepsGroups` and `*KeepsBox` lemmas.
- LegacyEngine.Sweep: its own contract states only that the particle count is kept. That groups and the margin box are kept is proved in the `*KeepsGroups` and `*KeepsBox` lemmas.
