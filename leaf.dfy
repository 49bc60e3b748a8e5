/** The falling-leaf particle pool of leaf.js (`FallingLeavesSystem`).

    A fixed pool of Count leaf records lives in an array; every tick each leaf
    moves by its velocity, spins, grows in until its scale reaches ScaleCap,
    sways sideways, has its transform written to its slot of the instanced
    mesh's matrix buffer, and is respawned near the top of the spawn volume
    once it has dropped below ground level.

    `Math.random()` is the stream `random` of the pool, read from the cursor
    `drawn` by Draw; `Math.sin` is a parameter of Update. */
module Leaf {
  import opened Three

  /** Number of leaves in the pool and of instances in the mesh. */
  const Count := 20

  /** Grow-in only happens while the scale is below this value. */
  const ScaleCap := 0.8
  /** Scale gained per unit of `dt` while growing in. */
  const GrowthRate := 2.0
  /** Amplitude of the sideways wind sway, applied to x. */
  const SwayAmplitude := 0.001

  /** Random values one respawn draws: position, velocity, rotation, spin. */
  const DrawsPerRespawn := 12
  /** Random values the constructor draws per slot: a respawn and a height. */
  const DrawsPerSeed := 13

  /** The spawn volume `{yMin, yMax, xRange, zRange}`; nothing checks it. */
  datatype Bounds = Bounds(yMin: real, yMax: real, xRange: real, zRange: real)

  /** One leaf: position, velocity per tick, Euler rotation, rotation speed
      per tick and uniform scale. */
  datatype Particle = Particle(pos: Vec3, vel: Vec3, rot: Vec3, rotSpeed: Vec3, scale: real)

  /** The record literal the constructor pushes before respawning it. */
  const Pushed := Particle(Zero, Zero, Zero, Zero, 1.0)

  // ----------------------------------------------------------------------
  // The random stream

  /** The `n` values from position `k` on are all in [0, 1), as
      `Math.random` promises. */
  ghost predicate UnitDraws(random: nat -> real, k: nat, n: nat) {
    forall j: nat :: k <= j < k + n ==> 0.0 <= random(j) < 1.0
  }

  /** Every value of the stream is in [0, 1). */
  ghost predicate UnitStream(random: nat -> real) {
    forall j: nat :: 0.0 <= random(j) < 1.0
  }

  // ----------------------------------------------------------------------
  // Respawn and initial placement

  /** `(r - 0.5) * w` for r in [0, 1): within w/2 of 0, the upper end
      excluded unless w is 0. */
  predicate Centred(v: real, w: real) {
    if w >= 0.0 then -w / 2.0 <= v <= w / 2.0 && (w > 0.0 ==> v < w / 2.0)
    else w / 2.0 < v <= -w / 2.0
  }

  /** Everything respawn promises except the height: x and z around the
      trunk axis, a fall speed, +x drift, spin, and scale 0. */
  ghost predicate Launched(p: Particle, b: Bounds) {
    && Centred(p.pos.x, b.xRange)
    && Centred(p.pos.z, b.zRange)
    && 0.0125 <= p.vel.x < 0.0625
    && -0.03 < p.vel.y <= -0.02
    && -0.01 <= p.vel.z < 0.04
    && 0.0 <= p.rot.x < 3.0 && 0.0 <= p.rot.y < 3.0 && 0.0 <= p.rot.z < 3.0
    && -0.05 <= p.rotSpeed.x < 0.05
    && -0.05 <= p.rotSpeed.y < 0.05
    && -0.05 <= p.rotSpeed.z < 0.05
    && p.scale == 0.0
  }

  /** Respawn height: within one unit below the top of the volume. */
  ghost predicate AtCanopy(p: Particle, b: Bounds) {
    b.yMax - 1.0 < p.pos.y <= b.yMax
  }

  /** Initial height: between yMin and yMax, yMax itself excluded when the
      two differ (the bounds may come in either order). */
  ghost predicate StartsBetween(y: real, b: Bounds) {
    if b.yMin <= b.yMax then b.yMin <= y <= b.yMax && (b.yMin < b.yMax ==> y < b.yMax)
    else b.yMax < y <= b.yMin
  }

  lemma CentredOffset(r: real, w: real)
    ensures 0.0 <= r < 1.0 ==> Centred((r - 0.5) * w, w)
  {
    if 0.0 <= r < 1.0 {
      if w >= 0.0 {
        assert 0.0 <= r * w <= w;
        assert w > 0.0 ==> r * w < w;
      } else {
        assert w < r * w <= 0.0;
      }
    }
  }

  lemma InterpolatedHeight(r: real, b: Bounds)
    ensures 0.0 <= r < 1.0 ==> StartsBetween(r * (b.yMax - b.yMin) + b.yMin, b)
  {
    if 0.0 <= r < 1.0 {
      if b.yMin < b.yMax {
        MulMono(b.yMax - b.yMin, 0.0, r);
        MulStrict(b.yMax - b.yMin, r, 1.0);
      } else if b.yMax < b.yMin {
        MulMono(b.yMin - b.yMax, 0.0, r);
        MulStrict(b.yMin - b.yMax, r, 1.0);
      }
    }
  }

  lemma MulMono(c: real, x: real, y: real)
    requires c >= 0.0 && x <= y
    ensures c * x <= c * y
  {
  }

  lemma MulStrict(c: real, x: real, y: real)
    requires c > 0.0 && x < y
    ensures c * x < c * y
  {
  }

  /** The leaf `respawn` produces from the twelve values at `k`, in the
      order it draws them. Every field is overwritten, so the result does
      not depend on the leaf being respawned. */
  function Spawn(b: Bounds, random: nat -> real, k: nat): Particle {
    Particle(
      CanopyPosition(b, random(k), random(k + 1), random(k + 2)),
      LaunchVelocity(random(k + 3), random(k + 4), random(k + 5)),
      Tilt(random(k + 6), random(k + 7), random(k + 8)),
      Spin(random(k + 9), random(k + 10), random(k + 11)),
      0.0)
  }

  /** `position.set(...)` in `respawn`: centred across the volume in x and
      z, within one unit below its top in y. */
  function CanopyPosition(b: Bounds, rx: real, ry: real, rz: real): Vec3 {
    Vec3((rx - 0.5) * b.xRange, b.yMax - ry, (rz - 0.5) * b.zRange)
  }

  /** `velocity.set(...)` in `respawn`: drift in +x, fall in -y, a little z. */
  function LaunchVelocity(rx: real, ry: real, rz: real): Vec3 {
    Vec3((rx + 0.25) * 0.05, -(ry * 0.01 + 0.02), (rz - 0.2) * 0.05)
  }

  /** `rotation.set(...)` in `respawn`. */
  function Tilt(rx: real, ry: real, rz: real): Vec3 {
    Vec3(rx * 3.0, ry * 3.0, rz * 3.0)
  }

  /** `rotationSpeed.set(...)` in `respawn`. */
  function Spin(rx: real, ry: real, rz: real): Vec3 {
    Vec3((rx - 0.5) * 0.1, (ry - 0.5) * 0.1, (rz - 0.5) * 0.1)
  }

  /** Given values in [0, 1), a respawned leaf is in the canopy with a
      fresh launch state. */
  lemma SpawnLaunches(b: Bounds, random: nat -> real, k: nat)
    requires UnitDraws(random, k, DrawsPerRespawn)
    ensures Launched(Spawn(b, random, k), b) && AtCanopy(Spawn(b, random, k), b)
  {
    CanopyPositionInVolume(b, random(k), random(k + 1), random(k + 2));
  }

  /** A position drawn from values in [0, 1) is centred in x and z and
      within one unit below the top. */
  lemma CanopyPositionInVolume(b: Bounds, rx: real, ry: real, rz: real)
    requires 0.0 <= rx < 1.0 && 0.0 <= ry < 1.0 && 0.0 <= rz < 1.0
    ensures var pos := CanopyPosition(b, rx, ry, rz);
      Centred(pos.x, b.xRange) && Centred(pos.z, b.zRange) && b.yMax - 1.0 < pos.y <= b.yMax
  {
    CentredOffset(rx, b.xRange);
    CentredOffset(rz, b.zRange);
  }

  /** The leaf the constructor leaves in a slot: a respawn from the values at
      `k`, then a height drawn across the whole volume from the next value. */
  function Seeded(b: Bounds, random: nat -> real, k: nat): Particle {
    WithStartHeight(Spawn(b, random, k), b, random(k + DrawsPerRespawn))
  }

  /** The constructor's second placement of a leaf: its height becomes the
      fraction r of the way from yMin to yMax. */
  function WithStartHeight(p: Particle, b: Bounds, r: real): Particle {
    p.(pos := p.pos.(y := r * (b.yMax - b.yMin) + b.yMin))
  }

  /** Given values in [0, 1), a freshly placed leaf has a launch state and
      starts anywhere between the two heights. */
  lemma SeededLaunches(b: Bounds, random: nat -> real, k: nat)
    requires UnitDraws(random, k, DrawsPerSeed)
    ensures Launched(Seeded(b, random, k), b) && StartsBetween(Seeded(b, random, k).pos.y, b)
  {
    SpawnLaunches(b, random, k);
    InterpolatedHeight(random(k + DrawsPerRespawn), b);
  }

  /** The pool right after construction, from the stream's first values. */
  function InitialPool(b: Bounds, random: nat -> real): (ps: seq<Particle>)
    ensures |ps| == Count
  {
    seq(Count, i requires 0 <= i < Count => Seeded(b, random, DrawsPerSeed * i))
  }

  /** Every leaf starts at scale 0 (the pushed literal's 1.0 never shows)
      and, given values in [0, 1), with a launch state and a height between
      yMin and yMax. */
  lemma InitialPoolLaunched(b: Bounds, random: nat -> real)
    requires UnitStream(random)
    ensures forall i :: 0 <= i < Count ==>
      Launched(InitialPool(b, random)[i], b) && StartsBetween(InitialPool(b, random)[i].pos.y, b)
  {
    forall i | 0 <= i < Count
      ensures Launched(InitialPool(b, random)[i], b) && StartsBetween(InitialPool(b, random)[i].pos.y, b)
    {
      SeededLaunches(b, random, DrawsPerSeed * i);
    }
  }

  // ----------------------------------------------------------------------
  // One tick

  /** Scale stays below the cap plus one step of growth. */
  predicate ScaleBounded(s: real, dt: real) {
    0.0 <= s < ScaleCap + GrowthRate * dt
  }

  ghost predicate AllScalesBounded(ps: seq<Particle>, dt: real) {
    forall i :: 0 <= i < |ps| ==> ScaleBounded(ps[i].scale, dt)
  }

  /** One leaf's motion in `update`: move, spin, grow in, sway. */
  function Step(p: Particle, dt: real, sin: real -> real): Particle {
    var moved := p.(pos := Add(p.pos, p.vel), rot := Add(p.rot, p.rotSpeed));
    var grown := if moved.scale < ScaleCap then moved.(scale := moved.scale + dt * GrowthRate) else moved;
    grown.(pos := grown.pos.(x := grown.pos.x + sin(grown.pos.y) * SwayAmplitude))
  }

  /** Grow-in: with dt >= 0 a Step never shrinks a leaf, leaves a leaf at or
      above the cap as it is, and keeps 0 <= scale < ScaleCap + GrowthRate * dt. */
  lemma StepGrowsIn(p: Particle, dt: real, sin: real -> real)
    ensures p.scale >= ScaleCap ==> Step(p, dt, sin).scale == p.scale
    ensures dt >= 0.0 ==> p.scale <= Step(p, dt, sin).scale
    ensures dt >= 0.0 && ScaleBounded(p.scale, dt) ==> ScaleBounded(Step(p, dt, sin).scale, dt)
  {
  }

  /** A Step keeps velocity and spin, moves a leaf with negative vertical
      speed down, and with sin in [-1, 1] moves it sideways by its x speed
      up to the sway amplitude. */
  lemma StepFallsAndSways(p: Particle, dt: real, sin: real -> real)
    ensures Step(p, dt, sin).vel == p.vel && Step(p, dt, sin).rotSpeed == p.rotSpeed
    ensures Step(p, dt, sin).pos.y == p.pos.y + p.vel.y
    ensures -1.0 <= sin(p.pos.y + p.vel.y) <= 1.0 ==>
      p.pos.x + p.vel.x - SwayAmplitude <= Step(p, dt, sin).pos.x <= p.pos.x + p.vel.x + SwayAmplitude
  {
  }

  /** Ground level is y = 0. */
  predicate BelowGround(p: Particle) {
    p.pos.y < 0.0
  }

  /** The matrix-buffer entry written for a leaf. */
  function Bake(p: Particle): Trs {
    Trs(p.pos, p.rot, Vec3(p.scale, p.scale, p.scale))
  }

  /** The slots below n whose leaf a Step takes below ground: at most n
      of them. */
  function FallenSlots(ps: seq<Particle>, n: nat, dt: real, sin: real -> real): (fallen: set<nat>)
    requires n <= |ps|
    ensures |fallen| <= n
  {
    var fallen := set i: nat | i < n && BelowGround(Step(ps[i], dt, sin));
    IndicesBelow(fallen, n);
    fallen
  }

  /** A set of indices below n has at most n elements. */
  lemma {:induction false} IndicesBelow(s: set<nat>, n: nat)
    requires forall i :: i in s ==> i < n
    ensures |s| <= n
  {
    if n == 0 {
      assert s == {};
    } else {
      var rest := s - {n - 1};
      IndicesBelow(rest, n - 1);
      if n - 1 in s {
        assert s == rest + {n - 1};
      } else {
        assert s == rest;
      }
    }
  }

  /** Widening the prefix by slot n adds slot n exactly when its leaf falls. */
  lemma FallenSlotsNext(ps: seq<Particle>, n: nat, dt: real, sin: real -> real)
    requires n < |ps|
    ensures |FallenSlots(ps, n + 1, dt, sin)| ==
      |FallenSlots(ps, n, dt, sin)| + if BelowGround(Step(ps[n], dt, sin)) then 1 else 0
  {
    var before := FallenSlots(ps, n, dt, sin);
    if BelowGround(Step(ps[n], dt, sin)) {
      assert FallenSlots(ps, n + 1, dt, sin) == before + {n};
    } else {
      assert FallenSlots(ps, n + 1, dt, sin) == before;
    }
  }

  /** A leaf that falls in slot i is counted by every longer prefix, so
      such a prefix holds more fallen slots than the one ending before i. */
  lemma FallenSlotsGrowPast(ps: seq<Particle>, i: nat, j: nat, dt: real, sin: real -> real)
    requires i < j <= |ps|
    requires BelowGround(Step(ps[i], dt, sin))
    ensures |FallenSlots(ps, i, dt, sin)| < |FallenSlots(ps, j, dt, sin)|
  {
    var early := FallenSlots(ps, i, dt, sin) + {i};
    var late := FallenSlots(ps, j, dt, sin);
    assert late == early + (late - early);
  }

  /** A longer prefix never holds fewer fallen slots. */
  lemma FallenSlotsNeverShrink(ps: seq<Particle>, i: nat, j: nat, dt: real, sin: real -> real)
    requires i <= j <= |ps|
    ensures |FallenSlots(ps, i, dt, sin)| <= |FallenSlots(ps, j, dt, sin)|
  {
    var early := FallenSlots(ps, i, dt, sin);
    var late := FallenSlots(ps, j, dt, sin);
    assert late == early + (late - early);
  }

  /** The leaves after a tick, and the stream position after it. */
  datatype Tick = Tick(pool: seq<Particle>, cursor: nat)

  /** The respawn check closing one slot's iteration: a leaf below ground is
      replaced by a Spawn from the values at `c`. */
  function Settle(q: Particle, b: Bounds, random: nat -> real, c: nat): Particle {
    if BelowGround(q) then Spawn(b, random, c) else q
  }

  /** Position in the stream where slot i's draws start during a tick that
      starts at `k`: twelve values for each earlier slot that respawned. */
  function SlotCursor(ps: seq<Particle>, i: nat, dt: real, sin: real -> real, k: nat): nat
    requires i <= |ps|
  {
    k + DrawsPerRespawn * |FallenSlots(ps, i, dt, sin)|
  }

  /** One call of `update(dt)` on the leaves `ps`, drawing from `random` at
      `k` on: leaf i takes a Step and is then Settled with the values at its
      SlotCursor. */
  function Advance(ps: seq<Particle>, dt: real, sin: real -> real, b: Bounds, random: nat -> real, k: nat): (t: Tick)
    ensures |t.pool| == |ps|
  {
    Tick(seq(|ps|, i requires 0 <= i < |ps| => Settle(Step(ps[i], dt, sin), b, random, SlotCursor(ps, i, dt, sin, k))),
         SlotCursor(ps, |ps|, dt, sin, k))
  }

  /** One update draws nothing when no leaf falls and at most twelve
      values per slot: its final cursor lies between k and k + 12 * |ps|. */
  lemma AdvanceDrawsAtMostTwelvePerSlot(ps: seq<Particle>, dt: real, sin: real -> real, b: Bounds, random: nat -> real, k: nat)
    ensures var t := Advance(ps, dt, sin, b, random, k);
      k <= t.cursor <= k + DrawsPerRespawn * |ps|
      && (t.cursor == k <==> forall i :: 0 <= i < |ps| ==> !BelowGround(Step(ps[i], dt, sin)))
  {
    var fallen := FallenSlots(ps, |ps|, dt, sin);
    if fallen == {} {
      forall i | 0 <= i < |ps|
        ensures !BelowGround(Step(ps[i], dt, sin))
      {
        assert i !in fallen;
      }
    } else {
      var i :| i in fallen;
    }
  }

  /** No two respawns of one tick read the same value of the stream: the
      twelve values of an earlier respawned slot all come before those of a
      later one, and the tick's final cursor is past both. */
  lemma RespawnDrawsDisjoint(ps: seq<Particle>, dt: real, sin: real -> real, k: nat, i: nat, j: nat)
    requires i < j < |ps|
    requires BelowGround(Step(ps[i], dt, sin))
    ensures SlotCursor(ps, i, dt, sin, k) + DrawsPerRespawn <= SlotCursor(ps, j, dt, sin, k)
    ensures SlotCursor(ps, j, dt, sin, k) <= SlotCursor(ps, |ps|, dt, sin, k)
  {
    FallenSlotsGrowPast(ps, i, j, dt, sin);
    FallenSlotsNeverShrink(ps, j, |ps|, dt, sin);
  }

  /** A leaf that a tick takes below ground ends the tick respawned in the
      canopy with a fresh launch state; every other leaf just took its Step. */
  lemma AdvanceRecyclesFallen(ps: seq<Particle>, dt: real, sin: real -> real, b: Bounds, random: nat -> real, k: nat)
    requires UnitStream(random)
    ensures var t := Advance(ps, dt, sin, b, random, k);
      forall i :: 0 <= i < |ps| ==>
        if BelowGround(Step(ps[i], dt, sin)) then Launched(t.pool[i], b) && AtCanopy(t.pool[i], b)
        else t.pool[i] == Step(ps[i], dt, sin)
  {
    var t := Advance(ps, dt, sin, b, random, k);
    forall i | 0 <= i < |ps|
      ensures if BelowGround(Step(ps[i], dt, sin)) then Launched(t.pool[i], b) && AtCanopy(t.pool[i], b)
              else t.pool[i] == Step(ps[i], dt, sin)
    {
      SpawnLaunches(b, random, SlotCursor(ps, i, dt, sin, k));
    }
  }

  /** With the volume's top at least one unit above ground, no leaf ends a
      tick below ground, whatever the pool held before. */
  lemma AdvanceLeavesNoneBelowGround(ps: seq<Particle>, dt: real, sin: real -> real, b: Bounds, random: nat -> real, k: nat)
    requires UnitStream(random)
    requires b.yMax >= 1.0
    ensures var t := Advance(ps, dt, sin, b, random, k);
      forall i :: 0 <= i < |ps| ==> !BelowGround(t.pool[i])
  {
    AdvanceRecyclesFallen(ps, dt, sin, b, random, k);
  }

  /** For dt >= 0 a tick never shrinks a leaf, except by respawning it at
      scale 0. */
  lemma AdvanceGrowsOrRecycles(ps: seq<Particle>, dt: real, sin: real -> real, b: Bounds, random: nat -> real, k: nat)
    requires dt >= 0.0
    ensures var t := Advance(ps, dt, sin, b, random, k);
      forall i :: 0 <= i < |ps| ==>
        ps[i].scale <= t.pool[i].scale
        || (BelowGround(Step(ps[i], dt, sin)) && t.pool[i].scale == 0.0)
  {
    forall i | 0 <= i < |ps| {
      StepGrowsIn(ps[i], dt, sin);
    }
  }

  /** For a fixed dt >= 0, 0 <= scale < ScaleCap + GrowthRate * dt is an
      invariant of the pool. */
  lemma AdvanceKeepsScalesBounded(ps: seq<Particle>, dt: real, sin: real -> real, b: Bounds, random: nat -> real, k: nat)
    requires dt >= 0.0
    requires AllScalesBounded(ps, dt)
    ensures AllScalesBounded(Advance(ps, dt, sin, b, random, k).pool, dt)
  {
    forall i | 0 <= i < |ps| {
      StepGrowsIn(ps[i], dt, sin);
    }
  }

  /** m successive calls of `update(dt)` with the same dt, as the
      animation loop makes them. */
  function Run(ps: seq<Particle>, m: nat, dt: real, sin: real -> real, b: Bounds, random: nat -> real, k: nat): (t: Tick)
    ensures |t.pool| == |ps|
  {
    if m == 0 then Tick(ps, k)
    else
      var t := Run(ps, m - 1, dt, sin, b, random, k);
      Advance(t.pool, dt, sin, b, random, t.cursor)
  }

  /** Over any number of ticks with a fixed dt >= 0, every leaf of a pool
      that starts with bounded scales keeps 0 <= scale < ScaleCap + GrowthRate * dt. */
  lemma {:induction false} RunKeepsScalesBounded(ps: seq<Particle>, m: nat, dt: real, sin: real -> real, b: Bounds, random: nat -> real, k: nat)
    requires dt >= 0.0
    requires AllScalesBounded(ps, dt)
    ensures AllScalesBounded(Run(ps, m, dt, sin, b, random, k).pool, dt)
  {
    if m > 0 {
      RunKeepsScalesBounded(ps, m - 1, dt, sin, b, random, k);
      var t := Run(ps, m - 1, dt, sin, b, random, k);
      AdvanceKeepsScalesBounded(t.pool, dt, sin, b, random, t.cursor);
      assert Run(ps, m, dt, sin, b, random, k) == Advance(t.pool, dt, sin, b, random, t.cursor);
    }
  }

  /** From construction on, with a fixed dt >= 0 and a volume whose top is
      at least one unit above ground: every leaf's scale stays in
      [0, ScaleCap + GrowthRate * dt), and after the first tick no leaf is
      ever below ground once an update has finished. */
  lemma PoolStaysInShape(b: Bounds, random: nat -> real, m: nat, dt: real, sin: real -> real)
    requires UnitStream(random)
    requires b.yMax >= 1.0
    requires dt >= 0.0
    ensures var t := Run(InitialPool(b, random), m, dt, sin, b, random, DrawsPerSeed * Count);
      && AllScalesBounded(t.pool, dt)
      && (m > 0 ==> forall i :: 0 <= i < Count ==> !BelowGround(t.pool[i]))
  {
    var ps := InitialPool(b, random);
    RunKeepsScalesBounded(ps, m, dt, sin, b, random, DrawsPerSeed * Count);
    if m > 0 {
      var t := Run(ps, m - 1, dt, sin, b, random, DrawsPerSeed * Count);
      AdvanceLeavesNoneBelowGround(t.pool, dt, sin, b, random, t.cursor);
    }
  }

  // ----------------------------------------------------------------------
  // The pool

  /** `FallingLeavesSystem`: the leaf records, the instanced mesh's matrix
      buffer and its update flag, the spawn volume and the random stream. */
  class LeafPool {
    const bounds: Bounds
    const random: nat -> real
    const particles: array<Particle>
    const matrices: array<Trs>
    /** How many values of `random` have been drawn so far. */
    var drawn: nat
    /** `mesh.instanceMatrix.needsUpdate`. */
    var needsUpdate: bool

    ghost predicate Valid() {
      particles.Length == Count && matrices.Length == Count
    }

    /** Fills the pool: each slot holds the pushed literal, is respawned, and
        then gets a height drawn across the whole volume. The mesh's buffer
        is left at its identity transforms. */
    constructor (bounds: Bounds, random: nat -> real)
      ensures Valid() && fresh(particles) && fresh(matrices)
      ensures this.bounds == bounds && this.random == random
      ensures particles[..] == InitialPool(bounds, random)
      ensures drawn == DrawsPerSeed * Count
      ensures forall i :: 0 <= i < Count ==> matrices[i] == Identity
      ensures !needsUpdate
    {
      this.bounds := bounds;
      this.random := random;
      particles := new Particle[Count](_ => Pushed);
      matrices := new Trs[Count](_ => Identity);
      drawn := 0;
      needsUpdate := false;
      new;
      for i := 0 to Count
        invariant drawn == DrawsPerSeed * i
        invariant forall j :: 0 <= j < i ==> particles[j] == Seeded(bounds, random, DrawsPerSeed * j)
        invariant forall j :: 0 <= j < Count ==> matrices[j] == Identity
        invariant !needsUpdate
      {
        SeedSlot(i);
      }
      assert forall j :: 0 <= j < Count ==> particles[..][j] == InitialPool(bounds, random)[j];
    }

    /** One iteration of the constructor's loop, after the push: respawn the
        leaf in slot i, then draw its height across the whole volume. */
    method SeedSlot(i: nat)
      requires Valid() && i < Count
      modifies particles, this`drawn
      ensures particles[i] == Seeded(bounds, random, old(drawn))
      ensures forall j :: 0 <= j < Count && j != i ==> particles[j] == old(particles[j])
      ensures drawn == old(drawn) + DrawsPerSeed
    {
      ghost var k := drawn;
      Respawn(i);
      var r := Draw();
      particles[i] := WithStartHeight(particles[i], bounds, r);
    }

    /** One call of `Math.random()`. */
    method Draw() returns (r: real)
      modifies this`drawn
      ensures r == random(old(drawn)) && drawn == old(drawn) + 1
    {
      r := random(drawn);
      drawn := drawn + 1;
    }

    /** Three calls of `Math.random()`, as for the three arguments of one
        `set(...)`. */
    method DrawThree() returns (r0: real, r1: real, r2: real)
      modifies this`drawn
      ensures r0 == random(old(drawn)) && r1 == random(old(drawn) + 1) && r2 == random(old(drawn) + 2)
      ensures drawn == old(drawn) + 3
    {
      r0 := Draw();
      r1 := Draw();
      r2 := Draw();
    }

    /** `respawn(p)` for the leaf in slot i: overwrites every field from
        twelve fresh draws and leaves the other slots alone. */
    method Respawn(i: nat)
      requires Valid() && i < Count
      modifies particles, this`drawn
      ensures particles[i] == Spawn(bounds, random, old(drawn))
      ensures forall j :: 0 <= j < Count && j != i ==> particles[j] == old(particles[j])
      ensures drawn == old(drawn) + DrawsPerRespawn
    {
      var rx, ry, rz := DrawThree();
      var pos := CanopyPosition(bounds, rx, ry, rz);
      rx, ry, rz := DrawThree();
      var vel := LaunchVelocity(rx, ry, rz);
      rx, ry, rz := DrawThree();
      var rot := Tilt(rx, ry, rz);
      rx, ry, rz := DrawThree();
      var rotSpeed := Spin(rx, ry, rz);
      particles[i] := Particle(pos, vel, rot, rotSpeed, 0.0);
    }

    /** One iteration of the loop in `update(dt)`: slot i takes its Step,
        that transform goes to matrix slot i, and the leaf is respawned if it
        is now below ground. Nothing else changes. */
    method UpdateSlot(i: nat, dt: real, sin: real -> real)
      requires Valid() && i < Count
      modifies particles, matrices, this`drawn
      ensures var q := Step(old(particles[i]), dt, sin);
        && particles[i] == Settle(q, bounds, random, old(drawn))
        && matrices[i] == Bake(q)
        && drawn == if BelowGround(q) then old(drawn) + DrawsPerRespawn else old(drawn)
      ensures forall j :: 0 <= j < Count && j != i ==>
        particles[j] == old(particles[j]) && matrices[j] == old(matrices[j])
    {
      var p := particles[i];
      // Move
      p := p.(pos := Add(p.pos, p.vel));
      p := p.(rot := Add(p.rot, p.rotSpeed));
      // Grow in
      if p.scale < ScaleCap {
        p := p.(scale := p.scale + dt * GrowthRate);
      }
      // Wind sway
      p := p.(pos := p.pos.(x := p.pos.x + sin(p.pos.y) * SwayAmplitude));
      assert p == Step(old(particles[i]), dt, sin);
      particles[i] := p;
      matrices[i] := Bake(p);
      // Respawn if below ground
      if p.pos.y < 0.0 {
        Respawn(i);
      }
    }

    /** `update(dt)`: every slot in index order goes through UpdateSlot, and
        then the buffer is flagged for upload. A matrix slot keeps the
        transform from before its leaf's respawn. */
    method Update(dt: real, sin: real -> real)
      requires Valid()
      modifies particles, matrices, this`drawn, this`needsUpdate
      ensures var t := Advance(old(particles[..]), dt, sin, bounds, random, old(drawn));
        particles[..] == t.pool && drawn == t.cursor
      ensures forall i :: 0 <= i < Count ==> matrices[i] == Bake(Step(old(particles[i]), dt, sin))
      ensures needsUpdate
    {
      ghost var ps := particles[..];
      ghost var k := drawn;
      for i := 0 to Count
        invariant forall j :: i <= j < Count ==> particles[j] == ps[j]
        invariant forall j :: 0 <= j < i ==>
          particles[j] == Settle(Step(ps[j], dt, sin), bounds, random, SlotCursor(ps, j, dt, sin, k))
        invariant drawn == SlotCursor(ps, i, dt, sin, k)
        invariant forall j :: 0 <= j < i ==> matrices[j] == Bake(Step(ps[j], dt, sin))
      {
        UpdateSlot(i, dt, sin);
        FallenSlotsNext(ps, i, dt, sin);
      }
      assert particles[..] == Advance(ps, dt, sin, bounds, random, k).pool;
      needsUpdate := true;
    }
  }
}
