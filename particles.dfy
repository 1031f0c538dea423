/**
 * The particle background: a 256 x 256 grid of particles whose positions and
 * velocities live in two RGBA float textures, advanced every frame on the GPU
 * by a position shader (integrate, then clamp into a cube) and a velocity
 * shader (blend toward a target that couples the position axes). The shader
 * bodies are modelled as pure functions over `real`; `sin` and the host's
 * random sources are parameters.
 */
module Particles {
  import opened Common

  /** PARTICLE_SIDE: particles per grid row and per grid column. */
  const ParticleSide: nat := 256
  const ParticleCount: nat := ParticleSide * ParticleSide
  /** PARTICLE_BOUND: half the side of the bounding cube, and the spread of the initial positions. */
  const ParticleBound: real := 140.0
  /** The `speed` uniform. */
  const Speed: real := 0.8
  /** The `drag` uniform: the mix factor toward the target velocity. */
  const Drag: real := 0.35
  /** The shader's damping constant `a`. */
  const Damping: real := 0.12
  /** The factor that reduces a position to the shader's coordinate `p`. */
  const PositionScale: real := 0.01
  /** The factor in front of `time` in each phase. */
  const PhaseRate: real := 0.05
  /** The fixed factor after `speed`. */
  const TargetGain: real := 20.0
  /** The largest simulation step per frame, in seconds. */
  const MaxDeltaTime: real := 0.05
  /** The `deltaTime` uniform before the first frame. */
  const InitialDeltaTime: real := 0.016
  /**
   * A bound on every target component for positions inside the cube when
   * |sin| <= 1: (0.12 * 140 * 0.01 + 1) * 0.8 * 20.
   */
  const TargetBound: real := 18.688

  datatype Vec3 = Vec3(x: real, y: real, z: real)

  function Add(a: Vec3, b: Vec3): Vec3 {
    Vec3(a.x + b.x, a.y + b.y, a.z + b.z)
  }

  function Scale(a: Vec3, k: real): Vec3 {
    Vec3(a.x * k, a.y * k, a.z * k)
  }

  /** Every component of `p` lies in [-b, b]. */
  predicate InCube(p: Vec3, b: real) {
    -b <= p.x <= b && -b <= p.y <= b && -b <= p.z <= b
  }

  // ---------------------------------------------------------------------
  // The position shader
  // ---------------------------------------------------------------------

  /** GLSL clamp(v, lo, hi), that is min(max(v, lo), hi); GLSL leaves lo > hi undefined. */
  function ClampScalar(v: real, lo: real, hi: real): (r: real)
    requires lo <= hi
    ensures lo <= r <= hi
    ensures lo <= v <= hi ==> r == v
    ensures v < lo ==> r == lo
    ensures hi < v ==> r == hi
  {
    Min(Max(v, lo), hi)
  }

  /** The unclamped next position pos + velocity * deltaTime. */
  function Integrate(pos: Vec3, velocity: Vec3, deltaTime: real): Vec3 {
    Add(pos, Scale(velocity, deltaTime))
  }

  /**
   * POSITION_FRAGMENT_SHADER for one texel: integrate, then clamp every
   * component into [-bounds, bounds]. The result is always in the cube, and
   * a step that stays inside the cube is not altered by the clamp.
   */
  function PositionStep(pos: Vec3, velocity: Vec3, deltaTime: real, bounds: real): (r: Vec3)
    requires 0.0 <= bounds
    ensures InCube(r, bounds)
    ensures InCube(Integrate(pos, velocity, deltaTime), bounds) ==> r == Integrate(pos, velocity, deltaTime)
  {
    var next := Integrate(pos, velocity, deltaTime);
    Vec3(ClampScalar(next.x, -bounds, bounds),
         ClampScalar(next.y, -bounds, bounds),
         ClampScalar(next.z, -bounds, bounds))
  }

  /** A zero step leaves a position inside the cube where it is, whatever the velocity. */
  lemma ZeroDeltaKeepsPosition(pos: Vec3, velocity: Vec3, bounds: real)
    requires 0.0 <= bounds && InCube(pos, bounds)
    ensures PositionStep(pos, velocity, 0.0, bounds) == pos
  {
  }

  // ---------------------------------------------------------------------
  // The velocity shader
  // ---------------------------------------------------------------------

  /** GLSL mix(x, y, a) = x * (1 - a) + y * a: the fraction a of the way from x to y. */
  function Mix(x: real, y: real, a: real): (r: real)
    ensures r == x + a * (y - x)
  {
    x * (1.0 - a) + y * a
  }

  /** For a factor in [0, 1], mix ends between its end points, in either order. */
  lemma MixBetween(x: real, y: real, a: real)
    requires 0.0 <= a <= 1.0
    ensures x <= y ==> x <= Mix(x, y, a) <= y
    ensures y <= x ==> y <= Mix(x, y, a) <= x
  {
    var d := y - x;
    var m := Mix(x, y, a);
    assert m - x == a * d;
    if 0.0 <= d {
      FractionBounds(a, d);
    } else {
      FractionBounds(a, -d);
      assert a * d == -(a * (-d));
    }
  }

  /** A fraction in [0, 1] of a non-negative amount lies between 0 and that amount. */
  lemma FractionBounds(a: real, d: real)
    requires 0.0 <= a <= 1.0 && 0.0 <= d
    ensures 0.0 <= a * d <= d
  {
  }

  function MixVec(x: Vec3, y: Vec3, a: real): Vec3 {
    Vec3(Mix(x.x, y.x, a), Mix(x.y, y.y, a), Mix(x.z, y.z, a))
  }

  /**
   * One axis of the target velocity from the two scaled position
   * coordinates it depends on: (-a * u + sin(v + time * 0.05)) * speed * 20.
   */
  function AxisTarget(u: real, v: real, time: real, sin: real -> real): real {
    (-Damping * u + sin(v + time * PhaseRate)) * Speed * TargetGain
  }

  /**
   * The target velocity of VELOCITY_FRAGMENT_SHADER, with the `speed`
   * uniform as initCompute sets it. The axes are cross-coupled: x follows
   * (p.x, p.y), y follows (p.y, p.z) and z follows (p.z, p.x), with
   * p = pos * 0.01, and nothing else but time.
   */
  function Target(pos: Vec3, time: real, sin: real -> real): (r: Vec3)
    ensures r.x == AxisTarget(pos.x * PositionScale, pos.y * PositionScale, time, sin)
    ensures r.y == AxisTarget(pos.y * PositionScale, pos.z * PositionScale, time, sin)
    ensures r.z == AxisTarget(pos.z * PositionScale, pos.x * PositionScale, time, sin)
  {
    var p := Scale(pos, PositionScale);
    var a := Damping;
    var dx := -a * p.x + sin(p.y + time * PhaseRate);
    var dy := -a * p.y + sin(p.z + time * PhaseRate);
    var dz := -a * p.z + sin(p.x + time * PhaseRate);
    Scale(Scale(Vec3(dx, dy, dz), Speed), TargetGain)
  }

  /** Between a and b, in either order. */
  predicate Between(v: real, a: real, b: real) {
    Min(a, b) <= v <= Max(a, b)
  }

  /**
   * VELOCITY_FRAGMENT_SHADER for one texel, with the `drag` uniform as
   * initCompute sets it: each component moves 35 % of the way from the
   * current velocity to the target, so it ends between the two.
   */
  function VelocityStep(pos: Vec3, current: Vec3, time: real, sin: real -> real): (r: Vec3)
    ensures var t := Target(pos, time, sin);
            && r.x == current.x + Drag * (t.x - current.x)
            && r.y == current.y + Drag * (t.y - current.y)
            && r.z == current.z + Drag * (t.z - current.z)
    ensures var t := Target(pos, time, sin);
            Between(r.x, current.x, t.x) && Between(r.y, current.y, t.y) && Between(r.z, current.z, t.z)
  {
    MixVec(current, Target(pos, time, sin), Drag)
  }

  /** `sin` takes its values in [-1, 1]. */
  ghost predicate SineBounded(sin: real -> real) {
    forall u :: -1.0 <= sin(u) <= 1.0
  }

  /** For a position inside the cube and a bounded sine, every target component is within TargetBound. */
  lemma TargetBounded(pos: Vec3, time: real, sin: real -> real)
    requires InCube(pos, ParticleBound) && SineBounded(sin)
    ensures InCube(Target(pos, time, sin), TargetBound)
  {
  }

  /**
   * The velocity is damped, not unbounded: once every component is within
   * a bound M >= TargetBound it stays within M under the configured drag.
   */
  lemma VelocityStaysBounded(pos: Vec3, current: Vec3, time: real, sin: real -> real, m: real)
    requires InCube(pos, ParticleBound) && SineBounded(sin)
    requires TargetBound <= m && InCube(current, m)
    ensures InCube(VelocityStep(pos, current, time, sin), m)
  {
    TargetBounded(pos, time, sin);
  }

  // ---------------------------------------------------------------------
  // One compute pass over the whole grid
  // ---------------------------------------------------------------------

  /** The xyz channels of the two simulation textures, one entry per particle. */
  datatype SimState = SimState(positions: seq<Vec3>, velocities: seq<Vec3>)

  predicate WellFormed(s: SimState) {
    |s.positions| == |s.velocities|
  }

  predicate AllInCube(ps: seq<Vec3>) {
    forall i :: 0 <= i < |ps| ==> InCube(ps[i], ParticleBound)
  }

  /**
   * `gpuCompute.compute()` with the configured uniforms: both shaders read
   * the previous frame's textures and write new ones, so every particle's
   * new position uses its old velocity and its new velocity its old
   * position. Every new position lies in the cube.
   */
  function Compute(s: SimState, deltaTime: real, time: real, sin: real -> real): (r: SimState)
    requires WellFormed(s)
    ensures WellFormed(r) && |r.positions| == |s.positions|
    ensures AllInCube(r.positions)
    ensures forall i :: 0 <= i < |s.positions| ==>
              && r.positions[i] == PositionStep(s.positions[i], s.velocities[i], deltaTime, ParticleBound)
              && r.velocities[i] == VelocityStep(s.positions[i], s.velocities[i], time, sin)
  {
    SimState(
      seq(|s.positions|, i requires 0 <= i < |s.positions| =>
        PositionStep(s.positions[i], s.velocities[i], deltaTime, ParticleBound)),
      seq(|s.positions|, i requires 0 <= i < |s.positions| =>
        VelocityStep(s.positions[i], s.velocities[i], time, sin)))
  }

  /** With a zero step no particle inside the cube moves. */
  lemma ComputeZeroDelta(s: SimState, time: real, sin: real -> real)
    requires WellFormed(s) && AllInCube(s.positions)
    ensures Compute(s, 0.0, time, sin).positions == s.positions
  {
    var r := Compute(s, 0.0, time, sin);
    forall i | 0 <= i < |s.positions|
      ensures r.positions[i] == s.positions[i]
    {
      ZeroDeltaKeepsPosition(s.positions[i], s.velocities[i], ParticleBound);
    }
  }

  // ---------------------------------------------------------------------
  // The frame clock
  // ---------------------------------------------------------------------

  /** `Math.min(clock.getDelta(), 0.05)`: the step fed to the simulation. */
  function FrameDelta(clockDelta: real): (r: real)
    ensures r <= MaxDeltaTime
    ensures clockDelta <= MaxDeltaTime ==> r == clockDelta
    ensures MaxDeltaTime < clockDelta ==> r == MaxDeltaTime
    ensures 0.0 <= clockDelta ==> 0.0 <= r
  {
    Min(clockDelta, MaxDeltaTime)
  }

  /** The `time` uniform after frames whose clock deltas are `deltas`, starting from `t0`. */
  function TimeAfter(t0: real, deltas: seq<real>): real
    decreases |deltas|
  {
    if deltas == [] then t0 else TimeAfter(t0 + FrameDelta(deltas[0]), deltas[1..])
  }

  /**
   * With non-negative clock deltas the simulation clock never runs
   * backwards, and it never advances by more than 0.05 per frame: after a
   * stall the simulation slows down instead of catching up.
   */
  lemma {:induction false} TimeAfterBounds(t0: real, deltas: seq<real>)
    requires forall k :: 0 <= k < |deltas| ==> 0.0 <= deltas[k]
    ensures t0 <= TimeAfter(t0, deltas) <= t0 + MaxDeltaTime * |deltas| as real
    decreases |deltas|
  {
    if deltas != [] {
      TimeAfterBounds(t0 + FrameDelta(deltas[0]), deltas[1..]);
    }
  }

  /** One more frame extends the clock by exactly that frame's step. */
  lemma {:induction false} TimeAfterSnoc(t0: real, deltas: seq<real>, d: real)
    ensures TimeAfter(t0, deltas + [d]) == TimeAfter(t0, deltas) + FrameDelta(d)
    decreases |deltas|
  {
    if deltas != [] {
      assert (deltas + [d])[1..] == deltas[1..] + [d];
      TimeAfterSnoc(t0 + FrameDelta(deltas[0]), deltas[1..], d);
    }
  }

  // ---------------------------------------------------------------------
  // Texture initialisation
  // ---------------------------------------------------------------------

  /**
   * The value `fillPositionTexture` writes at index j: channel w is 1, and
   * channel c < 3 of texel j / 4 is (r - 0.5) * 140 where r is the
   * (3 * (j / 4) + c)-th result of Math.random.
   */
  function PositionTexel(j: nat, random: nat -> real): real {
    if j % 4 == 3 then 1.0 else (random(3 * (j / 4) + j % 4) - 0.5) * ParticleBound
  }

  /**
   * The value `fillVelocityTexture` writes at index j: channel w is 1 and
   * channel c < 3 of texel j / 4 is the (3 * (j / 4) + c)-th result of
   * randFloatSpread(4).
   */
  function VelocityTexel(j: nat, spread: nat -> real): real {
    if j % 4 == 3 then 1.0 else spread(3 * (j / 4) + j % 4)
  }

  /** The position texture `fillPositionTexture` leaves behind. */
  function FilledPositions(random: nat -> real): seq<real> {
    seq(4 * ParticleCount, j requires 0 <= j < 4 * ParticleCount => PositionTexel(j, random))
  }

  /** The velocity texture `fillVelocityTexture` leaves behind. */
  function FilledVelocities(spread: nat -> real): seq<real> {
    seq(4 * ParticleCount, j requires 0 <= j < 4 * ParticleCount => VelocityTexel(j, spread))
  }

  /** Math.random's results lie in [0, 1). */
  ghost predicate UnitRandom(random: nat -> real) {
    forall k :: 0.0 <= random(k) < 1.0
  }

  /** Every initial position component lies in [-70, 70). */
  lemma PositionTexelRange(j: nat, random: nat -> real)
    requires UnitRandom(random) && j % 4 != 3
    ensures -ParticleBound / 2.0 <= PositionTexel(j, random) < ParticleBound / 2.0
  {
    var r := random(3 * (j / 4) + j % 4);
    assert 0.0 <= r < 1.0;
  }

  /**
   * `fillPositionTexture`: visit the texels four floats at a time and write
   * x, y, z and w. A write past the end of a Float32Array is ignored, which
   * the guards model, so any length is accepted.
   */
  method FillPositionTexture(data: array<real>, random: nat -> real)
    modifies data
    ensures forall j :: 0 <= j < data.Length ==> data[j] == PositionTexel(j, random)
  {
    var i := 0;
    while i < data.Length
      invariant i % 4 == 0 && 0 <= i <= data.Length + 3
      invariant forall j :: 0 <= j < i && j < data.Length ==> data[j] == PositionTexel(j, random)
    {
      data[i] := (random(3 * (i / 4)) - 0.5) * ParticleBound;
      if i + 1 < data.Length {
        data[i + 1] := (random(3 * (i / 4) + 1) - 0.5) * ParticleBound;
      }
      if i + 2 < data.Length {
        data[i + 2] := (random(3 * (i / 4) + 2) - 0.5) * ParticleBound;
      }
      if i + 3 < data.Length {
        data[i + 3] := 1.0;
      }
      i := i + 4;
    }
  }

  /** `fillVelocityTexture`: as `FillPositionTexture`, with randFloatSpread(4) for x, y and z. */
  method FillVelocityTexture(data: array<real>, spread: nat -> real)
    modifies data
    ensures forall j :: 0 <= j < data.Length ==> data[j] == VelocityTexel(j, spread)
  {
    var i := 0;
    while i < data.Length
      invariant i % 4 == 0 && 0 <= i <= data.Length + 3
      invariant forall j :: 0 <= j < i && j < data.Length ==> data[j] == VelocityTexel(j, spread)
    {
      data[i] := spread(3 * (i / 4));
      if i + 1 < data.Length {
        data[i + 1] := spread(3 * (i / 4) + 1);
      }
      if i + 2 < data.Length {
        data[i + 2] := spread(3 * (i / 4) + 2);
      }
      if i + 3 < data.Length {
        data[i + 3] := 1.0;
      }
      i := i + 4;
    }
  }

  /** The xyz channels of an RGBA texture, one vector per texel, as the shaders sample them. */
  function TexelVectors(data: seq<real>): (r: seq<Vec3>)
    requires |data| % 4 == 0
    ensures |r| == |data| / 4
    ensures forall i :: 0 <= i < |r| ==> r[i] == Vec3(data[4 * i], data[4 * i + 1], data[4 * i + 2])
  {
    seq(|data| / 4, i requires 0 <= i < |data| / 4 => Vec3(data[4 * i], data[4 * i + 1], data[4 * i + 2]))
  }

  /** A filled position texture of any whole number of texels starts with every particle in the cube. */
  lemma FilledPositionsInCube(data: seq<real>, random: nat -> real)
    requires |data| % 4 == 0 && UnitRandom(random)
    requires forall j :: 0 <= j < |data| ==> data[j] == PositionTexel(j, random)
    ensures AllInCube(TexelVectors(data))
  {
    var ps := TexelVectors(data);
    forall i | 0 <= i < |ps|
      ensures InCube(ps[i], ParticleBound)
    {
      PositionTexelRange(4 * i, random);
      PositionTexelRange(4 * i + 1, random);
      PositionTexelRange(4 * i + 2, random);
    }
  }

  // ---------------------------------------------------------------------
  // The reference buffer of the particle mesh
  // ---------------------------------------------------------------------

  /** The grid cell (column, row) of particle i. */
  function Texel(i: nat): (nat, nat) {
    (i % ParticleSide, i / ParticleSide)
  }

  /** Every particle index names a cell of the grid, and distinct indices name distinct cells. */
  lemma TexelInjective(i: nat, j: nat)
    requires i < ParticleCount && j < ParticleCount
    ensures Texel(i).0 < ParticleSide && Texel(i).1 < ParticleSide
    ensures i != j ==> Texel(i) != Texel(j)
  {
    assert i == Texel(i).1 * ParticleSide + Texel(i).0;
    assert j == Texel(j).1 * ParticleSide + Texel(j).0;
  }

  /** The texture coordinate stored for particle i: its cell divided by the side, and z = 0. */
  function Reference(i: nat): Vec3 {
    Vec3((i % ParticleSide) as real / ParticleSide as real,
         (i / ParticleSide) as real / ParticleSide as real,
         0.0)
  }

  /**
   * Each stored coordinate lies in [0, 1) x [0, 1) with z = 0, and distinct
   * particles get distinct coordinates, so every particle samples its own
   * texel and no texel is sampled twice.
   */
  lemma ReferenceInjective(i: nat, j: nat)
    requires i < ParticleCount && j < ParticleCount
    ensures 0.0 <= Reference(i).x < 1.0 && 0.0 <= Reference(i).y < 1.0 && Reference(i).z == 0.0
    ensures i != j ==> Reference(i) != Reference(j)
  {
    TexelInjective(i, j);
  }

  /** The loop of `createParticleMesh` that fills the `position` attribute of the mesh. */
  method CreateReferences() returns (references: array<real>)
    ensures references.Length == 3 * ParticleCount
    ensures forall i :: 0 <= i < ParticleCount ==>
              Vec3(references[3 * i], references[3 * i + 1], references[3 * i + 2]) == Reference(i)
  {
    references := new real[3 * ParticleCount];
    var i := 0;
    while i < ParticleCount
      invariant 0 <= i <= ParticleCount
      invariant forall k :: 0 <= k < i ==>
                  Vec3(references[3 * k], references[3 * k + 1], references[3 * k + 2]) == Reference(k)
    {
      references[i * 3] := (i % ParticleSide) as real / ParticleSide as real;
      references[i * 3 + 1] := (i / ParticleSide) as real / ParticleSide as real;
      references[i * 3 + 2] := 0.0;
      i := i + 1;
    }
  }

  // ---------------------------------------------------------------------
  // Mounting, the frame loop and teardown
  // ---------------------------------------------------------------------

  /** The element the canvas is mounted into; `children` are the ids of its child nodes. */
  class Container {
    var children: seq<nat>

    constructor (children: seq<nat>)
      ensures this.children == children
    {
      this.children := children;
    }
  }

  /** `s` without any occurrence of `x`, everything else in order. */
  function Without(s: seq<nat>, x: nat): (r: seq<nat>)
    ensures x !in r
    ensures forall y :: y != x ==> (y in r <==> y in s)
    ensures x !in s ==> r == s
  {
    if s == [] then []
    else if s[0] == x then Without(s[1..], x)
    else [s[0]] + Without(s[1..], x)
  }

  /**
   * The closure state of one mounted particle system: `alive` says that
   * renderer, scene and camera are non-null, `deltaTime` and `time` are the
   * two uniforms, `frameId` the last handle from requestAnimationFrame and
   * `framePending` whether that frame is still scheduled. `clockDeltas` is
   * the history of `clock.getDelta()` results the loop has consumed.
   */
  class ParticleSystem {
    const container: Container
    const canvas: nat
    var alive: bool
    var observing: bool
    var deltaTime: real
    var time: real
    var frameId: nat
    var framePending: bool
    var state: SimState
    ghost var clockDeltas: seq<real>

    /** The grid has its full size, every particle is in the cube, and `time` is the sum of the clamped steps. */
    ghost predicate Valid()
      reads this
    {
      && |state.positions| == ParticleCount
      && WellFormed(state)
      && AllInCube(state.positions)
      && time == TimeAfter(0.0, clockDeltas)
    }

    constructor (container: Container, canvas: nat, init: SimState)
      requires |init.positions| == ParticleCount && WellFormed(init) && AllInCube(init.positions)
      ensures Valid()
      ensures this.container == container && this.canvas == canvas
      ensures alive && !observing && !framePending && frameId == 0
      ensures deltaTime == InitialDeltaTime && time == 0.0 && state == init && clockDeltas == []
    {
      this.container := container;
      this.canvas := canvas;
      alive := true;
      observing := false;
      deltaTime := InitialDeltaTime;
      time := 0.0;
      frameId := 0;
      framePending := false;
      state := init;
      clockDeltas := [];
    }

    /**
     * `animate`: once torn down, do nothing; otherwise clamp the clock
     * delta, advance `time` by it before the compute pass reads it, run the
     * compute pass and request the next frame (`frame` is the handle the
     * host returns).
     */
    method Animate(clockDelta: real, sin: real -> real, frame: nat)
      requires Valid()
      modifies this`deltaTime, this`time, this`state, this`frameId, this`framePending, this`clockDeltas
      ensures Valid()
      ensures !alive ==>
                && deltaTime == old(deltaTime) && time == old(time) && state == old(state)
                && frameId == old(frameId) && framePending == old(framePending)
                && clockDeltas == old(clockDeltas)
      ensures alive ==>
                && deltaTime == FrameDelta(clockDelta)
                && time == old(time) + deltaTime
                && state == Compute(old(state), deltaTime, time, sin)
                && frameId == frame && framePending
                && clockDeltas == old(clockDeltas) + [clockDelta]
    {
      if !alive {
        return;
      }
      deltaTime := FrameDelta(clockDelta);
      TimeAfterSnoc(0.0, clockDeltas, clockDelta);
      time := time + deltaTime;
      clockDeltas := clockDeltas + [clockDelta];
      state := Compute(state, deltaTime, time, sin);
      frameId := frame;
      framePending := true;
    }

    /** The ResizeObserver is created and observes the container. */
    method Observe()
      requires Valid()
      modifies this`observing
      ensures Valid() && observing
    {
      observing := true;
    }

    /**
     * The cleanup returned after a successful mount: cancel the frame,
     * disconnect the observer, detach the canvas if it is still attached
     * and drop the renderer, scene and camera. `ok` is false when the call
     * throws: a second call dereferences the renderer it set to null.
     */
    method Teardown() returns (ok: bool)
      requires Valid()
      modifies this`alive, this`framePending, this`observing, container`children
      ensures Valid()
      ensures !framePending && !observing
      ensures ok == old(alive)
      ensures ok ==> !alive && container.children == Without(old(container.children), canvas)
      ensures !ok ==> !alive && container.children == old(container.children)
    {
      framePending := false;
      observing := false;
      if !alive {
        return false;
      }
      if canvas in container.children {
        container.children := Without(container.children, canvas);
      }
      alive := false;
      return true;
    }
  }

  /** What `initWebGLParticles` returns: a no-op or the teardown of a mounted system. */
  datatype Cleanup = NoOpCleanup | TeardownOf(system: ParticleSystem)

  /**
   * `initWebGLParticles`. `canvas` is the renderer's canvas when the
   * WebGLRenderer constructor succeeds and None when it throws; then the
   * call logs the error (`errorLogged`), returns a no-op cleanup and leaves
   * the container untouched. Otherwise nothing is logged, both textures
   * are filled, the canvas is appended, the first frame runs at once and
   * the resize observer is attached.
   */
  method InitWebGLParticles(container: Container, canvas: Option<nat>,
                            random: nat -> real, spread: nat -> real,
                            sin: real -> real, firstDelta: real, firstFrame: nat)
    returns (cleanup: Cleanup, errorLogged: bool)
    requires UnitRandom(random)
    modifies container
    ensures errorLogged <==> canvas.None?
    ensures canvas.None? ==> cleanup == NoOpCleanup && container.children == old(container.children)
    ensures canvas.Some? ==>
              && cleanup.TeardownOf?
              && fresh(cleanup.system)
              && cleanup.system.Valid()
              && cleanup.system.container == container
              && cleanup.system.canvas == canvas.value
              && cleanup.system.alive && cleanup.system.observing && cleanup.system.framePending
              && cleanup.system.time == FrameDelta(firstDelta)
              && cleanup.system.deltaTime == FrameDelta(firstDelta)
              && cleanup.system.frameId == firstFrame
              && cleanup.system.clockDeltas == [firstDelta]
              && cleanup.system.state
                 == Compute(SimState(TexelVectors(FilledPositions(random)), TexelVectors(FilledVelocities(spread))),
                            FrameDelta(firstDelta), FrameDelta(firstDelta), sin)
              && container.children == old(container.children) + [canvas.value]
  {
    if canvas.None? {
      return NoOpCleanup, true;
    }
    var positionData := new real[4 * ParticleCount];
    FillPositionTexture(positionData, random);
    var velocityData := new real[4 * ParticleCount];
    FillVelocityTexture(velocityData, spread);
    FilledPositionsInCube(positionData[..], random);
    assert positionData[..] == FilledPositions(random);
    assert velocityData[..] == FilledVelocities(spread);
    var init := SimState(TexelVectors(positionData[..]), TexelVectors(velocityData[..]));
    var system := new ParticleSystem(container, canvas.value, init);
    container.children := container.children + [canvas.value];
    system.Animate(firstDelta, sin, firstFrame);
    system.Observe();
    cleanup, errorLogged := TeardownOf(system), false;
  }
}
