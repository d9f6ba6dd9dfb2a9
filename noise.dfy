/** The noise field of the cloud shader: `hash`, the smoothed value `noise`,
    the decorrelating rotation `rotate_y` and the two fractal sums
    `fbm_base` and `fbm_detail` (shaders/cloudShader.ts, lines 47-117). */
module NoiseField {
  import opened WgslMath

  /** `hash`: scrambles a point into a pseudo-random value. */
  function Hash(p: Vec3): (r: real)
    ensures 0.0 <= r < 1.0
  {
    var p3 := FractV(Scale(p, 0.1031));
    var s := Dot(p3, Vec3(p3.y + 33.33, p3.z + 33.33, p3.x + 33.33));
    var q := Vec3(p3.x + s, p3.y + s, p3.z + s);
    Fract((q.x + q.y) * q.z)
  }

  /** The hashes of the eight corners of one lattice cell, named as in `noise`. */
  datatype Corners = Corners(a: real, b: real, c: real, d: real,
                             e: real, f: real, g: real, h: real)

  predicate CornersInUnit(k: Corners) {
    0.0 <= k.a < 1.0 && 0.0 <= k.b < 1.0 && 0.0 <= k.c < 1.0 && 0.0 <= k.d < 1.0
    && 0.0 <= k.e < 1.0 && 0.0 <= k.f < 1.0 && 0.0 <= k.g < 1.0 && 0.0 <= k.h < 1.0
  }

  function CellCorners(p: Vec3): (k: Corners)
    ensures CornersInUnit(k)
  {
    Corners(Hash(p),
            Hash(Add(p, Vec3(1.0, 0.0, 0.0))),
            Hash(Add(p, Vec3(0.0, 1.0, 0.0))),
            Hash(Add(p, Vec3(1.0, 1.0, 0.0))),
            Hash(Add(p, Vec3(0.0, 0.0, 1.0))),
            Hash(Add(p, Vec3(1.0, 0.0, 1.0))),
            Hash(Add(p, Vec3(0.0, 1.0, 1.0))),
            Hash(Add(p, Vec3(1.0, 1.0, 1.0))))
  }

  /** The expanded polynomial `k0 + k1 x + ... + k7 x y z` that `noise` evaluates. */
  function CellPolynomial(k: Corners, w: Vec3): real {
    var k0 := k.a;
    var k1 := k.b - k.a;
    var k2 := k.c - k.a;
    var k3 := k.e - k.a;
    var k4 := k.a - k.b - k.c + k.d;
    var k5 := k.a - k.c - k.e + k.g;
    var k6 := k.a - k.b - k.e + k.f;
    var k7 := -k.a + k.b + k.c - k.d + k.e - k.f - k.g + k.h;
    k0 + k1 * w.x + k2 * w.y + k3 * w.z + k4 * w.x * w.y + k5 * w.y * w.z
      + k6 * w.z * w.x + k7 * w.x * w.y * w.z
  }

  /** Trilinear interpolation of the corners: along x, then y, then z. */
  function Trilinear(k: Corners, w: Vec3): real {
    Mix(Mix(Mix(k.a, k.b, w.x), Mix(k.c, k.d, w.x), w.y),
        Mix(Mix(k.e, k.f, w.x), Mix(k.g, k.h, w.x), w.y),
        w.z)
  }

  /** The polynomial `noise` evaluates is trilinear interpolation. */
  lemma PolynomialIsTrilinear(k: Corners, w: Vec3)
    ensures CellPolynomial(k, w) == Trilinear(k, w)
  {
  }

  /** Interpolating corner values in `[0, 1)` with weights in `[0, 1]` stays in `[0, 1)`. */
  lemma TrilinearInUnit(k: Corners, w: Vec3)
    requires CornersInUnit(k) && InUnitCube(w)
    ensures 0.0 <= Trilinear(k, w) < 1.0
  {
    MixInHalfOpen(k.a, k.b, w.x, 0.0, 1.0);
    MixInHalfOpen(k.c, k.d, w.x, 0.0, 1.0);
    MixInHalfOpen(k.e, k.f, w.x, 0.0, 1.0);
    MixInHalfOpen(k.g, k.h, w.x, 0.0, 1.0);
    MixInHalfOpen(Mix(k.a, k.b, w.x), Mix(k.c, k.d, w.x), w.y, 0.0, 1.0);
    MixInHalfOpen(Mix(k.e, k.f, w.x), Mix(k.g, k.h, w.x), w.y, 0.0, 1.0);
    MixInHalfOpen(Mix(Mix(k.a, k.b, w.x), Mix(k.c, k.d, w.x), w.y),
                  Mix(Mix(k.e, k.f, w.x), Mix(k.g, k.h, w.x), w.y), w.z, 0.0, 1.0);
  }

  /** The smoothstep-shaped weights of a point inside its lattice cell. */
  function CellWeights(x: Vec3): (w: Vec3)
    ensures InUnitCube(w)
  {
    var f := FractV(x);
    SmoothWeightRange(f.x);
    SmoothWeightRange(f.y);
    SmoothWeightRange(f.z);
    Vec3(SmoothWeight(f.x), SmoothWeight(f.y), SmoothWeight(f.z))
  }

  /** `noise`: 3D value noise. The unused lattice index `n` of the source is
      not modelled. */
  function Noise(x: Vec3): (r: real)
    ensures 0.0 <= r < 1.0
  {
    var k := CellCorners(FloorV(x));
    var w := CellWeights(x);
    PolynomialIsTrilinear(k, w);
    TrilinearInUnit(k, w);
    CellPolynomial(k, w)
  }

  /** At a lattice point, the noise is the hash of that point: the
      interpolation passes through the corner values. */
  lemma NoiseAtLattice(x: Vec3)
    requires x == FloorV(x)
    ensures Noise(x) == Hash(x)
  {
    assert FractV(x) == Zero;
    assert CellWeights(x) == Zero;
    PolynomialAtOrigin(CellCorners(FloorV(x)));
  }

  lemma PolynomialAtOrigin(k: Corners)
    ensures CellPolynomial(k, Zero) == k.a
  {
  }

  /** `rotate_y`: a fixed rotation about the vertical axis (cosine 0.8, sine 0.6). */
  function RotateY(p: Vec3): Vec3 {
    Vec3(0.8 * p.x - 0.6 * p.z, p.y, 0.6 * p.x + 0.8 * p.z)
  }

  /** `rotate_y` is a rotation: it keeps the height and the distance from the
      vertical axis, and it turns the x axis towards the z axis. */
  lemma RotateYIsRotation(p: Vec3)
    ensures RotateY(p).y == p.y
    ensures RotateY(p).x * RotateY(p).x + RotateY(p).z * RotateY(p).z == p.x * p.x + p.z * p.z
    ensures RotateY(Vec3(1.0, 0.0, 0.0)) == Vec3(0.8, 0.0, 0.6)
  {
    RotationPreservesRadius(p.x, p.z, RotateY(p).x, RotateY(p).z);
  }

  lemma RotationPreservesRadius(x: real, z: real, x': real, z': real)
    requires x' == 0.8 * x - 0.6 * z && z' == 0.6 * x + 0.8 * z
    ensures x' * x' + z' * z' == x * x + z * z
  {
  }

  /** A noise field: any function of space with values in `[0, 1)`. The
      fractal sums and the cloud density are stated over a field so that
      their proofs do not unfold the lattice arithmetic of `Noise`;
      `ShaderNoise` is the field the shader samples. */
  type Field = f: Vec3 -> real | forall x :: 0.0 <= f(x) < 1.0 witness x => 0.0

  /** The shader's own noise, as a field. */
  function ShaderNoise(): (f: Field)
    ensures forall x :: f(x) == Noise(x)
  {
    Noise
  }

  /** The sum of the amplitudes of `n` octaves starting at `amp`, each half the last. */
  function AmplitudeSum(amp: real, n: nat): real
    decreases n
  {
    if n == 0 then 0.0 else amp + AmplitudeSum(amp * 0.5, n - 1)
  }

  /** The divisors of `fbm_base` and `fbm_detail` are the sums of their
      amplitudes. */
  lemma AmplitudeSums()
    ensures AmplitudeSum(0.5, 4) == 0.9375
    ensures AmplitudeSum(0.5, 5) == 0.96875
  {
    assert AmplitudeSum(0.03125, 1) == 0.03125;
    assert AmplitudeSum(0.0625, 1) == 0.0625;
  }

  /** The value the FBM loops accumulate: `n` octaves of `noise` from `p` at
      amplitude `amp`, each next octave rotated, scaled by `lacunarity` and
      at half the amplitude. */
  function Octaves(noise: Field, p: Vec3, n: nat, lacunarity: real, amp: real): real
    decreases n
  {
    if n == 0 then 0.0
    else amp * noise(p) + Octaves(noise, Scale(RotateY(p), lacunarity), n - 1, lacunarity, amp * 0.5)
  }

  /** With positive amplitudes, the octaves stay below the sum of their
      amplitudes: this is what the divisors of the FBM functions rely on. */
  lemma {:induction false} OctavesBelowAmplitudes(noise: Field, p: Vec3, n: nat, lacunarity: real, amp: real)
    requires 0.0 < amp
    ensures 0.0 <= Octaves(noise, p, n, lacunarity, amp)
    ensures n > 0 ==> Octaves(noise, p, n, lacunarity, amp) < AmplitudeSum(amp, n)
    decreases n
  {
    if n > 0 {
      var rest := Octaves(noise, Scale(RotateY(p), lacunarity), n - 1, lacunarity, amp * 0.5);
      OctavesBelowAmplitudes(noise, Scale(RotateY(p), lacunarity), n - 1, lacunarity, amp * 0.5);
      OctaveSum(amp, noise(p), rest, AmplitudeSum(amp * 0.5, n - 1), n);
    }
  }

  lemma OctaveSum(amp: real, v: real, rest: real, tail: real, n: nat)
    requires 0.0 < amp && 0.0 <= v < 1.0 && 0.0 <= rest && n > 0
    requires n > 1 ==> rest < tail
    requires n == 1 ==> rest == 0.0 && tail == 0.0
    ensures 0.0 <= amp * v + rest < amp + tail
  {
    assert 0.0 <= amp * v < amp by { OctaveTerm(amp, v); }
  }

  lemma OctaveTerm(amp: real, v: real)
    requires 0.0 < amp && 0.0 <= v < 1.0
    ensures 0.0 <= amp * v < amp
  {
    MulNonNegative(amp, v);
    assert amp - amp * v == amp * (1.0 - v);
    MulPositive(amp, 1.0 - v);
  }

  /** The coarse cloud shape `fbm_base` computes. */
  function BaseShape(noise: Field, p: Vec3): real {
    Octaves(noise, p, 4, 2.02, 0.5) / 0.9375
  }

  /** The fine erosion detail `fbm_detail` computes. */
  function DetailShape(noise: Field, p: Vec3): real {
    Octaves(noise, p, 5, 2.03, 0.5) / 0.96875
  }

  /** Both fractal sums are normalised into `[0, 1)`. */
  lemma ShapesInUnit(noise: Field, p: Vec3)
    ensures 0.0 <= BaseShape(noise, p) < 1.0
    ensures 0.0 <= DetailShape(noise, p) < 1.0
  {
    AmplitudeSums();
    OctavesBelowAmplitudes(noise, p, 4, 2.02, 0.5);
    OctavesBelowAmplitudes(noise, p, 5, 2.03, 0.5);
  }

  /** `fbm_base`: four octaves, rotated and scaled by 2.02 between octaves. */
  method FbmBase(noise: Field, p: Vec3) returns (r: real)
    ensures r == BaseShape(noise, p)
    ensures 0.0 <= r < 1.0
  {
    var f := 0.0;
    var pos := p;
    var amp := 0.5;
    for i := 0 to 4
      invariant f + Octaves(noise, pos, 4 - i, 2.02, amp) == Octaves(noise, p, 4, 2.02, 0.5)
    {
      f := f + amp * noise(pos);
      pos := Scale(RotateY(pos), 2.02);
      amp := amp * 0.5;
    }
    r := f / 0.9375;
    ShapesInUnit(noise, p);
  }

  /** `fbm_detail`: five octaves, rotated and scaled by 2.03 between octaves. */
  method FbmDetail(noise: Field, p: Vec3) returns (r: real)
    ensures r == DetailShape(noise, p)
    ensures 0.0 <= r < 1.0
  {
    var f := 0.0;
    var pos := p;
    var amp := 0.5;
    for i := 0 to 5
      invariant f + Octaves(noise, pos, 5 - i, 2.03, amp) == Octaves(noise, p, 5, 2.03, 0.5)
    {
      f := f + amp * noise(pos);
      pos := Scale(RotateY(pos), 2.03);
      amp := amp * 0.5;
    }
    r := f / 0.96875;
    ShapesInUnit(noise, p);
  }
}
