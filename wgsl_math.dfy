/** The scalar and vector built-ins of WGSL that the cloud shader uses, read over
    the real numbers instead of IEEE f32.

    `floor`, `fract`, `clamp`, `mix` and `smoothstep` are defined exactly.
    `exp`, `pow`, `sin`, `cos` and `sqrt` have no closed form here: they are the
    fields of a `Transcendentals` value that every caller passes in, and
    `Lawful` lists the only facts about them that the proofs rely on. */
module WgslMath {

  /** A value that may be missing: an unmatched key name, or a pixel whose
      shader arithmetic divides by zero. */
  datatype Option<T> = None | Some(value: T)

  datatype Vec3 = Vec3(x: real, y: real, z: real)

  const Zero := Vec3(0.0, 0.0, 0.0)

  function Add(a: Vec3, b: Vec3): Vec3 { Vec3(a.x + b.x, a.y + b.y, a.z + b.z) }

  function Sub(a: Vec3, b: Vec3): Vec3 { Vec3(a.x - b.x, a.y - b.y, a.z - b.z) }

  /** `v * s` for a vector and a scalar. */
  function Scale(v: Vec3, s: real): Vec3 { Vec3(v.x * s, v.y * s, v.z * s) }

  /** `a * b` for two vectors: component by component. */
  function Mul(a: Vec3, b: Vec3): Vec3 { Vec3(a.x * b.x, a.y * b.y, a.z * b.z) }

  function Dot(a: Vec3, b: Vec3): real { a.x * b.x + a.y * b.y + a.z * b.z }

  predicate NonNegative(v: Vec3) { v.x >= 0.0 && v.y >= 0.0 && v.z >= 0.0 }

  predicate InUnitCube(v: Vec3) {
    0.0 <= v.x <= 1.0 && 0.0 <= v.y <= 1.0 && 0.0 <= v.z <= 1.0
  }

  function Max(a: real, b: real): real { if a >= b then a else b }

  function Min(a: real, b: real): real { if a <= b then a else b }

  /** WGSL `floor`, as a real. */
  function Floor(x: real): (r: real)
    ensures r <= x < r + 1.0
    ensures r == r.Floor as real
  {
    x.Floor as real
  }

  function FloorV(v: Vec3): Vec3 { Vec3(Floor(v.x), Floor(v.y), Floor(v.z)) }

  /** WGSL `fract(x) = x - floor(x)`: the part of `x` above the integer below it. */
  function Fract(x: real): (r: real)
    ensures 0.0 <= r < 1.0
    ensures x - r == (x - r).Floor as real
  {
    x - Floor(x)
  }

  function FractV(v: Vec3): Vec3 { Vec3(Fract(v.x), Fract(v.y), Fract(v.z)) }

  /** WGSL `clamp(e, low, high) = min(max(e, low), high)`. */
  function Clamp(e: real, low: real, high: real): (r: real)
    ensures low <= high ==> low <= r <= high
    ensures low <= e <= high ==> r == e
    ensures e <= low <= high ==> r == low
    ensures low <= high <= e ==> r == high
  {
    Min(Max(e, low), high)
  }

  /** WGSL `clamp` on a vector, one component at a time. */
  function ClampV(v: Vec3, low: real, high: real): (r: Vec3)
    ensures low <= high ==> low <= r.x <= high && low <= r.y <= high && low <= r.z <= high
  {
    Vec3(Clamp(v.x, low, high), Clamp(v.y, low, high), Clamp(v.z, low, high))
  }

  /** WGSL `mix(a, b, t) = a * (1 - t) + b * t`. */
  function Mix(a: real, b: real, t: real): real { a * (1.0 - t) + b * t }

  function MixV(a: Vec3, b: Vec3, t: real): Vec3 {
    Vec3(Mix(a.x, b.x, t), Mix(a.y, b.y, t), Mix(a.z, b.z, t))
  }

  /** The cubic `f * f * (3 - 2 f)` that both `smoothstep` and the value noise use. */
  function SmoothWeight(f: real): real { f * f * (3.0 - 2.0 * f) }

  /** WGSL `smoothstep(low, high, x)`. The edges may be given in decreasing
      order (the shader fades layers out with `smoothstep(1.0, 0.5, h)`);
      equal edges divide by zero, which no call site does. */
  function Smoothstep(low: real, high: real, x: real): (r: real)
    requires low != high
    ensures 0.0 <= r <= 1.0
    ensures low < high && x <= low ==> r == 0.0
    ensures low < high && high <= x ==> r == 1.0
    ensures high < low && low <= x ==> r == 0.0
    ensures high < low && x <= high ==> r == 1.0
  {
    var q := (x - low) / (high - low);
    QuotientBounds(x - low, high - low);
    var t := Clamp(q, 0.0, 1.0);
    SmoothWeightRange(t);
    SmoothWeight(t)
  }

  /** Where a quotient lies relative to 0 and 1, from its operands. */
  lemma QuotientBounds(a: real, b: real)
    requires b != 0.0
    ensures (0.0 < b && a <= 0.0) || (b < 0.0 && 0.0 <= a) ==> a / b <= 0.0
    ensures (0.0 < b && b <= a) || (b < 0.0 && a <= b) ==> 1.0 <= a / b
  {
    if b < 0.0 {
      assert a / b == (-a) / (-b);
      QuotientBoundsPositive(-a, -b);
    } else {
      QuotientBoundsPositive(a, b);
    }
  }

  lemma QuotientBoundsPositive(a: real, b: real)
    requires 0.0 < b
    ensures a <= 0.0 ==> a / b <= 0.0
    ensures b <= a ==> 1.0 <= a / b
  {
    var q := a / b;
    assert q * b == a;
    if q > 0.0 {
      MulPositive(q, b);
    }
    if q < 1.0 {
      assert (1.0 - q) * b == b - a;
      MulPositive(1.0 - q, b);
    }
  }

  lemma SmoothWeightRange(f: real)
    requires 0.0 <= f <= 1.0
    ensures 0.0 <= SmoothWeight(f) <= 1.0
  {
    SmoothWeightComplement(f);
    MulNonNegative(f * f, 3.0 - 2.0 * f);
    MulNonNegative((1.0 - f) * (1.0 - f), 1.0 + 2.0 * f);
  }

  /** `1 - f^2 (3 - 2f) = (1 - f)^2 (1 + 2f)`. */
  lemma SmoothWeightComplement(f: real)
    ensures 1.0 - SmoothWeight(f) == ((1.0 - f) * (1.0 - f)) * (1.0 + 2.0 * f)
  {
  }

  lemma MulNonNegative(a: real, b: real)
    requires 0.0 <= a && 0.0 <= b
    ensures 0.0 <= a * b
  {
  }

  lemma MulPositive(a: real, b: real)
    requires (0.0 < a && 0.0 < b) || (a < 0.0 && b < 0.0)
    ensures 0.0 < a * b
  {
  }

  lemma MulMonotone(a1: real, a2: real, b: real)
    requires a1 <= a2 && 0.0 <= b
    ensures a1 * b <= a2 * b
  {
  }

  lemma QuotientNonNegative(x: real, w: real)
    requires 0.0 <= x && 0.0 < w
    ensures 0.0 <= x / w
  {
  }

  lemma QuotientMonotone(x: real, y: real, w: real)
    requires x <= y && 0.0 < w
    ensures x / w <= y / w
  {
  }

  lemma QuotientCancel(w: real, b: real)
    requires 0.0 < w
    ensures w * b / w == b
  {
  }

  /** Multiplying by a factor in `[0, 1]` does not move a non-negative value up. */
  lemma MulAtMost(a: real, t: real)
    requires 0.0 <= a && 0.0 <= t <= 1.0
    ensures 0.0 <= a * t <= a
  {
    MulNonNegative(a, t);
    MulNonNegative(a, 1.0 - t);
    assert a * (1.0 - t) == a - a * t;
  }

  /** The same with the factor on the left. */
  lemma FactorAtMost(t: real, a: real)
    requires 0.0 <= a && 0.0 <= t <= 1.0
    ensures 0.0 <= t * a <= a
  {
    MulAtMost(a, t);
  }

  /** A mix of two values in `[lo, hi)` with a weight in `[0, 1]` stays in `[lo, hi)`. */
  lemma MixInHalfOpen(a: real, b: real, t: real, lo: real, hi: real)
    requires lo <= a < hi && lo <= b < hi && 0.0 <= t <= 1.0
    ensures lo <= Mix(a, b, t) < hi
  {
    MixShift(a, b, t, lo);
    MulNonNegative(a - lo, 1.0 - t);
    MulNonNegative(b - lo, t);
    MixShift(a, b, t, hi);
    if t < 1.0 {
      MulPositive(hi - a, 1.0 - t);
      MulNonNegative(hi - b, t);
    } else {
      MulPositive(hi - b, t);
    }
  }

  /** `mix` commutes with a shift of both ends. */
  lemma MixShift(a: real, b: real, t: real, c: real)
    ensures Mix(a, b, t) - c == (a - c) * (1.0 - t) + (b - c) * t
  {
  }

  /** A mix of two non-negative values with a weight in `[0, 1]` is non-negative. */
  lemma MixNonNegative(a: real, b: real, t: real)
    requires 0.0 <= a && 0.0 <= b && 0.0 <= t <= 1.0
    ensures 0.0 <= Mix(a, b, t)
  {
    MulNonNegative(a, 1.0 - t);
    MulNonNegative(b, t);
  }

  /** Blending, scaling and multiplying keep colours free of negative
      channels; each law holds whenever its hypotheses do. */
  lemma MixVNonNegative(a: Vec3, b: Vec3, t: real)
    ensures NonNegative(a) && NonNegative(b) && 0.0 <= t <= 1.0 ==> NonNegative(MixV(a, b, t))
  {
    if NonNegative(a) && NonNegative(b) && 0.0 <= t <= 1.0 {
      MixNonNegative(a.x, b.x, t);
      MixNonNegative(a.y, b.y, t);
      MixNonNegative(a.z, b.z, t);
    }
  }

  lemma ScaleNonNegative(v: Vec3, s: real)
    ensures NonNegative(v) && 0.0 <= s ==> NonNegative(Scale(v, s))
  {
    if NonNegative(v) && 0.0 <= s {
      MulNonNegative(v.x, s);
      MulNonNegative(v.y, s);
      MulNonNegative(v.z, s);
    }
  }

  lemma MulVNonNegative(a: Vec3, b: Vec3)
    ensures NonNegative(a) && NonNegative(b) ==> NonNegative(Mul(a, b))
  {
    if NonNegative(a) && NonNegative(b) {
      MulNonNegative(a.x, b.x);
      MulNonNegative(a.y, b.y);
      MulNonNegative(a.z, b.z);
    }
  }

  /** The functions the shader and the host take from their platforms, which
      this model does not compute. */
  datatype Transcendentals = Transcendentals(
    exp: real -> real,
    pow: (real, real) -> real,
    sin: real -> real,
    cos: real -> real,
    sqrt: real -> real)

  /** What the proofs assume of `exp`, `pow`, `sin`, `cos` and `sqrt`: facts
      true of the exact real functions. The square root of a negative number
      is NaN on both platforms, which fails every `>` comparison; the last
      law states that as "never positive". */
  ghost predicate Lawful(m: Transcendentals) {
    (forall x :: 0.0 < m.exp(x))
    && (forall x :: x <= 0.0 ==> m.exp(x) <= 1.0)
    && (forall x, y :: 0.0 <= x ==> 0.0 <= m.pow(x, y))
    && (forall x, y :: 0.0 < x ==> 0.0 < m.pow(x, y))
    && (forall x, y :: 0.0 <= x <= 1.0 && 0.0 < y ==> m.pow(x, y) <= 1.0)
    && (forall x :: -1.0 <= m.sin(x) <= 1.0)
    && (forall x :: -1.0 <= m.cos(x) <= 1.0)
    && (forall x :: m.sin(x) * m.sin(x) + m.cos(x) * m.cos(x) == 1.0)
    && (forall x :: 0.0 <= x ==> 0.0 <= m.sqrt(x) && m.sqrt(x) * m.sqrt(x) == x)
    && (forall x :: x <= 0.0 ==> m.sqrt(x) <= 0.0)
  }

  /** WGSL `length`. */
  function Length(m: Transcendentals, v: Vec3): real { m.sqrt(Dot(v, v)) }

  /** WGSL `normalize`; the zero vector has no direction and is excluded. */
  function Normalize(m: Transcendentals, v: Vec3): (r: Vec3)
    requires Lawful(m) && Dot(v, v) > 0.0
    ensures Dot(r, r) == 1.0
    ensures -1.0 <= r.y <= 1.0
  {
    var len := Length(m, v);
    SqrtPositive(m, Dot(v, v));
    var r := Vec3(v.x / len, v.y / len, v.z / len);
    assert Dot(r, r) == Dot(v, v) / (len * len);
    UnitComponent(r);
    r
  }

  /** `normalize` keeps the direction: the result's component along `v` is
      the whole length of `v`. With unit length this pins the result to
      `v / |v|` (the equality case of Cauchy-Schwarz); `-v / |v|` would give
      `-|v|`. */
  lemma NormalizeKeepsDirection(m: Transcendentals, v: Vec3)
    requires Lawful(m) && Dot(v, v) > 0.0
    ensures Dot(Normalize(m, v), v) == Length(m, v)
  {
    var square := Dot(v, v);
    var len := Length(m, v);
    SqrtPositive(m, square);
    var r := Vec3(v.x / len, v.y / len, v.z / len);
    assert Normalize(m, v) == r;
    assert Dot(r, v) == square / len;
    assert square / len == len by {
      assert len * len == square;
    }
  }

  lemma SqrtPositive(m: Transcendentals, x: real)
    requires Lawful(m) && x > 0.0
    ensures m.sqrt(x) > 0.0 && m.sqrt(x) * m.sqrt(x) == x
  {
    var s := m.sqrt(x);
    assert 0.0 <= s && s * s == x;
  }

  /** Each component of a unit vector lies in `[-1, 1]`. */
  lemma UnitComponent(v: Vec3)
    requires Dot(v, v) == 1.0
    ensures -1.0 <= v.x <= 1.0 && -1.0 <= v.y <= 1.0 && -1.0 <= v.z <= 1.0
  {
    assert 0.0 <= v.x * v.x && 0.0 <= v.y * v.y && 0.0 <= v.z * v.z;
    Square01(v.x);
    Square01(v.y);
    Square01(v.z);
  }

  lemma Square01(a: real)
    requires a * a <= 1.0
    ensures -1.0 <= a <= 1.0
  {
  }

  /** The cosine of the angle between two unit vectors lies in `[-1, 1]`. */
  lemma UnitDotBound(a: Vec3, b: Vec3)
    requires Dot(a, a) == 1.0 && Dot(b, b) == 1.0
    ensures -1.0 <= Dot(a, b) <= 1.0
  {
    var d := Sub(a, b);
    var s := Add(a, b);
    assert 0.0 <= Dot(d, d) == Dot(a, a) - 2.0 * Dot(a, b) + Dot(b, b);
    assert 0.0 <= Dot(s, s) == Dot(a, a) + 2.0 * Dot(a, b) + Dot(b, b);
  }
}
