/** The per-pixel part of `fs_main` (shaders/cloudShader.ts, lines 279-418):
    the view ray, the intersection of the ray with the cloud slab, the
    front-to-back raymarch through the density field, the average depth of
    the visible cloud, the composite over the background and the clamped
    tone map. */
module Raymarch {
  import opened WgslMath
  import opened NoiseField
  import opened ShaderUniforms
  import opened DensityField
  import opened Lighting

  /** The bottom and top of the slab the clouds live in. */
  const CloudBottom: real := 1.0
  const CloudTop: real := 16.0

  /** The ray through the pixel at `(uvX, uvY)` before normalisation: the
      camera's direction moved across the image plane by the camera's right
      and up vectors, the horizontal offset stretched by the aspect ratio.
      The centre of the screen looks straight along the camera. */
  function ScreenRay(u: Uniforms, uvX: real, uvY: real): (r: Vec3)
    requires u.resolutionY != 0.0
    ensures uvX == 0.5 && uvY == 0.5 ==> r == u.cameraDir
    ensures uvX == 0.5 ==> r == Add(u.cameraDir, Scale(u.cameraUp, (uvY - 0.5) * 2.0))
  {
    var aspect := u.resolutionX / u.resolutionY;
    var screenX := (uvX - 0.5) * 2.0 * aspect;
    var screenY := (uvY - 0.5) * 2.0;
    Add(Add(u.cameraDir, Scale(u.cameraRight, screenX)), Scale(u.cameraUp, screenY))
  }

  /** The normalised view ray `rayDir`. */
  function RayDirection(m: Transcendentals, u: Uniforms, uvX: real, uvY: real): (r: Vec3)
    requires Lawful(m) && u.resolutionY != 0.0
    requires Dot(ScreenRay(u, uvX, uvY), ScreenRay(u, uvX, uvY)) > 0.0
    ensures Dot(r, r) == 1.0 && -1.0 <= r.y <= 1.0
  {
    Normalize(m, ScreenRay(u, uvX, uvY))
  }

  /** The view ray points along the screen ray through the pixel. */
  lemma RayFollowsScreen(m: Transcendentals, u: Uniforms, uvX: real, uvY: real)
    requires Lawful(m) && u.resolutionY != 0.0
    requires Dot(ScreenRay(u, uvX, uvY), ScreenRay(u, uvX, uvY)) > 0.0
    ensures Dot(RayDirection(m, u, uvX, uvY), ScreenRay(u, uvX, uvY)) == Length(m, ScreenRay(u, uvX, uvY))
  {
    NormalizeKeepsDirection(m, ScreenRay(u, uvX, uvY));
  }

  /** The per-pixel jitter of the first sample: a hash of the screen
      position, always in `[0, 1)`. */
  function Jitter(m: Transcendentals, uvX: real, uvY: real): (j: real)
    ensures 0.0 <= j < 1.0
  {
    Fract(m.sin(uvX * 12.9898 + uvY * 78.233) * 43758.5453)
  }

  /** What the slab test decides: no march, a march over `[tStart, tEnd]`,
      or a horizontal ray inside the slab, where the shader divides by zero. */
  datatype Slab = NoMarch | Span(tStart: real, tEnd: real) | Degenerate

  /** The slab test of `fs_main` for a camera at height `camY` and a ray
      whose vertical component is `dirY`. */
  function Intersect(camY: real, dirY: real): (s: Slab)
    ensures s.NoMarch? <==> (camY < CloudBottom && dirY <= 0.0) || (camY > CloudTop && dirY >= 0.0)
    ensures s.Degenerate? <==> CloudBottom <= camY <= CloudTop && dirY == 0.0
    ensures s.Span? ==> 0.0 <= s.tStart <= s.tEnd
    ensures s.Span? && CloudBottom <= camY <= CloudTop ==> s.tStart == 0.0
  {
    if camY < CloudBottom then
      if dirY > 0.0 then
        QuotientNonNegative(CloudBottom - camY, dirY);
        QuotientMonotone(CloudBottom - camY, CloudTop - camY, dirY);
        Span((CloudBottom - camY) / dirY, (CloudTop - camY) / dirY)
      else NoMarch
    else if camY > CloudTop then
      if dirY < 0.0 then
        QuotientNonNegative(camY - CloudTop, -dirY);
        QuotientMonotone(camY - CloudTop, camY - CloudBottom, -dirY);
        NegatedQuotient(CloudTop - camY, dirY);
        NegatedQuotient(CloudBottom - camY, dirY);
        Span((CloudTop - camY) / dirY, (CloudBottom - camY) / dirY)
      else NoMarch
    else if dirY > 0.0 then
      QuotientNonNegative(CloudTop - camY, dirY);
      Span(0.0, (CloudTop - camY) / dirY)
    else if dirY < 0.0 then
      QuotientNonNegative(camY - CloudBottom, -dirY);
      NegatedQuotient(CloudBottom - camY, dirY);
      Span(0.0, (CloudBottom - camY) / dirY)
    else
      Degenerate
  }

  lemma NegatedQuotient(a: real, d: real)
    requires d < 0.0
    ensures a / d == (-a) / (-d)
  {
  }

  /** For a positive divisor, `t` lies below (above) `a / d` exactly when
      `t * d` lies below (above) `a`. */
  lemma CompareQuotient(t: real, a: real, d: real)
    requires 0.0 < d
    ensures t <= a / d <==> t * d <= a
    ensures a / d <= t <==> a <= t * d
  {
    var q := a / d;
    assert q * d == a;
    if t <= q {
      MulMonotone(t, q, d);
    } else {
      MulMonotone(q, t, d);
    }
    if q <= t {
      MulMonotone(q, t, d);
    } else {
      MulPositive(q - t, d);
      assert q * d - t * d == (q - t) * d;
    }
  }

  /** The span the slab test returns is exactly the part of the forward ray
      inside the slab: a point at distance `t >= 0` lies between the bottom
      and the top of the slab if and only if `t` lies in the span. */
  lemma SpanIsSlab(camY: real, dirY: real, t: real)
    requires Intersect(camY, dirY).Span? && 0.0 <= t
    ensures var s := Intersect(camY, dirY);
            s.tStart <= t <= s.tEnd <==> CloudBottom <= camY + t * dirY <= CloudTop
  {
    if dirY > 0.0 {
      CompareQuotient(t, CloudBottom - camY, dirY);
      CompareQuotient(t, CloudTop - camY, dirY);
    } else {
      CompareQuotient(t, camY - CloudTop, -dirY);
      CompareQuotient(t, camY - CloudBottom, -dirY);
      NegatedQuotient(CloudTop - camY, dirY);
      NegatedQuotient(CloudBottom - camY, dirY);
      assert t * -dirY == -(t * dirY);
    }
  }

  /** When the slab test decides not to march, no point of the forward ray
      lies in the slab. */
  lemma NoMarchMissesSlab(camY: real, dirY: real, t: real)
    requires Intersect(camY, dirY).NoMarch? && 0.0 <= t
    ensures !(CloudBottom <= camY + t * dirY <= CloudTop)
  {
    if dirY <= 0.0 {
      MulMonotone(0.0, t, -dirY);
      assert t * -dirY == -(t * dirY);
    } else {
      MulNonNegative(t, dirY);
    }
  }

  /** The bounds of a WGSL `i32`. */
  const I32Min: int := -0x8000_0000
  const I32Max: int := 0x7fff_ffff

  /** WGSL `i32(x)` for a float `x`: rounds toward zero and saturates at the
      bounds of `i32`. */
  function TruncateToI32(x: real): (n: int)
    ensures I32Min <= n <= I32Max
    ensures 0.0 <= x < I32Max as real ==> 0 <= n && n as real <= x < n as real + 1.0
    ensures I32Min as real < x <= 0.0 ==> n <= 0 && n as real - 1.0 < x <= n as real
    ensures I32Max as real <= x ==> n == I32Max
    ensures x <= I32Min as real ==> n == I32Min
  {
    if 0.0 <= x then
      if I32Max as real <= x then I32Max else x.Floor
    else
      if x <= I32Min as real then I32Min else -((-x).Floor)
  }

  /** The sample budget of the march: the loop runs at most 128 times and
      never more than `i32(steps)` times. */
  function SampleBudget(steps: real): (n: nat)
    ensures n <= 128
    ensures 1.0 <= steps < 128.0 ==> n as real <= steps < n as real + 1.0
    ensures steps < 1.0 ==> n == 0
    ensures 128.0 <= steps ==> n == 128
  {
    var s := TruncateToI32(steps);
    if s <= 0 then 0 else if s < 128 then s else 128
  }

  /** What the march accumulates along a ray. */
  datatype Accumulated = Accumulated(transmittance: real, scatteredLight: Vec3,
                                     weightedDepth: real, totalAlpha: real)

  /** The accumulator is balanced over `[tStart, tEnd]`: the transmittance
      lies in `(0, 1]`, what has been absorbed is what the transmittance has
      lost, and the weighted depth lies between `tStart` and `tEnd` times the
      absorbed total. */
  predicate Balanced(acc: Accumulated, tStart: real, tEnd: real) {
    0.0 < acc.transmittance <= 1.0
    && acc.totalAlpha + acc.transmittance == 1.0
    && tStart * acc.totalAlpha <= acc.weightedDepth <= tEnd * acc.totalAlpha
  }

  /** What one dense sample at depth `t` does to the accumulator when it lets
      the fraction `stepTrans` of the light through. */
  function Absorb(acc: Accumulated, t: real, light: Vec3, stepTrans: real): Accumulated {
    var absorbed := acc.transmittance * (1.0 - stepTrans);
    Accumulated(acc.transmittance * stepTrans,
                Add(acc.scatteredLight, Scale(light, absorbed)),
                acc.weightedDepth + t * absorbed,
                acc.totalAlpha + absorbed)
  }

  /** A sample inside the span with a step transmittance in `(0, 1]` keeps
      the accumulator balanced and does not raise the transmittance. */
  lemma AbsorbBalanced(acc: Accumulated, tStart: real, tEnd: real, t: real, light: Vec3, stepTrans: real)
    requires Balanced(acc, tStart, tEnd)
    requires tStart <= t <= tEnd && 0.0 < stepTrans <= 1.0
    ensures Balanced(Absorb(acc, t, light, stepTrans), tStart, tEnd)
    ensures Absorb(acc, t, light, stepTrans).transmittance <= acc.transmittance
  {
    var transmittance := acc.transmittance;
    MulNonNegative(transmittance, 1.0 - stepTrans);
    MulPositive(transmittance, stepTrans);
    MulAtMost(transmittance, stepTrans);
    var absorbed := transmittance * (1.0 - stepTrans);
    assert absorbed + transmittance * stepTrans == transmittance;
    WeightedStep(tStart, tEnd, t, acc.weightedDepth, acc.totalAlpha, absorbed);
  }

  /** What one dense sample absorbs is what the transmittance loses: the
      weighted depth grows by `t` times that loss, the total opacity by the
      loss itself, and the scattered light by `light` times the loss. */
  lemma AbsorbShares(acc: Accumulated, t: real, light: Vec3, stepTrans: real)
    ensures var next := Absorb(acc, t, light, stepTrans);
            var lost := acc.transmittance - next.transmittance;
            next.weightedDepth == acc.weightedDepth + t * lost
            && next.totalAlpha == acc.totalAlpha + lost
            && next.scatteredLight == Add(acc.scatteredLight, Scale(light, lost))
  {
    assert acc.transmittance * (1.0 - stepTrans) == acc.transmittance - acc.transmittance * stepTrans;
  }

  /** Adding a sample at depth `t` in `[lo, hi]` with weight `w >= 0` keeps
      the weighted depth between `lo` and `hi` times the total weight. */
  lemma WeightedStep(lo: real, hi: real, t: real, depth: real, alpha: real, w: real)
    requires lo * alpha <= depth <= hi * alpha
    requires lo <= t <= hi && 0.0 <= w
    ensures lo * (alpha + w) <= depth + t * w <= hi * (alpha + w)
  {
    MulMonotone(lo, t, w);
    MulMonotone(t, hi, w);
  }

  /** The factor by which a sample of density `density > 0` lets light
      through over a step of length `stepSize >= 0`: in `(0, 1]`. */
  lemma StepTransmittance(m: Transcendentals, density: real, stepSize: real)
    requires Lawful(m) && 0.0 < density && 0.0 <= stepSize
    ensures 0.0 < m.exp(-(density * 0.8) * stepSize) <= 1.0
  {
    var extinction := density * 0.8;
    MulNonNegative(extinction, stepSize);
    assert -extinction * stepSize == -(extinction * stepSize);
  }

  /** `stepSize`: the span split into `i32(steps)` equal steps. The shader
      divides by zero or a negative count when `i32(steps) <= 0`, but then
      the loop stops before its first sample; the model uses 0. */
  function StepLength(steps: real, tStart: real, tEnd: real): real {
    var n := TruncateToI32(steps);
    if n > 0 then (tEnd - tStart) / n as real else 0.0
  }

  /** A dense sample multiplies the transmittance by its step factor. */
  lemma AttenuateDense(m: Transcendentals, density: real, transmittance: real, stepSize: real, stepTrans: real)
    requires density > 0.001 && stepTrans == m.exp(-(density * 0.8) * stepSize)
    ensures Attenuate(m, density, transmittance, stepSize) == transmittance * stepTrans
  {
  }

  /** The point at distance `t` along the ray from `origin`. */
  function RayPoint(origin: Vec3, rayDir: Vec3, t: real): Vec3 {
    Add(origin, Scale(rayDir, t))
  }

  /** The depth of the `k`-th sample: the jittered start, then `k` steps on. */
  function SampleDepth(tStart: real, stepSize: real, jitter: real, k: nat): real {
    tStart + stepSize * jitter + (k as real) * stepSize
  }

  /** The transmittance after a sample of density `density`: a sample denser
      than 0.001 lets through `exp(-0.8 * density * stepSize)` of the light, a
      thinner one leaves it unchanged. */
  function Attenuate(m: Transcendentals, density: real, transmittance: real, stepSize: real): real {
    if density > 0.001 then transmittance * m.exp(-(density * 0.8) * stepSize) else transmittance
  }

  /** The raymarch loop of `fs_main` over `[tStart, tEnd]` through the
      density field `field`, lighting each dense sample with `get_light`.
      Front to back: the transmittance starts at 1, stays in `(0, 1]` and
      never increases; sample `k` sits at `SampleDepth(.., k)` and changes the
      transmittance as `Attenuate` says; the loop samples only at depths up
      to `tEnd` while the ray is not yet opaque, and stops early only when the ray has
      become opaque or left the span; what is absorbed adds up to what the
      transmittance has lost, weighted by depths inside the span. A field
      with no sample denser than 0.001 leaves the accumulator untouched. */
  method March(m: Transcendentals, field: Vec3 -> real, u: Uniforms, rayDir: Vec3,
               tStart: real, tEnd: real, jitter: real)
    returns (acc: Accumulated, ghost samples: nat, ghost trace: seq<real>)
    requires Lawful(m)
    requires 0.0 <= tStart <= tEnd && 0.0 <= jitter < 1.0
    requires 0.0 < PhaseBase(Dot(rayDir, u.sunDir), u.anisotropy)
    requires 0.0 < PhaseBase(Dot(rayDir, u.sunDir), BackScatter)
    ensures Balanced(acc, tStart, tEnd)
    ensures samples <= SampleBudget(u.steps)
    ensures |trace| == samples + 1 && trace[0] == 1.0 && trace[samples] == acc.transmittance
    ensures forall j, k :: 0 <= j <= k <= samples ==> 0.0 < trace[k] <= trace[j]
    ensures var stepSize := StepLength(u.steps, tStart, tEnd);
            forall k :: 0 <= k < samples ==>
              0.01 <= trace[k] && SampleDepth(tStart, stepSize, jitter, k) <= tEnd
              && trace[k + 1] == Attenuate(m, field(RayPoint(u.cameraPos, rayDir, SampleDepth(tStart, stepSize, jitter, k))),
                                           trace[k], stepSize)
    ensures samples < SampleBudget(u.steps) ==>
              acc.transmittance < 0.01
              || SampleDepth(tStart, StepLength(u.steps, tStart, tEnd), jitter, samples) > tEnd
    ensures (forall q :: field(q) <= 0.001) ==> acc == Accumulated(1.0, Zero, 0.0, 0.0)
  {
    var steps := TruncateToI32(u.steps);
    var stepSize := 0.0;
    if steps > 0 {
      QuotientNonNegative(tEnd - tStart, steps as real);
      stepSize := (tEnd - tStart) / steps as real;
    }
    assert stepSize == StepLength(u.steps, tStart, tEnd);
    MulNonNegative(stepSize, jitter);
    var t := tStart + stepSize * jitter;
    acc := Accumulated(1.0, Zero, 0.0, 0.0);
    samples := 0;
    trace := [1.0];
    for i := 0 to 128
      invariant samples == i && samples <= SampleBudget(u.steps)
      invariant t == SampleDepth(tStart, stepSize, jitter, i) && tStart <= t
      invariant Balanced(acc, tStart, tEnd)
      invariant |trace| == samples + 1 && trace[0] == 1.0 && trace[samples] == acc.transmittance
      invariant forall j, k :: 0 <= j <= k <= samples ==> 0.0 < trace[k] <= trace[j]
      invariant forall k :: 0 <= k < samples ==>
                  0.01 <= trace[k] && SampleDepth(tStart, stepSize, jitter, k) <= tEnd
                  && trace[k + 1] == Attenuate(m, field(RayPoint(u.cameraPos, rayDir, SampleDepth(tStart, stepSize, jitter, k))),
                                               trace[k], stepSize)
      invariant (forall q :: field(q) <= 0.001) ==> acc == Accumulated(1.0, Zero, 0.0, 0.0)
    {
      if i >= steps || acc.transmittance < 0.01 || t > tEnd {
        break;
      }
      acc := Sample(m, field, u, rayDir, tStart, tEnd, acc, t, stepSize);
      trace := trace + [acc.transmittance];
      samples := samples + 1;
      NextSampleDepth(tStart, stepSize, jitter, i);
      t := t + stepSize;
    }
  }

  /** One pass of the march loop's body at depth `t`: a sample denser than
      0.001 is lit by `get_light` and absorbs part of the remaining light.
      The accumulator stays balanced and its transmittance follows
      `Attenuate`; what the transmittance loses is added to the total opacity,
      to the weighted depth at `t` and, times the sample's light, to the
      scattered light. A sample no denser than 0.001 leaves it unchanged. */
  method Sample(m: Transcendentals, field: Vec3 -> real, u: Uniforms, rayDir: Vec3,
                tStart: real, tEnd: real, acc: Accumulated, t: real, stepSize: real)
    returns (next: Accumulated)
    requires Lawful(m)
    requires 0.0 < PhaseBase(Dot(rayDir, u.sunDir), u.anisotropy)
    requires 0.0 < PhaseBase(Dot(rayDir, u.sunDir), BackScatter)
    requires Balanced(acc, tStart, tEnd) && tStart <= t <= tEnd && 0.0 <= stepSize
    ensures Balanced(next, tStart, tEnd) && next.transmittance <= acc.transmittance
    ensures next.transmittance == Attenuate(m, field(RayPoint(u.cameraPos, rayDir, t)), acc.transmittance, stepSize)
    ensures (forall q :: field(q) <= 0.001) ==> next == acc
    ensures field(RayPoint(u.cameraPos, rayDir, t)) <= 0.001 ==> next == acc
    ensures next.weightedDepth == acc.weightedDepth + t * (acc.transmittance - next.transmittance)
    ensures next.totalAlpha == acc.totalAlpha + (acc.transmittance - next.transmittance)
    ensures var p := RayPoint(u.cameraPos, rayDir, t);
            field(p) > 0.001 ==>
              forall shadow :: shadow == ShadowDepth(field, p, u.sunDir, LightSteps) ==>
                next.scatteredLight
                == Add(acc.scatteredLight, Scale(Illuminate(m, u, p, rayDir, u.sunDir, field(p), shadow),
                                                 acc.transmittance - next.transmittance))
  {
    var p := RayPoint(u.cameraPos, rayDir, t);
    var density := field(p);
    if density > 0.001 {
      var light := GetLight(m, field, u, p, rayDir, u.sunDir, density);
      var stepTrans := m.exp(-(density * 0.8) * stepSize);
      StepTransmittance(m, density, stepSize);
      AbsorbBalanced(acc, tStart, tEnd, t, light, stepTrans);
      AttenuateDense(m, density, acc.transmittance, stepSize, stepTrans);
      next := Absorb(acc, t, light, stepTrans);
      AbsorbShares(acc, t, light, stepTrans);
      assert next.weightedDepth == acc.weightedDepth + t * (acc.transmittance - next.transmittance);
      assert next.totalAlpha == acc.totalAlpha + (acc.transmittance - next.transmittance);
      assert next.scatteredLight == Add(acc.scatteredLight, Scale(light, acc.transmittance - next.transmittance));
    } else {
      next := acc;
    }
  }

  /** Consecutive samples lie one step apart. */
  lemma NextSampleDepth(tStart: real, stepSize: real, jitter: real, k: nat)
    ensures SampleDepth(tStart, stepSize, jitter, k + 1) == SampleDepth(tStart, stepSize, jitter, k) + stepSize
  {
    assert ((k + 1) as real) * stepSize == (k as real) * stepSize + stepSize;
  }

  /** `avgCloudDist`: the opacity-weighted mean depth of the samples, or the
      far end of the span when almost nothing was absorbed. */
  function AverageDepth(weightedDepth: real, totalAlpha: real, tEnd: real): real {
    if totalAlpha > 0.001 then weightedDepth / totalAlpha else tEnd
  }

  /** After a balanced march over `[tStart, tEnd]` the mean depth lies
      inside the span. */
  lemma AverageDepthInSpan(acc: Accumulated, tStart: real, tEnd: real)
    requires tStart <= tEnd && Balanced(acc, tStart, tEnd)
    ensures tStart <= AverageDepth(acc.weightedDepth, acc.totalAlpha, tEnd) <= tEnd
  {
    var weightedDepth, totalAlpha := acc.weightedDepth, acc.totalAlpha;
    if totalAlpha > 0.001 {
      QuotientMonotone(tStart * totalAlpha, weightedDepth, totalAlpha);
      QuotientMonotone(weightedDepth, tEnd * totalAlpha, totalAlpha);
      assert tStart * totalAlpha == totalAlpha * tStart;
      assert tEnd * totalAlpha == totalAlpha * tEnd;
      QuotientCancel(totalAlpha, tStart);
      QuotientCancel(totalAlpha, tEnd);
    }
  }

  /** The cloud composited over the background `background`: the background
      seen through the transmittance, plus the scattered light and the
      horizon colour fogged by the atmosphere over the mean depth. A ray
      that met no cloud shows the background unchanged. */
  function Composite(m: Transcendentals, haze: real, horizon: Vec3, background: Vec3,
                     acc: Accumulated, avgDist: real): (col: Vec3)
    ensures acc.transmittance == 1.0 && acc.scatteredLight == Zero ==> col == background
  {
    var fogDensity := 0.04 * (1.0 + haze * 2.0);
    var atmosphere := m.exp(-avgDist * fogDensity);
    var opacity := 1.0 - acc.transmittance;
    var fogged := Add(Scale(acc.scatteredLight, atmosphere), Scale(Scale(horizon, 1.0 - atmosphere), opacity));
    Add(Scale(background, acc.transmittance), fogged)
  }

  /** The denominator of the tone curve, `x (2.43 x + 0.59) + 0.14`, has no
      real root: the curve never divides by zero. */
  lemma ToneDenominatorPositive(x: real)
    ensures 0.0 < x * (2.43 * x + 0.59) + 0.14
  {
    var s := x + 0.59 / 4.86;
    assert x * (2.43 * x + 0.59) + 0.14 == 2.43 * (s * s) + (0.14 - 0.59 * 0.59 / 9.72);
    if 0.0 <= s {
      MulNonNegative(s, s);
    } else {
      MulPositive(s, s);
    }
  }

  /** The filmic tone curve, clamped to `[0, 1]`: black stays black and
      bright input saturates to white. */
  function ToneCurve(x: real): (r: real)
    ensures 0.0 <= r <= 1.0
  {
    Clamp(Aces(x), 0.0, 1.0)
  }

  /** The filmic curve `x (2.51 x + 0.03) / (x (2.43 x + 0.59) + 0.14)` before clamping. */
  function Aces(x: real): real {
    ToneDenominatorPositive(x);
    (x * (2.51 * x + 0.03)) / (x * (2.43 * x + 0.59) + 0.14)
  }

  lemma ToneCurveBlack()
    ensures ToneCurve(0.0) == 0.0
  {
  }

  /** Every input of 8 or more maps to full white. */
  lemma ToneCurveSaturates(x: real)
    requires 8.0 <= x
    ensures ToneCurve(x) == 1.0
  {
    var num := x * (2.51 * x + 0.03);
    var den := x * (2.43 * x + 0.59) + 0.14;
    ToneDenominatorPositive(x);
    var a := x - 7.0;
    assert num - den == 0.08 * (a * x) - 0.14;
    MulMonotone(1.0, a, x);
    QuotientBoundsPositive(num, den);
  }

  /** The tone map of `fs_main`: the tone curve on each channel, then gamma
      `1 / 2.2`; the result lies in the unit cube. */
  function ToneMap(m: Transcendentals, col: Vec3): (r: Vec3)
    requires Lawful(m)
    ensures InUnitCube(r)
  {
    var curved := ClampV(Vec3(Aces(col.x), Aces(col.y), Aces(col.z)), 0.0, 1.0);
    var g := 1.0 / 2.2;
    Vec3(m.pow(curved.x, g), m.pow(curved.y, g), m.pow(curved.z, g))
  }

  /** The cloud pass of `fs_main` for one pixel: the slab test, then the
      march and the composite over `background`, the colour the shader has
      drawn so far (the sky, the sun disk and the ground). `horizon` is the
      sky colour along the flattened ray, which the fog blends in. A ray that
      misses the slab keeps the background; a horizontal ray inside the slab
      has no defined result. */
  method CloudPass(m: Transcendentals, noise: Field, u: Uniforms, rayDir: Vec3, jitter: real,
                   background: Vec3, horizon: Vec3) returns (col: Option<Vec3>)
    requires Lawful(m)
    requires 0.0 <= jitter < 1.0
    requires 0.0 < PhaseBase(Dot(rayDir, u.sunDir), u.anisotropy)
    requires 0.0 < PhaseBase(Dot(rayDir, u.sunDir), BackScatter)
    ensures col.None? <==> Intersect(u.cameraPos.y, rayDir.y).Degenerate?
    ensures Intersect(u.cameraPos.y, rayDir.y).NoMarch? ==> col == Some(background)
    ensures !Intersect(u.cameraPos.y, rayDir.y).Degenerate? && (forall q :: CloudDensity(noise, u, q) <= 0.001) ==>
              col == Some(background)
  {
    var slab := Intersect(u.cameraPos.y, rayDir.y);
    match slab {
      case NoMarch =>
        col := Some(background);
      case Degenerate =>
        col := None;
      case Span(tStart, tEnd) =>
        var field := p => CloudDensity(noise, u, p);
        var acc, samples, trace := March(m, field, u, rayDir, tStart, tEnd, jitter);
        var avgDist := AverageDepth(acc.weightedDepth, acc.totalAlpha, tEnd);
        col := Some(Composite(m, u.haze, horizon, background, acc, avgDist));
    }
  }

  /** One pixel of `fs_main` from the background onwards: the cloud pass,
      then the tone map, so that every defined pixel lies in the unit cube. */
  method ShadePixel(m: Transcendentals, noise: Field, u: Uniforms, rayDir: Vec3, jitter: real,
                    background: Vec3, horizon: Vec3) returns (pixel: Option<Vec3>)
    requires Lawful(m)
    requires 0.0 <= jitter < 1.0
    requires 0.0 < PhaseBase(Dot(rayDir, u.sunDir), u.anisotropy)
    requires 0.0 < PhaseBase(Dot(rayDir, u.sunDir), BackScatter)
    ensures pixel.None? <==> Intersect(u.cameraPos.y, rayDir.y).Degenerate?
    ensures pixel.Some? ==> InUnitCube(pixel.value)
    ensures Intersect(u.cameraPos.y, rayDir.y).NoMarch? ==> pixel == Some(ToneMap(m, background))
    ensures !Intersect(u.cameraPos.y, rayDir.y).Degenerate? && (forall q :: CloudDensity(noise, u, q) <= 0.001) ==>
              pixel == Some(ToneMap(m, background))
  {
    var col := CloudPass(m, noise, u, rayDir, jitter, background, horizon);
    if col.Some? {
      pixel := Some(ToneMap(m, col.value));
    } else {
      pixel := None;
    }
  }
}
