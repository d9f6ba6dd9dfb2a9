/** The cloud density field of the shader: `remap` and `get_cloud_density`
    with its weather map, domain warp and two altitude layers
    (shaders/cloudShader.ts, lines 119-121 and 166-231). */
module DensityField {
  import opened WgslMath
  import opened NoiseField
  import opened ShaderUniforms

  /** `remap`: clamps `value` into `[originalMin, originalMax]` and maps that
      interval linearly onto `[newMin, newMax]`. Equal original bounds divide
      by zero; both call sites pass an upper bound of 1 and a lower bound of
      at most 0.95. */
  function Remap(value: real, originalMin: real, originalMax: real, newMin: real, newMax: real): real
    requires originalMin != originalMax
  {
    newMin + Stretch(Clamp(value, originalMin, originalMax) - originalMin, newMax - newMin,
                     originalMax - originalMin)
  }

  /** `a * b / w`: the part `a` of a span `w`, stretched onto a span `b`. */
  function Stretch(a: real, b: real, w: real): real
    requires w != 0.0
  {
    a * b / w
  }

  /** With ordered bounds, `remap` lands in the target interval, sends
      everything at or below the lower bound to `newMin` and everything at
      or above the upper bound to `newMax`. */
  lemma RemapRange(value: real, originalMin: real, originalMax: real, newMin: real, newMax: real)
    requires originalMin < originalMax && newMin <= newMax
    ensures newMin <= Remap(value, originalMin, originalMax, newMin, newMax) <= newMax
    ensures value <= originalMin ==> Remap(value, originalMin, originalMax, newMin, newMax) == newMin
    ensures originalMax <= value ==> Remap(value, originalMin, originalMax, newMin, newMax) == newMax
  {
    var c := Clamp(value, originalMin, originalMax);
    StretchRange(c - originalMin, newMax - newMin, originalMax - originalMin);
  }

  /** `a * b / w` lies between 0 and `b` when `a` lies between 0 and `w`,
      and reaches both ends. */
  lemma StretchRange(a: real, b: real, w: real)
    requires 0.0 <= a <= w && 0.0 < w && 0.0 <= b
    ensures 0.0 <= Stretch(a, b, w) <= b
    ensures a == 0.0 ==> Stretch(a, b, w) == 0.0
    ensures a == w ==> Stretch(a, b, w) == b
  {
    MulNonNegative(a, b);
    QuotientNonNegative(a * b, w);
    MulMonotone(a, w, b);
    QuotientMonotone(a * b, w * b, w);
    QuotientCancel(w, b);
  }

  lemma StretchMonotone(a1: real, a2: real, b: real, w: real)
    requires a1 <= a2 && 0.0 < w && 0.0 <= b
    ensures Stretch(a1, b, w) <= Stretch(a2, b, w)
  {
    MulMonotone(a1, a2, b);
    QuotientMonotone(a1 * b, a2 * b, w);
  }

  /** `remap` never decreases as its input grows. */
  lemma RemapMonotone(v1: real, v2: real, originalMin: real, originalMax: real, newMin: real, newMax: real)
    requires originalMin < originalMax && newMin <= newMax && v1 <= v2
    ensures Remap(v1, originalMin, originalMax, newMin, newMax)
         <= Remap(v2, originalMin, originalMax, newMin, newMax)
  {
    var c1 := Clamp(v1, originalMin, originalMax);
    var c2 := Clamp(v2, originalMin, originalMax);
    StretchMonotone(c1 - originalMin, c2 - originalMin, newMax - newMin, originalMax - originalMin);
  }

  /** The fraction of cloud cover a weather sample allows: `coverage` moved
      by the sample's distance from 0.5 times `gain`, clamped to `[0, 1]`. */
  function LocalCoverage(coverage: real, weather: real, gain: real): (r: real)
    ensures 0.0 <= r <= 1.0
  {
    Clamp(coverage + (weather - 0.5) * gain, 0.0, 1.0)
  }

  /** The vertical profile of a layer at relative height `h`: a fade-in over
      `[0, 0.2]` times a fade-out from `fadeOutFrom` to 1. */
  function LayerMask(h: real, fadeOutFrom: real): real
    requires fadeOutFrom != 1.0
  {
    Smoothstep(0.0, 0.2, h) * Smoothstep(1.0, fadeOutFrom, h)
  }

  /** The mask lies in `[0, 1]` whenever it is defined. */
  lemma LayerMaskRange(h: real, fadeOutFrom: real)
    requires fadeOutFrom != 1.0
    ensures 0.0 <= LayerMask(h, fadeOutFrom) <= 1.0
  {
    var fadeIn := Smoothstep(0.0, 0.2, h);
    var fadeOut := Smoothstep(1.0, fadeOutFrom, h);
    assert 0.0 <= fadeIn * fadeOut <= fadeIn by { MulAtMost(fadeIn, fadeOut); }
  }

  /** The cumulus erosion `d - detail * 0.35 * (1 - d)`. */
  function Erode(d: real, detail: real): real {
    d - detail * 0.35 * (1.0 - d)
  }

  /** Erosion never adds density to a value in `[0, 1]`. */
  lemma ErodeBounds(d: real, detail: real)
    requires 0.0 <= d <= 1.0 && 0.0 <= detail
    ensures Erode(d, detail) <= d
  {
    MulNonNegative(detail * 0.35, 1.0 - d);
  }

  /** What a layer adds to the density: `max(d, 0) * mask * gain`. */
  function Deposit(d: real, mask: real, gain: real): real {
    Max(d, 0.0) * mask * gain
  }

  /** A layer deposits between 0 and its gain when its density is at most 1
      and its mask lies in `[0, 1]`. */
  lemma DepositRange(d: real, mask: real, gain: real)
    requires d <= 1.0 && 0.0 <= mask <= 1.0 && 0.0 <= gain
    ensures 0.0 <= Deposit(d, mask, gain) <= gain
  {
    var m := Max(d, 0.0);
    ProductRange(m, mask, gain);
    assert Deposit(d, mask, gain) == m * mask * gain;
  }

  lemma ProductRange(a: real, b: real, c: real)
    requires 0.0 <= a <= 1.0 && 0.0 <= b <= 1.0 && 0.0 <= c
    ensures 0.0 <= a * b * c <= c
  {
    assert 0.0 <= a * b <= a by { MulAtMost(a, b); }
    FactorAtMost(a * b, c);
  }

  /** The low cumulus layer at `p`, given the wind time, the local threshold
      `1 - local_coverage` and the warped height `warpedY`: zero outside the
      band `(3, 8)` of warped heights, at most its gain 2.5 inside it. */
  function Cumulus(noise: Field, p: Vec3, time: real, thresh: real, warpedY: real): (r: real)
    requires 0.0 <= thresh <= 1.0
    ensures 0.0 <= r <= 2.5
    ensures !(3.0 < warpedY < 8.0) ==> r == 0.0
  {
    if 3.0 < warpedY < 8.0 then
      var h := (warpedY - 3.0) / 5.0;
      var mask := LayerMask(h, 0.5);
      LayerMaskRange(h, 0.5);
      if mask > 0.01 then
        var pLayer := Add(p, Vec3(time * 0.5, 0.0, 0.0));
        var base := BaseShape(noise, Scale(pLayer, 0.15));
        var low := thresh - 0.05;
        var d := Remap(base, low, 1.0, 0.0, 1.0);
        RemapRange(base, low, 1.0, 0.0, 1.0);
        if d > 0.0 then
          var detail := DetailShape(noise, Scale(pLayer, 2.5));
          CumulusDeposit(noise, pLayer, d, detail, mask);
          Deposit(Erode(d, detail), mask, 2.5)
        else 0.0
      else 0.0
    else 0.0
  }

  /** The facts behind the cumulus bound: the remapped density is at most 1,
      erosion does not raise it, and the mask lies in `[0, 1]`. */
  lemma CumulusDeposit(noise: Field, pLayer: Vec3, d: real, detail: real, mask: real)
    requires 0.0 < d <= 1.0 && detail == DetailShape(noise, Scale(pLayer, 2.5))
    requires 0.0 <= mask <= 1.0
    ensures 0.0 <= Deposit(Erode(d, detail), mask, 2.5) <= 2.5
  {
    ShapesInUnit(noise, Scale(pLayer, 2.5));
    ErodeBounds(d, detail);
    DepositRange(Erode(d, detail), mask, 2.5);
  }

  /** The high cirrus layer at `p`, with its own weather sample and coverage
      gain 0.8: zero outside the band `(10, 14)` of warped heights, at most
      its gain 1.8 inside it. */
  function Cirrus(noise: Field, coverage: real, p: Vec3, time: real, warpedY: real): (r: real)
    ensures 0.0 <= r <= 1.8
    ensures !(10.0 < warpedY < 14.0) ==> r == 0.0
  {
    if 10.0 < warpedY < 14.0 then
      var weatherHigh := noise(Add(Mul(p, Vec3(0.05, 0.0, 0.1)), Vec3(time * 0.2, 0.0, 0.0)));
      var threshHigh := 1.0 - LocalCoverage(coverage, weatherHigh, 0.8);
      var h := (warpedY - 10.0) / 4.0;
      var mask := LayerMask(h, 0.8);
      LayerMaskRange(h, 0.8);
      if mask > 0.01 then
        var pCirrus := Mul(Add(p, Vec3(time * 1.2, 0.0, 0.0)), Vec3(0.1, 0.5, 0.1));
        var shape := DetailShape(noise, pCirrus);
        var low := threshHigh * 0.9;
        var d := Remap(shape, low, 1.0, 0.0, 1.0);
        RemapRange(shape, low, 1.0, 0.0, 1.0);
        DepositRange(d, mask, 1.8);
        Deposit(d, mask, 1.8)
      else 0.0
    else 0.0
  }

  /** The wind-driven time `u.time * u.windSpeed` that moves every sample. */
  function WindTime(u: Uniforms): real {
    u.time * u.windSpeed
  }

  /** The domain-warped point `p_distorted`: two noise samples move `p` by up
      to 3 and 2.25 horizontally and by `-3.6` to `5.4` vertically. */
  function Warp(noise: Field, p: Vec3, time: real): (q: Vec3)
    ensures p.y - 3.6 <= q.y < p.y + 5.4
    ensures p.x <= q.x < p.x + 3.0 && p.z <= q.z < p.z + 2.25
  {
    var warp1 := noise(Add(Scale(p, 0.15), Vec3(time * 0.1, 0.0, 0.0)));
    var warp2 := noise(Sub(Scale(p, 0.4), Vec3(0.0, time * 0.2, 0.0)));
    var warp := warp1 + warp2 * 0.5;
    Add(p, Vec3(warp * 2.0, (warp - 0.6) * 6.0, warp * 1.5))
  }

  /** The height of the warped sample point, which picks the layer. */
  function WarpedHeight(noise: Field, u: Uniforms, p: Vec3): real {
    Warp(noise, p, WindTime(u)).y
  }

  /** What the two layers deposit at `p`, before the density multiplier:
      the weather map sets the cumulus threshold, the warped height picks the
      layer. The bands are disjoint, so the sum is at most the larger gain. */
  function Layers(noise: Field, u: Uniforms, p: Vec3): (total: real)
    ensures 0.0 <= total <= 2.5
    ensures var y := WarpedHeight(noise, u, p); !(3.0 < y < 8.0) && !(10.0 < y < 14.0) ==> total == 0.0
  {
    var time := WindTime(u);
    var weather := noise(Add(Scale(p, 0.03), Vec3(time * 0.1, 0.0, 0.0)));
    var thresh := 1.0 - LocalCoverage(u.coverage, weather, 1.2);
    var warpedY := WarpedHeight(noise, u, p);
    Cumulus(noise, p, time, thresh, warpedY) + Cirrus(noise, u.coverage, p, time, warpedY)
  }

  /** `get_cloud_density`: zero outside the slab `[1, 16]`, zero when the
      warped height misses both layers, and otherwise the layers' sum scaled
      by `densityMultiplier`, so that with a non-negative multiplier the
      density lies between 0 and 2.5 times it. */
  function CloudDensity(noise: Field, u: Uniforms, p: Vec3): (r: real)
    ensures p.y < 1.0 || p.y > 16.0 ==> r == 0.0
    ensures var y := WarpedHeight(noise, u, p); !(3.0 < y < 8.0) && !(10.0 < y < 14.0) ==> r == 0.0
    ensures 0.0 <= u.densityMultiplier ==> 0.0 <= r <= 2.5 * u.densityMultiplier
  {
    if p.y < 1.0 || p.y > 16.0 then 0.0
    else
      Thicken(Layers(noise, u, p), u.densityMultiplier)
  }

  /** A layer sum in `[0, 2.5]` times a non-negative multiplier stays in
      `[0, 2.5 * multiplier]`; an empty sum stays empty. */
  function Thicken(total: real, multiplier: real): (r: real)
    ensures 0.0 <= total <= 2.5 && 0.0 <= multiplier ==> 0.0 <= r <= 2.5 * multiplier
    ensures total == 0.0 ==> r == 0.0
  {
    if 0.0 <= total <= 2.5 && 0.0 <= multiplier then
      MulNonNegative(total, multiplier);
      MulMonotone(total, 2.5, multiplier);
      total * multiplier
    else
      total * multiplier
  }
}
