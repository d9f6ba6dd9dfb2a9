/** Lighting of a cloud sample: the sky gradient `get_sky_color`, the
    Henyey-Greenstein phase functions `hg_phase` and `phase`, and `get_light`
    with its shadow march towards the sun (shaders/cloudShader.ts, lines
    125-162 and 233-276). */
module Lighting {
  import opened WgslMath
  import opened ShaderUniforms

  const ZenithDay := Vec3(0.1, 0.4, 0.85)
  const HorizonDay := Vec3(0.6, 0.8, 0.95)
  const ZenithSunset := Vec3(0.05, 0.1, 0.25)
  const HorizonSunset := Vec3(0.95, 0.45, 0.1)
  const ZenithNight := Vec3(0.0, 0.0, 0.02)
  const HorizonNight := Vec3(0.01, 0.02, 0.08)

  /** The zenith colour for the sun at height `sunY`: the sunset palette
      blended towards day as the sun climbs, then towards night as it sets. */
  function Zenith(sunY: real): (r: Vec3)
    ensures NonNegative(r)
  {
    var day := MixV(ZenithSunset, ZenithDay, Smoothstep(0.0, 0.4, sunY));
    MixVNonNegative(ZenithSunset, ZenithDay, Smoothstep(0.0, 0.4, sunY));
    MixVNonNegative(day, ZenithNight, Smoothstep(0.1, -0.1, sunY));
    MixV(day, ZenithNight, Smoothstep(0.1, -0.1, sunY))
  }

  /** The horizon colour, blended the same way from its own palette. */
  function Horizon(sunY: real): (r: Vec3)
    ensures NonNegative(r)
  {
    var day := MixV(HorizonSunset, HorizonDay, Smoothstep(0.0, 0.4, sunY));
    MixVNonNegative(HorizonSunset, HorizonDay, Smoothstep(0.0, 0.4, sunY));
    MixVNonNegative(day, HorizonNight, Smoothstep(0.1, -0.1, sunY));
    MixV(day, HorizonNight, Smoothstep(0.1, -0.1, sunY))
  }

  /** The colour of the glow around the sun, reddened while the sun is low. */
  function GlowColor(sunY: real): (r: Vec3)
    ensures NonNegative(r)
  {
    MixVNonNegative(Vec3(1.0, 0.3, 0.05), Vec3(1.0, 1.0, 0.9), Smoothstep(0.0, 0.3, sunY));
    MixV(Vec3(1.0, 0.3, 0.05), Vec3(1.0, 1.0, 0.9), Smoothstep(0.0, 0.3, sunY))
  }

  /** The strength of the glow: a sharp power of the ray's alignment with
      the sun, faded out once the sun is below the horizon. */
  function GlowStrength(m: Transcendentals, rayDir: Vec3, sunDir: Vec3): (r: real)
    requires Lawful(m)
    ensures 0.0 <= r
  {
    var peak := m.pow(Max(Dot(rayDir, sunDir), 0.0), 128.0) * 0.6;
    var nightFade := Smoothstep(-0.1, 0.0, sunDir.y);
    MulNonNegative(peak, nightFade);
    peak * nightFade
  }

  /** The glow around the sun that the sky adds to its gradient. */
  function SunGlow(m: Transcendentals, rayDir: Vec3, sunDir: Vec3): (r: Vec3)
    requires Lawful(m)
    ensures NonNegative(r)
  {
    var color := GlowColor(Max(sunDir.y, -0.1));
    var strength := GlowStrength(m, rayDir, sunDir);
    ScaleNonNegative(color, strength);
    Scale(color, strength)
  }

  /** The horizon-to-zenith gradient along a ray: the steeper the ray, the
      more zenith colour. A ray no steeper than straight up blends the two
      palettes convexly. */
  function Gradient(m: Transcendentals, rayDir: Vec3, sunY: real): (r: Vec3)
    requires Lawful(m)
    ensures rayDir.y <= 1.0 ==> NonNegative(r)
  {
    var weight := m.pow(Max(rayDir.y, 0.0), 0.6);
    MixVNonNegative(Horizon(sunY), Zenith(sunY), weight);
    MixV(Horizon(sunY), Zenith(sunY), weight)
  }

  /** `get_sky_color`: the gradient for the sun's height (never taken below
      -0.1) plus the sun's glow; no channel is negative for a ray no steeper
      than straight up. */
  function SkyColor(m: Transcendentals, rayDir: Vec3, sunDir: Vec3): (r: Vec3)
    requires Lawful(m)
    ensures rayDir.y <= 1.0 ==> NonNegative(r)
  {
    Add(Gradient(m, rayDir, Max(sunDir.y, -0.1)), SunGlow(m, rayDir, sunDir))
  }

  /** The base `1 + g^2 - 2 g cosAngle` that `hg_phase` raises to 1.5. */
  function PhaseBase(cosAngle: real, g: real): real {
    1.0 + g * g - 2.0 * g * cosAngle
  }

  /** For a cosine in `[-1, 1]` the base is never negative, and it vanishes
      exactly when `g` equals the cosine and both are 1 or both are -1: then
      `hg_phase` divides by zero. */
  lemma PhaseBaseVanishes(cosAngle: real, g: real)
    requires -1.0 <= cosAngle <= 1.0
    ensures 0.0 <= PhaseBase(cosAngle, g)
    ensures PhaseBase(cosAngle, g) == 0.0 <==> g == cosAngle && (cosAngle == 1.0 || cosAngle == -1.0)
  {
    var d := g - cosAngle;
    var above := 1.0 + cosAngle;
    var below := 1.0 - cosAngle;
    var square := d * d;
    var rest := above * below;
    assert PhaseBase(cosAngle, g) == square + rest;
    MulNonNegative(above, below);
    SquareNonNegative(d);
    if PhaseBase(cosAngle, g) == 0.0 {
      assert square == 0.0 && rest == 0.0;
      ZeroProduct(d, d);
      ZeroProduct(above, below);
    }
    if g == cosAngle && (cosAngle == 1.0 || cosAngle == -1.0) {
      assert d == 0.0;
      assert rest == 0.0 by { ProductWithZero(above, below); }
    }
  }

  lemma SquareNonNegative(d: real)
    ensures 0.0 <= d * d
  {
    if d < 0.0 {
      MulPositive(d, d);
    } else {
      MulNonNegative(d, d);
    }
  }

  lemma ProductWithZero(a: real, b: real)
    requires a == 0.0 || b == 0.0
    ensures a * b == 0.0
  {
  }

  lemma ZeroProduct(a: real, b: real)
    requires a * b == 0.0
    ensures a == 0.0 || b == 0.0
  {
    if a != 0.0 && b != 0.0 {
      if (0.0 < a && 0.0 < b) || (a < 0.0 && b < 0.0) {
        MulPositive(a, b);
      } else if 0.0 < a {
        MulPositive(a, -b);
      } else {
        MulPositive(-a, b);
      }
    }
  }

  /** With an asymmetry `g` strictly inside `(-1, 1)` the base is positive for
      every cosine in `[-1, 1]`, so `hg_phase` is defined. */
  lemma PhaseBasePositive(cosAngle: real, g: real)
    requires -1.0 <= cosAngle <= 1.0 && -1.0 < g < 1.0
    ensures 0.0 < PhaseBase(cosAngle, g)
  {
    PhaseBaseVanishes(cosAngle, g);
    MulStrict(g);
  }

  /** `g * g < 1` for `g` strictly between -1 and 1. */
  lemma MulStrict(g: real)
    requires -1.0 < g < 1.0
    ensures g * g < 1.0
  {
    if 0.0 <= g {
      MulAtMost(g, g);
    } else {
      MulAtMost(-g, -g);
    }
  }

  /** `hg_phase`: the Henyey-Greenstein phase function for asymmetry `g`. It
      is defined when its base is positive, and is non-negative for
      `|g| <= 1` and positive for `|g| < 1`. */
  function HgPhase(m: Transcendentals, cosAngle: real, g: real): (r: real)
    requires Lawful(m) && 0.0 < PhaseBase(cosAngle, g)
    ensures g * g <= 1.0 ==> 0.0 <= r
    ensures g * g < 1.0 ==> 0.0 < r
  {
    var numerator := 1.0 - g * g;
    var denominator := 4.0 * 3.14159 * m.pow(PhaseBase(cosAngle, g), 1.5);
    PhaseQuotient(numerator, denominator);
    numerator / denominator
  }

  lemma PhaseQuotient(x: real, w: real)
    requires 0.0 < w
    ensures 0.0 <= x ==> 0.0 <= x / w
    ensures 0.0 < x ==> 0.0 < x / w
  {
    if 0.0 <= x {
      QuotientNonNegative(x, w);
      if 0.0 < x {
        PositiveQuotient(x, w);
      }
    }
  }

  lemma PositiveQuotient(x: real, w: real)
    requires 0.0 < x && 0.0 < w
    ensures 0.0 < x / w
  {
  }

  /** The asymmetry of the backward lobe of `phase`. */
  const BackScatter: real := -0.3

  /** `phase`: a 60/40 blend of a forward lobe with the user's anisotropy and
      a backward lobe with asymmetry -0.3; positive whenever the anisotropy
      lies strictly inside `(-1, 1)`. */
  function Phase(m: Transcendentals, anisotropy: real, cosAngle: real): (r: real)
    requires Lawful(m)
    requires 0.0 < PhaseBase(cosAngle, anisotropy) && 0.0 < PhaseBase(cosAngle, BackScatter)
    ensures anisotropy * anisotropy <= 1.0 ==> 0.0 <= r
    ensures anisotropy * anisotropy < 1.0 ==> 0.0 < r
  {
    var forward := HgPhase(m, cosAngle, anisotropy);
    var backward := HgPhase(m, cosAngle, BackScatter);
    Mix(forward, backward, 0.4)
  }

  /** For a view ray and a sun direction that are unit vectors and an
      anisotropy strictly inside `(-1, 1)`, both lobes of `phase` are
      defined. */
  lemma PhaseDefined(rayDir: Vec3, sunDir: Vec3, anisotropy: real)
    requires Dot(rayDir, rayDir) == 1.0 && Dot(sunDir, sunDir) == 1.0
    requires -1.0 < anisotropy < 1.0
    ensures 0.0 < PhaseBase(Dot(rayDir, sunDir), anisotropy)
    ensures 0.0 < PhaseBase(Dot(rayDir, sunDir), BackScatter)
  {
    UnitDotBound(rayDir, sunDir);
    PhaseBasePositive(Dot(rayDir, sunDir), anisotropy);
    PhaseBasePositive(Dot(rayDir, sunDir), BackScatter);
  }

  /** The length of one step of the shadow march and the number of steps. */
  const LightStep: real := 1.0
  const LightSteps: nat := 4

  /** The optical depth `get_light` gathers from `pos` towards the sun
      through the density field `density`: up to `n` steps along `sunDir`,
      stopping at the first point above the slab. */
  function ShadowDepth(density: Vec3 -> real, pos: Vec3, sunDir: Vec3, n: nat): real
    decreases n
  {
    if n == 0 then 0.0
    else
      var next := Add(pos, Scale(sunDir, LightStep));
      if next.y > 16.0 then 0.0
      else density(next) * LightStep + ShadowDepth(density, next, sunDir, n - 1)
  }

  /** When no sample is denser than `top`, the shadow depth over `n` steps
      lies between 0 and `n * top`. */
  lemma {:induction false} ShadowDepthRange(density: Vec3 -> real, top: real, pos: Vec3, sunDir: Vec3, n: nat)
    requires forall q :: 0.0 <= density(q) <= top
    decreases n
    ensures 0.0 <= ShadowDepth(density, pos, sunDir, n) <= (n as real) * top
  {
    var count := n as real;
    assert 0.0 <= top by { assert 0.0 <= density(pos) <= top; }
    MulNonNegative(count, top);
    if n > 0 {
      var next := Add(pos, Scale(sunDir, LightStep));
      if next.y <= 16.0 {
        ShadowDepthRange(density, top, next, sunDir, n - 1);
        var k := (n - 1) as real;
        assert count * top == k * top + top;
      }
    }
  }

  /** The shadow loop of `get_light`: four unit steps towards the sun,
      leaving the loop at the first point above the slab. */
  method ShadowMarch(density: Vec3 -> real, p: Vec3, sunDir: Vec3) returns (shadowDensity: real)
    ensures shadowDensity == ShadowDepth(density, p, sunDir, LightSteps)
  {
    var lightPos := p;
    shadowDensity := 0.0;
    for i := 0 to LightSteps
      invariant shadowDensity + ShadowDepth(density, lightPos, sunDir, LightSteps - i)
             == ShadowDepth(density, p, sunDir, LightSteps)
    {
      lightPos := Add(lightPos, Scale(sunDir, LightStep));
      if lightPos.y > 16.0 {
        break;
      }
      shadowDensity := shadowDensity + density(lightPos) * LightStep;
    }
  }

  /** The sky's colour straight up, partly desaturated towards its grey. */
  function SkyAmbient(m: Transcendentals, sunDir: Vec3): (r: Vec3)
    requires Lawful(m)
    ensures NonNegative(r)
  {
    var raw := SkyColor(m, Vec3(0.0, 1.0, 0.0), sunDir);
    var grey := Dot(raw, Vec3(0.33, 0.33, 0.33));
    MixVNonNegative(raw, Vec3(grey, grey, grey), 0.6);
    MixV(raw, Vec3(grey, grey, grey), 0.6)
  }

  const GroundAmbient := Scale(Vec3(0.1, 0.1, 0.12), 0.3)

  /** The ambient light at height `p.y`: the dim ground colour at the bottom
      of the cumulus band, sky light towards its top. */
  function Ambient(m: Transcendentals, p: Vec3, sunDir: Vec3): (r: Vec3)
    requires Lawful(m)
    ensures NonNegative(r)
  {
    var high := Scale(SkyAmbient(m, sunDir), 0.8);
    ScaleNonNegative(SkyAmbient(m, sunDir), 0.8);
    var h := Clamp((p.y - 3.0) / 11.0, 0.0, 1.0);
    MixVNonNegative(GroundAmbient, high, h);
    MixV(GroundAmbient, high, h)
  }

  /** The colour of direct sunlight, reddened while the sun is low. */
  function SunColor(sunDir: Vec3): (r: Vec3)
    ensures NonNegative(r)
  {
    MixVNonNegative(Vec3(1.0, 0.4, 0.1), Vec3(1.0, 0.95, 0.9), Smoothstep(0.0, 0.3, sunDir.y));
    MixV(Vec3(1.0, 0.4, 0.1), Vec3(1.0, 0.95, 0.9), Smoothstep(0.0, 0.3, sunDir.y))
  }

  /** Sunlight that reaches the sample through the shadow depth. */
  function Transmitted(m: Transcendentals, sunDir: Vec3, shadowDensity: real): (r: Vec3)
    requires Lawful(m)
    ensures NonNegative(r)
  {
    ScaleNonNegative(SunColor(sunDir), m.exp(-shadowDensity * 1.0));
    Scale(SunColor(sunDir), m.exp(-shadowDensity * 1.0))
  }

  /** That light scattered towards the viewer by the phase function. */
  function Scattered(m: Transcendentals, u: Uniforms, rayDir: Vec3, sunDir: Vec3, shadowDensity: real): (r: Vec3)
    requires Lawful(m)
    requires 0.0 < PhaseBase(Dot(rayDir, sunDir), u.anisotropy)
    requires 0.0 < PhaseBase(Dot(rayDir, sunDir), BackScatter)
    ensures u.anisotropy * u.anisotropy <= 1.0 ==> NonNegative(r)
  {
    var ph := Phase(m, u.anisotropy, Dot(rayDir, sunDir));
    ScaleNonNegative(Transmitted(m, sunDir, shadowDensity), ph);
    Scale(Transmitted(m, sunDir, shadowDensity), ph)
  }

  /** The powder term `1 - exp(-2 density)`, which darkens thin cloud edges. */
  function Powder(m: Transcendentals, density: real): (r: real)
    requires Lawful(m)
    ensures 0.0 <= density ==> 0.0 <= r
  {
    1.0 - m.exp(-density * 2.0)
  }

  /** Scattered sunlight, thinned at cloud edges by the powder term. */
  function Powdered(m: Transcendentals, u: Uniforms, rayDir: Vec3, sunDir: Vec3,
                    density: real, shadowDensity: real): (r: Vec3)
    requires Lawful(m)
    requires 0.0 < PhaseBase(Dot(rayDir, sunDir), u.anisotropy)
    requires 0.0 < PhaseBase(Dot(rayDir, sunDir), BackScatter)
    ensures 0.0 <= density && u.anisotropy * u.anisotropy <= 1.0 ==> NonNegative(r)
  {
    ScaleNonNegative(Scattered(m, u, rayDir, sunDir, shadowDensity), Powder(m, density));
    Scale(Scattered(m, u, rayDir, sunDir, shadowDensity), Powder(m, density))
  }

  /** The colour `get_light` returns for a sample at `p` of density
      `density`, once the shadow march has gathered `shadowDensity`: the
      powdered sunlight boosted six times and faded with the sun's height,
      plus the ambient light, all tinted by the cloud colour. */
  function Illuminate(m: Transcendentals, u: Uniforms, p: Vec3, rayDir: Vec3, sunDir: Vec3,
                      density: real, shadowDensity: real): Vec3
    requires Lawful(m)
    requires 0.0 < PhaseBase(Dot(rayDir, sunDir), u.anisotropy)
    requires 0.0 < PhaseBase(Dot(rayDir, sunDir), BackScatter)
  {
    var sunPower := Smoothstep(-0.1, 0.1, sunDir.y);
    var direct := Scale(Scale(Powdered(m, u, rayDir, sunDir, density, shadowDensity), 6.0), sunPower);
    Mul(Add(direct, Ambient(m, p, sunDir)), u.cloudColor)
  }

  /** `get_light`: the shadow march, then the lit colour for that depth. The
      result is `Illuminate` at the depth `ShadowDepth` gives; the ensures
      names that depth through a bound variable so that a caller's proof
      does not unfold `Illuminate`'s arithmetic. */
  method GetLight(m: Transcendentals, field: Vec3 -> real, u: Uniforms, p: Vec3, rayDir: Vec3, sunDir: Vec3,
                  density: real) returns (light: Vec3)
    requires Lawful(m)
    requires 0.0 < PhaseBase(Dot(rayDir, sunDir), u.anisotropy)
    requires 0.0 < PhaseBase(Dot(rayDir, sunDir), BackScatter)
    ensures forall shadow :: shadow == ShadowDepth(field, p, sunDir, LightSteps)
              ==> light == Illuminate(m, u, p, rayDir, sunDir, density, shadow)
  {
    var shadowDensity := ShadowMarch(field, p, sunDir);
    light := Illuminate(m, u, p, rayDir, sunDir, density, shadowDensity);
  }
}
