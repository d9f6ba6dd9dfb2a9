# Volumetric cloud renderer: shader and camera model

This project models the two computational parts of a browser cloud renderer.

- **The fragment shader** (`shaders/cloudShader.ts`, WGSL in a string). It covers:
  - the hash and trilinear value noise;
  - the rotated fractal Brownian motion (FBM) octaves;
  - the clamped `remap` and the two-layer cloud density field;
  - the Henyey–Greenstein phase function and the shadow march of `get_light`;
  - from `fs_main`: the cloud-slab intersection, the front-to-back raymarch accumulator, the atmospheric composite and the tone map.
- **The canvas component** (`components/WebGPUCanvas.tsx`). It is a camera and input state machine:
  - camera angles and position, key flags and mouse drag state are fields of the class `CameraControl.CameraController`, updated in place by the event handlers and the per-frame `Render`;
  - `Render` produces the 32-float uniform payload the shader reads.

Numbers are `real`, not IEEE `f32`. `exp`, `pow`, `sin`, `cos` and `sqrt` are fields of a `Transcendentals` value. `WgslMath.Lawful` states the laws the proofs use: ranges, `sin² + cos² = 1`, and `sqrt(x)² = x`. The noise lookups inside the density field are an abstract `Field`, a function into `[0, 1)`. `NoiseField.Noise` is proved to be one.

Modules and files:

| file | module | contents |
|---|---|---|
| `wgsl_math.dfy` | `WgslMath` | vectors, WGSL built-ins, arithmetic lemmas |
| `noise.dfy` | `NoiseField` | `hash`, `noise`, `rotate_y`, the FBM loops |
| `uniforms.dfy` | `ShaderUniforms` | the `Uniforms` struct, its WGSL layout and the payload |
| `density.dfy` | `DensityField` | `remap` and `get_cloud_density` |
| `lighting.dfy` | `Lighting` | sky colour, phase function, `get_light` |
| `raymarch.dfy` | `Raymarch` | ray setup, slab test, march loop, composite, tone map |
| `camera.dfy` | `CameraControl` | keys, movement, mouse, wheel, camera basis, payload |

Three details of the code are easy to misread; the model follows the code:

- The sample count is `i32(steps)`, which truncates. It is not a rounding.
- The sample count is not clamped below at 1. For `steps < 1` the loop stops before its first sample.
- The sun direction falls back to `(0, 1, 0)` only when its length is not positive. There is no "near zero" threshold.

## Model

| member | source | states |
|---|---|---|
| WgslMath.Floor | shaders/cloudShader.ts:55 | `floor(x)` is the integer at or below `x` and within 1 of it |
| WgslMath.Fract | shaders/cloudShader.ts:56 | `fract(x)` lies in `[0, 1)` and `x - fract(x)` is an integer |
| WgslMath.Clamp | shaders/cloudShader.ts:180 | `clamp` lands in `[low, high]`: it keeps a value inside and snaps one outside to the nearer edge |
| WgslMath.ClampV | shaders/cloudShader.ts:414 | the component-wise clamp lands in `[low, high]` on every axis |
| WgslMath.Smoothstep | shaders/cloudShader.ts:193 | `smoothstep` lies in `[0, 1]`. It is 0 on the near side and 1 on the far side of its edges, for edges in either order |
| WgslMath.SmoothWeightRange | shaders/cloudShader.ts:57 | the cubic weight `f*f*(3-2f)` lies in `[0, 1]` for `f` in `[0, 1]` |
| WgslMath.SmoothWeightComplement | shaders/cloudShader.ts:57 | the weight and its complement factor as non-negative products: `1 - w = (1-f)^2 (1+2f)` |
| WgslMath.MixInHalfOpen | shaders/cloudShader.ts:79 | a `mix` of two values in `[lo, hi)` with weight in `[0, 1]` stays in `[lo, hi)` |
| WgslMath.Mix | shaders/cloudShader.ts:241 | WGSL `mix`. `WgslMath.MixInHalfOpen` and `WgslMath.MixNonNegative` bound it |
| WgslMath.Normalize | shaders/cloudShader.ts:284 | `normalize` of a non-zero vector is a unit vector. `WgslMath.NormalizeKeepsDirection` shows it points along the input |
| WgslMath.NormalizeKeepsDirection | shaders/cloudShader.ts:284 | the normalised vector's component along the input is the input's whole length, so with unit length the result is `v / |v|` and not its mirror |
| WgslMath.UnitDotBound | shaders/cloudShader.ts:258 | the cosine of two unit vectors lies in `[-1, 1]` |
| NoiseField.Hash | shaders/cloudShader.ts:47-51 | `hash` lies in `[0, 1)` |
| NoiseField.CellCorners | shaders/cloudShader.ts:61-68 | the eight corner hashes all lie in `[0, 1)` |
| NoiseField.CellWeights | shaders/cloudShader.ts:56-57 | the smoothed cell weights lie in the unit cube |
| NoiseField.PolynomialIsTrilinear | shaders/cloudShader.ts:70-79 | the `k0..k7` polynomial equals trilinear interpolation of the eight corners |
| NoiseField.TrilinearInUnit | shaders/cloudShader.ts:70-79 | trilinear interpolation of corners in `[0, 1)` with weights in the unit cube stays in `[0, 1)` |
| NoiseField.Noise | shaders/cloudShader.ts:54-80 | `noise` lies in `[0, 1)` |
| NoiseField.NoiseAtLattice | shaders/cloudShader.ts:54-80 | at a lattice point `noise` equals the hash of that point |
| NoiseField.PolynomialAtOrigin | shaders/cloudShader.ts:70-79 | at the cell origin the polynomial is the first corner value |
| NoiseField.RotateYIsRotation | shaders/cloudShader.ts:83-87 | `rotate_y` keeps `y` and `x² + z²` and maps `(1, 0, 0)` to `(0.8, 0, 0.6)` |
| NoiseField.RotationPreservesRadius | shaders/cloudShader.ts:84-86 | the 0.8/0.6 rotation preserves the horizontal radius |
| NoiseField.RotateY | shaders/cloudShader.ts:83-87 | `rotate_y`. `NoiseField.RotateYIsRotation` shows it is a rotation about the y axis |
| NoiseField.AmplitudeSums | shaders/cloudShader.ts:93-116 | four halving amplitudes from 0.5 sum to 0.9375, and five sum to 0.96875 |
| NoiseField.OctavesBelowAmplitudes | shaders/cloudShader.ts:95-99 | a sum of `n > 0` octaves of a `[0, 1)` field is non-negative and below the sum of the amplitudes |
| NoiseField.Octaves | shaders/cloudShader.ts:95-99 | the sum of `n` octaves with halving amplitude and growing frequency. `NoiseField.OctavesBelowAmplitudes` bounds it, and `NoiseField.FbmBase` and `NoiseField.FbmDetail` prove the loops compute it |
| NoiseField.ShapesInUnit | shaders/cloudShader.ts:90-117 | both normalised FBM sums lie in `[0, 1)` |
| NoiseField.FbmBase | shaders/cloudShader.ts:90-102 | the four-octave loop computes the base FBM of its spec function and lies in `[0, 1)` |
| NoiseField.FbmDetail | shaders/cloudShader.ts:105-117 | the five-octave loop computes the detail FBM and lies in `[0, 1)` |
| ShaderUniforms.PlacementIsUnique | shaders/cloudShader.ts:3-23 | the WGSL placement rule leaves exactly one offset for each member |
| ShaderUniforms.PayloadFollowsLayout | shaders/cloudShader.ts:3-23 | every member's payload slot is the byte offset WGSL gives it after the previous member |
| ShaderUniforms.StructFitsBuffer | components/WebGPUCanvas.tsx:109 | the struct, rounded to its 16-byte alignment, is the 128 bytes of the 32-float payload, within the 256-byte buffer |
| ShaderUniforms.Member | shaders/cloudShader.ts:3-23 | each member has as many floats as its WGSL size |
| ShaderUniforms.ToPayload | components/WebGPUCanvas.tsx:228-238 | the payload has exactly 32 floats |
| ShaderUniforms.PayloadMatchesLayout | components/WebGPUCanvas.tsx:228-238 | every float of every member sits at the member's slot in the payload |
| ShaderUniforms.ReadAfterPack | components/WebGPUCanvas.tsx:228-238 | reading the struct back from the payload gives the struct that was packed |
| ShaderUniforms.PackAfterRead | shaders/cloudShader.ts:3-23 | every 32-float buffer is the payload of the struct read from it |
| ShaderUniforms.NamedSlots | components/WebGPUCanvas.tsx:233-236 | `haze` is at index 23, `densityMultiplier` at 27 and `steps` at 31 |
| DensityField.RemapRange | shaders/cloudShader.ts:119-121 | with `original_min < original_max`, `remap` lands in `[new_min, new_max]`, at the ends when the input is past an end |
| DensityField.RemapMonotone | shaders/cloudShader.ts:119-121 | `remap` is monotone in its input |
| DensityField.Remap | shaders/cloudShader.ts:119-121 | `remap` clamps into the original range and maps it linearly onto the new one. `DensityField.RemapRange` and `DensityField.RemapMonotone` state its range and order |
| DensityField.StretchRange | shaders/cloudShader.ts:120 | the scaled offset lies in `[0, b]` and is 0 and `b` at the ends |
| DensityField.StretchMonotone | shaders/cloudShader.ts:120 | the scaled offset is monotone |
| DensityField.LocalCoverage | shaders/cloudShader.ts:180 | the locally modulated coverage lies in `[0, 1]` |
| DensityField.LayerMaskRange | shaders/cloudShader.ts:193 | a layer's height mask lies in `[0, 1]` |
| DensityField.ErodeBounds | shaders/cloudShader.ts:205 | erosion by the detail noise never raises the density |
| DensityField.DepositRange | shaders/cloudShader.ts:206 | a layer's contribution `max(d, 0) * mask * gain` lies in `[0, gain]` |
| DensityField.Cumulus | shaders/cloudShader.ts:190-209 | the cumulus layer adds a value in `[0, 2.5]`, and 0 unless the warped height is in `(3, 8)` |
| DensityField.CumulusDeposit | shaders/cloudShader.ts:199-207 | the eroded cumulus contribution lies in `[0, 2.5]` |
| DensityField.Cirrus | shaders/cloudShader.ts:211-228 | the cirrus layer adds a value in `[0, 1.8]`, and 0 unless the warped height is in `(10, 14)` |
| DensityField.Warp | shaders/cloudShader.ts:184-188 | the domain warp moves `x` forward by less than 3, `z` forward by less than 2.25, and `y` by an amount in `[-3.6, 5.4)` |
| DensityField.Layers | shaders/cloudShader.ts:170-228 | the two layers together give a value in `[0, 2.5]`, 0 outside both bands |
| DensityField.CloudDensity | shaders/cloudShader.ts:166-231 | the density is 0 below 1 or above 16 and 0 outside both warped bands. For `densityMultiplier >= 0` it lies in `[0, 2.5 * densityMultiplier]` |
| DensityField.Thicken | shaders/cloudShader.ts:230 | the multiplied total lies in `[0, 2.5 * multiplier]` and is 0 for an empty total |
| Lighting.Zenith | shaders/cloudShader.ts:129-142 | the zenith colour is non-negative |
| Lighting.Horizon | shaders/cloudShader.ts:130-145 | the horizon colour is non-negative |
| Lighting.GlowColor | shaders/cloudShader.ts:153 | the glow colour is non-negative |
| Lighting.GlowStrength | shaders/cloudShader.ts:152-157 | the glow strength is non-negative |
| Lighting.SunGlow | shaders/cloudShader.ts:150-159 | the sun glow is non-negative |
| Lighting.Gradient | shaders/cloudShader.ts:141-148 | the zenith-to-horizon gradient is non-negative for rays not above vertical |
| Lighting.SkyColor | shaders/cloudShader.ts:125-162 | `get_sky_color` is non-negative for rays not above vertical |
| Lighting.PhaseBaseVanishes | shaders/cloudShader.ts:235 | for a cosine in `[-1, 1]` the base `1 + g² - 2g cos` is non-negative. It is zero exactly when `g = cos = ±1`, where `hg_phase` divides by zero |
| Lighting.PhaseBasePositive | shaders/cloudShader.ts:235 | for `g` strictly inside `(-1, 1)` the base is positive |
| Lighting.HgPhase | shaders/cloudShader.ts:233-236 | `hg_phase` is non-negative for `g² <= 1` and positive for `g² < 1` |
| Lighting.Phase | shaders/cloudShader.ts:238-242 | `phase` is non-negative for `anisotropy² <= 1` and positive for `anisotropy² < 1` |
| Lighting.PhaseDefined | shaders/cloudShader.ts:258-259 | for unit view and sun vectors and `anisotropy` in `(-1, 1)` both lobes of `phase` are defined |
| Lighting.ShadowDepthRange | shaders/cloudShader.ts:249-253 | the optical depth of `n` shadow steps through a field bounded by `top` lies in `[0, n * top]` |
| Lighting.ShadowMarch | shaders/cloudShader.ts:245-253 | the shadow loop with its early break computes the optical depth of four unit steps |
| Lighting.ShadowDepth | shaders/cloudShader.ts:249-253 | the optical depth of up to four unit steps towards the sun, stopping above the slab. `Lighting.ShadowDepthRange` bounds it and `Lighting.ShadowMarch` computes it |
| Lighting.SkyAmbient | shaders/cloudShader.ts:261-262 | the desaturated sky ambient is non-negative |
| Lighting.Ambient | shaders/cloudShader.ts:263-266 | the height-blended ambient is non-negative |
| Lighting.SunColor | shaders/cloudShader.ts:268 | the sun colour is non-negative |
| Lighting.Transmitted | shaders/cloudShader.ts:255 | the sun light left after the shadow depth is non-negative |
| Lighting.Scattered | shaders/cloudShader.ts:255-259 | the phase-weighted transmitted light is non-negative for `anisotropy² <= 1` |
| Lighting.Powder | shaders/cloudShader.ts:256 | the powder term is non-negative for non-negative density |
| Lighting.Powdered | shaders/cloudShader.ts:255-259 | the direct light before gain is non-negative for non-negative density and `anisotropy² <= 1` |
| Lighting.GetLight | shaders/cloudShader.ts:244-276 | `get_light` is the light of the sample with the shadow depth the shadow loop gathers |
| Lighting.Illuminate | shaders/cloudShader.ts:255-275 | the colour `get_light` returns for a given shadow depth: direct light gained by 6 and faded by sun height, plus ambient, times the cloud colour. Its factors are proved non-negative by `Lighting.Powdered` and `Lighting.Ambient` |
| Raymarch.ScreenRay | shaders/cloudShader.ts:280-284 | the centre pixel looks along `cameraDir`, and the centre column moves only along `cameraUp` |
| Raymarch.RayDirection | shaders/cloudShader.ts:284 | the view ray is a unit vector. `Raymarch.RayFollowsScreen` shows it points along the screen ray |
| Raymarch.RayFollowsScreen | shaders/cloudShader.ts:284 | the view ray's component along the screen ray through the pixel is that ray's whole length: it points along the screen ray |
| Raymarch.Jitter | shaders/cloudShader.ts:364 | the per-pixel jitter lies in `[0, 1)` |
| Raymarch.Intersect | shaders/cloudShader.ts:323-350 | no march exactly when the camera is below the slab looking level or down, or above it looking level or up. It divides by zero exactly for a level ray inside the slab. Otherwise `0 <= tStart <= tEnd`, with `tStart = 0` inside |
| Raymarch.SpanIsSlab | shaders/cloudShader.ts:323-350 | a ray distance `t >= 0` is in `[tStart, tEnd]` exactly when the ray is inside the slab at `t` |
| Raymarch.NoMarchMissesSlab | shaders/cloudShader.ts:330-341 | when the slab test decides not to march, the ray never enters the slab |
| Raymarch.CompareQuotient | shaders/cloudShader.ts:332-347 | comparing with `a / d` for `d > 0` is comparing `t * d` with `a`, in both directions |
| Raymarch.TruncateToI32 | shaders/cloudShader.ts:361 | `i32(x)` truncates toward zero and saturates at the 32-bit bounds |
| Raymarch.SampleBudget | shaders/cloudShader.ts:361-368 | the loop takes at most `min(i32(steps), 128)` samples: at most 128, the integer part of `steps` below 128, exactly 128 from 128 on, and none for `steps < 1` |
| Raymarch.AbsorbBalanced | shaders/cloudShader.ts:373-386 | one absorbing step keeps `transmittance` in `(0, 1]` and `totalAlpha + transmittance = 1`. It keeps `weightedDepth / totalAlpha` in `[tStart, tEnd]` and never raises transmittance |
| Raymarch.WeightedStep | shaders/cloudShader.ts:381-382 | adding `t * absorbed` with `t` in `[lo, hi]` keeps the weighted depth between `lo` and `hi` times the alpha |
| Raymarch.StepTransmittance | shaders/cloudShader.ts:376-377 | a step's transmittance lies in `(0, 1]` |
| Raymarch.March | shaders/cloudShader.ts:352-389 | the loop keeps the accumulator balanced and takes at most the sample budget. Transmittance starts at 1 and never increases. Sample `k` is taken at depth `SampleDepth(k)` only while that depth is at most `tEnd` and transmittance is at least 0.01. It changes the transmittance as `Attenuate` does for the density there. The loop stops before the budget only when the ray is opaque or past `tEnd`. A field nowhere denser than 0.001 leaves the accumulator at its start |
| Raymarch.AbsorbShares | shaders/cloudShader.ts:378-385 | what a dense sample absorbs equals what the transmittance loses, and it is added to the weighted depth at `t`, the total opacity and the scattered light |
| Raymarch.Sample | shaders/cloudShader.ts:370-386 | one loop pass keeps the accumulator balanced, never raises transmittance, and moves it as `Attenuate` does. What the transmittance loses is added to the total opacity, to the weighted depth at `t`, and, times the `get_light` colour for the sample's shadow depth, to the scattered light. A sample no denser than 0.001 changes nothing |
| Raymarch.StepLength | shaders/cloudShader.ts:361-362 | `stepSize`: the span split into `i32(steps)` steps. It is 0 when there are no steps, which only happens when the loop takes no sample; its role is stated by `Raymarch.March` |
| Raymarch.SampleDepth | shaders/cloudShader.ts:365-388 | the depth of sample `k`: the jittered start plus `k` steps. `Raymarch.NextSampleDepth` shows consecutive samples lie one step apart |
| Raymarch.NextSampleDepth | shaders/cloudShader.ts:388 | `t += stepSize` moves from one sample depth to the next |
| Raymarch.Attenuate | shaders/cloudShader.ts:373-385 | a sample denser than 0.001 multiplies transmittance by `exp(-0.8 * density * stepSize)`, and a thinner one leaves it alone. `Raymarch.StepTransmittance` bounds the factor |
| Raymarch.Absorb | shaders/cloudShader.ts:378-385 | one dense sample's update of the four accumulators. `Raymarch.AbsorbBalanced` shows it keeps them balanced |
| Raymarch.AverageDepthInSpan | shaders/cloudShader.ts:392-395 | the average cloud distance lies in `[tStart, tEnd]` |
| Raymarch.AverageDepth | shaders/cloudShader.ts:392-395 | `avgCloudDist`. `Raymarch.AverageDepthInSpan` puts it in the span |
| Raymarch.Composite | shaders/cloudShader.ts:398-406 | an empty march leaves the background colour unchanged |
| Raymarch.ToneDenominatorPositive | shaders/cloudShader.ts:409-414 | the tone curve's denominator is always positive |
| Raymarch.ToneCurve | shaders/cloudShader.ts:409-414 | the clamped tone curve lies in `[0, 1]` |
| Raymarch.ToneCurveBlack | shaders/cloudShader.ts:409-414 | black maps to black |
| Raymarch.ToneCurveSaturates | shaders/cloudShader.ts:409-414 | every channel value of 8 or more maps to 1 |
| Raymarch.ToneMap | shaders/cloudShader.ts:409-415 | the tone curve, clamped with `WgslMath.ClampV` and gamma-corrected, lies in the unit cube |
| Raymarch.CloudPass | shaders/cloudShader.ts:322-407 | there is no colour exactly for the level ray inside the slab. A ray that misses the slab keeps the background, and so does every ray through a sky whose density is nowhere above 0.001 |
| Raymarch.ShadePixel | shaders/cloudShader.ts:279-418 | every pixel colour lies in the unit cube. It is undefined exactly for a level ray inside the slab, and a missed slab or a cloudless sky shows the tone-mapped background |
| CameraControl.KeyOf | components/WebGPUCanvas.tsx:323-330 | a key name selects a movement key exactly when its lower-case form is that key's letter |
| CameraControl.KeyIgnoresCase | components/WebGPUCanvas.tsx:323 | the lower-case and upper-case letter both select the key |
| CameraControl.WithFlag | components/WebGPUCanvas.tsx:324-329 | setting one flag sets it and leaves the other five unchanged |
| CameraControl.KeyEvent | components/WebGPUCanvas.tsx:323-341 | a key event changes only the flag of the named key, and an unknown name changes nothing |
| CameraControl.PressRelease | components/WebGPUCanvas.tsx:317-341 | pressing then releasing a key clears its flag and restores every other flag |
| CameraControl.FrameDelta | components/WebGPUCanvas.tsx:142 | the frame delta is at most 0.1 s, non-negative when time does not run backwards, and the elapsed seconds below the cap |
| CameraControl.OppositeKeysCancel | components/WebGPUCanvas.tsx:152-173 | W with S, D with A, and R with F cancel each other |
| CameraControl.WalkIsHorizontal | components/WebGPUCanvas.tsx:152-173 | W, S, A and D never change the height, and R and F never move horizontally |
| CameraControl.SingleKeyStep | components/WebGPUCanvas.tsx:148-166 | a single walking key moves the camera exactly `speed` in the horizontal plane |
| CameraControl.Walk | components/WebGPUCanvas.tsx:152-166 | the horizontal step of W, S, D and A along the heading. `CameraControl.OppositeKeysCancel`, `CameraControl.WalkIsHorizontal` and `CameraControl.SingleKeyStep` state its behaviour |
| CameraControl.Rise | components/WebGPUCanvas.tsx:168-173 | the vertical step of R and F. `CameraControl.OppositeKeysCancel` and `CameraControl.WalkIsHorizontal` state its behaviour |
| CameraControl.Moved | components/WebGPUCanvas.tsx:145-178 | the pose after one frame's movement. `CameraControl.MovedKeepsValid`, `CameraControl.OppositeKeysCancel`, `CameraControl.WalkIsHorizontal` and `CameraControl.SingleKeyStep` state its properties |
| CameraControl.MovedKeepsValid | components/WebGPUCanvas.tsx:146-178 | movement never turns the camera. With a key held the altitude ends in `[0.1, 100]`, and with none held nothing moves |
| CameraControl.ClampAltitude | components/WebGPUCanvas.tsx:176-177 | the altitude clamp lands in `[0.1, 100]`, keeps a valid altitude and snaps an invalid one to the nearer bound |
| CameraControl.Pitch | components/WebGPUCanvas.tsx:302-305 | the pitch lies in `[-1.5, 1.5]` and follows the drag exactly inside that range |
| CameraControl.CrossOrthogonal | components/WebGPUCanvas.tsx:202-217 | a cross product is orthogonal to both factors |
| CameraControl.CrossLength | components/WebGPUCanvas.tsx:215-217 | Lagrange's identity for the cross product, so that right x dir is a unit vector |
| CameraControl.Direction | components/WebGPUCanvas.tsx:195-197 | the view direction is a unit vector of height `sin(phi)` |
| CameraControl.PositiveLength | components/WebGPUCanvas.tsx:207-208 | a positive length means a non-zero vector |
| CameraControl.ScaledOrthogonal | components/WebGPUCanvas.tsx:208-209 | dividing by the length keeps the right vector orthogonal to the view |
| CameraControl.RightVector | components/WebGPUCanvas.tsx:202-212 | the right vector is horizontal. Above length 0.0001 it is a unit vector orthogonal to the view, and otherwise it is `(1, 0, 0)`. `CameraControl.RightFollowsCross` gives its sign |
| CameraControl.RightFollowsCross | components/WebGPUCanvas.tsx:202-210 | above length 0.0001 the right vector points along `dir x worldUp`, not against it, so the basis is not mirrored |
| CameraControl.SunDirection | components/WebGPUCanvas.tsx:220-223 | the sun direction is a unit vector, and `(0, 1, 0)` when the panel's vector has length 0. `CameraControl.SunFollowsPanel` gives its direction otherwise |
| CameraControl.SunFollowsPanel | components/WebGPUCanvas.tsx:220-223 | for a panel vector of positive length, the sun direction points along it |
| CameraControl.FrameUniforms | components/WebGPUCanvas.tsx:192-238 | the uploaded camera basis has unit view and sun vectors, a horizontal right vector and an up vector orthogonal to both. When `dir x worldUp` is longer than 0.0001 the right and up vectors are unit vectors and right is orthogonal to the view. The paddings are 0 and the position is the camera's |
| CameraControl.SettingsInPayload | components/WebGPUCanvas.tsx:228-238 | every panel setting, the camera position, the view direction, the up and right vectors and the sun direction land at the slots the shader reads them from |
| CameraControl.ViewVector | components/WebGPUCanvas.tsx:195-197 | the three direction components are the view direction |
| CameraControl.RightVectorOf | components/WebGPUCanvas.tsx:199-212 | the reassigned `rightX/Y/Z` are the right vector, with `rightY = 0` |
| CameraControl.UpVectorOf | components/WebGPUCanvas.tsx:215-217 | the up components are `right x dir` |
| CameraControl.SunVector | components/WebGPUCanvas.tsx:220-223 | the three-element sun array is the sun direction |
| CameraControl.FramePayload | components/WebGPUCanvas.tsx:192-238 | the 32 floats written are the payload of the frame's uniforms |
| CameraControl.CameraController.constructor | components/WebGPUCanvas.tsx:39-50 | the camera starts at pitch 0.2, heading 0 and position `(0, 1, 0)`, with no key held and the mouse up. The last frame time is the animation's start time, which lines 129-130 store when the animation starts |
| CameraControl.CameraController.OnMouseDown | components/WebGPUCanvas.tsx:282-286 | a press starts a drag at the pointer and changes nothing else |
| CameraControl.CameraController.OnMouseUp | components/WebGPUCanvas.tsx:288-290 | a release ends the drag and changes nothing else |
| CameraControl.CameraController.OnMouseMove | components/WebGPUCanvas.tsx:292-306 | nothing changes with the button up. During a drag the heading turns without bound, the pitch follows the clamped drag, and the position and keys stay |
| CameraControl.CameraController.OnWheel | components/WebGPUCanvas.tsx:308-315 | the wheel changes only `y`, to the clamped `y + deltaY/100` |
| CameraControl.CameraController.OnKeyDown | components/WebGPUCanvas.tsx:317-331 | typing in an input field changes nothing. Otherwise the named key's flag is set, the other flags stay, and the camera does not move |
| CameraControl.CameraController.OnKeyUp | components/WebGPUCanvas.tsx:333-342 | the named key's flag is cleared, the other flags stay, and the camera does not move |
| CameraControl.CameraController.WalkKeys | components/WebGPUCanvas.tsx:152-177 | the six key blocks and the clamp move `x`, `z` by the walk and `y` to the clamped rise |
| CameraControl.CameraController.Advance | components/WebGPUCanvas.tsx:141-178 | a frame's movement step moves the camera as `Moved` at speed `5 * dt` for the capped delta, and records the frame time |
| CameraControl.CameraController.Render | components/WebGPUCanvas.tsx:141-238 | a frame moves the camera as `Moved` at speed `5 * dt` for the capped frame delta. It keeps the angles, keeps a valid state valid, and uploads the payload of the new pose's uniforms |

## Left out

- IEEE `f32` rounding, overflow and NaN/Inf propagation: all arithmetic is on `real`. The square root of a negative number is modelled as never positive, which is how NaN behaves in the `>` tests that guard it.
- The exact values of `exp`, `pow`, `sin`, `cos` and `sqrt`: only the laws in `WgslMath.Lawful` are used.
- The hash value `n` that `noise` computes but never uses.
- The noise inside the density field is an abstract `Field` into `[0, 1)`, not `NoiseField.Noise` itself, so that proofs above the noise do not unfold eight hashes per lookup.
- `vs_main`, the per-pixel dispatch and the `uv` interpolation: the model shades one pixel given its `uv`.
- Sky colour inside the composite: the background colour (sky gradient, sun disk and ground with fog, lines 287-320) and the horizon colour (line 400) are parameters of `Raymarch.CloudPass` and `Raymarch.ShadePixel`. The sky function itself is modelled and proved non-negative.
- Lighting.GetLight: the colour of `get_light` is not proved non-negative. Its factors (`Powdered`, `Ambient`, cloud colour) are, one by one.
- Raymarch.Composite: only the empty-march case is stated. The fogged colour blend is not given a range.
- Raymarch.CloudPass: for a march through a sky that has cloud, it states only that there is a colour. The colour is not related to the samples beyond what `Raymarch.March` states.
- Raymarch.RayDirection: requires a non-zero screen ray. The shader normalises whatever it gets.
- Raymarch.ScreenRay, Raymarch.RayDirection and Raymarch.RayFollowsScreen require a non-zero render-target height, because the aspect ratio divides by it. A zero-height target has no fragments, so the shader never runs there.
- Lighting.HgPhase, Lighting.Phase, Lighting.GetLight, Raymarch.March, Raymarch.CloudPass and Raymarch.ShadePixel require the phase base to be positive, because the shader divides by its power there. `Lighting.PhaseDefined` shows that this holds for unit vectors and an anisotropy inside `(-1, 1)`.
- WgslMath.Smoothstep: requires distinct edges, because equal edges divide by zero. No call site passes equal edges.
- `remap`, the layer height masks and the stretch inside `remap` are defined only for bounds that differ, because the shader divides by their difference. Every call site passes distinct constants.
- A level ray inside the cloud slab divides by zero in the shader. The model returns no colour for it (`Slab.Degenerate`) instead of a NaN-driven result.
- The step size for `steps < 1` divides by zero in the shader, but it is never read because the loop stops at once. The model uses 0.
- Raymarch.March: the transmittance is stated sample by sample. The scattered light and the weighted depth are stated only through the balance invariant, not as sums over the samples.
- CameraControl.FrameUniforms: when `dir x worldUp` is no longer than 0.0001 (looking almost straight up or down), the fallback right vector `(1, 0, 0)` is not orthogonal to the view, and the up vector is then not a unit vector. The host code behaves the same way.
- WebGPU setup and submission, React hooks, `requestAnimationFrame` and the event wiring: these are platform calls. The clock reading `performance.now()` is the `now` parameter of `Render`.
- Canvas resizing from `devicePixelRatio` and the panel's resolution: the drawing-buffer width and height are parameters of `Render`.
- The `Float32Array` conversion of the payload to `f32`.
- `toLowerCase` is modelled for ASCII letters only.
- The camera's `radius` field, which nothing reads.
- The control panel, the app shell, the AI settings service and the default parameters: these are UI and network code.
