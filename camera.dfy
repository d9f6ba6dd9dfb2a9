/** The host side of components/WebGPUCanvas.tsx: the camera, keyboard and
    mouse state that the input handlers and the render loop update in place,
    the camera basis and sun direction each frame derives from it, and the
    32-float uniform payload written for the shader. */
module CameraControl {
  import opened WgslMath
  import opened ShaderUniforms

  /** The six movement keys the host tracks. */
  datatype MoveKey = W | A | S | D | R | F

  /** The flags of the six keys, as `keysRef` holds them. */
  datatype Keys = Keys(w: bool, a: bool, s: bool, d: bool, r: bool, f: bool)

  /** The camera as `cameraRef` holds it: pitch `phi`, heading `theta` and
      position. */
  datatype Pose = Pose(phi: real, theta: real, x: real, y: real, z: real)

  /** The mouse as `mouseRef` holds it. */
  datatype Mouse = Mouse(isDown: bool, lastX: real, lastY: real)

  /** The settings of the control panel that reach the shader. */
  datatype CloudParams = CloudParams(
    density: real, coverage: real,
    sunX: real, sunY: real, sunZ: real,
    windSpeed: real,
    colorR: real, colorG: real, colorB: real,
    scatteringAnisotropy: real, resolution: real, steps: real, haze: real)

  const MinAltitude: real := 0.1
  const MaxAltitude: real := 100.0
  const MaxPitch: real := 1.5

  /** The lower-case letter that names a key. */
  function Letter(k: MoveKey): char {
    match k
    case W => 'w'
    case A => 'a'
    case S => 's'
    case D => 'd'
    case R => 'r'
    case F => 'f'
  }

  /** `toLowerCase` on one character, for the Latin letters. */
  function LowerChar(c: char): char {
    if 'A' <= c <= 'Z' then (c as int + 32) as char else c
  }

  function ToLower(name: string): string {
    seq(|name|, i requires 0 <= i < |name| => LowerChar(name[i]))
  }

  /** The movement key a `KeyboardEvent.key` names, ignoring case: a key
      whose lower-cased name is one of the six letters, and no key for any
      other name. */
  function KeyOf(name: string): (k: Option<MoveKey>)
    ensures forall key :: k == Some(key) <==> ToLower(name) == [Letter(key)]
  {
    var lower := ToLower(name);
    if lower == "w" then Some(W)
    else if lower == "a" then Some(A)
    else if lower == "s" then Some(S)
    else if lower == "d" then Some(D)
    else if lower == "r" then Some(R)
    else if lower == "f" then Some(F)
    else None
  }

  /** Upper- and lower-case names select the same key. */
  lemma KeyIgnoresCase(k: MoveKey)
    ensures KeyOf([Letter(k)]) == Some(k)
    ensures KeyOf([(Letter(k) as int - 32) as char]) == Some(k)
  {
    assert ToLower([Letter(k)]) == [Letter(k)];
    assert ToLower([(Letter(k) as int - 32) as char]) == [Letter(k)];
  }

  /** The flag of key `k` in `keys`. */
  function Flag(keys: Keys, k: MoveKey): bool {
    match k
    case W => keys.w
    case A => keys.a
    case S => keys.s
    case D => keys.d
    case R => keys.r
    case F => keys.f
  }

  /** `keys` with the flag of `k` set to `down` and every other flag kept. */
  function WithFlag(keys: Keys, k: MoveKey, down: bool): (r: Keys)
    ensures Flag(r, k) == down
    ensures forall other :: other != k ==> Flag(r, other) == Flag(keys, other)
  {
    match k
    case W => keys.(w := down)
    case A => keys.(a := down)
    case S => keys.(s := down)
    case D => keys.(d := down)
    case R => keys.(r := down)
    case F => keys.(f := down)
  }

  /** What a key event named `name` does to the flags: the flag of the named
      movement key becomes `down`, and any other name changes nothing. */
  function KeyEvent(keys: Keys, name: string, down: bool): (r: Keys)
    ensures KeyOf(name).None? ==> r == keys
    ensures KeyOf(name).Some? ==> Flag(r, KeyOf(name).value) == down
    ensures forall k :: KeyOf(name) != Some(k) ==> Flag(r, k) == Flag(keys, k)
  {
    match KeyOf(name)
    case None => keys
    case Some(k) => WithFlag(keys, k, down)
  }

  /** Pressing and then releasing the same key leaves its flag clear and the
      other flags as they were. */
  lemma PressRelease(keys: Keys, name: string, k: MoveKey)
    ensures Flag(KeyEvent(KeyEvent(keys, name, true), name, false), k)
            == (if KeyOf(name) == Some(k) then false else Flag(keys, k))
  {
  }

  /** Whether any of the six keys is held. */
  predicate AnyHeld(keys: Keys) {
    keys.w || keys.a || keys.s || keys.d || keys.r || keys.f
  }

  /** The frame delta in seconds: the elapsed milliseconds over 1000, capped
      at a tenth of a second. */
  function FrameDelta(last: real, now: real): (dt: real)
    ensures dt <= 0.1
    ensures last <= now ==> 0.0 <= dt
    ensures now - last <= 100.0 ==> dt == (now - last) / 1000.0
    ensures now - last >= 100.0 ==> dt == 0.1
  {
    Min((now - last) / 1000.0, 0.1)
  }

  /** The horizontal step the W, S, D and A keys make for a frame whose
      forward step is `(forwardX, forwardZ)`: W adds the forward step, S
      subtracts it, D adds the step to the right `(forwardZ, -forwardX)`,
      A subtracts it. */
  function Walk(keys: Keys, forwardX: real, forwardZ: real): (real, real) {
    var dx := (if keys.w then forwardX else 0.0) - (if keys.s then forwardX else 0.0)
              + (if keys.d then forwardZ else 0.0) - (if keys.a then forwardZ else 0.0);
    var dz := (if keys.w then forwardZ else 0.0) - (if keys.s then forwardZ else 0.0)
              - (if keys.d then forwardX else 0.0) + (if keys.a then forwardX else 0.0);
    (dx, dz)
  }

  /** The vertical step of the R and F keys. */
  function Rise(keys: Keys, speed: real): real {
    (if keys.r then speed else 0.0) - (if keys.f then speed else 0.0)
  }

  /** Holding opposite keys together cancels: W with S, and D with A. */
  lemma OppositeKeysCancel(keys: Keys, forwardX: real, forwardZ: real, speed: real)
    ensures Walk(keys.(w := true, s := true), forwardX, forwardZ)
            == Walk(keys.(w := false, s := false), forwardX, forwardZ)
    ensures Walk(keys.(d := true, a := true), forwardX, forwardZ)
            == Walk(keys.(d := false, a := false), forwardX, forwardZ)
    ensures Rise(keys.(r := true, f := true), speed) == 0.0
  {
  }

  /** The four walking keys do not move the camera vertically and the R and
      F keys do not move it horizontally. */
  lemma WalkIsHorizontal(keys: Keys, forwardX: real, forwardZ: real, speed: real)
    ensures Rise(keys.(w := !keys.w, a := !keys.a, s := !keys.s, d := !keys.d), speed) == Rise(keys, speed)
    ensures Walk(keys.(r := !keys.r, f := !keys.f), forwardX, forwardZ) == Walk(keys, forwardX, forwardZ)
  {
  }

  /** A single walking key held alone moves the camera by exactly `speed`
      in the horizontal plane. */
  lemma SingleKeyStep(m: Transcendentals, theta: real, speed: real, k: MoveKey)
    requires Lawful(m) && k != R && k != F
    ensures var step := Walk(WithFlag(Keys(false, false, false, false, false, false), k, true),
                             m.sin(theta) * speed, m.cos(theta) * speed);
            step.0 * step.0 + step.1 * step.1 == speed * speed
  {
    var sinT, cosT := m.sin(theta), m.cos(theta);
    assert sinT * sinT + cosT * cosT == 1.0;
    var sq := speed * speed;
    assert (sinT * speed) * (sinT * speed) + (cosT * speed) * (cosT * speed) == (sinT * sinT + cosT * cosT) * sq;
  }

  /** The camera pose after a frame with keys `keys` held, moving `speed`
      units per key: nothing moves unless a key is held; otherwise W, S, D
      and A walk along the heading, R and F climb and sink, and the altitude
      is clamped. */
  function Moved(m: Transcendentals, pose: Pose, keys: Keys, speed: real): Pose {
    if AnyHeld(keys) then
      var step := Walk(keys, m.sin(pose.theta) * speed, m.cos(pose.theta) * speed);
      pose.(x := pose.x + step.0, z := pose.z + step.1, y := ClampAltitude(pose.y + Rise(keys, speed)))
    else
      pose
  }

  /** With some key held, `Moved` is the pose shifted by the walk along the
      heading `(forwardX, forwardZ)` and by the clamped rise. */
  lemma MovedStep(m: Transcendentals, pose: Pose, keys: Keys, speed: real, forwardX: real, forwardZ: real)
    requires AnyHeld(keys)
    requires forwardX == m.sin(pose.theta) * speed && forwardZ == m.cos(pose.theta) * speed
    ensures Moved(m, pose, keys, speed)
            == Pose(pose.phi, pose.theta, pose.x + Walk(keys, forwardX, forwardZ).0,
                    ClampAltitude(pose.y + Rise(keys, speed)), pose.z + Walk(keys, forwardX, forwardZ).1)
  {
    var step := Walk(keys, forwardX, forwardZ);
    var y := ClampAltitude(pose.y + Rise(keys, speed));
    assert Moved(m, pose, keys, speed) == pose.(x := pose.x + step.0, z := pose.z + step.1, y := y);
  }

  /** Moving never turns the camera, and keeps a valid altitude valid; with
      some key held the altitude always ends inside `[0.1, 100]`, and with no
      key held nothing moves. */
  lemma MovedKeepsValid(m: Transcendentals, pose: Pose, keys: Keys, speed: real)
    ensures var after := Moved(m, pose, keys, speed);
            after.phi == pose.phi && after.theta == pose.theta
            && (AnyHeld(keys) ==> MinAltitude <= after.y <= MaxAltitude)
            && (!AnyHeld(keys) ==> after == pose)
  {
  }

  /** The altitude clamp of the render loop and the wheel handler: first
      raised to 0.1, then lowered to 100. */
  function ClampAltitude(y: real): (r: real)
    ensures MinAltitude <= r <= MaxAltitude
    ensures MinAltitude <= y <= MaxAltitude ==> r == y
    ensures y < MinAltitude ==> r == MinAltitude
    ensures y > MaxAltitude ==> r == MaxAltitude
  {
    var r := if y < MinAltitude then MinAltitude else y;
    if r > MaxAltitude then MaxAltitude else r
  }

  /** The pitch after a vertical mouse drag of `deltaY` pixels:
      `phi - 0.005 deltaY`, clamped to `[-1.5, 1.5]`. */
  function Pitch(phi: real, deltaY: real): (r: real)
    ensures -MaxPitch <= r <= MaxPitch
    ensures -MaxPitch <= phi - deltaY * 0.005 <= MaxPitch ==> r == phi - deltaY * 0.005
  {
    Max(-MaxPitch, Min(MaxPitch, phi - deltaY * 0.005))
  }

  /** `Cross(a, b)`, the cross product. */
  function Cross(a: Vec3, b: Vec3): Vec3 {
    Vec3(a.y * b.z - a.z * b.y, a.z * b.x - a.x * b.z, a.x * b.y - a.y * b.x)
  }

  /** The cross product is orthogonal to both of its factors. */
  lemma CrossOrthogonal(a: Vec3, b: Vec3)
    ensures Dot(Cross(a, b), a) == 0.0 && Dot(Cross(a, b), b) == 0.0
  {
  }

  const WorldUp := Vec3(0.0, 1.0, 0.0)

  /** Lagrange's identity: the squared length of a cross product is the
      product of the squared lengths less the squared dot product, so the
      cross product of two orthogonal unit vectors is a unit vector. */
  lemma CrossLength(a: Vec3, b: Vec3)
    ensures Dot(Cross(a, b), Cross(a, b)) == Dot(a, a) * Dot(b, b) - Dot(a, b) * Dot(a, b)
  {
  }

  /** The view direction for pitch `phi` and heading `theta`: a unit
      vector whose height is `sin(phi)`. */
  function Direction(m: Transcendentals, phi: real, theta: real): (r: Vec3)
    requires Lawful(m)
    ensures Dot(r, r) == 1.0
    ensures r.y == m.sin(phi)
  {
    var cp, sp, st, ct := m.cos(phi), m.sin(phi), m.sin(theta), m.cos(theta);
    var horizontal := cp * cp;
    assert st * st + ct * ct == 1.0 && sp * sp + cp * cp == 1.0;
    assert (cp * st) * (cp * st) + (cp * ct) * (cp * ct) == horizontal * (st * st + ct * ct);
    Vec3(cp * st, sp, cp * ct)
  }

  /** A positive length means a non-zero vector. */
  lemma PositiveLength(m: Transcendentals, v: Vec3)
    requires Lawful(m) && Length(m, v) > 0.0
    ensures Dot(v, v) > 0.0
  {
  }

  /** Scaling a vector orthogonal to `b` keeps it orthogonal. */
  lemma ScaledOrthogonal(v: Vec3, b: Vec3, len: real)
    requires len != 0.0 && Dot(v, b) == 0.0
    ensures Dot(Vec3(v.x / len, v.y / len, v.z / len), b) == 0.0
  {
    assert Dot(Vec3(v.x / len, v.y / len, v.z / len), b) == Dot(v, b) / len;
  }

  /** The camera's right vector: `dir x worldUp`, normalised when its
      length exceeds 0.0001 and `(1, 0, 0)` otherwise. It is horizontal,
      and in the first case a unit vector orthogonal to the view. */
  function RightVector(m: Transcendentals, dir: Vec3): (r: Vec3)
    requires Lawful(m)
    ensures r.y == 0.0
    ensures Length(m, Cross(dir, WorldUp)) > 0.0001 ==> Dot(r, r) == 1.0 && Dot(r, dir) == 0.0
    ensures Length(m, Cross(dir, WorldUp)) <= 0.0001 ==> r == Vec3(1.0, 0.0, 0.0)
  {
    var right := Cross(dir, WorldUp);
    var len := Length(m, right);
    if len > 0.0001 then
      PositiveLength(m, right);
      CrossOrthogonal(dir, WorldUp);
      ScaledOrthogonal(right, dir, len);
      Normalize(m, right)
    else
      Vec3(1.0, 0.0, 0.0)
  }

  /** The normalised sun direction, or straight up when the panel's sun
      vector has length 0; a unit vector either way. */
  function SunDirection(m: Transcendentals, p: CloudParams): (r: Vec3)
    requires Lawful(m)
    ensures Dot(r, r) == 1.0
    ensures Length(m, Vec3(p.sunX, p.sunY, p.sunZ)) <= 0.0 ==> r == WorldUp
  {
    var sun := Vec3(p.sunX, p.sunY, p.sunZ);
    if Length(m, sun) > 0.0 then
      PositiveLength(m, sun);
      Normalize(m, sun)
    else
      WorldUp
  }

  /** The sun points along the panel's sun vector: its component along that
      vector is the vector's whole length. */
  lemma SunFollowsPanel(m: Transcendentals, p: CloudParams)
    requires Lawful(m)
    ensures var sun := Vec3(p.sunX, p.sunY, p.sunZ);
            Length(m, sun) > 0.0 ==> Dot(SunDirection(m, p), sun) == Length(m, sun)
  {
    var sun := Vec3(p.sunX, p.sunY, p.sunZ);
    if Length(m, sun) > 0.0 {
      PositiveLength(m, sun);
      NormalizeKeepsDirection(m, sun);
    }
  }

  /** Outside the fallback the right vector points along `dir x worldUp`,
      not against it, so the camera basis is not mirrored. */
  lemma RightFollowsCross(m: Transcendentals, dir: Vec3)
    requires Lawful(m)
    ensures var cross := Cross(dir, WorldUp);
            Length(m, cross) > 0.0001 ==> Dot(RightVector(m, dir), cross) == Length(m, cross)
  {
    var cross := Cross(dir, WorldUp);
    if Length(m, cross) > 0.0001 {
      PositiveLength(m, cross);
      NormalizeKeepsDirection(m, cross);
    }
  }

  /** The uniforms the render loop uploads for camera pose `pose`, panel
      settings `p`, a drawing buffer of `width` by `height` and the time
      `time` in seconds. The camera's up vector is orthogonal to its view
      and right vectors, the right vector is horizontal, the view and sun
      vectors are unit vectors, and every padding float is 0. */
  function FrameUniforms(m: Transcendentals, pose: Pose, p: CloudParams,
                         width: real, height: real, time: real): (u: Uniforms)
    requires Lawful(m)
    ensures Dot(u.cameraDir, u.cameraDir) == 1.0 && Dot(u.sunDir, u.sunDir) == 1.0
    ensures u.cameraRight.y == 0.0
    ensures Dot(u.cameraUp, u.cameraDir) == 0.0 && Dot(u.cameraUp, u.cameraRight) == 0.0
    ensures u.padding0 == u.padding1 == u.padding2 == u.padding3 == u.padding4 == 0.0
    ensures u.cameraPos == Vec3(pose.x, pose.y, pose.z)
    ensures Length(m, Cross(Direction(m, pose.phi, pose.theta), WorldUp)) > 0.0001 ==>
              Dot(u.cameraRight, u.cameraRight) == 1.0 && Dot(u.cameraRight, u.cameraDir) == 0.0
              && Dot(u.cameraUp, u.cameraUp) == 1.0
  {
    var dir := Direction(m, pose.phi, pose.theta);
    var right := RightVector(m, dir);
    var up := Cross(right, dir);
    CrossOrthogonal(right, dir);
    CrossLength(right, dir);
    Uniforms(width, height, time, 0.0,
             Vec3(pose.x, pose.y, pose.z), 0.0,
             dir, 0.0,
             up, 0.0,
             right, 0.0,
             SunDirection(m, p), p.haze,
             Vec3(p.colorR, p.colorG, p.colorB), p.density,
             p.coverage, p.windSpeed, p.scatteringAnisotropy, p.steps)
  }

  /** The panel's settings, the camera position, the camera basis and the sun
      direction land in the payload at the slots the shader reads them from. */
  lemma SettingsInPayload(m: Transcendentals, pose: Pose, p: CloudParams, width: real, height: real, time: real)
    requires Lawful(m)
    ensures var payload := ToPayload(FrameUniforms(m, pose, p, width, height, time));
            var dir := Direction(m, pose.phi, pose.theta);
            var right := RightVector(m, dir);
            var up := Cross(right, dir);
            var sun := SunDirection(m, p);
            |payload| == PayloadLength
            && payload[23] == p.haze && payload[27] == p.density && payload[31] == p.steps
            && payload[24] == p.colorR && payload[25] == p.colorG && payload[26] == p.colorB
            && payload[28] == p.coverage && payload[29] == p.windSpeed
            && payload[30] == p.scatteringAnisotropy
            && payload[4] == pose.x && payload[5] == pose.y && payload[6] == pose.z
            && payload[8] == dir.x && payload[9] == dir.y && payload[10] == dir.z
            && payload[12] == up.x && payload[13] == up.y && payload[14] == up.z
            && payload[16] == right.x && payload[17] == right.y && payload[18] == right.z
            && payload[20] == sun.x && payload[21] == sun.y && payload[22] == sun.z
  {
  }

  /** `Normalize` divides each component by the length. */
  lemma NormalizeComponents(m: Transcendentals, v: Vec3, len: real)
    requires Lawful(m) && Dot(v, v) > 0.0 && len == Length(m, v)
    ensures Normalize(m, v) == Vec3(v.x / len, v.y / len, v.z / len)
  {
  }

  /** The view direction from the spherical angles, component by component. */
  method ViewVector(m: Transcendentals, phi: real, theta: real) returns (dirX: real, dirY: real, dirZ: real)
    requires Lawful(m)
    ensures Vec3(dirX, dirY, dirZ) == Direction(m, phi, theta)
  {
    dirX := m.cos(phi) * m.sin(theta);
    dirY := m.sin(phi);
    dirZ := m.cos(phi) * m.cos(theta);
  }

  /** The right vector `dir x worldUp` with `worldUp = (0, 1, 0)`,
      normalised when its length exceeds 0.0001 and `(1, 0, 0)` otherwise. */
  method RightVectorOf(m: Transcendentals, dirX: real, dirY: real, dirZ: real)
      returns (rightX: real, rightY: real, rightZ: real)
    requires Lawful(m)
    ensures Vec3(rightX, rightY, rightZ) == RightVector(m, Vec3(dirX, dirY, dirZ))
    ensures rightY == 0.0
  {
    var worldUp := [0.0, 1.0, 0.0];
    rightX := dirY * worldUp[2] - dirZ * worldUp[1];
    rightY := dirZ * worldUp[0] - dirX * worldUp[2];
    rightZ := dirX * worldUp[1] - dirY * worldUp[0];
    ghost var cross := Cross(Vec3(dirX, dirY, dirZ), WorldUp);
    assert Vec3(rightX, rightY, rightZ) == cross;
    var square := rightX * rightX + rightY * rightY + rightZ * rightZ;
    assert square == Dot(cross, cross);
    var lenRight := m.sqrt(square);
    if lenRight > 0.0001 {
      PositiveLength(m, cross);
      NormalizeComponents(m, cross, lenRight);
      rightX, rightY, rightZ := rightX / lenRight, rightY / lenRight, rightZ / lenRight;
    } else {
      rightX, rightY, rightZ := 1.0, 0.0, 0.0;
    }
  }

  /** The up vector `right x dir`, component by component. */
  method UpVectorOf(rightX: real, rightY: real, rightZ: real, dirX: real, dirY: real, dirZ: real)
      returns (upX: real, upY: real, upZ: real)
    ensures Vec3(upX, upY, upZ) == Cross(Vec3(rightX, rightY, rightZ), Vec3(dirX, dirY, dirZ))
  {
    upX := rightY * dirZ - rightZ * dirY;
    upY := rightZ * dirX - rightX * dirZ;
    upZ := rightX * dirY - rightY * dirX;
  }

  /** The panel's sun vector normalised, or straight up when its length is
      not positive. */
  method SunVector(m: Transcendentals, p: CloudParams) returns (sunDir: seq<real>)
    requires Lawful(m)
    ensures |sunDir| == 3 && Vec3(sunDir[0], sunDir[1], sunDir[2]) == SunDirection(m, p)
  {
    ghost var sun := Vec3(p.sunX, p.sunY, p.sunZ);
    var square := p.sunX * p.sunX + p.sunY * p.sunY + p.sunZ * p.sunZ;
    assert square == Dot(sun, sun);
    var sunLen := m.sqrt(square);
    if sunLen > 0.0 {
      PositiveLength(m, sun);
      NormalizeComponents(m, sun, sunLen);
      sunDir := [p.sunX / sunLen, p.sunY / sunLen, p.sunZ / sunLen];
    } else {
      sunDir := [0.0, 1.0, 0.0];
    }
  }

  /** The uniforms of a frame, field by field. */
  lemma FrameUniformsFields(m: Transcendentals, pose: Pose, p: CloudParams,
                            width: real, height: real, time: real,
                            dir: Vec3, right: Vec3, sun: Vec3)
    requires Lawful(m)
    requires dir == Direction(m, pose.phi, pose.theta) && right == RightVector(m, dir)
    requires sun == SunDirection(m, p)
    ensures FrameUniforms(m, pose, p, width, height, time)
            == Uniforms(width, height, time, 0.0, Vec3(pose.x, pose.y, pose.z), 0.0,
                        dir, 0.0, Cross(right, dir), 0.0, right, 0.0, sun, p.haze,
                        Vec3(p.colorR, p.colorG, p.colorB), p.density,
                        p.coverage, p.windSpeed, p.scatteringAnisotropy, p.steps)
  {
  }

  /** The camera-vector and upload part of a frame, for the camera pose
      `pose`: the view direction from the angles, the right vector, the up
      vector as `right x dir`, the sun vector, and the 32 floats in the
      order of the shader's struct. */
  method FramePayload(m: Transcendentals, pose: Pose, p: CloudParams,
                      width: real, height: real, time: real) returns (payload: seq<real>)
    requires Lawful(m)
    ensures payload == ToPayload(FrameUniforms(m, pose, p, width, height, time))
  {
    var dirX, dirY, dirZ := ViewVector(m, pose.phi, pose.theta);
    var rightX, rightY, rightZ := RightVectorOf(m, dirX, dirY, dirZ);
    var upX, upY, upZ := UpVectorOf(rightX, rightY, rightZ, dirX, dirY, dirZ);
    var sunDir := SunVector(m, p);
    payload := [width, height, time, 0.0,
                pose.x, pose.y, pose.z, 0.0,
                dirX, dirY, dirZ, 0.0,
                upX, upY, upZ, 0.0,
                rightX, rightY, rightZ, 0.0,
                sunDir[0], sunDir[1], sunDir[2], p.haze,
                p.colorR, p.colorG, p.colorB, p.density,
                p.coverage, p.windSpeed, p.scatteringAnisotropy, p.steps];
    ghost var dir, right := Vec3(dirX, dirY, dirZ), Vec3(rightX, rightY, rightZ);
    FrameUniformsFields(m, pose, p, width, height, time, dir, right, Vec3(sunDir[0], sunDir[1], sunDir[2]));
    assert FromPayload(payload) == FrameUniforms(m, pose, p, width, height, time);
    PackAfterRead(payload);
  }

  /** The camera, key and mouse state of the canvas component. */
  class CameraController {
    var phi: real
    var theta: real
    var x: real
    var y: real
    var z: real
    var keys: Keys
    var mouse: Mouse
    var lastFrameTime: real

    /** The pitch stays within `[-1.5, 1.5]` and the altitude within
        `[0.1, 100]`. */
    predicate Valid()
      reads this
    {
      -MaxPitch <= phi <= MaxPitch && MinAltitude <= y <= MaxAltitude
    }

    function CurrentPose(): Pose
      reads this
    {
      Pose(phi, theta, x, y, z)
    }

    /** The state when the animation loop starts at `startTime`. */
    constructor(startTime: real)
      ensures CurrentPose() == Pose(0.2, 0.0, 0.0, 1.0, 0.0)
      ensures keys == Keys(false, false, false, false, false, false)
      ensures mouse == Mouse(false, 0.0, 0.0)
      ensures lastFrameTime == startTime
      ensures Valid()
    {
      phi := 0.2;
      theta := 0.0;
      x := 0.0;
      y := 1.0;
      z := 0.0;
      keys := Keys(false, false, false, false, false, false);
      mouse := Mouse(false, 0.0, 0.0);
      lastFrameTime := startTime;
    }

    /** `onMouseDown`: start a drag at the pointer. */
    method OnMouseDown(clientX: real, clientY: real)
      modifies this
      ensures mouse == Mouse(true, clientX, clientY)
      ensures CurrentPose() == old(CurrentPose()) && keys == old(keys)
      ensures lastFrameTime == old(lastFrameTime)
    {
      mouse := Mouse(true, clientX, clientY);
    }

    /** `onMouseUp`: end the drag. */
    method OnMouseUp()
      modifies this
      ensures mouse == old(mouse).(isDown := false)
      ensures CurrentPose() == old(CurrentPose()) && keys == old(keys)
      ensures lastFrameTime == old(lastFrameTime)
    {
      mouse := mouse.(isDown := false);
    }

    /** `onMouseMove`: nothing while the button is up; during a drag the
        heading turns with the horizontal movement, without bound, and the
        pitch follows the vertical movement, clamped to `[-1.5, 1.5]`. */
    method OnMouseMove(clientX: real, clientY: real)
      modifies this
      ensures !old(mouse.isDown) ==> CurrentPose() == old(CurrentPose()) && mouse == old(mouse)
      ensures old(mouse.isDown) ==> mouse == Mouse(true, clientX, clientY)
      ensures old(mouse.isDown) ==> theta == old(theta) + (clientX - old(mouse.lastX)) * 0.005
      ensures old(mouse.isDown) ==> phi == Pitch(old(phi), clientY - old(mouse.lastY))
      ensures x == old(x) && y == old(y) && z == old(z)
      ensures keys == old(keys) && lastFrameTime == old(lastFrameTime)
      ensures old(Valid()) ==> Valid()
    {
      if !mouse.isDown {
        return;
      }
      var deltaX := clientX - mouse.lastX;
      var deltaY := clientY - mouse.lastY;
      mouse := mouse.(lastX := clientX, lastY := clientY);
      theta := theta + deltaX * 0.005;
      phi := phi - deltaY * 0.005;
      phi := Max(-MaxPitch, Min(MaxPitch, phi));
    }

    /** `onWheel`: move the camera up or down by a hundredth of the wheel
        delta, then clamp the altitude; nothing else changes. */
    method OnWheel(deltaY: real)
      modifies this
      ensures y == ClampAltitude(old(y) + deltaY * 0.01)
      ensures phi == old(phi) && theta == old(theta) && x == old(x) && z == old(z)
      ensures keys == old(keys) && mouse == old(mouse) && lastFrameTime == old(lastFrameTime)
      ensures old(Valid()) ==> Valid()
    {
      y := y + deltaY * 0.01;
      if y < MinAltitude {
        y := MinAltitude;
      }
      if y > MaxAltitude {
        y := MaxAltitude;
      }
    }

    /** `onKeyDown`: ignored while the user types into an input field;
        otherwise it sets the flag of the named movement key. */
    method OnKeyDown(name: string, typing: bool)
      modifies this
      ensures keys == (if typing then old(keys) else KeyEvent(old(keys), name, true))
      ensures CurrentPose() == old(CurrentPose())
      ensures mouse == old(mouse) && lastFrameTime == old(lastFrameTime)
    {
      if typing {
        return;
      }
      match KeyOf(name) {
        case None =>
        case Some(k) =>
          match k {
            case W => keys := keys.(w := true);
            case A => keys := keys.(a := true);
            case S => keys := keys.(s := true);
            case D => keys := keys.(d := true);
            case R => keys := keys.(r := true);
            case F => keys := keys.(f := true);
          }
      }
    }

    /** `onKeyUp`: clears the flag of the named movement key. */
    method OnKeyUp(name: string)
      modifies this
      ensures keys == KeyEvent(old(keys), name, false)
      ensures CurrentPose() == old(CurrentPose())
      ensures mouse == old(mouse) && lastFrameTime == old(lastFrameTime)
    {
      match KeyOf(name) {
        case None =>
        case Some(k) =>
          match k {
            case W => keys := keys.(w := false);
            case A => keys := keys.(a := false);
            case S => keys := keys.(s := false);
            case D => keys := keys.(d := false);
            case R => keys := keys.(r := false);
            case F => keys := keys.(f := false);
          }
      }
    }

    /** The key blocks of the movement step: each held walking key moves the
        camera by the heading step `(forwardX, forwardZ)` or its quarter
        turn, R and F move it up and down by `speed`, and the altitude is
        clamped. */
    method WalkKeys(forwardX: real, forwardZ: real, speed: real)
      modifies this
      ensures x == old(x) + Walk(keys, forwardX, forwardZ).0
      ensures z == old(z) + Walk(keys, forwardX, forwardZ).1
      ensures y == ClampAltitude(old(y) + Rise(keys, speed))
      ensures phi == old(phi) && theta == old(theta)
      ensures keys == old(keys) && mouse == old(mouse) && lastFrameTime == old(lastFrameTime)
    {
      var cx, cy, cz := x, y, z;
      if keys.w {
        cx, cz := cx + forwardX, cz + forwardZ;
      }
      if keys.s {
        cx, cz := cx - forwardX, cz - forwardZ;
      }
      assert cx == x + (if keys.w then forwardX else 0.0) - (if keys.s then forwardX else 0.0);
      assert cz == z + (if keys.w then forwardZ else 0.0) - (if keys.s then forwardZ else 0.0);
      if keys.d {
        cx, cz := cx + forwardZ, cz - forwardX;
      }
      if keys.a {
        cx, cz := cx - forwardZ, cz + forwardX;
      }
      assert cx == x + Walk(keys, forwardX, forwardZ).0;
      assert cz == z + Walk(keys, forwardX, forwardZ).1;
      if keys.r {
        cy := cy + speed;
      }
      if keys.f {
        cy := cy - speed;
      }
      assert cy == y + Rise(keys, speed);
      if cy < MinAltitude {
        cy := MinAltitude;
      }
      if cy > MaxAltitude {
        cy := MaxAltitude;
      }
      x, y, z := cx, cy, cz;
    }

    /** The movement part of a frame at time `now` (milliseconds): the
        capped frame delta sets the speed, and the held keys move the camera
        as `Moved` says. Pitch, heading, keys and mouse are untouched. */
    method Advance(m: Transcendentals, now: real)
      modifies this
      ensures lastFrameTime == now
      ensures CurrentPose() == Moved(m, old(CurrentPose()), old(keys), 5.0 * FrameDelta(old(lastFrameTime), now))
      ensures keys == old(keys) && mouse == old(mouse)
    {
      var dt := FrameDelta(lastFrameTime, now);
      lastFrameTime := now;
      var moveSpeed := 5.0 * dt;
      ghost var pose := CurrentPose();
      if keys.w || keys.s || keys.a || keys.d || keys.r || keys.f {
        var sinT := m.sin(theta);
        var cosT := m.cos(theta);
        var forwardX, forwardZ := sinT * moveSpeed, cosT * moveSpeed;
        MovedStep(m, pose, keys, moveSpeed, forwardX, forwardZ);
        WalkKeys(forwardX, forwardZ, moveSpeed);
      }
    }

    /** One frame of the render loop at time `now`, the loop having started
        at `startTime`: the movement step, then the camera basis, the sun
        direction and the payload for a `width` by `height` drawing buffer. */
    method Render(m: Transcendentals, now: real, startTime: real, p: CloudParams,
                  width: real, height: real) returns (payload: seq<real>)
      requires Lawful(m)
      modifies this
      ensures CurrentPose() == Moved(m, old(CurrentPose()), old(keys), 5.0 * FrameDelta(old(lastFrameTime), now))
      ensures payload == ToPayload(FrameUniforms(m, CurrentPose(), p, width, height, (now - startTime) / 1000.0))
      ensures lastFrameTime == now
      ensures phi == old(phi) && theta == old(theta)
      ensures keys == old(keys) && mouse == old(mouse)
      ensures old(Valid()) ==> Valid()
    {
      ghost var before := CurrentPose();
      Advance(m, now);
      MovedKeepsValid(m, before, keys, 5.0 * FrameDelta(old(lastFrameTime), now));
      payload := FramePayload(m, CurrentPose(), p, width, height, (now - startTime) / 1000.0);
    }
  }
}
