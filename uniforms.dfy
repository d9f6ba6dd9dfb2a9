/** The uniform block the host writes and the shader reads: the WGSL
    `Uniforms` struct (shaders/cloudShader.ts, lines 3-23), its memory layout
    under the WGSL alignment rules, and the 32-float payload the host packs
    into it (components/WebGPUCanvas.tsx, lines 228-238). */
module ShaderUniforms {
  import opened WgslMath

  /** The struct, member by member in declaration order, padding included. */
  datatype Uniforms = Uniforms(
    resolutionX: real, resolutionY: real,
    time: real, padding0: real,
    cameraPos: Vec3, padding1: real,
    cameraDir: Vec3, padding2: real,
    cameraUp: Vec3, padding3: real,
    cameraRight: Vec3, padding4: real,
    sunDir: Vec3, haze: real,
    cloudColor: Vec3, densityMultiplier: real,
    coverage: real, windSpeed: real, anisotropy: real, steps: real)

  /** The WGSL types of the struct's members. */
  datatype MemberType = F32 | Vec2F | Vec3F

  /** Byte alignment of a member type in the uniform address space. */
  function AlignOf(t: MemberType): nat {
    match t
    case F32 => 4
    case Vec2F => 8
    case Vec3F => 16
  }

  /** Byte size of a member type. */
  function SizeOf(t: MemberType): nat {
    match t
    case F32 => 4
    case Vec2F => 8
    case Vec3F => 12
  }

  /** Number of members of `Uniforms`. */
  const MemberCount: nat := 19

  /** The type of member `i` of `Uniforms`, in declaration order. */
  function Layout(i: nat): MemberType {
    match i
    case 0 => Vec2F
    case 3 => Vec3F
    case 5 => Vec3F
    case 7 => Vec3F
    case 9 => Vec3F
    case 11 => Vec3F
    case 13 => Vec3F
    case _ => F32
  }

  /** Whether a member of type `t` may start at byte offset `n`. */
  predicate Aligned(n: nat, t: MemberType) {
    match t
    case F32 => n % 4 == 0
    case Vec2F => n % 8 == 0
    case Vec3F => n % 16 == 0
  }

  /** Whether the WGSL layout rules put a member of type `t` at byte `offset`
      when the member before it ends at byte `end`: the first offset at or
      after `end` that the alignment of `t` allows. */
  predicate PlacedAfter(offset: nat, end: nat, t: MemberType) {
    Aligned(offset, t) && end <= offset < end + AlignOf(t)
  }

  /** The rule leaves no choice: at most one offset is placed after `end`. */
  lemma PlacementIsUnique(a: nat, b: nat, end: nat, t: MemberType)
    requires PlacedAfter(a, end, t) && PlacedAfter(b, end, t)
    ensures a == b
  {
    match t
    case F32 =>
      assert a % 4 == 0 && b % 4 == 0 && a - b < 4 && b - a < 4;
    case Vec2F =>
      assert a % 8 == 0 && b % 8 == 0 && a - b < 8 && b - a < 8;
    case Vec3F =>
      assert a % 16 == 0 && b % 16 == 0 && a - b < 16 && b - a < 16;
  }

  /** The index of member `i`'s first float in the host's payload. */
  function Slot(i: nat): nat {
    match i
    case 0 => 0
    case 1 => 2
    case 2 => 3
    case 3 => 4
    case 4 => 7
    case 5 => 8
    case 6 => 11
    case 7 => 12
    case 8 => 15
    case 9 => 16
    case 10 => 19
    case 11 => 20
    case 12 => 23
    case 13 => 24
    case 14 => 27
    case 15 => 28
    case 16 => 29
    case 17 => 30
    case _ => 31
  }

  /** The host's payload follows the WGSL layout of `Uniforms`: the first
      member is at byte 0 and every later member starts at its slot, exactly
      where the layout rules place it after the member before it. */
  lemma PayloadFollowsLayout(i: nat)
    requires 0 < i < MemberCount
    ensures Slot(0) == 0
    ensures PlacedAfter(4 * Slot(i), 4 * Slot(i - 1) + SizeOf(Layout(i - 1)), Layout(i))
  {
  }

  /** The struct, its size rounded up to its 16-byte alignment, is 128 bytes:
      the 32 floats of the payload, which fit the 256-byte buffer. */
  lemma StructFitsBuffer()
    ensures PlacedAfter(4 * PayloadLength, 4 * Slot(MemberCount - 1) + SizeOf(Layout(MemberCount - 1)), Vec3F)
    ensures 4 * PayloadLength <= BufferBytes
  {
  }

  /** Size in bytes of the uniform buffer the host allocates. */
  const BufferBytes: nat := 256

  /** Number of 32-bit floats in the payload. */
  const PayloadLength: nat := 32

  /** The components of member `i` of `u`. */
  function Member(u: Uniforms, i: nat): (r: seq<real>)
    requires i < MemberCount
    ensures 4 * |r| == SizeOf(Layout(i))
  {
    match i
    case 0 => [u.resolutionX, u.resolutionY]
    case 1 => [u.time]
    case 2 => [u.padding0]
    case 3 => Components(u.cameraPos)
    case 4 => [u.padding1]
    case 5 => Components(u.cameraDir)
    case 6 => [u.padding2]
    case 7 => Components(u.cameraUp)
    case 8 => [u.padding3]
    case 9 => Components(u.cameraRight)
    case 10 => [u.padding4]
    case 11 => Components(u.sunDir)
    case 12 => [u.haze]
    case 13 => Components(u.cloudColor)
    case 14 => [u.densityMultiplier]
    case 15 => [u.coverage]
    case 16 => [u.windSpeed]
    case 17 => [u.anisotropy]
    case _ => [u.steps]
  }

  function Components(v: Vec3): seq<real> { [v.x, v.y, v.z] }

  /** The `Float32Array` the host writes into the buffer. */
  function ToPayload(u: Uniforms): (s: seq<real>)
    ensures |s| == PayloadLength
  {
    [u.resolutionX, u.resolutionY, u.time, u.padding0]
      + Components(u.cameraPos) + [u.padding1]
      + Components(u.cameraDir) + [u.padding2]
      + Components(u.cameraUp) + [u.padding3]
      + Components(u.cameraRight) + [u.padding4]
      + Components(u.sunDir) + [u.haze]
      + Components(u.cloudColor) + [u.densityMultiplier]
      + [u.coverage, u.windSpeed, u.anisotropy, u.steps]
  }

  /** How the shader reads the struct back out of a 32-float buffer. */
  function FromPayload(s: seq<real>): Uniforms
    requires |s| == PayloadLength
  {
    Uniforms(s[0], s[1], s[2], s[3],
             Vec3(s[4], s[5], s[6]), s[7],
             Vec3(s[8], s[9], s[10]), s[11],
             Vec3(s[12], s[13], s[14]), s[15],
             Vec3(s[16], s[17], s[18]), s[19],
             Vec3(s[20], s[21], s[22]), s[23],
             Vec3(s[24], s[25], s[26]), s[27],
             s[28], s[29], s[30], s[31])
  }

  /** Every component of every member lands in the payload at its member's slot. */
  lemma PayloadMatchesLayout(u: Uniforms, i: nat, j: nat)
    requires i < MemberCount && j < |Member(u, i)|
    ensures Slot(i) + j < PayloadLength
    ensures ToPayload(u)[Slot(i) + j] == Member(u, i)[j]
  {
  }

  /** Reading the payload back gives the struct the host packed. */
  lemma ReadAfterPack(u: Uniforms)
    ensures FromPayload(ToPayload(u)) == u
  {
  }

  /** Packing a struct read from a payload gives the same payload: no float of
      the 32 is dropped or duplicated. */
  lemma PackAfterRead(s: seq<real>)
    requires |s| == PayloadLength
    ensures ToPayload(FromPayload(s)) == s
  {
    var t := ToPayload(FromPayload(s));
    forall k | 0 <= k < PayloadLength
      ensures t[k] == s[k]
    {
    }
  }

  /** The slots the host documents: `haze` at 23, `densityMultiplier` at 27,
      `steps` at 31. */
  lemma NamedSlots(u: Uniforms)
    ensures ToPayload(u)[23] == u.haze
    ensures ToPayload(u)[27] == u.densityMultiplier
    ensures ToPayload(u)[31] == u.steps
  {
  }
}
