/**
 * The OpenGL device, abstracted. Every GL entry point the renderer and materials call becomes an
 * `Event`; the device keeps the state those calls configure (`GlState`) and the
 * ordered log of calls made so far. `Step` says what one call does to the state
 * and `Replay` what a sequence of calls does. Pixel contents are not modelled:
 * clears and draws only appear in the log.
 */
module Gl {
  import opened Geometry

  type GLenum = nat

  // Values of the GL enumerants the renderer and materials use.
  const GL_FRONT: GLenum := 0x0404
  const GL_BACK: GLenum := 0x0405
  const GL_CW: GLenum := 0x0900
  const GL_CCW: GLenum := 0x0901
  const GL_LESS: GLenum := 0x0201
  const GL_LEQUAL: GLenum := 0x0203
  const GL_FUNC_ADD: GLenum := 0x8006
  const GL_SRC_ALPHA: GLenum := 0x0302
  const GL_ONE_MINUS_SRC_ALPHA: GLenum := 0x0303
  const GL_TRIANGLES: GLenum := 0x0004

  /** Object names handed out by GL or by the asset loader. */
  type ShaderId = nat
  type TextureId = nat
  type SamplerId = nat
  type MeshId = nat

  /** The capabilities glEnable/glDisable toggle in the renderer and materials. */
  datatype Capability = CullFaceCap | BlendCap | DepthTestCap

  /** glm::bvec4, the colour write mask. */
  datatype BVec4 = BVec4(r: bool, g: bool, b: bool, a: bool)

  const AllChannels: BVec4 := BVec4(true, true, true, true)

  datatype UniformValue = MatValue(m: Mat4) | Vec4Value(v: Vec4) | FloatValue(f: real) | IntValue(i: int)

  datatype Attachment = ColorAttachment | DepthAttachment

  datatype Event =
    | ColorMask(mask: BVec4)
    | DepthMask(flag: bool)
    | Enable(cap: Capability)
    | Disable(cap: Capability)
    | CullFace(face: GLenum)
    | FrontFace(mode: GLenum)
    | BlendEquation(equation: GLenum)
    | BlendFunc(source: GLenum, destination: GLenum)
    | BlendColor(color: Vec4)
    | DepthFunc(comparison: GLenum)
    | UseProgram(program: ShaderId)
      /** ShaderProgram::set: the named uniform of the given program. */
    | SetUniform(program: ShaderId, name: string, value: UniformValue)
    | ActiveTexture(unit: nat)
      /** Texture2D::bind: binds to the active texture unit. */
    | BindTexture(texture: TextureId)
      /** Sampler::bind(unit). */
    | BindSampler(unit: nat, sampler: SamplerId)
    | BindFramebuffer(framebuffer: nat)
    | FramebufferTexture(attachment: Attachment, texture: TextureId)
    | Viewport(x: int, y: int, width: int, height: int)
    | ClearColor(color: Vec4)
    | ClearDepth(depth: real)
    | Clear(colorBuffer: bool, depthBuffer: bool)
      /** Mesh::draw: binds the mesh's vertex array and draws its elements. */
    | DrawMesh(mesh: MeshId)
    | BindVertexArray(vertexArray: nat)
    | DrawArrays(mode: GLenum, first: nat, count: nat)

  datatype GlState = GlState(
    colorMask: BVec4,
    depthMask: bool,
    cullFace: bool,
    culledFace: GLenum,
    frontFace: GLenum,
    blend: bool,
    blendEquation: GLenum,
    blendSource: GLenum,
    blendDestination: GLenum,
    blendColor: Vec4,
    depthTest: bool,
    depthFunc: GLenum,
    program: ShaderId,
    uniforms: map<(ShaderId, string), UniformValue>,
    activeUnit: nat,
    textures: map<nat, TextureId>,
    samplers: map<nat, SamplerId>,
    framebuffer: nat,
    attachments: map<(nat, Attachment), TextureId>,
    vertexArray: nat,
    viewport: (int, int, int, int),
    clearColor: Vec4,
    clearDepth: real)

  function SetCapability(s: GlState, cap: Capability, on: bool): GlState {
    match cap
    case CullFaceCap => s.(cullFace := on)
    case BlendCap => s.(blend := on)
    case DepthTestCap => s.(depthTest := on)
  }

  /** What one GL call does to the device state. */
  function Step(s: GlState, e: Event): GlState {
    match e
    case ColorMask(m) => s.(colorMask := m)
    case DepthMask(f) => s.(depthMask := f)
    case Enable(cap) => SetCapability(s, cap, true)
    case Disable(cap) => SetCapability(s, cap, false)
    case CullFace(f) => s.(culledFace := f)
    case FrontFace(m) => s.(frontFace := m)
    case BlendEquation(q) => s.(blendEquation := q)
    case BlendFunc(src, dst) => s.(blendSource := src, blendDestination := dst)
    case BlendColor(c) => s.(blendColor := c)
    case DepthFunc(f) => s.(depthFunc := f)
    case UseProgram(p) => s.(program := p)
    case SetUniform(p, n, v) => s.(uniforms := s.uniforms[(p, n) := v])
    case ActiveTexture(u) => s.(activeUnit := u)
    case BindTexture(t) => s.(textures := s.textures[s.activeUnit := t])
    case BindSampler(u, smp) => s.(samplers := s.samplers[u := smp])
    case BindFramebuffer(fb) => s.(framebuffer := fb)
    case FramebufferTexture(a, t) => s.(attachments := s.attachments[(s.framebuffer, a) := t])
    case Viewport(x, y, w, h) => s.(viewport := (x, y, w, h))
    case ClearColor(c) => s.(clearColor := c)
    case ClearDepth(d) => s.(clearDepth := d)
    case Clear(_, _) => s
    case DrawMesh(_) => s
    case BindVertexArray(v) => s.(vertexArray := v)
    case DrawArrays(_, _, _) => s
  }

  /** The state after making the calls of `events`, in order, from `s`. */
  function Replay(s: GlState, events: seq<Event>): GlState
    decreases |events|
  {
    if events == [] then s else Step(Replay(s, events[..|events| - 1]), events[|events| - 1])
  }

  /** Replaying two logs one after the other is replaying their concatenation. */
  lemma {:induction false} ReplayAppend(s: GlState, a: seq<Event>, b: seq<Event>)
    ensures Replay(s, a + b) == Replay(Replay(s, a), b)
    decreases |b|
  {
    if b == [] {
      assert a + b == a;
    } else {
      var front := b[..|b| - 1];
      assert (a + b)[..|a + b| - 1] == a + front;
      assert (a + b)[|a + b| - 1] == b[|b| - 1];
      ReplayAppend(s, a, front);
    }
  }

  lemma ReplayOne(s: GlState, e: Event)
    ensures Replay(s, [e]) == Step(s, e)
  {
    assert [e][..0] == [];
  }

  lemma AppendAssociative(a: seq<Event>, b: seq<Event>, c: seq<Event>)
    ensures (a + b) + c == a + (b + c)
  {
  }

  lemma ReplayTwo(s: GlState, a: Event, b: Event)
    ensures Replay(s, [a, b]) == Step(Step(s, a), b)
  {
    assert [a, b][..1] == [a];
    ReplayOne(s, a);
  }

  lemma ReplayThree(s: GlState, a: Event, b: Event, c: Event)
    ensures Replay(s, [a, b, c]) == Step(Step(Step(s, a), b), c)
  {
    assert [a, b, c][..2] == [a, b];
    ReplayTwo(s, a, b);
  }

  lemma ReplayFour(s: GlState, a: Event, b: Event, c: Event, d: Event)
    ensures Replay(s, [a, b, c, d]) == Step(Step(Step(Step(s, a), b), c), d)
  {
    assert [a, b, c, d][..3] == [a, b, c];
    ReplayThree(s, a, b, c);
  }

  /** Four calls logged one at a time are the four-call log. */
  lemma LogFour(t: seq<Event>, a: Event, b: Event, c: Event, d: Event)
    ensures t + [a] + [b] + [c] + [d] == t + [a, b, c, d]
  {
  }

  /** Replaying one more call at the end. */
  lemma ReplaySnoc(s: GlState, events: seq<Event>, e: Event)
    ensures Replay(s, events + [e]) == Step(Replay(s, events), e)
  {
    assert (events + [e])[..|events|] == events;
  }

  /** Replaying a log call by call from the front. */
  lemma ReplayCons(s: GlState, e: Event, rest: seq<Event>)
    ensures Replay(s, [e] + rest) == Replay(Step(s, e), rest)
  {
    ReplayAppend(s, [e], rest);
    ReplayOne(s, e);
  }

  /**
   * The graphics device: its current state and the calls made to it so far.
   * `initial` is the state it was created in; `Valid` ties the state to the log.
   */
  class Device {
    ghost const initial: GlState
    var state: GlState
    var trace: seq<Event>

    ghost predicate Valid()
      reads this
    {
      state == Replay(initial, trace)
    }

    constructor (s: GlState)
      ensures Valid() && state == s && trace == []
    {
      initial := s;
      state := s;
      trace := [];
    }

    /** Make one GL call. */
    method Call(e: Event)
      requires Valid()
      modifies this
      ensures Valid()
      ensures trace == old(trace) + [e]
      ensures state == Step(old(state), e)
    {
      assert (trace + [e])[..|trace + [e]| - 1] == trace;
      state := Step(state, e);
      trace := trace + [e];
    }
  }
}
