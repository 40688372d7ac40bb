/**
 * PipelineState: the fixed-function options a material needs (face culling,
 * depth testing, blending, write masks) and `Setup`, which configures the
 * device with them.
 */
module Pipeline {
  import opened Geometry
  import opened Gl

  datatype FaceCulling = FaceCulling(enabled: bool, culledFace: GLenum, frontFace: GLenum)
  datatype DepthTesting = DepthTesting(enabled: bool, comparison: GLenum)
  datatype Blending = Blending(
    enabled: bool,
    equation: GLenum,
    sourceFactor: GLenum,
    destinationFactor: GLenum,
    constantColor: Vec4)

  datatype PipelineState = PipelineState(
    faceCulling: FaceCulling,
    depthTesting: DepthTesting,
    blending: Blending,
    colorMask: BVec4,
    depthMask: bool)
  {
    /** The GL calls `Setup` makes, in order. */
    function Events(): seq<Event> {
      [ColorMask(colorMask), DepthMask(depthMask)]
      + CullingEvents() + BlendingEvents() + DepthEvents()
    }

    function CullingEvents(): seq<Event> {
      if faceCulling.enabled then
        [Enable(CullFaceCap), CullFace(faceCulling.culledFace), FrontFace(faceCulling.frontFace)]
      else
        [Disable(CullFaceCap)]
    }

    function BlendingEvents(): seq<Event> {
      if blending.enabled then
        [Enable(BlendCap), BlendEquation(blending.equation),
         BlendFunc(blending.sourceFactor, blending.destinationFactor), BlendColor(blending.constantColor)]
      else
        [Disable(BlendCap)]
    }

    function DepthEvents(): seq<Event> {
      if depthTesting.enabled then
        [Enable(DepthTestCap), DepthFunc(depthTesting.comparison)]
      else
        [Disable(DepthTestCap)]
    }

    /** Configure the device: write masks, then culling, blending and depth testing. */
    method Setup(gl: Device)
      requires gl.Valid()
      modifies gl
      ensures gl.Valid()
      ensures gl.trace == old(gl.trace) + Events()
      ensures gl.state == Replay(old(gl.state), Events())
    {
      ghost var t0, masks := gl.trace, [ColorMask(colorMask), DepthMask(depthMask)];
      gl.Call(ColorMask(colorMask));
      gl.Call(DepthMask(depthMask));
      assert gl.trace == t0 + masks;
      SetupCulling(gl);
      AppendAssociative(t0, masks, CullingEvents());
      SetupBlending(gl);
      AppendAssociative(t0, masks + CullingEvents(), BlendingEvents());
      SetupDepth(gl);
      AppendAssociative(t0, masks + CullingEvents() + BlendingEvents(), DepthEvents());
      ReplayAppend(gl.initial, t0, Events());
    }

    method SetupCulling(gl: Device)
      requires gl.Valid()
      modifies gl
      ensures gl.Valid()
      ensures gl.trace == old(gl.trace) + CullingEvents()
    {
      if faceCulling.enabled {
        gl.Call(Enable(CullFaceCap));
        gl.Call(CullFace(faceCulling.culledFace));
        gl.Call(FrontFace(faceCulling.frontFace));
      } else {
        gl.Call(Disable(CullFaceCap));
      }
    }

    method SetupBlending(gl: Device)
      requires gl.Valid()
      modifies gl
      ensures gl.Valid()
      ensures gl.trace == old(gl.trace) + BlendingEvents()
    {
      if blending.enabled {
        gl.Call(Enable(BlendCap));
        gl.Call(BlendEquation(blending.equation));
        gl.Call(BlendFunc(blending.sourceFactor, blending.destinationFactor));
        gl.Call(BlendColor(blending.constantColor));
      } else {
        gl.Call(Disable(BlendCap));
      }
    }

    method SetupDepth(gl: Device)
      requires gl.Valid()
      modifies gl
      ensures gl.Valid()
      ensures gl.trace == old(gl.trace) + DepthEvents()
    {
      if depthTesting.enabled {
        gl.Call(Enable(DepthTestCap));
        gl.Call(DepthFunc(depthTesting.comparison));
      } else {
        gl.Call(Disable(DepthTestCap));
      }
    }
  }

  /** The field initialisers of PipelineState. */
  const DefaultPipelineState: PipelineState := PipelineState(
    FaceCulling(false, GL_BACK, GL_CCW),
    DepthTesting(false, GL_LEQUAL),
    Blending(false, GL_FUNC_ADD, GL_SRC_ALPHA, GL_ONE_MINUS_SRC_ALPHA, Vec4(0.0, 0.0, 0.0, 0.0)),
    AllChannels,
    true)

  /** The device state `Setup` leaves behind, started from `s`. */
  function AfterSetup(ps: PipelineState, s: GlState): GlState {
    Replay(s, ps.Events())
  }

  lemma CullingEffect(ps: PipelineState, s: GlState)
    ensures Replay(s, ps.CullingEvents()) == s.(
      cullFace := ps.faceCulling.enabled,
      culledFace := if ps.faceCulling.enabled then ps.faceCulling.culledFace else s.culledFace,
      frontFace := if ps.faceCulling.enabled then ps.faceCulling.frontFace else s.frontFace)
  {
    var f := ps.faceCulling;
    if f.enabled {
      ReplayThree(s, Enable(CullFaceCap), CullFace(f.culledFace), FrontFace(f.frontFace));
    } else {
      ReplayOne(s, Disable(CullFaceCap));
    }
  }

  lemma BlendingEffect(ps: PipelineState, s: GlState)
    ensures Replay(s, ps.BlendingEvents()) == s.(
      blend := ps.blending.enabled,
      blendEquation := if ps.blending.enabled then ps.blending.equation else s.blendEquation,
      blendSource := if ps.blending.enabled then ps.blending.sourceFactor else s.blendSource,
      blendDestination := if ps.blending.enabled then ps.blending.destinationFactor else s.blendDestination,
      blendColor := if ps.blending.enabled then ps.blending.constantColor else s.blendColor)
  {
    var b := ps.blending;
    if b.enabled {
      ReplayFour(s, Enable(BlendCap), BlendEquation(b.equation),
        BlendFunc(b.sourceFactor, b.destinationFactor), BlendColor(b.constantColor));
    } else {
      ReplayOne(s, Disable(BlendCap));
    }
  }

  lemma DepthEffect(ps: PipelineState, s: GlState)
    ensures Replay(s, ps.DepthEvents()) == s.(
      depthTest := ps.depthTesting.enabled,
      depthFunc := if ps.depthTesting.enabled then ps.depthTesting.comparison else s.depthFunc)
  {
    var d := ps.depthTesting;
    if d.enabled {
      ReplayTwo(s, Enable(DepthTestCap), DepthFunc(d.comparison));
    } else {
      ReplayOne(s, Disable(DepthTestCap));
    }
  }

  /**
   * The whole effect of Setup: both masks are written; each feature is enabled
   * exactly when the state says so; a feature's parameters are written when it
   * is enabled and left as they were when it is disabled; nothing else changes.
   */
  lemma {:induction false} SetupEffect(ps: PipelineState, s: GlState)
    ensures AfterSetup(ps, s) == s.(
      colorMask := ps.colorMask,
      depthMask := ps.depthMask,
      cullFace := ps.faceCulling.enabled,
      culledFace := if ps.faceCulling.enabled then ps.faceCulling.culledFace else s.culledFace,
      frontFace := if ps.faceCulling.enabled then ps.faceCulling.frontFace else s.frontFace,
      blend := ps.blending.enabled,
      blendEquation := if ps.blending.enabled then ps.blending.equation else s.blendEquation,
      blendSource := if ps.blending.enabled then ps.blending.sourceFactor else s.blendSource,
      blendDestination := if ps.blending.enabled then ps.blending.destinationFactor else s.blendDestination,
      blendColor := if ps.blending.enabled then ps.blending.constantColor else s.blendColor,
      depthTest := ps.depthTesting.enabled,
      depthFunc := if ps.depthTesting.enabled then ps.depthTesting.comparison else s.depthFunc)
  {
    var masks := [ColorMask(ps.colorMask), DepthMask(ps.depthMask)];
    var cull, blend, depth := ps.CullingEvents(), ps.BlendingEvents(), ps.DepthEvents();
    assert ps.Events() == ((masks + cull) + blend) + depth;
    ReplayAppend(s, (masks + cull) + blend, depth);
    ReplayAppend(s, masks + cull, blend);
    ReplayAppend(s, masks, cull);
    ReplayTwo(s, masks[0], masks[1]);
    var s1 := Replay(s, masks);
    CullingEffect(ps, s1);
    var s2 := Replay(s1, cull);
    BlendingEffect(ps, s2);
    DepthEffect(ps, Replay(s2, blend));
  }

  /** Applying the same pipeline state twice leaves the device as applying it once. */
  lemma SetupIdempotent(ps: PipelineState, s: GlState)
    ensures AfterSetup(ps, AfterSetup(ps, s)) == AfterSetup(ps, s)
  {
    SetupEffect(ps, s);
    SetupEffect(ps, AfterSetup(ps, s));
  }

  /**
   * Setup fully determines the switches and masks, whatever the previous draw
   * left on the device, and the parameters of every enabled feature.
   */
  lemma SetupIndependentOfPrevious(ps: PipelineState, s1: GlState, s2: GlState)
    ensures var t1, t2 := AfterSetup(ps, s1), AfterSetup(ps, s2);
      && t1.colorMask == t2.colorMask && t1.depthMask == t2.depthMask
      && t1.cullFace == t2.cullFace && t1.blend == t2.blend && t1.depthTest == t2.depthTest
      && (ps.faceCulling.enabled ==> t1.culledFace == t2.culledFace && t1.frontFace == t2.frontFace)
      && (ps.blending.enabled ==>
            t1.blendEquation == t2.blendEquation && t1.blendSource == t2.blendSource
            && t1.blendDestination == t2.blendDestination && t1.blendColor == t2.blendColor)
      && (ps.depthTesting.enabled ==> t1.depthFunc == t2.depthFunc)
  {
    SetupEffect(ps, s1);
    SetupEffect(ps, s2);
  }

  /**
   * The defaults switch culling, blending and depth testing off, open every
   * colour channel and the depth buffer for writing, and leave the parameters
   * of the disabled features as they were.
   */
  lemma DefaultSetupDisablesAll(s: GlState)
    ensures var t := AfterSetup(DefaultPipelineState, s);
      && !t.cullFace && !t.blend && !t.depthTest
      && t.colorMask == AllChannels && t.depthMask
      && t.culledFace == s.culledFace && t.frontFace == s.frontFace
      && t.blendEquation == s.blendEquation && t.blendSource == s.blendSource
      && t.blendDestination == s.blendDestination && t.blendColor == s.blendColor
      && t.depthFunc == s.depthFunc
  {
    SetupEffect(DefaultPipelineState, s);
  }
}
