/**
 * ForwardRenderer: each frame it makes one render command per mesh renderer,
 * splits the commands into an opaque and a transparent list, sorts the
 * transparent ones back to front along the camera's forward direction, and
 * draws the opaque objects, the sky, the transparent objects and the
 * postprocessing pass, in that order. A frame is specified by the GL calls
 * it makes.
 */
module Renderer {
  import opened Wrappers
  import opened Geometry
  import opened Json
  import opened Gl
  import opened Pipeline
  import opened Materials
  import opened Ecs

  /** What the renderer draws for one mesh renderer. */
  datatype RenderCommand = RenderCommand(localToWorld: Mat4, center: Vec3, mesh: MeshId, material: Material)

  /** The sky sphere and its material; absent when the configuration names no sky. */
  datatype Sky = Sky(sphere: MeshId, material: Material)

  /** The off-screen target and the full-screen pass; absent when the configuration names no postprocess shader. */
  datatype Postprocess = Postprocess(
    framebuffer: nat,
    vertexArray: nat,
    colorTarget: TextureId,
    depthTarget: TextureId,
    material: Material)

  /**
   * What initialize obtains from code outside this model: the sphere mesh,
   * the compiled shaders (the postprocess one from its fragment shader
   * file), the loaded sky image, the samplers, and the names GL hands out for
   * the framebuffer, its two textures and the vertex array.
   */
  datatype Resources = Resources(
    sphere: MeshId,
    skyShader: ShaderId,
    loadImage: string -> TextureId,
    skySampler: SamplerId,
    framebuffer: nat,
    colorTarget: TextureId,
    depthTarget: TextureId,
    vertexArray: nat,
    postprocessSampler: SamplerId,
    postprocessShader: string -> ShaderId)

  // ---------------------------------------------------------------------------
  // initialize

  /** The sky's pipeline: cull front faces (the sphere is seen from inside) and let depth equal to the far plane pass. */
  const SkyPipelineState: PipelineState :=
    DefaultPipelineState.(
      faceCulling := DefaultPipelineState.faceCulling.(enabled := true, culledFace := GL_FRONT),
      depthTesting := DepthTesting(true, GL_LEQUAL))

  /** The sky material: a new textured material `blank` given the sky shader, image and sampler, opaque and untinted. */
  function SkyMaterial(blank: MaterialData, r: Resources, image: string): MaterialData {
    blank.(shader := Some(r.skyShader), texture := Some(r.loadImage(image)), sampler := Some(r.skySampler),
           pipelineState := SkyPipelineState, tint := WhiteTint, alphaThreshold := 1.0, transparent := false)
  }

  /** The postprocess material: a new textured material sampling the colour target, with depth writes off. */
  function PostprocessMaterial(blank: MaterialData, r: Resources, fragmentShader: string): MaterialData {
    blank.(shader := Some(r.postprocessShader(fragmentShader)), texture := Some(r.colorTarget),
           sampler := Some(r.postprocessSampler), pipelineState := blank.pipelineState.(depthMask := false))
  }

  /** The calls that attach the two targets to the new framebuffer, leaving the default one bound. */
  function AttachEvents(r: Resources): seq<Event> {
    [BindFramebuffer(r.framebuffer), FramebufferTexture(ColorAttachment, r.colorTarget),
     FramebufferTexture(DepthAttachment, r.depthTarget), BindFramebuffer(0)]
  }

  /**
   * The sky material is drawn from inside the sphere at the far plane: front
   * faces culled, depth test on with GL_LEQUAL, depth writes on, no
   * blending, white tint, alpha threshold 1, the sky image and sampler, and
   * it can be set up.
   */
  lemma SkyMaterialDrawsInside(blank: MaterialData, r: Resources, image: string)
    requires blank.kind == Textured && blank.pipelineState == DefaultPipelineState
    ensures var d := SkyMaterial(blank, r, image);
      && Ready(d) && d.kind == Textured && !d.transparent
      && d.pipelineState.faceCulling.enabled && d.pipelineState.faceCulling.culledFace == GL_FRONT
      && d.pipelineState.faceCulling.frontFace == GL_CCW
      && d.pipelineState.depthTesting == DepthTesting(true, GL_LEQUAL)
      && d.pipelineState.depthMask && !d.pipelineState.blending.enabled
      && d.tint == Vec4(1.0, 1.0, 1.0, 1.0) && d.alphaThreshold == 1.0
      && d.texture == Some(r.loadImage(image)) && d.sampler == Some(r.skySampler)
  {
  }

  /** The postprocess material keeps the default pipeline except that it never writes depth. */
  lemma PostprocessMaterialSkipsDepth(blank: MaterialData, r: Resources, fragmentShader: string)
    requires blank.kind == Textured && blank.pipelineState == DefaultPipelineState
    ensures var d := PostprocessMaterial(blank, r, fragmentShader);
      && Ready(d) && d.texture == Some(r.colorTarget)
      && d.pipelineState == DefaultPipelineState.(depthMask := false)
      && !d.pipelineState.depthTesting.enabled && !d.pipelineState.faceCulling.enabled
      && d.shader == Some(r.postprocessShader(fragmentShader)) && d.sampler == Some(r.postprocessSampler)
  {
  }

  /** The attachment calls leave the colour and depth targets attached to the new framebuffer, and framebuffer 0 bound. */
  lemma AttachEffect(r: Resources, s: GlState)
    ensures Replay(s, AttachEvents(r))
      == s.(framebuffer := 0,
            attachments := s.attachments[(r.framebuffer, ColorAttachment) := r.colorTarget]
                                        [(r.framebuffer, DepthAttachment) := r.depthTarget])
  {
    var e := AttachEvents(r);
    ReplayFour(s, e[0], e[1], e[2], e[3]);
    AttachSteps(r, s);
  }

  lemma AttachSteps(r: Resources, s: GlState)
    ensures Step(Step(Step(Step(s, BindFramebuffer(r.framebuffer)), FramebufferTexture(ColorAttachment, r.colorTarget)),
                      FramebufferTexture(DepthAttachment, r.depthTarget)), BindFramebuffer(0))
      == s.(framebuffer := 0,
            attachments := s.attachments[(r.framebuffer, ColorAttachment) := r.colorTarget]
                                        [(r.framebuffer, DepthAttachment) := r.depthTarget])
  {
  }

  // ---------------------------------------------------------------------------
  // deserialize

  /** One sky colour after deserialize: elements [0], [1], [2] of its key when present, otherwise unchanged. */
  function SkyColour(data: Json, key: string, current: Vec3): Vec3
    requires KeyFits(data, key, Vec3Kind)
  {
    if Contains(data, key) then Vec3Of(data.fields[key]) else current
  }

  /** Reading the same data again changes nothing, and a present key decides the colour whatever it was before. */
  lemma SkyColourSettles(data: Json, key: string, a: Vec3, b: Vec3)
    requires KeyFits(data, key, Vec3Kind)
    ensures SkyColour(data, key, SkyColour(data, key, a)) == SkyColour(data, key, a)
    ensures Contains(data, key) ==> SkyColour(data, key, a) == SkyColour(data, key, b)
    ensures !Contains(data, key) ==> SkyColour(data, key, a) == a
  {
  }

  // ---------------------------------------------------------------------------
  // render: the commands of a world

  /** The command for an entity with a mesh renderer: its matrix, the point it sends the local origin to, its mesh and material. */
  function CommandOf(e: Entity): Option<RenderCommand>
    reads e
  {
    match e.GetComponent(MeshRendererKind)
    case Some(MeshRendererComponent(mesh, material)) =>
      Some(RenderCommand(e.localToWorld, TranslationOf(e.localToWorld), mesh, material))
    case _ => None
  }

  function CommandFor(e: Entity): seq<RenderCommand>
    reads e
  {
    if CommandOf(e).Some? then [CommandOf(e).value] else []
  }

  /** The commands of the first `n` entities, in iteration order. */
  function CommandsAmong(world: seq<Entity>, n: nat): seq<RenderCommand>
    reads world
    requires n <= |world|
  {
    if n == 0 then [] else CommandsAmong(world, n - 1) + CommandFor(world[n - 1])
  }

  function Commands(world: seq<Entity>): seq<RenderCommand>
    reads world
  {
    CommandsAmong(world, |world|)
  }

  /** Every mesh renderer gives exactly one command, from its own entity's matrix, mesh and material, in order. */
  lemma {:induction false} CommandsAreMeshRenderers(world: seq<Entity>, n: nat)
    requires n <= |world|
    ensures |CommandsAmong(world, n)| == |MeshRenderersAmong(world, n)|
    ensures forall i :: 0 <= i < |CommandsAmong(world, n)| ==>
      var e := world[MeshRenderersAmong(world, n)[i]];
      var c := CommandsAmong(world, n)[i];
      && e.GetComponent(MeshRendererKind) == Some(MeshRendererComponent(c.mesh, c.material))
      && c.localToWorld == e.localToWorld && c.center == TranslationOf(e.localToWorld)
  {
    if n > 0 {
      CommandsAreMeshRenderers(world, n - 1);
    }
  }

  /** The positions, among the first `n` entities, of those with a mesh renderer. */
  function MeshRenderersAmong(world: seq<Entity>, n: nat): (r: seq<nat>)
    reads world
    requires n <= |world|
    ensures forall i :: 0 <= i < |r| ==> r[i] < n
  {
    if n == 0 then []
    else MeshRenderersAmong(world, n - 1) + (if world[n - 1].Has(MeshRendererKind) then [n - 1] else [])
  }

  function MaterialsOf(cs: seq<RenderCommand>): set<Material> {
    set c | c in cs :: c.material
  }

  /** The commands whose material is not transparent, in their order. */
  function Opaque(cs: seq<RenderCommand>): seq<RenderCommand>
    reads MaterialsOf(cs)
  {
    if cs == [] then []
    else Opaque(cs[..|cs| - 1]) + (if cs[|cs| - 1].material.transparent then [] else [cs[|cs| - 1]])
  }

  /** The commands whose material is transparent, in their order. */
  function Transparent(cs: seq<RenderCommand>): seq<RenderCommand>
    reads MaterialsOf(cs)
  {
    if cs == [] then []
    else Transparent(cs[..|cs| - 1]) + (if cs[|cs| - 1].material.transparent then [cs[|cs| - 1]] else [])
  }

  lemma SplitSnoc(cs: seq<RenderCommand>, c: RenderCommand)
    ensures Opaque(cs + [c]) == Opaque(cs) + (if c.material.transparent then [] else [c])
    ensures Transparent(cs + [c]) == Transparent(cs) + (if c.material.transparent then [c] else [])
  {
    assert (cs + [c])[..|cs|] == cs;
  }

  /** One more entity adds its command, if any, to the end of one of the two lists. */
  lemma CollectNext(world: seq<Entity>, i: nat)
    requires i < |world|
    ensures var c := CommandOf(world[i]);
      var before, after := CommandsAmong(world, i), CommandsAmong(world, i + 1);
      && (c.None? ==> Opaque(after) == Opaque(before) && Transparent(after) == Transparent(before))
      && (c.Some? && c.value.material.transparent ==>
            Opaque(after) == Opaque(before) && Transparent(after) == Transparent(before) + [c.value])
      && (c.Some? && !c.value.material.transparent ==>
            Opaque(after) == Opaque(before) + [c.value] && Transparent(after) == Transparent(before))
  {
    var c := CommandOf(world[i]);
    assert CommandsAmong(world, i + 1) == CommandsAmong(world, i) + CommandFor(world[i]);
    if c.Some? {
      SplitSnoc(CommandsAmong(world, i), c.value);
    } else {
      assert CommandsAmong(world, i + 1) == CommandsAmong(world, i);
    }
  }

  /**
   * The two lists partition the commands: together they hold each command
   * once, the transparent list only transparent ones, the opaque list only
   * the others.
   */
  lemma {:induction false} SplitPartitions(cs: seq<RenderCommand>)
    ensures multiset(Opaque(cs)) + multiset(Transparent(cs)) == multiset(cs)
    ensures forall c :: c in Transparent(cs) ==> c.material.transparent
    ensures forall c :: c in Opaque(cs) ==> !c.material.transparent
  {
    SplitCounts(cs);
    SplitFlags(cs);
  }

  lemma {:induction false} SplitCounts(cs: seq<RenderCommand>)
    ensures multiset(Opaque(cs)) + multiset(Transparent(cs)) == multiset(cs)
  {
    if cs != [] {
      var front, c := cs[..|cs| - 1], cs[|cs| - 1];
      SplitCounts(front);
      assert cs == front + [c];
      assert multiset(cs) == multiset(front) + multiset{c};
    }
  }

  lemma {:induction false} SplitFlags(cs: seq<RenderCommand>)
    ensures forall c :: c in Transparent(cs) ==> c.material.transparent
    ensures forall c :: c in Opaque(cs) ==> !c.material.transparent
  {
    if cs != [] {
      SplitFlags(cs[..|cs| - 1]);
    }
  }

  /** The first `n` entities' first camera: the first that has one. */
  function CameraAmong(world: seq<Entity>, n: nat): (r: Option<nat>)
    reads world
    requires n <= |world|
    ensures r.Some? ==> r.value < n && world[r.value].Has(CameraKind)
  {
    if n == 0 then None
    else
      var found := CameraAmong(world, n - 1);
      if found.Some? then found
      else if world[n - 1].Has(CameraKind) then Some(n - 1)
      else None
  }

  function FirstCamera(world: seq<Entity>): (r: Option<nat>)
    reads world
    ensures r.Some? ==> r.value < |world| && world[r.value].Has(CameraKind)
  {
    CameraAmong(world, |world|)
  }

  /** The camera found is the first entity that has one; none is found only when no entity has one. */
  lemma {:induction false} CameraAmongFirst(world: seq<Entity>, n: nat)
    requires n <= |world|
    ensures CameraAmong(world, n).Some? ==> forall j :: 0 <= j < CameraAmong(world, n).value ==> !world[j].Has(CameraKind)
    ensures CameraAmong(world, n).None? <==> forall j :: 0 <= j < n ==> !world[j].Has(CameraKind)
  {
    if n > 0 {
      CameraAmongFirst(world, n - 1);
    }
  }

  /** The camera's settings. */
  function CameraOf(e: Entity): Camera
    reads e
    requires e.Has(CameraKind)
  {
    e.GetComponent(CameraKind).value.camera
  }

  // ---------------------------------------------------------------------------
  // render: back-to-front order

  /** The camera's forward direction, before normalisation: its local z axis reversed. */
  function CameraForward(m: Mat4): Vec3 {
    Vec3(-m.c2.x, -m.c2.y, -m.c2.z)
  }

  /**
   * It is what render computes: where the camera's matrix sends (0, 0, -1)
   * minus where it sends the origin.
   */
  lemma ForwardIsDifference(m: Mat4)
    ensures CameraForward(m) == Sub3(Xyz(MulVec(m, Vec4(0.0, 0.0, -1.0, 1.0))), Xyz(MulVec(m, Point(Origin))))
  {
    MulVecOrigin(m);
    MulVecRows(m, Vec4(0.0, 0.0, -1.0, 1.0));
  }

  /** How far along `forward` a command's centre lies. */
  function Depth(c: RenderCommand, forward: Vec3): real {
    Dot(forward, c.center)
  }

  /** The sort's order: no command lies further along `forward` than one before it. */
  predicate BackToFront(cs: seq<RenderCommand>, forward: Vec3) {
    forall i, j {:trigger Depth(cs[i], forward), Depth(cs[j], forward)} :: 0 <= i < j < |cs| ==> Depth(cs[j], forward) <= Depth(cs[i], forward)
  }

  /** Normalising the forward direction scales it by a positive factor, which leaves the order unchanged. */
  lemma BackToFrontIgnoresLength(cs: seq<RenderCommand>, forward: Vec3, k: real)
    requires k > 0.0
    ensures BackToFront(cs, Scale3(k, forward)) <==> BackToFront(cs, forward)
  {
    forall i, j | 0 <= i < j < |cs|
      ensures Depth(cs[j], Scale3(k, forward)) <= Depth(cs[i], Scale3(k, forward))
          <==> Depth(cs[j], forward) <= Depth(cs[i], forward)
    {
      PositiveScalingKeepsOrder(k, forward, cs[j].center, cs[i].center);
    }
  }

  /** Puts `c` into a sorted list after every command lying at least as far along `forward`. */
  function InsertByDepth(sorted: seq<RenderCommand>, c: RenderCommand, forward: Vec3): (r: seq<RenderCommand>)
    requires BackToFront(sorted, forward)
    ensures BackToFront(r, forward)
    ensures multiset(r) == multiset(sorted) + multiset{c}
  {
    if sorted == [] then [c]
    else if Depth(sorted[0], forward) >= Depth(c, forward) then
      var rest := InsertByDepth(sorted[1..], c, forward);
      assert BackToFront(sorted[1..], forward) by {
        forall i, j | 0 <= i < j < |sorted| - 1
          ensures Depth(sorted[1..][j], forward) <= Depth(sorted[1..][i], forward)
        {
          assert Depth(sorted[j + 1], forward) <= Depth(sorted[i + 1], forward);
        }
      }
      FirstDeepest(sorted, forward, rest, c);
      assert sorted == [sorted[0]] + sorted[1..];
      [sorted[0]] + rest
    else
      CIsDeepest(sorted, forward, c);
      [c] + sorted
  }

  /** The front of a sorted list goes in front of any sorted list made of the rest and `c`, when it lies at least as deep as `c`. */
  lemma FirstDeepest(sorted: seq<RenderCommand>, forward: Vec3, rest: seq<RenderCommand>, c: RenderCommand)
    requires sorted != [] && BackToFront(sorted, forward) && BackToFront(rest, forward)
    requires multiset(rest) == multiset(sorted[1..]) + multiset{c}
    requires Depth(sorted[0], forward) >= Depth(c, forward)
    ensures BackToFront([sorted[0]] + rest, forward)
  {
    var r := [sorted[0]] + rest;
    forall j | 0 < j < |r|
      ensures Depth(r[j], forward) <= Depth(r[0], forward)
    {
      assert r[j] == rest[j - 1];
      assert rest[j - 1] in multiset(rest);
      if rest[j - 1] != c {
        assert rest[j - 1] in multiset(sorted[1..]);
        var k :| 0 <= k < |sorted[1..]| && sorted[1..][k] == rest[j - 1];
        assert Depth(sorted[k + 1], forward) <= Depth(sorted[0], forward);
      }
    }
    forall i, j | 0 <= i < j < |r|
      ensures Depth(r[j], forward) <= Depth(r[i], forward)
    {
      if i > 0 {
        assert r[i] == rest[i - 1] && r[j] == rest[j - 1];
        assert Depth(rest[j - 1], forward) <= Depth(rest[i - 1], forward);
      }
    }
  }

  /** `c` goes in front of a sorted list whose front lies no deeper than it. */
  lemma CIsDeepest(sorted: seq<RenderCommand>, forward: Vec3, c: RenderCommand)
    requires sorted != [] && BackToFront(sorted, forward) && Depth(sorted[0], forward) <= Depth(c, forward)
    ensures BackToFront([c] + sorted, forward)
  {
    var r := [c] + sorted;
    forall i, j | 0 <= i < j < |r|
      ensures Depth(r[j], forward) <= Depth(r[i], forward)
    {
      assert r[j] == sorted[j - 1];
      if i == 0 {
        if j > 1 {
          assert Depth(sorted[j - 1], forward) <= Depth(sorted[0], forward);
        }
      } else {
        assert r[i] == sorted[i - 1];
        assert Depth(sorted[j - 1], forward) <= Depth(sorted[i - 1], forward);
      }
    }
  }

  /** std::sort with the renderer's comparator: a permutation in back-to-front order. */
  function SortByDepth(cs: seq<RenderCommand>, forward: Vec3): (sorted: seq<RenderCommand>)
    ensures multiset(sorted) == multiset(cs)
    ensures BackToFront(sorted, forward)
  {
    if cs == [] then []
    else
      assert cs == cs[..|cs| - 1] + [cs[|cs| - 1]];
      InsertByDepth(SortByDepth(cs[..|cs| - 1], forward), cs[|cs| - 1], forward)
  }

  /** The commands of `cs` lying exactly `d` along `forward`, in their order in `cs`. */
  function AtDepth(cs: seq<RenderCommand>, forward: Vec3, d: real): seq<RenderCommand> {
    if cs == [] then []
    else (if Depth(cs[0], forward) == d then [cs[0]] else []) + AtDepth(cs[1..], forward, d)
  }

  lemma {:induction false} AtDepthAppend(a: seq<RenderCommand>, b: seq<RenderCommand>, forward: Vec3, d: real)
    ensures AtDepth(a + b, forward, d) == AtDepth(a, forward, d) + AtDepth(b, forward, d)
  {
    if a == [] {
      assert a + b == b;
    } else {
      assert (a + b)[0] == a[0] && (a + b)[1..] == a[1..] + b;
      AtDepthAppend(a[1..], b, forward, d);
    }
  }

  /** A list whose every command lies less far than `d` has none at depth `d`. */
  lemma {:induction false} AtDepthNone(cs: seq<RenderCommand>, forward: Vec3, d: real)
    requires forall i :: 0 <= i < |cs| ==> Depth(cs[i], forward) < d
    ensures AtDepth(cs, forward, d) == []
  {
    if cs != [] {
      AtDepthNone(cs[1..], forward, d);
    }
  }

  /** The rest of a back-to-front list is back to front. */
  lemma SortedTail(sorted: seq<RenderCommand>, forward: Vec3)
    requires sorted != [] && BackToFront(sorted, forward)
    ensures BackToFront(sorted[1..], forward)
  {
    forall i, j | 0 <= i < j < |sorted| - 1
      ensures Depth(sorted[1..][j], forward) <= Depth(sorted[1..][i], forward)
    {
      assert Depth(sorted[j + 1], forward) <= Depth(sorted[i + 1], forward);
    }
  }

  /** The commands at depth `d` of a list with `c` in front. */
  lemma AtDepthCons(c: RenderCommand, rest: seq<RenderCommand>, forward: Vec3, d: real)
    ensures AtDepth([c] + rest, forward, d) == AtDepth([c], forward, d) + AtDepth(rest, forward, d)
  {
    assert ([c] + rest)[0] == c && ([c] + rest)[1..] == rest;
    assert [c][1..] == [];
  }

  /** Inserting `c` puts it after every command at its own depth and leaves the other depths alone. */
  lemma {:induction false} InsertAtDepth(sorted: seq<RenderCommand>, c: RenderCommand, forward: Vec3, d: real)
    requires BackToFront(sorted, forward)
    ensures AtDepth(InsertByDepth(sorted, c, forward), forward, d) == AtDepth(sorted, forward, d) + AtDepth([c], forward, d)
  {
    if sorted == [] {
      assert [c] + [] == [c];
    } else if Depth(sorted[0], forward) >= Depth(c, forward) {
      SortedTail(sorted, forward);
      InsertAtDepth(sorted[1..], c, forward, d);
      InsertBehind(sorted, c, forward, d);
    } else {
      InsertInFront(sorted, c, forward, d);
    }
  }

  /** Inserting behind the front command, given the insertion into the rest. */
  lemma InsertBehind(sorted: seq<RenderCommand>, c: RenderCommand, forward: Vec3, d: real)
    requires sorted != [] && BackToFront(sorted, forward) && BackToFront(sorted[1..], forward)
    requires Depth(sorted[0], forward) >= Depth(c, forward)
    requires AtDepth(InsertByDepth(sorted[1..], c, forward), forward, d)
      == AtDepth(sorted[1..], forward, d) + AtDepth([c], forward, d)
    ensures AtDepth(InsertByDepth(sorted, c, forward), forward, d) == AtDepth(sorted, forward, d) + AtDepth([c], forward, d)
  {
    var rest := InsertByDepth(sorted[1..], c, forward);
    var head, own := AtDepth([sorted[0]], forward, d), AtDepth([c], forward, d);
    calc {
      AtDepth(InsertByDepth(sorted, c, forward), forward, d);
      { assert InsertByDepth(sorted, c, forward) == [sorted[0]] + rest; }
      AtDepth([sorted[0]] + rest, forward, d);
      { AtDepthCons(sorted[0], rest, forward, d); }
      head + AtDepth(rest, forward, d);
      head + (AtDepth(sorted[1..], forward, d) + own);
      { Associative(head, AtDepth(sorted[1..], forward, d), own); }
      head + AtDepth(sorted[1..], forward, d) + own;
      { AtDepthCons(sorted[0], sorted[1..], forward, d); assert [sorted[0]] + sorted[1..] == sorted; }
      AtDepth(sorted, forward, d) + own;
    }
  }

  lemma Associative<T>(a: seq<T>, b: seq<T>, c: seq<T>)
    ensures a + (b + c) == a + b + c
  {
  }

  /** Inserting in front of a list lying wholly less far along `forward` than `c`. */
  lemma InsertInFront(sorted: seq<RenderCommand>, c: RenderCommand, forward: Vec3, d: real)
    requires sorted != [] && BackToFront(sorted, forward)
    requires Depth(sorted[0], forward) < Depth(c, forward)
    ensures AtDepth(InsertByDepth(sorted, c, forward), forward, d) == AtDepth(sorted, forward, d) + AtDepth([c], forward, d)
  {
    assert InsertByDepth(sorted, c, forward) == [c] + sorted;
    AtDepthCons(c, sorted, forward, d);
    assert [c][1..] == [];
    if Depth(c, forward) == d {
      AtDepthNone(sorted, forward, d);
    } else {
      assert AtDepth([c], forward, d) == [];
    }
  }

  /**
   * The sort is stable: the commands at any one depth keep their order in
   * `cs`, that is, their entity order.
   */
  lemma {:induction false} SortIsStable(cs: seq<RenderCommand>, forward: Vec3, d: real)
    ensures AtDepth(SortByDepth(cs, forward), forward, d) == AtDepth(cs, forward, d)
  {
    if cs != [] {
      var front, last := cs[..|cs| - 1], cs[|cs| - 1];
      calc {
        AtDepth(SortByDepth(cs, forward), forward, d);
        { InsertAtDepth(SortByDepth(front, forward), last, forward, d); }
        AtDepth(SortByDepth(front, forward), forward, d) + AtDepth([last], forward, d);
        { SortIsStable(front, forward, d); }
        AtDepth(front, forward, d) + AtDepth([last], forward, d);
        { AtDepthAppend(front, [last], forward, d); assert cs == front + [last]; }
        AtDepth(cs, forward, d);
      }
    }
  }

  // ---------------------------------------------------------------------------
  // render: the calls of a frame

  /** Every command's material can be set up. */
  predicate CommandsReady(cs: seq<RenderCommand>)
    reads MaterialsOf(cs)
  {
    forall c :: c in cs ==> Ready(c.material.Data())
  }

  /** What drawing with a material depends on: its shader, and the calls its setup makes. */
  datatype Pass = Pass(shader: ShaderId, setup: seq<Event>)
  {
    /** Setting up draws no mesh. */
    predicate Quiet() {
      Draws(setup) == []
    }
  }

  function PassOf(d: MaterialData): Pass
    requires Ready(d)
  {
    Pass(d.shader.value, SetupEvents(d))
  }

  /** What drawing a command depends on: its matrix, its mesh, and its material as it is at draw time. */
  datatype DrawItem = DrawItem(localToWorld: Mat4, mesh: MeshId, pass: Pass)

  function ItemOf(c: RenderCommand): DrawItem
    reads c.material
    requires Ready(c.material.Data())
  {
    DrawItem(c.localToWorld, c.mesh, PassOf(c.material.Data()))
  }

  function Items(cs: seq<RenderCommand>): (items: seq<DrawItem>)
    reads MaterialsOf(cs)
    requires CommandsReady(cs)
    ensures |items| == |cs|
  {
    seq(|cs|, i requires 0 <= i < |cs| && Ready(cs[i].material.Data()) reads MaterialsOf(cs) => ItemOf(cs[i]))
  }

  /** One command: its material's setup, the model-view-projection matrix as "transform", and the draw. */
  function ItemEvents(item: DrawItem, vp: Mat4): seq<Event> {
    item.pass.setup
    + [SetUniform(item.pass.shader, "transform", MatValue(MulMat(vp, item.localToWorld))), DrawMesh(item.mesh)]
  }

  /** The first `n` commands, in order. */
  function ItemsEvents(items: seq<DrawItem>, n: nat, vp: Mat4): seq<Event>
    requires n <= |items|
  {
    if n == 0 then [] else ItemsEvents(items, n - 1, vp) + ItemEvents(items[n - 1], vp)
  }

  /**
   * What a frame depends on: the window size, the off-screen framebuffer if
   * any, the opaque commands, the sky sphere and material, the transparent
   * commands, and the postprocess vertex array and material.
   */
  datatype Scene = Scene(
    windowSize: IVec2,
    target: Option<nat>,
    opaqueItems: seq<DrawItem>,
    sky: Option<(MeshId, Pass)>,
    transparentItems: seq<DrawItem>,
    postprocess: Option<(nat, Pass)>)
  {
    /** No material's setup draws a mesh. */
    predicate Quiet() {
      && ItemsQuiet(opaqueItems) && ItemsQuiet(transparentItems)
      && (sky.Some? ==> sky.value.1.Quiet())
      && (postprocess.Some? ==> postprocess.value.1.Quiet())
    }
  }

  predicate ItemsQuiet(items: seq<DrawItem>) {
    forall i :: 0 <= i < |items| ==> items[i].pass.Quiet()
  }

  /** Viewport, black clear colour, far clear depth, all writes on, the off-screen target when there is one, then the clear. */
  function ClearEvents(windowSize: IVec2, target: Option<nat>): seq<Event> {
    ClearSettings(windowSize) + BindTarget(target) + [Clear(true, true)]
  }

  /** The viewport, the clear values and the write masks set before clearing. */
  function ClearSettings(windowSize: IVec2): seq<Event> {
    [Viewport(0, 0, windowSize.x, windowSize.y), ClearColor(Vec4(0.0, 0.0, 0.0, 1.0)), ClearDepth(1.0),
     ColorMask(AllChannels), DepthMask(true)]
  }

  /** The off-screen framebuffer is bound only when there is a postprocess pass. */
  function BindTarget(target: Option<nat>): seq<Event> {
    if target.Some? then [BindFramebuffer(target.value)] else []
  }

  /** The sky's transform: centred on the camera, then pushed to the far plane after the view-projection. */
  function SkyTransform(vp: Mat4, cameraMatrix: Mat4): Mat4 {
    MulMat(MulMat(AlwaysBehind, vp), Translate(TranslationOf(cameraMatrix)))
  }

  function SkyEvents(sky: Option<(MeshId, Pass)>, vp: Mat4, cameraMatrix: Mat4): seq<Event> {
    if sky.None? then []
    else
      var (sphere, pass) := sky.value;
      pass.setup + [SetUniform(pass.shader, "transform", MatValue(SkyTransform(vp, cameraMatrix))), DrawMesh(sphere)]
  }

  /** Back to the default framebuffer, the postprocess material, and one full-screen triangle. */
  function PostEvents(post: Option<(nat, Pass)>): seq<Event> {
    if post.None? then []
    else [BindFramebuffer(0)] + post.value.1.setup + [BindVertexArray(post.value.0), DrawArrays(GL_TRIANGLES, 0, 3)]
  }

  /** A whole frame: clear, opaque commands, sky, transparent commands, postprocess. */
  function FrameEvents(scene: Scene, vp: Mat4, cameraMatrix: Mat4): seq<Event> {
    ClearEvents(scene.windowSize, scene.target)
    + ItemsEvents(scene.opaqueItems, |scene.opaqueItems|, vp)
    + SkyEvents(scene.sky, vp, cameraMatrix)
    + ItemsEvents(scene.transparentItems, |scene.transparentItems|, vp)
    + PostEvents(scene.postprocess)
  }

  /** The meshes a list of events draws, in order. */
  function Draws(events: seq<Event>): seq<MeshId> {
    if events == [] then []
    else Draws(events[..|events| - 1]) + (if events[|events| - 1].DrawMesh? then [events[|events| - 1].mesh] else [])
  }

  lemma {:induction false} DrawsAppend(a: seq<Event>, b: seq<Event>)
    ensures Draws(a + b) == Draws(a) + Draws(b)
    decreases |b|
  {
    if b == [] {
      assert a + b == a;
    } else {
      var front := b[..|b| - 1];
      assert (a + b)[..|a + b| - 1] == a + front;
      assert (a + b)[|a + b| - 1] == b[|b| - 1];
      DrawsAppend(a, front);
    }
  }

  predicate DrawsNothing(events: seq<Event>) {
    forall e :: e in events ==> !e.DrawMesh?
  }

  lemma {:induction false} NoDraws(events: seq<Event>)
    requires DrawsNothing(events)
    ensures Draws(events) == []
  {
    if events != [] {
      NoDraws(events[..|events| - 1]);
    }
  }

  lemma PipelineDrawsNothing(ps: PipelineState)
    ensures DrawsNothing(ps.Events())
  {
    assert DrawsNothing(ps.CullingEvents()) && DrawsNothing(ps.BlendingEvents()) && DrawsNothing(ps.DepthEvents());
  }

  lemma LitOwnDrawsNothing(d: MaterialData)
    requires d.shader.Some? && SamplerCoversMaps(d)
    ensures DrawsNothing(LitOwnEvents(d))
  {
    assert DrawsNothing(MapEvents(d, 0)) && DrawsNothing(MapEvents(d, 1)) && DrawsNothing(MapEvents(d, 2));
    assert DrawsNothing(MapEvents(d, 3)) && DrawsNothing(MapEvents(d, 4));
  }

  /** Setting up a material draws nothing. */
  lemma SetupDrawsNothing(d: MaterialData)
    requires Ready(d)
    ensures PassOf(d).Quiet()
  {
    PipelineDrawsNothing(d.pipelineState);
    assert DrawsNothing(TintedEvents(d));
    if d.kind == Textured || d.kind == Lit {
      assert DrawsNothing(TexturedOwnEvents(d));
    }
    if d.kind == Lit {
      LitOwnDrawsNothing(d);
    }
    NoDraws(SetupEvents(d));
  }

  function Meshes(items: seq<DrawItem>): seq<MeshId> {
    seq(|items|, i requires 0 <= i < |items| => items[i].mesh)
  }

  /** A uniform upload followed by one draw draws exactly that mesh. */
  lemma DrawsOfUpload(upload: Event, mesh: MeshId)
    requires !upload.DrawMesh?
    ensures Draws([upload, DrawMesh(mesh)]) == [mesh]
  {
    var e := [upload, DrawMesh(mesh)];
    assert e[..1] == [upload];
    assert [upload][..0] == [];
    assert Draws([upload]) == [];
    assert Draws(e) == Draws(e[..1]) + [mesh];
  }

  lemma ItemDraws(item: DrawItem, vp: Mat4)
    requires item.pass.Quiet()
    ensures Draws(ItemEvents(item, vp)) == [item.mesh]
  {
    var upload := SetUniform(item.pass.shader, "transform", MatValue(MulMat(vp, item.localToWorld)));
    DrawsOfUpload(upload, item.mesh);
    DrawsAppend(item.pass.setup, [upload, DrawMesh(item.mesh)]);
  }

  lemma MeshesSnoc(items: seq<DrawItem>, n: nat)
    requires n < |items|
    ensures Meshes(items[..n + 1]) == Meshes(items[..n]) + [items[n].mesh]
  {
  }

  lemma {:induction false} ItemsDraws(items: seq<DrawItem>, n: nat, vp: Mat4)
    requires n <= |items| && ItemsQuiet(items)
    ensures Draws(ItemsEvents(items, n, vp)) == Meshes(items[..n])
  {
    if n > 0 {
      ItemsDraws(items, n - 1, vp);
      ItemDraws(items[n - 1], vp);
      MeshesSnoc(items, n - 1);
      DrawsAppend(ItemsEvents(items, n - 1, vp), ItemEvents(items[n - 1], vp));
    }
  }

  lemma AllItemsDraw(items: seq<DrawItem>, vp: Mat4)
    requires ItemsQuiet(items)
    ensures Draws(ItemsEvents(items, |items|, vp)) == Meshes(items)
  {
    ItemsDraws(items, |items|, vp);
    assert items[..|items|] == items;
  }

  /**
   * A frame draws the opaque meshes in list order, then the sky sphere when
   * there is a sky, then the transparent meshes in list order; the
   * postprocess pass draws a full-screen triangle and no mesh.
   */
  lemma DrawOrder(scene: Scene, vp: Mat4, cameraMatrix: Mat4)
    requires scene.Quiet()
    ensures Draws(FrameEvents(scene, vp, cameraMatrix))
      == Meshes(scene.opaqueItems) + (if scene.sky.Some? then [scene.sky.value.0] else []) + Meshes(scene.transparentItems)
  {
    FrameDrawsByPart(scene, vp, cameraMatrix);
    ClearDraws(scene.windowSize, scene.target);
    AllItemsDraw(scene.opaqueItems, vp);
    SkyDraws(scene.sky, vp, cameraMatrix);
    AllItemsDraw(scene.transparentItems, vp);
    PostDraws(scene.postprocess);
    DropEmptyEnds(Draws(ClearEvents(scene.windowSize, scene.target)), Meshes(scene.opaqueItems),
                  Draws(SkyEvents(scene.sky, vp, cameraMatrix)), Meshes(scene.transparentItems),
                  Draws(PostEvents(scene.postprocess)));
  }

  lemma DropEmptyEnds(a: seq<MeshId>, b: seq<MeshId>, c: seq<MeshId>, d: seq<MeshId>, e: seq<MeshId>)
    requires a == [] && e == []
    ensures a + b + c + d + e == b + c + d
  {
  }

  /** The meshes a frame draws are those of its five parts, in order. */
  lemma FrameDrawsByPart(scene: Scene, vp: Mat4, cameraMatrix: Mat4)
    ensures Draws(FrameEvents(scene, vp, cameraMatrix))
      == Draws(ClearEvents(scene.windowSize, scene.target))
         + Draws(ItemsEvents(scene.opaqueItems, |scene.opaqueItems|, vp))
         + Draws(SkyEvents(scene.sky, vp, cameraMatrix))
         + Draws(ItemsEvents(scene.transparentItems, |scene.transparentItems|, vp))
         + Draws(PostEvents(scene.postprocess))
  {
    DrawsOfFive(ClearEvents(scene.windowSize, scene.target),
                ItemsEvents(scene.opaqueItems, |scene.opaqueItems|, vp),
                SkyEvents(scene.sky, vp, cameraMatrix),
                ItemsEvents(scene.transparentItems, |scene.transparentItems|, vp),
                PostEvents(scene.postprocess));
  }

  lemma DrawsOfFive(a: seq<Event>, b: seq<Event>, c: seq<Event>, d: seq<Event>, e: seq<Event>)
    ensures Draws(a + b + c + d + e) == Draws(a) + Draws(b) + Draws(c) + Draws(d) + Draws(e)
  {
    DrawsAppend(a, b);
    DrawsAppend(a + b, c);
    DrawsAppend(a + b + c, d);
    DrawsAppend(a + b + c + d, e);
  }

  lemma ClearDraws(windowSize: IVec2, target: Option<nat>)
    ensures Draws(ClearEvents(windowSize, target)) == []
  {
    assert DrawsNothing(ClearEvents(windowSize, target));
    NoDraws(ClearEvents(windowSize, target));
  }

  lemma SkyDraws(sky: Option<(MeshId, Pass)>, vp: Mat4, cameraMatrix: Mat4)
    requires sky.Some? ==> sky.value.1.Quiet()
    ensures Draws(SkyEvents(sky, vp, cameraMatrix)) == if sky.Some? then [sky.value.0] else []
  {
    if sky.Some? {
      var (sphere, pass) := sky.value;
      var upload := SetUniform(pass.shader, "transform", MatValue(SkyTransform(vp, cameraMatrix)));
      DrawsOfUpload(upload, sphere);
      DrawsAppend(pass.setup, [upload, DrawMesh(sphere)]);
    }
  }

  lemma PostDraws(post: Option<(nat, Pass)>)
    requires post.Some? ==> post.value.1.Quiet()
    ensures Draws(PostEvents(post)) == []
  {
    if post.Some? {
      var setup := post.value.1.setup;
      var bind := [BindFramebuffer(0)];
      var triangle := [BindVertexArray(post.value.0), DrawArrays(GL_TRIANGLES, 0, 3)];
      NoDraws(bind);
      NoDraws(triangle);
      DrawsAppend(bind, setup);
      DrawsAppend(bind + setup, triangle);
    }
  }

  /**
   * After the clearing calls the viewport covers the window, the clear values
   * are black and the far plane, colour and depth writes are all on, and the
   * off-screen framebuffer is bound exactly when there is a postprocess pass.
   */
  lemma ClearEffect(windowSize: IVec2, target: Option<nat>, s: GlState)
    ensures Replay(s, ClearEvents(windowSize, target))
      == s.(viewport := (0, 0, windowSize.x, windowSize.y), clearColor := Vec4(0.0, 0.0, 0.0, 1.0),
            clearDepth := 1.0, colorMask := AllChannels, depthMask := true,
            framebuffer := if target.Some? then target.value else s.framebuffer)
  {
    var settings, bind := ClearSettings(windowSize), BindTarget(target);
    ReplayAppend(s, settings + bind, [Clear(true, true)]);
    ReplayOne(Replay(s, settings + bind), Clear(true, true));
    ReplayAppend(s, settings, bind);
    ClearSettingsEffect(windowSize, s);
    if target.Some? {
      ReplayOne(Replay(s, settings), BindFramebuffer(target.value));
    }
  }

  lemma ClearSettingsEffect(windowSize: IVec2, s: GlState)
    ensures Replay(s, ClearSettings(windowSize))
      == s.(viewport := (0, 0, windowSize.x, windowSize.y), clearColor := Vec4(0.0, 0.0, 0.0, 1.0),
            clearDepth := 1.0, colorMask := AllChannels, depthMask := true)
  {
    var a, b, c, d := Viewport(0, 0, windowSize.x, windowSize.y), ClearColor(Vec4(0.0, 0.0, 0.0, 1.0)), ClearDepth(1.0),
      ColorMask(AllChannels);
    assert ClearSettings(windowSize) == [a, b, c, d] + [DepthMask(true)];
    ReplaySnoc(s, [a, b, c, d], DepthMask(true));
    ReplayFour(s, a, b, c, d);
    ClearSettingsSteps(windowSize, s);
  }

  lemma ClearSettingsSteps(windowSize: IVec2, s: GlState)
    ensures Step(Step(Step(Step(Step(s, Viewport(0, 0, windowSize.x, windowSize.y)), ClearColor(Vec4(0.0, 0.0, 0.0, 1.0))),
                               ClearDepth(1.0)), ColorMask(AllChannels)), DepthMask(true))
      == s.(viewport := (0, 0, windowSize.x, windowSize.y), clearColor := Vec4(0.0, 0.0, 0.0, 1.0),
            clearDepth := 1.0, colorMask := AllChannels, depthMask := true)
  {
    var s1 := s.(viewport := (0, 0, windowSize.x, windowSize.y));
    var s2 := s1.(clearColor := Vec4(0.0, 0.0, 0.0, 1.0));
    var s3 := s2.(clearDepth := 1.0);
    var s4 := s3.(colorMask := AllChannels);
    assert Step(s4, DepthMask(true)) == s4.(depthMask := true);
  }

  /** Whatever the view-projection, every vertex of the sky lands on the far plane, and the sky sphere is centred on the camera. */
  lemma SkyIsBehindAndAroundCamera(vp: Mat4, cameraMatrix: Mat4, v: Vec4)
    ensures var clip := MulVec(SkyTransform(vp, cameraMatrix), v); clip.z == clip.w
    ensures MulVec(Translate(TranslationOf(cameraMatrix)), Point(Origin)) == Point(TranslationOf(cameraMatrix))
    ensures TranslationOf(cameraMatrix) == Xyz(MulVec(cameraMatrix, Point(Origin)))
  {
    SkyDepthIsFar(vp, Translate(TranslationOf(cameraMatrix)), v);
    TranslateMovesOrigin(TranslationOf(cameraMatrix));
    TranslationIsImageOfOrigin(cameraMatrix);
  }

  // ---------------------------------------------------------------------------
  // render: the methods

  /** The first loop of render: the two command lists and the first camera. */
  method CollectCommands(world: seq<Entity>) returns (camera: Option<nat>, opaqueList: seq<RenderCommand>,
                                                      transparentList: seq<RenderCommand>)
    ensures camera == FirstCamera(world)
    ensures opaqueList == Opaque(Commands(world))
    ensures transparentList == Transparent(Commands(world))
  {
    camera := None;
    opaqueList, transparentList := [], [];
    for i := 0 to |world|
      invariant camera == CameraAmong(world, i)
      invariant opaqueList == Opaque(CommandsAmong(world, i))
      invariant transparentList == Transparent(CommandsAmong(world, i))
    {
      var entity := world[i];
      if camera.None? {
        camera := if entity.Has(CameraKind) then Some(i) else None;
      }
      var command := CommandOf(entity);
      CollectNext(world, i);
      if command.Some? {
        if command.value.material.transparent {
          transparentList := transparentList + [command.value];
        } else {
          opaqueList := opaqueList + [command.value];
        }
      }
    }
  }

  /** Draws the commands in order. */
  method DrawCommands(gl: Device, cs: seq<RenderCommand>, ghost items: seq<DrawItem>, vp: Mat4)
    requires gl.Valid() && CommandsReady(cs) && items == Items(cs)
    modifies gl
    ensures gl.Valid() && gl.trace == old(gl.trace) + ItemsEvents(items, |items|, vp)
  {
    for i := 0 to |cs|
      invariant gl.Valid() && gl.trace == old(gl.trace) + ItemsEvents(items, i, vp)
    {
      ghost var done := ItemsEvents(items, i, vp);
      assert cs[i] in cs;
      DrawCommand(gl, cs[i], items[i], vp);
      AppendAssociative(old(gl.trace), done, ItemEvents(items[i], vp));
    }
  }

  method DrawCommand(gl: Device, c: RenderCommand, ghost item: DrawItem, vp: Mat4)
    requires gl.Valid() && Ready(c.material.Data()) && item == ItemOf(c)
    modifies gl
    ensures gl.Valid() && gl.trace == old(gl.trace) + ItemEvents(item, vp)
  {
    ghost var t := gl.trace;
    c.material.Setup(gl);
    var upload := SetUniform(c.material.shader.value, "transform", MatValue(MulMat(vp, c.localToWorld)));
    gl.Call(upload);
    gl.Call(DrawMesh(c.mesh));
    SetupThenTwo(t, item.pass.setup, upload, DrawMesh(c.mesh));
  }

  lemma SetupThenTwo(t: seq<Event>, setup: seq<Event>, a: Event, b: Event)
    ensures t + setup + [a] + [b] == t + (setup + [a, b])
  {
    assert setup + [a, b] == setup + [a] + [b];
  }

  lemma OneSetupTwo(t: seq<Event>, a: Event, setup: seq<Event>, b: Event, c: Event)
    ensures t + [a] + setup + [b] + [c] == t + ([a] + setup + [b, c])
  {
    assert [a] + setup + [b, c] == [a] + setup + [b] + [c];
  }

  method ClearTargets(gl: Device, windowSize: IVec2, target: Option<nat>)
    requires gl.Valid()
    modifies gl
    ensures gl.Valid() && gl.trace == old(gl.trace) + ClearEvents(windowSize, target)
  {
    ghost var t0 := gl.trace;
    SetClearState(gl, windowSize);
    if target.Some? {
      gl.Call(BindFramebuffer(target.value));
    }
    assert gl.trace == t0 + ClearSettings(windowSize) + BindTarget(target);
    gl.Call(Clear(true, true));
    Regroup3(t0, ClearSettings(windowSize), BindTarget(target), [Clear(true, true)]);
  }

  /** The viewport, clear values and write masks of a frame. */
  method SetClearState(gl: Device, windowSize: IVec2)
    requires gl.Valid()
    modifies gl
    ensures gl.Valid() && gl.trace == old(gl.trace) + ClearSettings(windowSize)
  {
    gl.Call(Viewport(0, 0, windowSize.x, windowSize.y));
    gl.Call(ClearColor(Vec4(0.0, 0.0, 0.0, 1.0)));
    gl.Call(ClearDepth(1.0));
    gl.Call(ColorMask(AllChannels));
    gl.Call(DepthMask(true));
  }

  lemma Regroup3(t: seq<Event>, a: seq<Event>, b: seq<Event>, c: seq<Event>)
    ensures t + a + b + c == t + (a + b + c)
  {
  }

  /** The first half of a frame: clearing the targets and drawing the opaque commands. */
  method DrawOpaquePass(gl: Device, windowSize: IVec2, target: Option<nat>, opaqueList: seq<RenderCommand>,
                        ghost items: seq<DrawItem>, vp: Mat4)
    requires gl.Valid() && CommandsReady(opaqueList) && items == Items(opaqueList)
    modifies gl
    ensures gl.Valid()
    ensures gl.trace == old(gl.trace) + ClearEvents(windowSize, target) + ItemsEvents(items, |items|, vp)
  {
    ClearTargets(gl, windowSize, target);
    DrawCommands(gl, opaqueList, items, vp);
  }

  /** The second half of a frame: the sky, the transparent commands and the postprocess pass. */
  method DrawTransparentPass(gl: Device, sky: Option<Sky>, transparentList: seq<RenderCommand>, post: Option<Postprocess>,
                             vp: Mat4, cameraMatrix: Mat4,
                             ghost skyDrawn: Option<(MeshId, Pass)>, ghost items: seq<DrawItem>, ghost postDrawn: Option<(nat, Pass)>)
    requires gl.Valid()
    requires SkyReady(sky) && skyDrawn == SkyDraw(sky)
    requires CommandsReady(transparentList) && items == Items(transparentList)
    requires PostReady(post) && postDrawn == PostDraw(post)
    modifies gl
    ensures gl.Valid()
    ensures gl.trace == old(gl.trace) + (SkyEvents(skyDrawn, vp, cameraMatrix) + ItemsEvents(items, |items|, vp) + PostEvents(postDrawn))
  {
    ghost var t0 := gl.trace;
    DrawSky(gl, sky, skyDrawn, vp, cameraMatrix);
    ghost var skyEvents := SkyEvents(skyDrawn, vp, cameraMatrix);
    DrawCommands(gl, transparentList, items, vp);
    ghost var back := ItemsEvents(items, |items|, vp);
    AppendAssociative(t0, skyEvents, back);
    ApplyPostprocess(gl, post, postDrawn);
    AppendAssociative(t0, skyEvents + back, PostEvents(postDrawn));
  }

  method DrawSky(gl: Device, sky: Option<Sky>, ghost drawn: Option<(MeshId, Pass)>, vp: Mat4, cameraMatrix: Mat4)
    requires gl.Valid() && SkyReady(sky) && drawn == SkyDraw(sky)
    modifies gl
    ensures gl.Valid() && gl.trace == old(gl.trace) + SkyEvents(drawn, vp, cameraMatrix)
  {
    if sky.Some? {
      var material := sky.value.material;
      ghost var t := gl.trace;
      material.Setup(gl);
      var cameraPosition := Xyz(MulVec(cameraMatrix, Point(Origin)));
      TranslationIsImageOfOrigin(cameraMatrix);
      var skyModel := Translate(cameraPosition);
      var upload := SetUniform(material.shader.value, "transform", MatValue(MulMat(MulMat(AlwaysBehind, vp), skyModel)));
      gl.Call(upload);
      gl.Call(DrawMesh(sky.value.sphere));
      SetupThenTwo(t, drawn.value.1.setup, upload, DrawMesh(sky.value.sphere));
    }
  }

  method ApplyPostprocess(gl: Device, post: Option<Postprocess>, ghost drawn: Option<(nat, Pass)>)
    requires gl.Valid() && PostReady(post) && drawn == PostDraw(post)
    modifies gl
    ensures gl.Valid() && gl.trace == old(gl.trace) + PostEvents(drawn)
  {
    if post.Some? {
      var material := post.value.material;
      ghost var t := gl.trace;
      ghost var setup := SetupEvents(material.Data());
      gl.Call(BindFramebuffer(0));
      material.Setup(gl);
      assert gl.trace == t + [BindFramebuffer(0)] + setup;
      gl.Call(BindVertexArray(post.value.vertexArray));
      gl.Call(DrawArrays(GL_TRIANGLES, 0, 3));
      OneSetupTwo(t, BindFramebuffer(0), setup, BindVertexArray(post.value.vertexArray), DrawArrays(GL_TRIANGLES, 0, 3));
    }
  }

  function SkyMaterials(sky: Option<Sky>): set<Material> {
    if sky.Some? then {sky.value.material} else {}
  }

  predicate SkyReady(sky: Option<Sky>)
    reads SkyMaterials(sky)
  {
    sky.Some? ==> Ready(sky.value.material.Data())
  }

  function SkyDraw(sky: Option<Sky>): Option<(MeshId, Pass)>
    reads SkyMaterials(sky)
    requires SkyReady(sky)
  {
    if sky.Some? then Some((sky.value.sphere, PassOf(sky.value.material.Data()))) else None
  }

  function PostMaterials(post: Option<Postprocess>): set<Material> {
    if post.Some? then {post.value.material} else {}
  }

  predicate PostReady(post: Option<Postprocess>)
    reads PostMaterials(post)
  {
    post.Some? ==> Ready(post.value.material.Data())
  }

  function PostDraw(post: Option<Postprocess>): Option<(nat, Pass)>
    reads PostMaterials(post)
    requires PostReady(post)
  {
    if post.Some? then Some((post.value.vertexArray, PassOf(post.value.material.Data()))) else None
  }

  function TargetOf(post: Option<Postprocess>): Option<nat> {
    if post.Some? then Some(post.value.framebuffer) else None
  }

  /** The commands' materials draw no mesh while they are set up. */
  lemma ItemsAreQuiet(cs: seq<RenderCommand>)
    requires CommandsReady(cs)
    ensures ItemsQuiet(Items(cs))
  {
    forall i | 0 <= i < |cs|
      ensures Items(cs)[i].pass.Quiet()
    {
      assert cs[i] in cs;
      SetupDrawsNothing(cs[i].material.Data());
    }
  }

  /** Both lists hold only commands that can be set up. */
  lemma SplitReady(cs: seq<RenderCommand>)
    requires CommandsReady(cs)
    ensures CommandsReady(Opaque(cs)) && CommandsReady(Transparent(cs))
    ensures MaterialsOf(Opaque(cs)) <= MaterialsOf(cs) && MaterialsOf(Transparent(cs)) <= MaterialsOf(cs)
  {
    SplitWithin(cs);
  }

  /** Each list holds only commands that were collected. */
  lemma {:induction false} SplitWithin(cs: seq<RenderCommand>)
    ensures forall c :: c in Opaque(cs) ==> c in cs
    ensures forall c :: c in Transparent(cs) ==> c in cs
  {
    if cs != [] {
      var front := cs[..|cs| - 1];
      SplitWithin(front);
      assert cs == front + [cs[|cs| - 1]];
    }
  }

  /** Reordering keeps every command ready. */
  lemma ReorderReady(cs: seq<RenderCommand>, reordered: seq<RenderCommand>)
    requires CommandsReady(cs) && multiset(reordered) == multiset(cs)
    ensures CommandsReady(reordered) && MaterialsOf(reordered) == MaterialsOf(cs)
  {
    forall c | c in reordered
      ensures c in cs
    {
      assert c in multiset(reordered);
    }
    forall c | c in cs
      ensures c in reordered
    {
      assert c in multiset(cs);
    }
  }

  /** What a frame drawing these commands, sky and postprocess depends on. */
  function SceneFrom(windowSize: IVec2, opaqueList: seq<RenderCommand>, sky: Option<Sky>,
                     transparentList: seq<RenderCommand>, post: Option<Postprocess>): Scene
    reads MaterialsOf(opaqueList), SkyMaterials(sky), MaterialsOf(transparentList), PostMaterials(post)
    requires CommandsReady(opaqueList) && SkyReady(sky) && CommandsReady(transparentList) && PostReady(post)
  {
    Scene(windowSize, TargetOf(post), Items(opaqueList), SkyDraw(sky), Items(transparentList), PostDraw(post))
  }

  /** The two lists depend on nothing but the commands' materials. */
  /** The two halves of a frame, appended to a trace, make the whole frame. */
  lemma Regroup(t: seq<Event>, a: seq<Event>, b: seq<Event>, c: seq<Event>, d: seq<Event>, e: seq<Event>)
    ensures t + a + b + (c + d + e) == t + (a + b + c + d + e)
  {
  }

  twostate lemma SplitUnchanged(cs: seq<RenderCommand>)
    requires unchanged(MaterialsOf(cs))
    ensures Opaque(cs) == old(Opaque(cs)) && Transparent(cs) == old(Transparent(cs))
  {
  }

  // ---------------------------------------------------------------------------
  // The renderer

  /** The renderer's fields that render leaves alone. */
  datatype Settings = Settings(
    windowSize: IVec2,
    sky: Option<Sky>,
    postprocess: Option<Postprocess>,
    dummy: bool,
    skyTop: Vec3,
    skyMiddle: Vec3,
    skyBottom: Vec3)

  /** The sky initialize creates: present exactly when the configuration names a sky image. */
  method CreateSky(config: Json, r: Resources, blank: MaterialData) returns (sky: Option<Sky>)
    requires KeyFits(config, "sky", StringKind)
    ensures sky.Some? <==> Contains(config, "sky")
    ensures sky.Some? ==>
      && sky.value.sphere == r.sphere && fresh(sky.value.material)
      && sky.value.material.Data() == SkyMaterial(blank, r, config.fields["sky"].s)
  {
    sky := None;
    if Contains(config, "sky") {
      var material := new Material(SkyMaterial(blank, r, StringOr(config, "sky", "")));
      sky := Some(Sky(r.sphere, material));
    }
  }

  /**
   * The postprocess pass initialize creates: present exactly when the
   * configuration names a fragment shader, after attaching the two textures
   * to the framebuffer.
   */
  method CreatePostprocess(config: Json, r: Resources, blank: MaterialData, gl: Device) returns (post: Option<Postprocess>)
    requires gl.Valid() && KeyFits(config, "postprocess", StringKind)
    modifies gl
    ensures gl.Valid()
    ensures post.Some? <==> Contains(config, "postprocess")
    ensures post.Some? ==>
      && post.value == Postprocess(r.framebuffer, r.vertexArray, r.colorTarget, r.depthTarget, post.value.material)
      && fresh(post.value.material)
      && post.value.material.Data() == PostprocessMaterial(blank, r, config.fields["postprocess"].s)
    ensures gl.trace == old(gl.trace) + (if Contains(config, "postprocess") then AttachEvents(r) else [])
  {
    post := None;
    if Contains(config, "postprocess") {
      ghost var t := gl.trace;
      gl.Call(BindFramebuffer(r.framebuffer));
      gl.Call(FramebufferTexture(ColorAttachment, r.colorTarget));
      gl.Call(FramebufferTexture(DepthAttachment, r.depthTarget));
      gl.Call(BindFramebuffer(0));
      LogFour(t, BindFramebuffer(r.framebuffer), FramebufferTexture(ColorAttachment, r.colorTarget),
        FramebufferTexture(DepthAttachment, r.depthTarget), BindFramebuffer(0));
      var material := new Material(PostprocessMaterial(blank, r, StringOr(config, "postprocess", "")));
      post := Some(Postprocess(r.framebuffer, r.vertexArray, r.colorTarget, r.depthTarget, material));
    }
  }

  class ForwardRenderer {
    var windowSize: IVec2
    var opaqueCommands: seq<RenderCommand>
    var transparentCommands: seq<RenderCommand>
    var sky: Option<Sky>
    var postprocess: Option<Postprocess>
    /** Switches between postprocessing effects. */
    var dummy: bool
    var skyTop: Vec3
    var skyMiddle: Vec3
    var skyBottom: Vec3

    constructor ()
      ensures !dummy && sky.None? && postprocess.None? && opaqueCommands == [] && transparentCommands == []
    {
      dummy := false;
      sky := None;
      postprocess := None;
      opaqueCommands := [];
      transparentCommands := [];
    }

    function Current(): Settings
      reads this
    {
      Settings(windowSize, sky, postprocess, dummy, skyTop, skyMiddle, skyBottom)
    }

    /** invertDummyVariable: flips the flag and nothing else. */
    method InvertDummyVariable()
      modifies this
      ensures dummy == !old(dummy)
      ensures Current() == old(Current()).(dummy := !old(dummy))
      ensures opaqueCommands == old(opaqueCommands) && transparentCommands == old(transparentCommands)
    {
      dummy := !dummy;
    }

    /** deserialize: each sky colour is replaced only when its key is present. */
    method Deserialize(data: Json)
      requires KeyFits(data, "skyTop", Vec3Kind) && KeyFits(data, "skyMiddle", Vec3Kind)
      requires KeyFits(data, "skyBottom", Vec3Kind)
      modifies this
      ensures skyTop == SkyColour(data, "skyTop", old(skyTop))
      ensures skyMiddle == SkyColour(data, "skyMiddle", old(skyMiddle))
      ensures skyBottom == SkyColour(data, "skyBottom", old(skyBottom))
      ensures Current() == old(Current()).(skyTop := skyTop, skyMiddle := skyMiddle, skyBottom := skyBottom)
      ensures opaqueCommands == old(opaqueCommands) && transparentCommands == old(transparentCommands)
    {
      if Contains(data, "skyTop") {
        var v := data.fields["skyTop"];
        skyTop := Vec3(v.items[0].n, v.items[1].n, v.items[2].n);
      }
      if Contains(data, "skyMiddle") {
        var v := data.fields["skyMiddle"];
        skyMiddle := Vec3(v.items[0].n, v.items[1].n, v.items[2].n);
      }
      if Contains(data, "skyBottom") {
        var v := data.fields["skyBottom"];
        skyBottom := Vec3(v.items[0].n, v.items[1].n, v.items[2].n);
      }
    }

    /**
     * initialize: stores the window size, creates the sky when the
     * configuration names a sky image and the postprocess pass when it names
     * a postprocess shader. `blank` is a newly constructed TexturedMaterial.
     */
    method Initialize(windowSize: IVec2, config: Json, r: Resources, blank: MaterialData, gl: Device)
      requires gl.Valid()
      requires KeyFits(config, "sky", StringKind) && KeyFits(config, "postprocess", StringKind)
      requires blank.kind == Textured
      modifies this, gl
      ensures gl.Valid()
      ensures this.windowSize == windowSize
      ensures sky.Some? <==> Contains(config, "sky")
      ensures sky.Some? ==>
        && sky.value.sphere == r.sphere && fresh(sky.value.material)
        && sky.value.material.Data() == SkyMaterial(blank, r, config.fields["sky"].s)
      ensures postprocess.Some? <==> Contains(config, "postprocess")
      ensures postprocess.Some? ==>
        && postprocess.value == Postprocess(r.framebuffer, r.vertexArray, r.colorTarget, r.depthTarget, postprocess.value.material)
        && fresh(postprocess.value.material)
        && postprocess.value.material.Data() == PostprocessMaterial(blank, r, config.fields["postprocess"].s)
      ensures gl.trace == old(gl.trace) + (if Contains(config, "postprocess") then AttachEvents(r) else [])
      ensures dummy == old(dummy) && skyTop == old(skyTop) && skyMiddle == old(skyMiddle) && skyBottom == old(skyBottom)
      ensures opaqueCommands == old(opaqueCommands) && transparentCommands == old(transparentCommands)
    {
      this.windowSize := windowSize;
      var newSky := CreateSky(config, r, blank);
      var newPost := CreatePostprocess(config, r, blank, gl);
      sky, postprocess := newSky, newPost;
    }

    /** Every material the next frame sets up can be set up. */
    predicate Drawable()
      reads this, MaterialsOf(opaqueCommands), SkyMaterials(sky), MaterialsOf(transparentCommands),
            PostMaterials(postprocess)
    {
      CommandsReady(opaqueCommands) && CommandsReady(transparentCommands) && SkyReady(sky) && PostReady(postprocess)
    }

    /** What the next frame depends on. */
    function SceneOf(): Scene
      reads this, MaterialsOf(opaqueCommands), SkyMaterials(sky), MaterialsOf(transparentCommands),
            PostMaterials(postprocess)
      requires Drawable()
    {
      SceneFrom(windowSize, opaqueCommands, sky, transparentCommands, postprocess)
    }

    /**
     * The scene drawn for the collected lists: the opaque commands in order
     * and the transparent ones sorted back to front along the forward
     * direction of the camera matrix `m`.
     */
    function SortedScene(opaqueList: seq<RenderCommand>, transparentList: seq<RenderCommand>, m: Mat4): Scene
      reads this, MaterialsOf(opaqueList), SkyMaterials(sky), MaterialsOf(transparentList), PostMaterials(postprocess)
      requires CommandsReady(opaqueList) && CommandsReady(transparentList) && SkyReady(sky) && PostReady(postprocess)
    {
      var sorted := SortByDepth(transparentList, CameraForward(m));
      ReorderReady(transparentList, sorted);
      SceneFrom(windowSize, opaqueList, sky, sorted, postprocess)
    }

    /** The scene render draws for the commands `cs` seen from the camera matrix `m`. */
    function NextScene(cs: seq<RenderCommand>, m: Mat4): Scene
      reads this, MaterialsOf(cs), SkyMaterials(sky), PostMaterials(postprocess)
      requires CommandsReady(cs) && SkyReady(sky) && PostReady(postprocess)
    {
      SplitReady(cs);
      SortedScene(Opaque(cs), Transparent(cs), m)
    }

    /** The next scene depends on nothing but the renderer and the materials it draws with. */
    twostate lemma NextSceneUnchanged(cs: seq<RenderCommand>)
      requires CommandsReady(cs) && SkyReady(sky) && PostReady(postprocess)
      requires unchanged(this)
      requires unchanged(MaterialsOf(cs), old(SkyMaterials(sky)), old(PostMaterials(postprocess)))
      ensures old(CommandsReady(cs) && SkyReady(sky) && PostReady(postprocess))
      ensures forall m :: old(NextScene(cs, m)) == NextScene(cs, m)
    {
    }

    /** No material of the next frame draws a mesh while it is set up. */
    lemma SceneIsQuiet()
      requires Drawable()
      ensures SceneOf().Quiet()
    {
      ItemsAreQuiet(opaqueCommands);
      ItemsAreQuiet(transparentCommands);
      if sky.Some? {
        SetupDrawsNothing(sky.value.material.Data());
      }
      if postprocess.Some? {
        SetupDrawsNothing(postprocess.value.material.Data());
      }
    }

    /** The drawing part of render, once the commands are sorted. */
    method DrawFrame(gl: Device, opaqueList: seq<RenderCommand>, transparentList: seq<RenderCommand>, vp: Mat4,
                     cameraMatrix: Mat4, ghost scene: Scene)
      requires gl.Valid()
      requires CommandsReady(opaqueList) && SkyReady(sky) && CommandsReady(transparentList) && PostReady(postprocess)
      requires scene == SceneFrom(windowSize, opaqueList, sky, transparentList, postprocess)
      modifies gl
      ensures gl.Valid() && gl.trace == old(gl.trace) + FrameEvents(scene, vp, cameraMatrix)
    {
      ghost var t0 := gl.trace;
      DrawOpaquePass(gl, windowSize, TargetOf(postprocess), opaqueList, scene.opaqueItems, vp);
      DrawTransparentPass(gl, sky, transparentList, postprocess, vp, cameraMatrix,
                          scene.sky, scene.transparentItems, scene.postprocess);
      Regroup(t0, ClearEvents(scene.windowSize, scene.target), ItemsEvents(scene.opaqueItems, |scene.opaqueItems|, vp),
        SkyEvents(scene.sky, vp, cameraMatrix), ItemsEvents(scene.transparentItems, |scene.transparentItems|, vp),
        PostEvents(scene.postprocess));
    }

    /**
     * render: with no camera nothing is drawn; otherwise the transparent
     * commands are sorted back to front along the first camera's forward
     * direction and the frame is drawn with its view-projection.
     */
    method Render(world: seq<Entity>, gl: Device)
      requires gl.Valid()
      requires FirstCamera(world).Some? ==> CommandsReady(Commands(world)) && SkyReady(sky) && PostReady(postprocess)
      modifies this, gl
      ensures gl.Valid()
      ensures Current() == old(Current())
      ensures opaqueCommands == old(Opaque(Commands(world)))
      ensures old(FirstCamera(world)).None? ==>
        transparentCommands == old(Transparent(Commands(world))) && gl.trace == old(gl.trace)
      ensures old(FirstCamera(world)).Some? ==>
        var owner := old(world[FirstCamera(world).value]);
        var matrix := old(owner.localToWorld);
        var camera := old(CameraOf(owner));
        && transparentCommands == SortByDepth(old(Transparent(Commands(world))), CameraForward(matrix))
        && gl.trace == old(gl.trace) + FrameEvents(old(NextScene(Commands(world), matrix)), MulMat(camera.projection, camera.view), matrix)
    {
      ghost var cs := Commands(world);
      assert allocated(cs);
      var camera, opaqueList, transparentList := CollectCommands(world);
      assert forall o :: o in MaterialsOf(cs) ==> allocated(o);
      SplitUnchanged(cs);
      assert Commands(world) == cs;
      if camera.None? {
        opaqueCommands, transparentCommands := opaqueList, transparentList;
        return;
      }
      var owner := world[camera.value];
      var m := owner.localToWorld;
      SplitReady(cs);
      NextSceneUnchanged(cs);
      assert NextScene(cs, m) == SortedScene(opaqueList, transparentList, m);
      SortAndDraw(m, CameraOf(owner), opaqueList, transparentList, gl);
    }

    /** The sort and the drawing part of render, once the commands are collected and a camera is found. */
    method SortAndDraw(m: Mat4, settings: Camera, opaqueList: seq<RenderCommand>, transparentList: seq<RenderCommand>,
                       gl: Device)
      requires gl.Valid()
      requires CommandsReady(opaqueList) && CommandsReady(transparentList) && SkyReady(sky) && PostReady(postprocess)
      modifies this, gl
      ensures gl.Valid()
      ensures Current() == old(Current())
      ensures opaqueCommands == opaqueList
      ensures transparentCommands == SortByDepth(transparentList, CameraForward(m))
      ensures gl.trace == old(gl.trace) + FrameEvents(old(SortedScene(opaqueList, transparentList, m)),
                                                      MulMat(settings.projection, settings.view), m)
    {
      var sorted := SortByDepth(transparentList, CameraForward(m));
      ReorderReady(transparentList, sorted);
      var vp := MulMat(settings.projection, settings.view);
      DrawFrame(gl, opaqueList, sorted, vp, m, SceneFrom(windowSize, opaqueList, sky, sorted, postprocess));
      opaqueCommands, transparentCommands := opaqueList, sorted;
    }
  }
}
