/**
 * The material hierarchy Material -> TintedMaterial -> TexturedMaterial ->
 * LitMaterial. One class carries the fields of every level and a `kind` fixed
 * at construction; each level's `setup` and `deserialize` is a method that
 * runs its parent's first. `setup` is specified by the GL calls it makes,
 * `deserialize` by the field values it leaves.
 */
module Materials {
  import opened Wrappers
  import opened Geometry
  import opened Json
  import opened Gl
  import opened Pipeline

  datatype MaterialKind = Plain | Tinted | Textured | Lit

  /** Depth in the class hierarchy: a material has the members of every level up to its own. */
  function Rank(k: MaterialKind): nat {
    match k
    case Plain => 0
    case Tinted => 1
    case Textured => 2
    case Lit => 3
  }

  /** The asset loader's registries, from asset name to object. */
  datatype Assets = Assets(
    shaders: map<string, ShaderId>,
    textures: map<string, TextureId>,
    samplers: map<string, SamplerId>)

  /** AssetLoader<T>::get: the registered object, or null for a name never registered. */
  function Lookup<T>(registry: map<string, T>, name: string): Option<T> {
    if name in registry then Some(registry[name]) else None
  }

  /** The fields of a material, as one value. A null pointer is `None`. */
  datatype MaterialData = MaterialData(
    kind: MaterialKind,
    pipelineState: PipelineState,
    shader: Option<ShaderId>,
    transparent: bool,
    tint: Vec4,
    alphaThreshold: real,
    texture: Option<TextureId>,
    sampler: Option<SamplerId>,
    albedo: Option<TextureId>,
    specular: Option<TextureId>,
    ambientOcclusion: Option<TextureId>,
    roughness: Option<TextureId>,
    emissive: Option<TextureId>)

  // ---------------------------------------------------------------------------
  // setup: the calls each level makes

  const WhiteTint: Vec4 := Vec4(1.0, 1.0, 1.0, 1.0)

  /** The lit maps by texture unit: albedo 0, specular 1, ambient occlusion 2, roughness 3, emissive 4. */
  function MapAt(d: MaterialData, unit: nat): Option<TextureId>
    requires unit < 5
  {
    match unit
    case 0 => d.albedo
    case 1 => d.specular
    case 2 => d.ambientOcclusion
    case 3 => d.roughness
    case 4 => d.emissive
  }

  /** The sampler uniform each lit map is bound to. */
  function MapName(unit: nat): string
    requires unit < 5
  {
    match unit
    case 0 => "material.albedo"
    case 1 => "material.specular"
    case 2 => "material.ambient_occlusion"
    case 3 => "material.roughness"
    case 4 => "material.emissive"
  }

  /** LitMaterial::setup dereferences the shared sampler for every map that is present. */
  predicate SamplerCoversMaps(d: MaterialData) {
    (d.albedo.Some? || d.specular.Some? || d.ambientOcclusion.Some? || d.roughness.Some? || d.emissive.Some?)
    ==> d.sampler.Some?
  }

  /** What `setup` of the material's own class dereferences: the shader, and the sampler of a lit material with maps. */
  predicate Ready(d: MaterialData) {
    d.shader.Some? && (d.kind == Lit ==> SamplerCoversMaps(d))
  }

  function PlainEvents(d: MaterialData): seq<Event>
    requires d.shader.Some?
  {
    d.pipelineState.Events() + [UseProgram(d.shader.value)]
  }

  function TintedEvents(d: MaterialData): seq<Event>
    requires d.shader.Some?
  {
    PlainEvents(d) + [SetUniform(d.shader.value, "tint", Vec4Value(d.tint))]
  }

  function TextureBinding(d: MaterialData): seq<Event> {
    if d.texture.Some? then [BindTexture(d.texture.value)] else []
  }

  function SamplerBinding(d: MaterialData): seq<Event> {
    if d.sampler.Some? then [BindSampler(0, d.sampler.value)] else []
  }

  function UnitZeroBindings(d: MaterialData): seq<Event> {
    TextureBinding(d) + SamplerBinding(d)
  }

  /** The calls TexturedMaterial::setup adds after its parent's. */
  function TexturedOwnEvents(d: MaterialData): seq<Event>
    requires d.shader.Some?
  {
    [SetUniform(d.shader.value, "alphaThreshold", FloatValue(d.alphaThreshold)), ActiveTexture(0)]
    + UnitZeroBindings(d)
    + [SetUniform(d.shader.value, "tex", IntValue(0))]
  }

  function TexturedEvents(d: MaterialData): seq<Event>
    requires d.shader.Some?
  {
    TintedEvents(d) + TexturedOwnEvents(d)
  }

  /** The calls for one lit map: nothing when it is absent. */
  function MapEvents(d: MaterialData, unit: nat): seq<Event>
    requires unit < 5 && d.shader.Some? && SamplerCoversMaps(d)
  {
    if MapAt(d, unit).Some? then
      [ActiveTexture(unit), BindTexture(MapAt(d, unit).value), BindSampler(unit, d.sampler.value),
       SetUniform(d.shader.value, MapName(unit), IntValue(unit))]
    else
      []
  }

  /** The calls LitMaterial::setup adds after its parent's. */
  function LitOwnEvents(d: MaterialData): seq<Event>
    requires d.shader.Some? && SamplerCoversMaps(d)
  {
    MapEvents(d, 0) + MapEvents(d, 1) + MapEvents(d, 2) + MapEvents(d, 3) + MapEvents(d, 4)
    + [ActiveTexture(0)]
  }

  function LitEvents(d: MaterialData): seq<Event>
    requires d.shader.Some? && SamplerCoversMaps(d)
  {
    TexturedEvents(d) + LitOwnEvents(d)
  }

  /** The calls the virtual `setup` makes for the material's own class. */
  function SetupEvents(d: MaterialData): seq<Event>
    requires Ready(d)
  {
    match d.kind
    case Plain => PlainEvents(d)
    case Tinted => TintedEvents(d)
    case Textured => TexturedEvents(d)
    case Lit => LitEvents(d)
  }

  // ---------------------------------------------------------------------------
  // deserialize: the field values each level leaves

  /** The keys each level reads hold the JSON type its reader expects. */
  predicate PlainKeysFit(data: Json) {
    KeyFits(data, "transparent", BoolKind)
  }

  predicate TintedKeysFit(data: Json) {
    PlainKeysFit(data) && KeyFits(data, "tint", Vec4Kind)
  }

  predicate TexturedKeysFit(data: Json) {
    TintedKeysFit(data) && KeyFits(data, "alphaThreshold", NumberKind)
    && KeyFits(data, "texture", StringKind) && KeyFits(data, "sampler", StringKind)
  }

  predicate LitKeysFit(data: Json) {
    TexturedKeysFit(data)
    && KeyFits(data, "albedo", StringKind) && KeyFits(data, "specular", StringKind)
    && KeyFits(data, "ambient_occlusion", StringKind) && KeyFits(data, "roughness", StringKind)
    && KeyFits(data, "emissive", StringKind)
  }

  predicate KeysFit(kind: MaterialKind, data: Json) {
    match kind
    case Plain => PlainKeysFit(data)
    case Tinted => TintedKeysFit(data)
    case Textured => TexturedKeysFit(data)
    case Lit => LitKeysFit(data)
  }

  /**
   * `deserialize` completes without raising: the input is not an object, or
   * its "shader" is a string (the shader is read with no default).
   */
  predicate ShaderKeyValid(data: Json) {
    data.Object? ==> "shader" in data.fields && data.fields["shader"].Str?
  }

  /** The pipeline state after Material::deserialize: re-read only when its key is present. */
  function PipelineRead(d: MaterialData, data: Json, decode: (PipelineState, Json) -> PipelineState): PipelineState {
    if Contains(data, "pipelineState") then decode(d.pipelineState, data.fields["pipelineState"]) else d.pipelineState
  }

  function DecodedPlain(d: MaterialData, data: Json, assets: Assets, decode: (PipelineState, Json) -> PipelineState): MaterialData
    requires PlainKeysFit(data) && ShaderKeyValid(data)
  {
    if !data.Object? then d
    else d.(pipelineState := PipelineRead(d, data, decode),
            shader := Lookup(assets.shaders, data.fields["shader"].s),
            transparent := BoolOr(data, "transparent", false))
  }

  function DecodedTinted(d: MaterialData, data: Json, assets: Assets, decode: (PipelineState, Json) -> PipelineState): MaterialData
    requires TintedKeysFit(data) && ShaderKeyValid(data)
  {
    var p := DecodedPlain(d, data, assets, decode);
    if !data.Object? then p else p.(tint := Vec4Or(data, "tint", WhiteTint))
  }

  function DecodedTextured(d: MaterialData, data: Json, assets: Assets, decode: (PipelineState, Json) -> PipelineState): MaterialData
    requires TexturedKeysFit(data) && ShaderKeyValid(data)
  {
    var p := DecodedTinted(d, data, assets, decode);
    if !data.Object? then p
    else p.(alphaThreshold := NumberOr(data, "alphaThreshold", 0.0),
            texture := Lookup(assets.textures, StringOr(data, "texture", "")),
            sampler := Lookup(assets.samplers, StringOr(data, "sampler", "")))
  }

  /** A lit map after LitMaterial::deserialize: looked up when its key is present, kept otherwise. */
  function MapRead(data: Json, key: string, assets: Assets, current: Option<TextureId>): Option<TextureId>
    requires KeyFits(data, key, StringKind)
  {
    if Contains(data, key) then Lookup(assets.textures, data.fields[key].s) else current
  }

  function DecodedLit(d: MaterialData, data: Json, assets: Assets, decode: (PipelineState, Json) -> PipelineState): MaterialData
    requires LitKeysFit(data) && ShaderKeyValid(data)
  {
    var p := DecodedTextured(d, data, assets, decode);
    if !data.Object? then p
    else p.(albedo := MapRead(data, "albedo", assets, p.albedo),
            specular := MapRead(data, "specular", assets, p.specular),
            ambientOcclusion := MapRead(data, "ambient_occlusion", assets, p.ambientOcclusion),
            roughness := MapRead(data, "roughness", assets, p.roughness),
            emissive := MapRead(data, "emissive", assets, p.emissive),
            sampler := Lookup(assets.samplers, StringOr(data, "sampler", "")))
  }

  /** What the virtual `deserialize` of the material's own class leaves. */
  function Decoded(d: MaterialData, data: Json, assets: Assets, decode: (PipelineState, Json) -> PipelineState): MaterialData
    requires KeysFit(d.kind, data) && ShaderKeyValid(data)
  {
    match d.kind
    case Plain => DecodedPlain(d, data, assets, decode)
    case Tinted => DecodedTinted(d, data, assets, decode)
    case Textured => DecodedTextured(d, data, assets, decode)
    case Lit => DecodedLit(d, data, assets, decode)
  }

  // ---------------------------------------------------------------------------
  // What setup leaves on the device

  /** With unit 0 active, the texture and the sampler, when present, are bound to unit 0. */
  lemma UnitZeroBindingsEffect(d: MaterialData, s: GlState)
    requires s.activeUnit == 0
    ensures Replay(s, UnitZeroBindings(d)) == s.(
      textures := if d.texture.Some? then s.textures[0 := d.texture.value] else s.textures,
      samplers := if d.sampler.Some? then s.samplers[0 := d.sampler.value] else s.samplers)
  {
    ReplayAppend(s, TextureBinding(d), SamplerBinding(d));
    var s1 := Replay(s, TextureBinding(d));
    assert s1 == s.(textures := if d.texture.Some? then s.textures[0 := d.texture.value] else s.textures) by {
      if d.texture.Some? {
        ReplayOne(s, BindTexture(d.texture.value));
      }
    }
    if d.sampler.Some? {
      ReplayOne(s1, BindSampler(0, d.sampler.value));
    }
  }

  /** The calls TexturedMaterial::setup adds: unit 0 active, its texture and sampler bound when present. */
  lemma TexturedOwnEffect(d: MaterialData, s: GlState)
    requires d.shader.Some?
    ensures Replay(s, TexturedOwnEvents(d)) == s.(
      activeUnit := 0,
      textures := if d.texture.Some? then s.textures[0 := d.texture.value] else s.textures,
      samplers := if d.sampler.Some? then s.samplers[0 := d.sampler.value] else s.samplers,
      uniforms := s.uniforms[(d.shader.value, "alphaThreshold") := FloatValue(d.alphaThreshold)]
                            [(d.shader.value, "tex") := IntValue(0)])
  {
    var sh := d.shader.value;
    var e0, e1, last := SetUniform(sh, "alphaThreshold", FloatValue(d.alphaThreshold)), ActiveTexture(0),
      SetUniform(sh, "tex", IntValue(0));
    var head := [e0, e1];
    var s2 := s.(uniforms := s.uniforms[(sh, "alphaThreshold") := FloatValue(d.alphaThreshold)], activeUnit := 0);
    ReplayTwo(s, e0, e1);
    assert Replay(s, head + UnitZeroBindings(d)) == Replay(s2, UnitZeroBindings(d)) by {
      ReplayAppend(s, head, UnitZeroBindings(d));
    }
    UnitZeroBindingsEffect(d, s2);
    ReplaySnoc(s, head + UnitZeroBindings(d), last);
  }

  /**
   * The state TexturedMaterial::setup leaves: the pipeline state applied, the
   * shader in use, "tint", "alphaThreshold" and "tex" (unit 0) set on it, unit
   * 0 active with the texture and the sampler bound there when present, and
   * every other unit as it was.
   */
  lemma {:induction false} TexturedSetupEffect(d: MaterialData, s: GlState)
    requires d.shader.Some?
    ensures var sh := d.shader.value;
      var p := AfterSetup(d.pipelineState, s);
      Replay(s, TexturedEvents(d)) == p.(
        program := sh,
        activeUnit := 0,
        textures := if d.texture.Some? then s.textures[0 := d.texture.value] else s.textures,
        samplers := if d.sampler.Some? then s.samplers[0 := d.sampler.value] else s.samplers,
        uniforms := s.uniforms[(sh, "tint") := Vec4Value(d.tint)]
                              [(sh, "alphaThreshold") := FloatValue(d.alphaThreshold)]
                              [(sh, "tex") := IntValue(0)])
  {
    var sh := d.shader.value;
    var t := Replay(s, TintedEvents(d));
    TintedSetupEffect(d, s);
    SetupKeepsBindings(d.pipelineState, s);
    ReplayAppend(s, TintedEvents(d), TexturedOwnEvents(d));
    TexturedOwnEffect(d, t);
  }

  /** The pipeline state leaves the uniforms and the texture and sampler bindings alone. */
  lemma SetupKeepsBindings(ps: PipelineState, s: GlState)
    ensures var p := AfterSetup(ps, s);
      p.uniforms == s.uniforms && p.textures == s.textures && p.samplers == s.samplers
  {
    SetupEffect(ps, s);
  }

  /** The calls of TintedMaterial::setup: the pipeline state, the shader in use, and "tint" set on it. */
  lemma TintedSetupEffect(d: MaterialData, s: GlState)
    requires d.shader.Some?
    ensures Replay(s, TintedEvents(d)) == AfterSetup(d.pipelineState, s).(
      program := d.shader.value,
      uniforms := AfterSetup(d.pipelineState, s).uniforms[(d.shader.value, "tint") := Vec4Value(d.tint)])
  {
    var sh := d.shader.value;
    ReplaySnoc(s, d.pipelineState.Events(), UseProgram(sh));
    ReplaySnoc(s, PlainEvents(d), SetUniform(sh, "tint", Vec4Value(d.tint)));
  }

  /** One lit map: when present, its unit becomes active and gets the texture, the sampler and the uniform. */
  lemma MapEffect(d: MaterialData, s: GlState, unit: nat)
    requires unit < 5 && d.shader.Some? && SamplerCoversMaps(d)
    ensures Replay(s, MapEvents(d, unit)) ==
      if MapAt(d, unit).None? then s
      else s.(activeUnit := unit,
              textures := s.textures[unit := MapAt(d, unit).value],
              samplers := s.samplers[unit := d.sampler.value],
              uniforms := s.uniforms[(d.shader.value, MapName(unit)) := IntValue(unit)])
  {
    if MapAt(d, unit).Some? {
      BindMapEffect(s, unit, MapAt(d, unit).value, d.sampler.value, d.shader.value, MapName(unit));
    }
  }

  /** The four calls that bind one map: its unit active, the texture and the sampler bound there, the uniform set. */
  lemma BindMapEffect(s: GlState, unit: nat, texture: TextureId, sampler: SamplerId, program: ShaderId, name: string)
    ensures Replay(s, [ActiveTexture(unit), BindTexture(texture), BindSampler(unit, sampler),
                       SetUniform(program, name, IntValue(unit))]) ==
      s.(activeUnit := unit,
         textures := s.textures[unit := texture],
         samplers := s.samplers[unit := sampler],
         uniforms := s.uniforms[(program, name) := IntValue(unit)])
  {
    ReplayFour(s, ActiveTexture(unit), BindTexture(texture), BindSampler(unit, sampler),
      SetUniform(program, name, IntValue(unit)));
    BindMapSteps(s, unit, texture, sampler, program, name);
  }

  /** BindMapEffect's four calls, one GL step after another. */
  lemma BindMapSteps(s: GlState, unit: nat, texture: TextureId, sampler: SamplerId, program: ShaderId, name: string)
    ensures Step(Step(Step(Step(s, ActiveTexture(unit)), BindTexture(texture)), BindSampler(unit, sampler)),
                 SetUniform(program, name, IntValue(unit))) ==
      s.(activeUnit := unit,
         textures := s.textures[unit := texture],
         samplers := s.samplers[unit := sampler],
         uniforms := s.uniforms[(program, name) := IntValue(unit)])
  {
  }

  /** The five uniform names differ, so no lit map overwrites another's uniform. */
  lemma MapNamesDistinct(u: nat, v: nat)
    requires u < 5 && v < 5 && u != v
    ensures MapName(u) != MapName(v)
  {
    if |MapName(u)| == |MapName(v)| {
      assert {u, v} == {1, 4};
      assert MapName(1)[9] != MapName(4)[9];
    }
  }

  /** Binding one lit map leaves every other unit, and every other map's uniform, as it was. */
  lemma MapEffectElsewhere(d: MaterialData, s: GlState, unit: nat, other: nat)
    requires unit < 5 && other < 5 && unit != other && d.shader.Some? && SamplerCoversMaps(d)
    ensures var t := Replay(s, MapEvents(d, unit));
      && (other in t.textures <==> other in s.textures)
      && (other in s.textures ==> t.textures[other] == s.textures[other])
      && (other in t.samplers <==> other in s.samplers)
      && (other in s.samplers ==> t.samplers[other] == s.samplers[other])
      && ((d.shader.value, MapName(other)) in t.uniforms <==> (d.shader.value, MapName(other)) in s.uniforms)
      && ((d.shader.value, MapName(other)) in s.uniforms ==>
            t.uniforms[(d.shader.value, MapName(other))] == s.uniforms[(d.shader.value, MapName(other))])
  {
    MapEffect(d, s, unit);
    MapNamesDistinct(unit, other);
  }

  /** The state after the first `n` lit maps, starting from `s`. */
  function AfterMaps(d: MaterialData, s: GlState, n: nat): GlState
    requires n <= 5 && d.shader.Some? && SamplerCoversMaps(d)
  {
    if n == 0 then s else Replay(AfterMaps(d, s, n - 1), MapEvents(d, n - 1))
  }

  /** A unit at or beyond `n` is untouched by the first `n` maps. */
  lemma {:induction false} AfterMapsElsewhere(d: MaterialData, s: GlState, n: nat, other: nat)
    requires n <= other < 5 && d.shader.Some? && SamplerCoversMaps(d)
    ensures var t := AfterMaps(d, s, n);
      && (other in t.textures <==> other in s.textures)
      && (other in s.textures ==> t.textures[other] == s.textures[other])
      && (other in t.samplers <==> other in s.samplers)
      && (other in s.samplers ==> t.samplers[other] == s.samplers[other])
  {
    if n > 0 {
      AfterMapsElsewhere(d, s, n - 1, other);
      MapEffectElsewhere(d, AfterMaps(d, s, n - 1), n - 1, other);
    }
  }

  /** Once a present map is bound, the later maps leave its unit and its uniform alone. */
  lemma {:induction false} AfterMapsKeeps(d: MaterialData, s: GlState, n: nat, unit: nat)
    requires unit < n <= 5 && d.shader.Some? && SamplerCoversMaps(d) && MapAt(d, unit).Some?
    ensures var t := AfterMaps(d, s, n);
      && unit in t.textures && t.textures[unit] == MapAt(d, unit).value
      && unit in t.samplers && t.samplers[unit] == d.sampler.value
      && (d.shader.value, MapName(unit)) in t.uniforms
      && t.uniforms[(d.shader.value, MapName(unit))] == IntValue(unit)
  {
    if n == unit + 1 {
      MapEffect(d, AfterMaps(d, s, unit), unit);
    } else {
      AfterMapsKeeps(d, s, n - 1, unit);
      MapEffectElsewhere(d, AfterMaps(d, s, n - 1), n - 1, unit);
    }
  }

  /** An absent map leaves its unit as it was before the lit maps. */
  lemma {:induction false} AfterMapsAbsent(d: MaterialData, s: GlState, n: nat, unit: nat)
    requires unit < 5 && n <= 5 && d.shader.Some? && SamplerCoversMaps(d) && MapAt(d, unit).None?
    ensures var t := AfterMaps(d, s, n);
      && (unit in t.textures <==> unit in s.textures)
      && (unit in s.textures ==> t.textures[unit] == s.textures[unit])
      && (unit in t.samplers <==> unit in s.samplers)
      && (unit in s.samplers ==> t.samplers[unit] == s.samplers[unit])
  {
    if n > 0 {
      AfterMapsAbsent(d, s, n - 1, unit);
      if n - 1 != unit {
        MapEffectElsewhere(d, AfterMaps(d, s, n - 1), n - 1, unit);
      } else {
        MapEffect(d, AfterMaps(d, s, n - 1), unit);
      }
    }
  }

  /** The calls of the first `n` lit maps, in unit order. */
  function FirstMapsEvents(d: MaterialData, n: nat): seq<Event>
    requires n <= 5 && d.shader.Some? && SamplerCoversMaps(d)
  {
    if n == 0 then [] else FirstMapsEvents(d, n - 1) + MapEvents(d, n - 1)
  }

  /** Replaying the first `n` maps' calls is taking the first `n` map steps. */
  lemma {:induction false} FirstMapsReplay(d: MaterialData, s: GlState, n: nat)
    requires n <= 5 && d.shader.Some? && SamplerCoversMaps(d)
    ensures Replay(s, FirstMapsEvents(d, n)) == AfterMaps(d, s, n)
  {
    if n > 0 {
      FirstMapsReplay(d, s, n - 1);
      ReplayAppend(s, FirstMapsEvents(d, n - 1), MapEvents(d, n - 1));
    }
  }

  /** The lit maps' calls, replayed: the five maps one after the other, then unit 0 active. */
  lemma LitOwnIsMaps(d: MaterialData, s: GlState)
    requires d.shader.Some? && SamplerCoversMaps(d)
    ensures Replay(s, LitOwnEvents(d)) == AfterMaps(d, s, 5).(activeUnit := 0)
  {
    var m0, m1, m2, m3, m4 := MapEvents(d, 0), MapEvents(d, 1), MapEvents(d, 2), MapEvents(d, 3), MapEvents(d, 4);
    assert FirstMapsEvents(d, 1) == m0 by {
      assert FirstMapsEvents(d, 1) == [] + m0;
    }
    assert FirstMapsEvents(d, 2) == m0 + m1;
    assert FirstMapsEvents(d, 3) == m0 + m1 + m2;
    assert FirstMapsEvents(d, 4) == m0 + m1 + m2 + m3;
    assert FirstMapsEvents(d, 5) == m0 + m1 + m2 + m3 + m4;
    FirstMapsReplay(d, s, 5);
    ReplaySnoc(s, FirstMapsEvents(d, 5), ActiveTexture(0));
  }

  /**
   * LitMaterial::setup, after its parent's calls (state `mid`): each present
   * map is bound with the shared sampler on its own unit (albedo 0 ... emissive
   * 4) and its "material.<name>" uniform names that unit; an absent map leaves
   * its unit as the parent left it; unit 0 is active at the end.
   */
  lemma LitSetupEffect(d: MaterialData, s: GlState, unit: nat)
    requires d.shader.Some? && SamplerCoversMaps(d) && unit < 5
    ensures var mid := Replay(s, TexturedEvents(d));
      var t := Replay(s, LitEvents(d));
      && t.activeUnit == 0
      && (MapAt(d, unit).Some? ==>
            && unit in t.textures && t.textures[unit] == MapAt(d, unit).value
            && unit in t.samplers && t.samplers[unit] == d.sampler.value
            && (d.shader.value, MapName(unit)) in t.uniforms
            && t.uniforms[(d.shader.value, MapName(unit))] == IntValue(unit))
      && (MapAt(d, unit).None? ==>
            && (unit in t.textures <==> unit in mid.textures)
            && (unit in mid.textures ==> t.textures[unit] == mid.textures[unit])
            && (unit in t.samplers <==> unit in mid.samplers)
            && (unit in mid.samplers ==> t.samplers[unit] == mid.samplers[unit]))
  {
    var mid := Replay(s, TexturedEvents(d));
    ReplayAppend(s, TexturedEvents(d), LitOwnEvents(d));
    LitOwnIsMaps(d, mid);
    if MapAt(d, unit).Some? {
      AfterMapsKeeps(d, mid, 5, unit);
    } else {
      AfterMapsAbsent(d, mid, 5, unit);
    }
  }

  // ---------------------------------------------------------------------------
  // What deserialize leaves

  /** The JSON key of each lit map, by texture unit. */
  function MapKey(unit: nat): string
    requires unit < 5
  {
    match unit
    case 0 => "albedo"
    case 1 => "specular"
    case 2 => "ambient_occlusion"
    case 3 => "roughness"
    case 4 => "emissive"
  }

  /** At every level, deserializing something that is not an object changes nothing. */
  lemma DecodeIgnoresNonObjects(d: MaterialData, data: Json, assets: Assets, decode: (PipelineState, Json) -> PipelineState)
    requires !data.Object? && KeysFit(d.kind, data)
    ensures Decoded(d, data, assets, decode) == d
  {
  }

  /**
   * The keys and the levels: the shader named by "shader" is looked up; a
   * present "transparent", "tint" or "alphaThreshold" gives its value, an
   * absent one false, opaque white and 0; "texture" and "sampler" are looked
   * up by name, by "" when absent; a level never touches the fields of the
   * levels below it in the hierarchy, and the kind never changes.
   */
  lemma DecodeFields(d: MaterialData, data: Json, assets: Assets, decode: (PipelineState, Json) -> PipelineState)
    requires data.Object? && KeysFit(d.kind, data) && ShaderKeyValid(data)
    ensures var r := Decoded(d, data, assets, decode);
      && r.kind == d.kind
      && r.pipelineState == PipelineRead(d, data, decode)
      && r.shader == Lookup(assets.shaders, data.fields["shader"].s)
      && (Contains(data, "transparent") ==> r.transparent == data.fields["transparent"].b)
      && (!Contains(data, "transparent") ==> !r.transparent)
      && (Rank(d.kind) >= 1 && Contains(data, "tint") ==> r.tint == Vec4Of(data.fields["tint"]))
      && (Rank(d.kind) >= 1 && !Contains(data, "tint") ==> r.tint == WhiteTint)
      && (Rank(d.kind) >= 2 && Contains(data, "alphaThreshold") ==> r.alphaThreshold == data.fields["alphaThreshold"].n)
      && (Rank(d.kind) >= 2 && !Contains(data, "alphaThreshold") ==> r.alphaThreshold == 0.0)
      && (Rank(d.kind) >= 2 && Contains(data, "texture") ==> r.texture == Lookup(assets.textures, data.fields["texture"].s))
      && (Rank(d.kind) >= 2 && !Contains(data, "texture") ==> r.texture == Lookup(assets.textures, ""))
      && (Rank(d.kind) >= 2 && Contains(data, "sampler") ==> r.sampler == Lookup(assets.samplers, data.fields["sampler"].s))
      && (Rank(d.kind) >= 2 && !Contains(data, "sampler") ==> r.sampler == Lookup(assets.samplers, ""))
      && (Rank(d.kind) < 1 ==> r.tint == d.tint)
      && (Rank(d.kind) < 2 ==> r.alphaThreshold == d.alphaThreshold && r.texture == d.texture && r.sampler == d.sampler)
      && (Rank(d.kind) < 3 ==>
            r.albedo == d.albedo && r.specular == d.specular && r.ambientOcclusion == d.ambientOcclusion
            && r.roughness == d.roughness && r.emissive == d.emissive)
  {
  }

  /**
   * LitMaterial::deserialize: a lit map is looked up when its key is present
   * and otherwise keeps its value; the sampler is read again, unconditionally,
   * with the same key and default as the parent's, and every other field is
   * the parent's.
   */
  lemma LitDecodeMaps(d: MaterialData, data: Json, assets: Assets, decode: (PipelineState, Json) -> PipelineState, unit: nat)
    requires data.Object? && LitKeysFit(data) && ShaderKeyValid(data) && unit < 5
    ensures var r := DecodedLit(d, data, assets, decode);
      && (Contains(data, MapKey(unit)) ==> MapAt(r, unit) == Lookup(assets.textures, data.fields[MapKey(unit)].s))
      && (!Contains(data, MapKey(unit)) ==> MapAt(r, unit) == MapAt(d, unit))
      && r.sampler == Lookup(assets.samplers, StringOr(data, "sampler", ""))
      && r == DecodedTextured(d, data, assets, decode).(albedo := r.albedo, specular := r.specular,
                ambientOcclusion := r.ambientOcclusion, roughness := r.roughness, emissive := r.emissive)
  {
  }

  // ---------------------------------------------------------------------------
  // The material object

  class Material {
    const kind: MaterialKind
    var pipelineState: PipelineState
    var shader: Option<ShaderId>
    var transparent: bool
    var tint: Vec4
    var alphaThreshold: real
    var texture: Option<TextureId>
    var sampler: Option<SamplerId>
    var albedo: Option<TextureId>
    var specular: Option<TextureId>
    var ambientOcclusion: Option<TextureId>
    var roughness: Option<TextureId>
    var emissive: Option<TextureId>

    function Data(): MaterialData
      reads this
    {
      MaterialData(kind, pipelineState, shader, transparent, tint, alphaThreshold,
        texture, sampler, albedo, specular, ambientOcclusion, roughness, emissive)
    }

    /** A material of kind `d.kind` whose fields start as `d` says. */
    constructor (d: MaterialData)
      ensures Data() == d
    {
      kind := d.kind;
      pipelineState := d.pipelineState;
      shader := d.shader;
      transparent := d.transparent;
      tint := d.tint;
      alphaThreshold := d.alphaThreshold;
      texture := d.texture;
      sampler := d.sampler;
      albedo := d.albedo;
      specular := d.specular;
      ambientOcclusion := d.ambientOcclusion;
      roughness := d.roughness;
      emissive := d.emissive;
    }

    /** Material::setup: the pipeline state, then the shader. */
    method SetupPlain(gl: Device)
      requires gl.Valid() && shader.Some?
      modifies gl
      ensures gl.Valid() && gl.trace == old(gl.trace) + PlainEvents(Data())
    {
      pipelineState.Setup(gl);
      gl.Call(UseProgram(shader.value));
    }

    /** TintedMaterial::setup: the parent's calls, then the "tint" uniform. */
    method SetupTinted(gl: Device)
      requires gl.Valid() && shader.Some? && Rank(kind) >= 1
      modifies gl
      ensures gl.Valid() && gl.trace == old(gl.trace) + TintedEvents(Data())
    {
      SetupPlain(gl);
      gl.Call(SetUniform(shader.value, "tint", Vec4Value(tint)));
    }

    /**
     * TexturedMaterial::setup: the parent's calls, "alphaThreshold", unit 0
     * made active, the texture and the sampler bound there when present, and
     * "tex" set to unit 0.
     */
    method SetupTextured(gl: Device)
      requires gl.Valid() && shader.Some? && Rank(kind) >= 2
      modifies gl
      ensures gl.Valid() && gl.trace == old(gl.trace) + TexturedEvents(Data())
    {
      ghost var d := Data();
      SetupTinted(gl);
      ghost var mid := gl.trace;
      gl.Call(SetUniform(shader.value, "alphaThreshold", FloatValue(alphaThreshold)));
      gl.Call(ActiveTexture(0));
      ghost var head := [SetUniform(d.shader.value, "alphaThreshold", FloatValue(d.alphaThreshold)), ActiveTexture(0)];
      assert gl.trace == mid + head;
      BindUnitZero(gl);
      AppendAssociative(mid, head, UnitZeroBindings(d));
      gl.Call(SetUniform(shader.value, "tex", IntValue(0)));
      AppendAssociative(mid, head + UnitZeroBindings(d), [SetUniform(d.shader.value, "tex", IntValue(0))]);
      AppendAssociative(old(gl.trace), TintedEvents(d), TexturedOwnEvents(d));
    }

    /** The texture and the sampler, each only when present, on the active unit and unit 0. */
    method BindUnitZero(gl: Device)
      requires gl.Valid()
      modifies gl
      ensures gl.Valid() && gl.trace == old(gl.trace) + UnitZeroBindings(Data())
    {
      if texture.Some? {
        gl.Call(BindTexture(texture.value));
      }
      if sampler.Some? {
        gl.Call(BindSampler(0, sampler.value));
      }
      AppendAssociative(old(gl.trace), TextureBinding(Data()), SamplerBinding(Data()));
    }

    /** One lit map on its own unit: active unit, texture, the shared sampler, and the uniform. */
    method SetupMap(gl: Device, unit: nat)
      requires gl.Valid() && unit < 5 && shader.Some? && SamplerCoversMaps(Data())
      modifies gl
      ensures gl.Valid() && gl.trace == old(gl.trace) + MapEvents(Data(), unit)
    {
      var bound := MapAt(Data(), unit);
      if bound.Some? {
        gl.Call(ActiveTexture(unit));
        gl.Call(BindTexture(bound.value));
        gl.Call(BindSampler(unit, sampler.value));
        gl.Call(SetUniform(shader.value, MapName(unit), IntValue(unit)));
        LogFour(old(gl.trace), ActiveTexture(unit), BindTexture(bound.value), BindSampler(unit, sampler.value),
          SetUniform(shader.value, MapName(unit), IntValue(unit)));
      }
    }

    /**
     * LitMaterial::setup: the parent's calls, each present map on units 0 to
     * 4, and unit 0 active again at the end.
     */
    method SetupLit(gl: Device)
      requires gl.Valid() && shader.Some? && Rank(kind) >= 3 && SamplerCoversMaps(Data())
      modifies gl
      ensures gl.Valid() && gl.trace == old(gl.trace) + LitEvents(Data())
    {
      ghost var d := Data();
      SetupTextured(gl);
      ghost var mid := gl.trace;
      SetupMap(gl, 0);
      SetupMap(gl, 1);
      AppendAssociative(mid, MapEvents(d, 0), MapEvents(d, 1));
      SetupMap(gl, 2);
      AppendAssociative(mid, MapEvents(d, 0) + MapEvents(d, 1), MapEvents(d, 2));
      SetupMap(gl, 3);
      AppendAssociative(mid, MapEvents(d, 0) + MapEvents(d, 1) + MapEvents(d, 2), MapEvents(d, 3));
      SetupMap(gl, 4);
      AppendAssociative(mid, MapEvents(d, 0) + MapEvents(d, 1) + MapEvents(d, 2) + MapEvents(d, 3), MapEvents(d, 4));
      gl.Call(ActiveTexture(0));
      AppendAssociative(mid, MapEvents(d, 0) + MapEvents(d, 1) + MapEvents(d, 2) + MapEvents(d, 3) + MapEvents(d, 4),
        [ActiveTexture(0)]);
      AppendAssociative(old(gl.trace), TexturedEvents(d), LitOwnEvents(d));
    }

    /** The virtual `setup`: the calls of the material's own class. */
    method Setup(gl: Device)
      requires gl.Valid() && Ready(Data())
      modifies gl
      ensures gl.Valid()
      ensures gl.trace == old(gl.trace) + SetupEvents(Data())
      ensures gl.state == Replay(old(gl.state), SetupEvents(Data()))
    {
      match kind {
        case Plain => SetupPlain(gl);
        case Tinted => SetupTinted(gl);
        case Textured => SetupTextured(gl);
        case Lit => SetupLit(gl);
      }
      ReplayAppend(gl.initial, old(gl.trace), SetupEvents(Data()));
    }

    /**
     * Material::deserialize. A non-object changes nothing. Otherwise the
     * pipeline state is re-read when present; then the shader is required:
     * `ok` is false, and nothing more is read, when it is missing or not a string.
     */
    method DeserializePlain(data: Json, assets: Assets, decode: (PipelineState, Json) -> PipelineState) returns (ok: bool)
      requires PlainKeysFit(data)
      modifies this
      ensures ok == ShaderKeyValid(data)
      ensures ok ==> Data() == DecodedPlain(old(Data()), data, assets, decode)
      ensures !ok ==> Data() == old(Data()).(pipelineState := PipelineRead(old(Data()), data, decode))
    {
      if !data.Object? {
        return true;
      }
      if "pipelineState" in data.fields {
        pipelineState := decode(pipelineState, data.fields["pipelineState"]);
      }
      if !("shader" in data.fields && data.fields["shader"].Str?) {
        return false;
      }
      shader := Lookup(assets.shaders, data.fields["shader"].s);
      transparent := BoolOr(data, "transparent", false);
      ok := true;
    }

    /** TintedMaterial::deserialize: the parent's, then "tint" (default opaque white). */
    method DeserializeTinted(data: Json, assets: Assets, decode: (PipelineState, Json) -> PipelineState) returns (ok: bool)
      requires TintedKeysFit(data) && Rank(kind) >= 1
      modifies this
      ensures ok == ShaderKeyValid(data)
      ensures ok ==> Data() == DecodedTinted(old(Data()), data, assets, decode)
      ensures !ok ==> Data() == old(Data()).(pipelineState := PipelineRead(old(Data()), data, decode))
    {
      ok := DeserializePlain(data, assets, decode);
      if !ok || !data.Object? {
        return;
      }
      tint := Vec4Or(data, "tint", WhiteTint);
    }

    /**
     * TexturedMaterial::deserialize: the parent's, then "alphaThreshold"
     * (default 0) and the texture and sampler named by "texture" and "sampler"
     * (default "", which names nothing unless registered).
     */
    method DeserializeTextured(data: Json, assets: Assets, decode: (PipelineState, Json) -> PipelineState) returns (ok: bool)
      requires TexturedKeysFit(data) && Rank(kind) >= 2
      modifies this
      ensures ok == ShaderKeyValid(data)
      ensures ok ==> Data() == DecodedTextured(old(Data()), data, assets, decode)
      ensures !ok ==> Data() == old(Data()).(pipelineState := PipelineRead(old(Data()), data, decode))
    {
      ok := DeserializeTinted(data, assets, decode);
      if !ok || !data.Object? {
        return;
      }
      alphaThreshold := NumberOr(data, "alphaThreshold", 0.0);
      texture := Lookup(assets.textures, StringOr(data, "texture", ""));
      sampler := Lookup(assets.samplers, StringOr(data, "sampler", ""));
    }

    /**
     * LitMaterial::deserialize: the parent's, then each map whose key is
     * present, and the sampler once more.
     */
    method DeserializeLit(data: Json, assets: Assets, decode: (PipelineState, Json) -> PipelineState) returns (ok: bool)
      requires LitKeysFit(data) && Rank(kind) >= 3
      modifies this
      ensures ok == ShaderKeyValid(data)
      ensures ok ==> Data() == DecodedLit(old(Data()), data, assets, decode)
      ensures !ok ==> Data() == old(Data()).(pipelineState := PipelineRead(old(Data()), data, decode))
    {
      ok := DeserializeTextured(data, assets, decode);
      if !ok || !data.Object? {
        return;
      }
      ReadMaps(data, assets);
    }

    /** The part of LitMaterial::deserialize after its parent's. */
    method ReadMaps(data: Json, assets: Assets)
      requires data.Object? && LitKeysFit(data)
      modifies this
      ensures Data() == old(Data()).(
        albedo := MapRead(data, "albedo", assets, old(albedo)),
        specular := MapRead(data, "specular", assets, old(specular)),
        ambientOcclusion := MapRead(data, "ambient_occlusion", assets, old(ambientOcclusion)),
        roughness := MapRead(data, "roughness", assets, old(roughness)),
        emissive := MapRead(data, "emissive", assets, old(emissive)),
        sampler := Lookup(assets.samplers, StringOr(data, "sampler", "")))
    {
      ReadFirstMaps(data, assets);
      ReadLastMaps(data, assets);
    }

    /** The albedo, specular and ambient occlusion maps, each only when its key is present. */
    method ReadFirstMaps(data: Json, assets: Assets)
      requires data.Object? && LitKeysFit(data)
      modifies this
      ensures Data() == old(Data()).(
        albedo := MapRead(data, "albedo", assets, old(albedo)),
        specular := MapRead(data, "specular", assets, old(specular)),
        ambientOcclusion := MapRead(data, "ambient_occlusion", assets, old(ambientOcclusion)))
    {
      if "albedo" in data.fields {
        albedo := Lookup(assets.textures, StringOr(data, "albedo", ""));
      }
      if "specular" in data.fields {
        specular := Lookup(assets.textures, StringOr(data, "specular", ""));
      }
      if "ambient_occlusion" in data.fields {
        ambientOcclusion := Lookup(assets.textures, StringOr(data, "ambient_occlusion", ""));
      }
    }

    /** The roughness and emissive maps, each only when its key is present, then the sampler once more. */
    method ReadLastMaps(data: Json, assets: Assets)
      requires data.Object? && LitKeysFit(data)
      modifies this
      ensures Data() == old(Data()).(
        roughness := MapRead(data, "roughness", assets, old(roughness)),
        emissive := MapRead(data, "emissive", assets, old(emissive)),
        sampler := Lookup(assets.samplers, StringOr(data, "sampler", "")))
    {
      if "roughness" in data.fields {
        roughness := Lookup(assets.textures, StringOr(data, "roughness", ""));
      }
      if "emissive" in data.fields {
        emissive := Lookup(assets.textures, StringOr(data, "emissive", ""));
      }
      sampler := Lookup(assets.samplers, StringOr(data, "sampler", ""));
    }

    /** The virtual `deserialize` of the material's own class. */
    method Deserialize(data: Json, assets: Assets, decode: (PipelineState, Json) -> PipelineState) returns (ok: bool)
      requires KeysFit(kind, data)
      modifies this
      ensures ok == ShaderKeyValid(data)
      ensures ok ==> Data() == Decoded(old(Data()), data, assets, decode)
      ensures !ok ==> Data() == old(Data()).(pipelineState := PipelineRead(old(Data()), data, decode))
    {
      match kind
      case Plain => ok := DeserializePlain(data, assets, decode);
      case Tinted => ok := DeserializeTinted(data, assets, decode);
      case Textured => ok := DeserializeTextured(data, assets, decode);
      case Lit => ok := DeserializeLit(data, assets, decode);
    }
  }
}
