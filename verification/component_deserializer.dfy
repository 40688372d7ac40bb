/**
 * deserializeComponent: picks a component kind from the "type" string by a
 * fixed chain of comparisons with each component's ID, adds one component of
 * that kind to the entity, and lets it read the same JSON object.
 */
module ComponentDeserializer {
  import opened Wrappers
  import opened Geometry
  import opened Gl
  import opened Json
  import opened Materials
  import opened Lights
  import opened Ecs

  // The IDs of the camera, free camera controller, movement, mesh renderer and
  // metal components are declared in headers that are not part of this model;
  // these are the names the framework uses for them.
  const CameraId: string := "Camera"
  const FreeCameraControllerId: string := "Free Camera Controller"
  const MovementId: string := "Movement"
  const MeshRendererId: string := "Mesh Renderer"
  const MetalId: string := "metal"
  const WallId: string := "wall"
  const ZWallId: string := "zwall"
  const LightId: string := "light"
  const ScarecrowId: string := "scarecrow"
  const ScareCrowControllerId: string := "Scare Crow Controller"

  /** getID() of each component kind. */
  function IdOf(k: ComponentKind): string {
    match k
    case CameraKind => CameraId
    case FreeCameraControllerKind => FreeCameraControllerId
    case MovementKind => MovementId
    case MeshRendererKind => MeshRendererId
    case MetalKind => MetalId
    case WallKind => WallId
    case ZWallKind => ZWallId
    case LightKind => LightId
    case ScarecrowKind => ScarecrowId
    case ScareCrowControllerKind => ScareCrowControllerId
  }

  /** The order in which the if-else chain compares the type with the IDs. */
  const DispatchOrder: seq<ComponentKind> := [
    CameraKind, FreeCameraControllerKind, MovementKind, MeshRendererKind, MetalKind,
    WallKind, ZWallKind, LightKind, ScarecrowKind, ScareCrowControllerKind]

  /** Where each kind stands in DispatchOrder. */
  function Position(k: ComponentKind): (i: nat)
    ensures i < |DispatchOrder| && DispatchOrder[i] == k
  {
    match k
    case CameraKind => 0
    case FreeCameraControllerKind => 1
    case MovementKind => 2
    case MeshRendererKind => 3
    case MetalKind => 4
    case WallKind => 5
    case ZWallKind => 6
    case LightKind => 7
    case ScarecrowKind => 8
    case ScareCrowControllerKind => 9
  }

  /** The component kind the if-else chain picks for a type string; `None` when no ID matches. */
  function KindFor(t: string): Option<ComponentKind> {
    if t == CameraId then Some(CameraKind)
    else if t == FreeCameraControllerId then Some(FreeCameraControllerKind)
    else if t == MovementId then Some(MovementKind)
    else if t == MeshRendererId then Some(MeshRendererKind)
    else if t == MetalId then Some(MetalKind)
    else if t == WallId then Some(WallKind)
    else if t == ZWallId then Some(ZWallKind)
    else if t == LightId then Some(LightKind)
    else if t == ScarecrowId then Some(ScarecrowKind)
    else if t == ScareCrowControllerId then Some(ScareCrowControllerKind)
    else None
  }

  /**
   * The chain is a first-match search: the kind picked is the first in
   * DispatchOrder whose ID equals the type, and no kind is picked when none does.
   */
  lemma {:induction false} KindForFirstMatch(t: string)
    ensures KindFor(t).None? <==> forall i :: 0 <= i < |DispatchOrder| ==> IdOf(DispatchOrder[i]) != t
    ensures KindFor(t).Some? ==>
      exists i :: 0 <= i < |DispatchOrder| && DispatchOrder[i] == KindFor(t).value && IdOf(DispatchOrder[i]) == t
        && forall j :: 0 <= j < i ==> IdOf(DispatchOrder[j]) != t
  {
    if KindFor(t).Some? {
      var k := KindFor(t).value;
      var i := Position(k);
      assert DispatchOrder[i] == k && IdOf(DispatchOrder[i]) == t;
    }
  }

  /**
   * The ten IDs are distinct, so every kind can be created, by its own ID and
   * by nothing else: KindFor inverts IdOf.
   */
  lemma KindForInvertsIdOf(k: ComponentKind, t: string)
    ensures KindFor(IdOf(k)) == Some(k)
    ensures KindFor(t) == Some(k) ==> t == IdOf(k)
  {
  }

  /**
   * How the components whose deserializers are not part of this model read
   * their JSON: camera and controller settings, movement velocities, and the
   * mesh and material a mesh renderer names.
   */
  datatype Decoders = Decoders(
    camera: Json -> Camera,
    freeCameraController: Json -> FreeCameraController,
    movement: Json -> (Vec3, Vec3),
    meshRenderer: Json -> (MeshId, Material))

  /** "type", or "" when the key is absent. */
  function TypeOf(data: Json): string
    requires data.Object? && KeyFits(data, "type", StringKind)
  {
    StringOr(data, "type", "")
  }

  /**
   * deserializeComponent. `freshLight` is the (uninitialised) state of a newly
   * created LightComponent. The result is the kind of the component added, if any.
   */
  method DeserializeComponent(data: Json, entity: Entity, decoders: Decoders, freshLight: LightData)
    returns (added: Option<ComponentKind>)
    requires data.Object? && KeyFits(data, "type", StringKind)
    requires KindFor(TypeOf(data)) == Some(LightKind) ==> LightKeysFit(freshLight.lightType, data)
    modifies entity
    ensures added == KindFor(TypeOf(data))
    ensures added.None? ==> entity.components == old(entity.components)
    ensures added.Some? ==>
      && |entity.components| == |old(entity.components)| + 1
      && entity.components[..|old(entity.components)|] == old(entity.components)
      && KindOf(entity.components[|old(entity.components)|]) == added.value
    ensures added == Some(CameraKind) ==> entity.components == old(entity.components) + [CameraComponent(decoders.camera(data))]
    ensures added == Some(FreeCameraControllerKind) ==>
      entity.components == old(entity.components) + [FreeCameraControllerComponent(decoders.freeCameraController(data))]
    ensures added == Some(MeshRendererKind) ==>
      entity.components == old(entity.components)
        + [MeshRendererComponent(decoders.meshRenderer(data).0, decoders.meshRenderer(data).1)]
    ensures added == Some(MovementKind) ==>
      var m := entity.components[|old(entity.components)|].movement;
      fresh(m) && m.linearVelocity == decoders.movement(data).0 && m.angularVelocity == decoders.movement(data).1
    ensures added == Some(LightKind) ==>
      var l := entity.components[|old(entity.components)|].light;
      fresh(l) && l.Data() == DecodedLight(freshLight, data)
    ensures entity.position == old(entity.position) && entity.rotation == old(entity.rotation)
    ensures entity.localToWorld == old(entity.localToWorld)
  {
    var t := StringOr(data, "type", "");
    added := KindFor(t);
    var component := NewComponent(t, data, decoders, freshLight);
    if component.Some? {
      entity.components := entity.components + [component.value];
    }
  }

  /** The if-else chain of deserializeComponent: a new component of the kind the type names, having read `data`. */
  method NewComponent(t: string, data: Json, decoders: Decoders, freshLight: LightData) returns (component: Option<Component>)
    requires data.Object?
    requires KindFor(t) == Some(LightKind) ==> LightKeysFit(freshLight.lightType, data)
    ensures component.None? <==> KindFor(t).None?
    ensures component.Some? ==> KindOf(component.value) == KindFor(t).value
    ensures t == CameraId ==> component == Some(CameraComponent(decoders.camera(data)))
    ensures t == FreeCameraControllerId ==> component == Some(FreeCameraControllerComponent(decoders.freeCameraController(data)))
    ensures t == MeshRendererId ==>
      component == Some(MeshRendererComponent(decoders.meshRenderer(data).0, decoders.meshRenderer(data).1))
    ensures t == MovementId ==>
      var m := component.value.movement;
      fresh(m) && m.linearVelocity == decoders.movement(data).0 && m.angularVelocity == decoders.movement(data).1
    ensures t == LightId ==>
      var l := component.value.light;
      fresh(l) && l.Data() == DecodedLight(freshLight, data)
  {
    component := None;
    if t == CameraId {
      component := Some(CameraComponent(decoders.camera(data)));
    } else if t == FreeCameraControllerId {
      component := Some(FreeCameraControllerComponent(decoders.freeCameraController(data)));
    } else if t == MovementId {
      var velocities := decoders.movement(data);
      var m := new Movement(velocities.0, velocities.1);
      component := Some(MovementComponent(m));
    } else if t == MeshRendererId {
      var (mesh, material) := decoders.meshRenderer(data);
      component := Some(MeshRendererComponent(mesh, material));
    } else if t == MetalId {
      component := Some(MetalComponent);
    } else if t == WallId {
      component := Some(WallComponent);
    } else if t == ZWallId {
      component := Some(ZWallComponent);
    } else if t == LightId {
      var light := new LightComponent(freshLight);
      light.Deserialize(data);
      component := Some(LightComponentOf(light));
    } else if t == ScarecrowId {
      component := Some(ScarecrowComponent);
    } else if t == ScareCrowControllerId {
      component := Some(ScareCrowControllerComponent);
    }
  }
}
