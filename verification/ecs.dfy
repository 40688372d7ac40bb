/**
 * The parts of the entity-component system the renderer and game systems read: entities with
 * their components, local transform and local-to-world matrix, and the
 * `getComponent<T>` lookup. Components whose fields the systems update in place
 * (movement velocities, lights, materials) are objects; the rest are values.
 */
module Ecs {
  import opened Wrappers
  import opened Geometry
  import opened Gl
  import opened Materials
  import opened Lights

  /** What the renderer reads from a CameraComponent: its projection for the window size, and its view matrix. */
  datatype Camera = Camera(projection: Mat4, view: Mat4)

  /** FreeCameraControllerComponent's settings. */
  datatype FreeCameraController = FreeCameraController(
    positionSensitivity: Vec3,
    rotationSensitivity: real,
    speedupFactor: real)

  /** MovementComponent: its velocities are updated in place by the scarecrow controller. */
  class Movement {
    var linearVelocity: Vec3
    var angularVelocity: Vec3

    constructor (linear: Vec3, angular: Vec3)
      ensures linearVelocity == linear && angularVelocity == angular
    {
      linearVelocity := linear;
      angularVelocity := angular;
    }
  }

  datatype ComponentKind =
    | CameraKind
    | FreeCameraControllerKind
    | MovementKind
    | MeshRendererKind
    | MetalKind
    | WallKind
    | ZWallKind
    | LightKind
    | ScarecrowKind
    | ScareCrowControllerKind

  datatype Component =
    | CameraComponent(camera: Camera)
    | FreeCameraControllerComponent(controller: FreeCameraController)
    | MovementComponent(movement: Movement)
    | MeshRendererComponent(mesh: MeshId, material: Material)
    | MetalComponent
    | WallComponent
    | ZWallComponent
    | LightComponentOf(light: LightComponent)
    | ScarecrowComponent
    | ScareCrowControllerComponent

  function KindOf(c: Component): ComponentKind {
    match c
    case CameraComponent(_) => CameraKind
    case FreeCameraControllerComponent(_) => FreeCameraControllerKind
    case MovementComponent(_) => MovementKind
    case MeshRendererComponent(_, _) => MeshRendererKind
    case MetalComponent => MetalKind
    case WallComponent => WallKind
    case ZWallComponent => ZWallKind
    case LightComponentOf(_) => LightKind
    case ScarecrowComponent => ScarecrowKind
    case ScareCrowControllerComponent => ScareCrowControllerKind
  }

  /** Entity::getComponent<T>: the position of the first component of kind `k`, in the order they were added. */
  function FirstOfKind(cs: seq<Component>, k: ComponentKind): (r: Option<nat>)
    ensures r.Some? ==> r.value < |cs| && KindOf(cs[r.value]) == k
  {
    if cs == [] then None
    else if KindOf(cs[0]) == k then Some(0)
    else
      match FirstOfKind(cs[1..], k)
      case None => None
      case Some(i) => Some(i + 1)
  }

  class Entity {
    var components: seq<Component>
    /** localTransform.position and localTransform.rotation. */
    var position: Vec3
    var rotation: Vec3
    /**
     * getLocalToWorldMatrix(): the parents' matrices times this entity's own
     * transform. Computing it is matrix and trigonometric work outside the
     * model; it is kept as a given value.
     */
    var localToWorld: Mat4

    constructor (cs: seq<Component>, pos: Vec3, rot: Vec3, m: Mat4)
      ensures components == cs && position == pos && rotation == rot && localToWorld == m
    {
      components := cs;
      position := pos;
      rotation := rot;
      localToWorld := m;
    }

    function GetComponent(k: ComponentKind): (r: Option<Component>)
      reads this
    {
      match FirstOfKind(components, k)
      case None => None
      case Some(i) => Some(components[i])
    }

    predicate Has(k: ComponentKind)
      reads this
    {
      FirstOfKind(components, k).Some?
    }
  }

  /** FirstOfKind is a first-match search: no earlier component has the kind, and `None` means none has it. */
  lemma {:induction false} FirstOfKindFirst(cs: seq<Component>, k: ComponentKind)
    ensures FirstOfKind(cs, k).Some? ==> forall i :: 0 <= i < FirstOfKind(cs, k).value ==> KindOf(cs[i]) != k
    ensures FirstOfKind(cs, k).None? <==> forall i :: 0 <= i < |cs| ==> KindOf(cs[i]) != k
  {
    if cs != [] && KindOf(cs[0]) != k {
      FirstOfKindFirst(cs[1..], k);
      assert forall i :: 1 <= i < |cs| ==> cs[i] == cs[1..][i - 1];
    }
  }

  /** getComponent finds a component of the kind asked for exactly when the entity has one, and it is the first. */
  lemma GetComponentFirst(e: Entity, k: ComponentKind)
    ensures e.GetComponent(k).Some? <==> exists i :: 0 <= i < |e.components| && KindOf(e.components[i]) == k
    ensures e.GetComponent(k).Some? ==> KindOf(e.GetComponent(k).value) == k
    ensures e.GetComponent(k).Some? ==>
      exists i :: 0 <= i < |e.components| && e.components[i] == e.GetComponent(k).value
        && forall j :: 0 <= j < i ==> KindOf(e.components[j]) != k
  {
    var r := FirstOfKind(e.components, k);
    FirstOfKindFirst(e.components, k);
    if r.Some? {
      assert e.components[r.value] == e.GetComponent(k).value;
    }
  }

  /**
   * What the collision tests read of an entity: its marker components, its
   * local-to-world matrix and its local position.
   */
  datatype Body = Body(isScarecrow: bool, isWall: bool, isZWall: bool, localToWorld: Mat4, position: Vec3)
  {
    /** The point the collision tests compare against. */
    function WorldPoint(): Vec3 {
      CollisionPoint(localToWorld, position)
    }
  }

  /**
   * The local-to-world matrix applied to a local position, as a point, with
   * w dropped.
   */
  function CollisionPoint(localToWorld: Mat4, position: Vec3): Vec3 {
    var m := localToWorld;
    Vec3(m.c0.x * position.x + m.c1.x * position.y + m.c2.x * position.z + m.c3.x,
         m.c0.y * position.x + m.c1.y * position.y + m.c2.y * position.z + m.c3.y,
         m.c0.z * position.x + m.c1.z * position.y + m.c2.z * position.z + m.c3.z)
  }

  /** CollisionPoint is the matrix product the collision tests compute, with w dropped. */
  lemma CollisionPointIsProduct(localToWorld: Mat4, position: Vec3)
    ensures CollisionPoint(localToWorld, position) == Xyz(MulVec(localToWorld, Point(position)))
  {
    MulVecRows(localToWorld, Point(position));
  }

  function BodyOf(e: Entity): Body
    reads e
  {
    Body(e.Has(ScarecrowKind), e.Has(WallKind), e.Has(ZWallKind), e.localToWorld, e.position)
  }

  /** The bodies of the world's entities, in iteration order. */
  function Bodies(world: seq<Entity>): (r: seq<Body>)
    reads world
    ensures |r| == |world|
  {
    seq(|world|, i requires 0 <= i < |world| reads world => BodyOf(world[i]))
  }
}
