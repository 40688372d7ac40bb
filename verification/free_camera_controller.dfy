/**
 * FreeCameraControllerSystem: picks the first entity that has both a camera
 * and a free camera controller, clamps its pitch, wraps its yaw, and moves it
 * with the keyboard. A forward (W) or backward (S) step that lands in a wall
 * is undone, and the exit region or a nearby scarecrow requests the menu.
 * Key states are inputs. The application's `changeState("menu")` is kept as
 * the flag `menuRequested`.
 */
module CameraControl {
  import opened Wrappers
  import opened Geometry
  import opened Ecs
  import opened ScarecrowController

  /** glm::half_pi and glm::two_pi, as reals. */
  const HalfPi: real := 1.5707963267948966
  const TwoPi: real := 6.283185307179586
  /** The pitch never leaves [-PitchLimit, PitchLimit], short of straight up or down. */
  const PitchLimit: real := HalfPi * 0.99

  /** The scarecrow test of `iscollide`: within 0.4 along x and 0.1 along z of a "scarecrow" entity. */
  predicate TouchesScarecrow(b: Body, p: Vec3) {
    b.isScarecrow && Within(p.x - b.WorldPoint().x, 0.4) && Within(p.z - b.WorldPoint().z, 0.1)
  }

  /** What one `iscollide` call finds: whether it returns true, and whether it asked for the menu. */
  datatype ScanResult = ScanResult(collided: bool, touchedScarecrow: bool)

  /**
   * `iscollide` over the bodies from the `i`-th on, in order. Within one body
   * the scarecrow test comes first, then the wall and zwall tests, and the
   * scan stops at the first body that passes either of those.
   */
  function ScanFrom(bodies: seq<Body>, i: nat, p: Vec3): ScanResult
    decreases |bodies| - i
  {
    if i >= |bodies| then ScanResult(false, false)
    else
      var touched := TouchesScarecrow(bodies[i], p);
      if Hits(bodies[i], p) then ScanResult(true, touched)
      else
        var rest := ScanFrom(bodies, i + 1, p);
        ScanResult(rest.collided, touched || rest.touchedScarecrow)
  }

  /** One whole `iscollide` call. */
  function CameraScan(bodies: seq<Body>, p: Vec3): ScanResult {
    ScanFrom(bodies, 0, p)
  }

  /** The scan from `i` on hits exactly when a later body does, and touches a scarecrow no later than its first hit. */
  lemma {:induction false} ScanFromMeaning(bodies: seq<Body>, i: nat, p: Vec3)
    requires i <= |bodies|
    ensures ScanFrom(bodies, i, p).collided <==> exists j :: i <= j < |bodies| && Hits(bodies[j], p)
    ensures ScanFrom(bodies, i, p).touchedScarecrow <==>
      exists j :: i <= j < |bodies| && TouchesScarecrow(bodies[j], p) && forall l :: i <= l < j ==> !Hits(bodies[l], p)
    decreases |bodies| - i
  {
    if i < |bodies| && !Hits(bodies[i], p) {
      ScanFromMeaning(bodies, i + 1, p);
    }
  }

  /**
   * `iscollide` returns true exactly when some wall or zwall passes its box
   * test, which is when the scarecrow controller's classification is not 0.
   * It requests the menu exactly when a scarecrow passes the scarecrow test no
   * later than the first body that passes a box test.
   */
  lemma CameraScanMeaning(bodies: seq<Body>, p: Vec3)
    ensures CameraScan(bodies, p).collided <==> exists i :: 0 <= i < |bodies| && Hits(bodies[i], p)
    ensures CameraScan(bodies, p).collided <==> Collision(bodies, p) != NoCollision
    ensures CameraScan(bodies, p).touchedScarecrow <==>
      exists i :: 0 <= i < |bodies| && TouchesScarecrow(bodies[i], p) && forall j :: 0 <= j < i ==> !Hits(bodies[j], p)
  {
    ScanFromMeaning(bodies, 0, p);
    CollisionClassifies(bodies, p);
  }

  /** A scarecrow past the first colliding wall is never looked at. */
  lemma ScarecrowAfterWallIgnored(wall: Body, crow: Body, p: Vec3)
    requires Hits(wall, p) && !TouchesScarecrow(wall, p)
    ensures !CameraScan([wall, crow], p).touchedScarecrow
  {
  }

  /** The bodies as the camera sees them once the entity at `k` stands at `p`: only that entity's position changes. */
  function MovedBodies(bodies: seq<Body>, k: nat, p: Vec3): (r: seq<Body>)
    requires k < |bodies|
  {
    bodies[k := bodies[k].(position := p)]
  }

  /** One `iscollide` call made while the entity at `k` stands at `p`. */
  function ScanAt(bodies: seq<Body>, k: nat, p: Vec3): ScanResult
    requires k < |bodies|
  {
    CameraScan(MovedBodies(bodies, k, p), p)
  }

  /** The two pitch checks of `update`, one after the other. */
  function ClampPitch(x: real): real {
    var raised := if x < -PitchLimit then -PitchLimit else x;
    if raised > PitchLimit then PitchLimit else raised
  }

  /** Clamping keeps the pitch within the limit and leaves a pitch already within it alone. */
  lemma ClampPitchBounds(x: real)
    ensures -PitchLimit <= ClampPitch(x) <= PitchLimit
    ensures -PitchLimit <= x <= PitchLimit ==> ClampPitch(x) == x
    ensures x < -PitchLimit ==> ClampPitch(x) == -PitchLimit
    ensures x > PitchLimit ==> ClampPitch(x) == PitchLimit
  {
  }

  /** glm::wrapAngle: the absolute value of glm::mod(angle, 2 pi), where mod(x, y) = x - y * floor(x / y). */
  function WrapAngle(angle: real): real {
    Abs(angle - TwoPi * (angle / TwoPi).Floor as real)
  }

  /** The yaw lands in [0, 2 pi), one whole number of turns away from where it was. */
  lemma WrapAngleRange(angle: real)
    ensures 0.0 <= WrapAngle(angle) < TwoPi
    ensures 0.0 <= angle < TwoPi ==> WrapAngle(angle) == angle
  {
    var n := (angle / TwoPi).Floor;
    var q := angle / TwoPi;
    assert n as real <= q < n as real + 1.0;
    assert angle == TwoPi * q;
    var m := angle - TwoPi * n as real;
    assert m == TwoPi * (q - n as real);
    assert 0.0 <= m < TwoPi;
    assert WrapAngle(angle) == m;
    if 0.0 <= angle < TwoPi {
      assert 0.0 <= q < 1.0;
      assert n == 0;
    }
  }

  /** The keyboard as `update` polls it. */
  datatype Keys = Keys(
    shiftJustPressed: bool,
    shiftJustReleased: bool,
    shift: bool,
    w: bool,
    s: bool,
    a: bool,
    d: bool,
    q: bool,
    e: bool)

  /** The system's own fields, with the pending change of state to the menu. */
  datatype SystemData = SystemData(isColliding: bool, f: bool, menuRequested: bool)

  /** The latch `f`: set by a shift press while W is held, cleared by a shift release while W is held. */
  function Latch(f: bool, keys: Keys): bool {
    var set_ := if keys.shiftJustPressed && keys.w then true else f;
    if keys.shiftJustReleased && keys.w && set_ then false else set_
  }

  /** The position sensitivity, sped up by speedupFactor * 1.2 while shift is held. */
  function Sensitivity(controller: FreeCameraController, shift: bool): Vec3 {
    if shift then Scale3(controller.speedupFactor * 1.2, controller.positionSensitivity)
    else controller.positionSensitivity
  }

  /** The camera's front: the model matrix applied to the direction (0, 0, -1, 0), with w dropped. */
  function Front(matrix: Mat4): Vec3 {
    Vec3(-matrix.c2.x, -matrix.c2.y, -matrix.c2.z)
  }

  /** The camera's up: the model matrix applied to the direction (0, 1, 0, 0), with w dropped. */
  function Up(matrix: Mat4): Vec3 {
    Xyz(matrix.c1)
  }

  /** Front is the matrix product `update` computes for the front direction. */
  lemma FrontIsProduct(matrix: Mat4)
    ensures Front(matrix) == Xyz(MulVec(matrix, Vec4(0.0, 0.0, -1.0, 0.0)))
  {
    MulVecRows(matrix, Vec4(0.0, 0.0, -1.0, 0.0));
  }

  /** Up is the matrix product `update` computes for the up direction. */
  lemma UpIsProduct(matrix: Mat4)
    ensures Up(matrix) == Xyz(MulVec(matrix, Vec4(0.0, 1.0, 0.0, 0.0)))
  {
    MulVecRows(matrix, Vec4(0.0, 1.0, 0.0, 0.0));
  }

  /** The rotation once the pitch is clamped and the yaw wrapped. */
  function Oriented(rotation: Vec3): Vec3 {
    rotation.(x := ClampPitch(rotation.x), y := WrapAngle(rotation.y))
  }

  /** The W/S displacement: 0.2 of the front direction per axis, times the time step and the z sensitivity. */
  function StepVector(deltaTime: real, sensitivity: Vec3, front: Vec3): Vec3 {
    Scale3(deltaTime * sensitivity.z, Mul3(Vec3(0.2, 0.2, 0.2), front))
  }

  /** The position after a probe and what its `iscollide` call found. */
  datatype Probe = Probe(position: Vec3, collided: bool, touchedScarecrow: bool)

  /** One `iscollide` check after a step to `moved`: on a collision the camera goes to `undone`. */
  function Recheck(bodies: seq<Body>, k: nat, moved: Vec3, undone: Vec3): Probe
    requires k < |bodies|
  {
    var scan := ScanAt(bodies, k, moved);
    Probe(if scan.collided then undone else moved, scan.collided, scan.touchedScarecrow)
  }

  /** The W half: step forward if W is held, then step back if the position collides. */
  function ForwardProbe(bodies: seq<Body>, k: nat, p: Vec3, step: Vec3, w: bool): Probe
    requires k < |bodies|
  {
    var moved := if w then Add3(p, step) else p;
    Recheck(bodies, k, moved, Sub3(moved, step))
  }

  /** The S half: step back if S is held and the last check found no collision, then step forward if the position collides. */
  function BackwardProbe(bodies: seq<Body>, k: nat, p: Vec3, step: Vec3, s: bool, lastCollided: bool): Probe
    requires k < |bodies|
  {
    var moved := if s && !lastCollided then Sub3(p, step) else p;
    Recheck(bodies, k, moved, Add3(moved, step))
  }

  /**
   * A W step that collides is undone exactly; one that does not stands. A
   * collision found without W held pushes the camera one step back.
   */
  lemma ForwardProbeOutcome(bodies: seq<Body>, k: nat, p: Vec3, step: Vec3, w: bool)
    requires k < |bodies|
    ensures var r := ForwardProbe(bodies, k, p, step, w);
      && r.collided == ScanAt(bodies, k, if w then Add3(p, step) else p).collided
      && (w && r.collided ==> r.position == p)
      && (w && !r.collided ==> r.position == Add3(p, step))
      && (!w && !r.collided ==> r.position == p)
      && (!w && r.collided ==> r.position == Sub3(p, step))
  {
  }

  /**
   * The S step is taken only after a check that found no collision; a step
   * that then collides is undone exactly. When no step is taken and the
   * position collides, the camera is pushed one step forward.
   */
  lemma BackwardProbeOutcome(bodies: seq<Body>, k: nat, p: Vec3, step: Vec3, s: bool, lastCollided: bool)
    requires k < |bodies|
    ensures var r := BackwardProbe(bodies, k, p, step, s, lastCollided);
      var taken := s && !lastCollided;
      && r.collided == ScanAt(bodies, k, if taken then Sub3(p, step) else p).collided
      && (lastCollided ==> r.collided == ScanAt(bodies, k, p).collided)
      && (taken && r.collided ==> r.position == p)
      && (taken && !r.collided ==> r.position == Sub3(p, step))
      && (!taken && !r.collided ==> r.position == p)
      && (!taken && r.collided ==> r.position == Add3(p, step))
  {
  }

  /** A and D turn the yaw by `amount`, D first; holding both cancels out. */
  function Turn(yaw: real, amount: real, a: bool, d: bool): real {
    var right := if d then yaw - amount else yaw;
    if a then right + amount else right
  }

  /** Q and E move along `lift`, Q first; holding both cancels out. */
  function Lift(p: Vec3, lift: Vec3, q: bool, e: bool): Vec3 {
    var raised := if q then Add3(p, lift) else p;
    if e then Sub3(raised, lift) else raised
  }

  /** The exit region: reaching it requests the menu. */
  predicate AtExit(p: Vec3) {
    p.z < -9.5 && p.x > -5.5 && p.x < -4.8
  }

  datatype StepResult = StepResult(position: Vec3, rotation: Vec3, system: SystemData)

  /**
   * The whole of `update` for the camera entity at `k`, standing at
   * `position` with `rotation`. `toMat4` is Transform::toMat4 of a position
   * and rotation. The pitch clamp, the yaw wrap and the latch come first;
   * the rest is Motion.
   */
  function CameraStep(bodies: seq<Body>, k: nat, position: Vec3, rotation: Vec3,
                      controller: FreeCameraController, sys: SystemData,
                      deltaTime: real, keys: Keys, toMat4: (Vec3, Vec3) -> Mat4): StepResult
    requires k < |bodies|
  {
    Motion(bodies, k, position, Oriented(rotation), controller, sys.(f := Latch(sys.f, keys)),
           deltaTime, keys, toMat4)
  }

  /** `update` after the clamp, the wrap and the latch: the W/S probes, then Settle. */
  function Motion(bodies: seq<Body>, k: nat, position: Vec3, rotation: Vec3,
                  controller: FreeCameraController, sys: SystemData,
                  deltaTime: real, keys: Keys, toMat4: (Vec3, Vec3) -> Mat4): StepResult
    requires k < |bodies|
  {
    var matrix := toMat4(position, rotation);
    var sensitivity := Sensitivity(controller, keys.shift);
    var step := StepVector(deltaTime, sensitivity, Front(matrix));
    var forward := ForwardProbe(bodies, k, position, step, keys.w);
    var backward := BackwardProbe(bodies, k, forward.position, step, keys.s, forward.collided);
    Settle(rotation, matrix, sensitivity, controller, sys, deltaTime, keys, forward, backward)
  }

  /** The last stage of `update`: the turn, the lift and the menu request, once both probes are done. */
  function Settle(rotation: Vec3, matrix: Mat4, sensitivity: Vec3, controller: FreeCameraController, sys: SystemData,
                  deltaTime: real, keys: Keys, forward: Probe, backward: Probe): StepResult
  {
    var yaw := Turn(rotation.y, deltaTime * 200.0 * controller.rotationSensitivity, keys.a, keys.d);
    var position1 := Lift(backward.position, Scale3(deltaTime * sensitivity.y, Up(matrix)), keys.q, keys.e);
    StepResult(
      position1,
      rotation.(y := yaw),
      SystemData(
        backward.collided,
        sys.f,
        sys.menuRequested || forward.touchedScarecrow || backward.touchedScarecrow || AtExit(position1)))
  }

  /** Settle in the terms of the last method of `update`: the turn amount and the lift vector. */
  lemma SettleParts(rotation: Vec3, matrix: Mat4, sensitivity: Vec3, controller: FreeCameraController, sys: SystemData,
                    deltaTime: real, keys: Keys, forward: Probe, backward: Probe, turn: real, lift: Vec3)
    requires turn == deltaTime * 200.0 * controller.rotationSensitivity
    requires lift == Scale3(deltaTime * sensitivity.y, Up(matrix))
    ensures var r := Settle(rotation, matrix, sensitivity, controller, sys, deltaTime, keys, forward, backward);
      && r.position == Lift(backward.position, lift, keys.q, keys.e)
      && r.rotation == rotation.(y := Turn(rotation.y, turn, keys.a, keys.d))
      && r.system == SystemData(backward.collided, sys.f,
           sys.menuRequested || forward.touchedScarecrow || backward.touchedScarecrow || AtExit(r.position))
  {
  }

  /** Motion, stage by stage, as the methods of the system take it. */
  lemma MotionStages(bodies: seq<Body>, k: nat, position: Vec3, rotation: Vec3,
                     controller: FreeCameraController, sys: SystemData,
                     deltaTime: real, keys: Keys, toMat4: (Vec3, Vec3) -> Mat4,
                     matrix: Mat4, sensitivity: Vec3, step: Vec3, forward: Probe, backward: Probe)
    requires k < |bodies|
    requires matrix == toMat4(position, rotation)
    requires sensitivity == Sensitivity(controller, keys.shift) && step == StepVector(deltaTime, sensitivity, Front(matrix))
    requires forward == ForwardProbe(bodies, k, position, step, keys.w)
    requires backward == BackwardProbe(bodies, k, forward.position, step, keys.s, forward.collided)
    ensures Motion(bodies, k, position, rotation, controller, sys, deltaTime, keys, toMat4)
      == Settle(rotation, matrix, sensitivity, controller, sys, deltaTime, keys, forward, backward)
  {
  }

  /**
   * After `update` the pitch is within the limit and roll is untouched; the
   * collision flag is the second check's; the menu is requested when the
   * camera ends in the exit region, and a request is never withdrawn.
   */
  lemma CameraStepGuarantees(bodies: seq<Body>, k: nat, position: Vec3, rotation: Vec3,
                             controller: FreeCameraController, sys: SystemData,
                             deltaTime: real, keys: Keys, toMat4: (Vec3, Vec3) -> Mat4)
    requires k < |bodies|
    ensures var r := CameraStep(bodies, k, position, rotation, controller, sys, deltaTime, keys, toMat4);
      && -PitchLimit <= r.rotation.x <= PitchLimit
      && r.rotation.z == rotation.z
      && (AtExit(r.position) ==> r.system.menuRequested)
      && (sys.menuRequested ==> r.system.menuRequested)
      && (!keys.shiftJustPressed && !keys.shiftJustReleased ==> r.system.f == sys.f)
  {
    var r := CameraStep(bodies, k, position, rotation, controller, sys, deltaTime, keys, toMat4);
    ClampPitchBounds(rotation.x);
    assert r.rotation.x == ClampPitch(rotation.x) && r.rotation.z == rotation.z;
    assert r.system.f == Latch(sys.f, keys);
  }

  /**
   * With no keys held and nothing in reach, `update` only normalises the
   * angles: the camera stays where it is.
   */
  lemma IdleCameraStays(bodies: seq<Body>, k: nat, position: Vec3, rotation: Vec3,
                        controller: FreeCameraController, sys: SystemData,
                        deltaTime: real, keys: Keys, toMat4: (Vec3, Vec3) -> Mat4)
    requires k < |bodies|
    requires !keys.w && !keys.s && !keys.a && !keys.d && !keys.q && !keys.e
    requires forall i :: 0 <= i < |bodies| ==> !Hits(MovedBodies(bodies, k, position)[i], position)
    ensures var r := CameraStep(bodies, k, position, rotation, controller, sys, deltaTime, keys, toMat4);
      && r.position == position
      && r.rotation == Oriented(rotation)
      && !r.system.isColliding
  {
    CameraScanMeaning(MovedBodies(bodies, k, position), position);
  }

  /** The entity `update` drives has both a camera and a free camera controller. */
  predicate Selectable(e: Entity)
    reads e
  {
    e.Has(CameraKind) && e.Has(FreeCameraControllerKind)
  }

  function SelectableFlags(world: seq<Entity>): (r: seq<bool>)
    reads world
    ensures |r| == |world|
  {
    seq(|world|, i requires 0 <= i < |world| reads world => Selectable(world[i]))
  }

  /** The position of the first true flag at or after `i`. */
  function FirstTrueFrom(bs: seq<bool>, i: nat): (r: Option<nat>)
    ensures r.Some? ==> i <= r.value < |bs| && bs[r.value]
    decreases |bs| - i
  {
    if i >= |bs| then None
    else if bs[i] then Some(i)
    else FirstTrueFrom(bs, i + 1)
  }

  /** The position of the first true flag. */
  function FirstTrue(bs: seq<bool>): (r: Option<nat>)
    ensures r.Some? ==> r.value < |bs| && bs[r.value]
  {
    FirstTrueFrom(bs, 0)
  }

  /** FirstTrueFrom finds the first true flag from `i` on, and `None` exactly when there is none. */
  lemma {:induction false} FirstTrueFromFirst(bs: seq<bool>, i: nat)
    requires i <= |bs|
    ensures FirstTrueFrom(bs, i).None? <==> forall j :: i <= j < |bs| ==> !bs[j]
    ensures FirstTrueFrom(bs, i).Some? ==> forall j :: i <= j < FirstTrueFrom(bs, i).value ==> !bs[j]
    decreases |bs| - i
  {
    if i < |bs| && !bs[i] {
      FirstTrueFromFirst(bs, i + 1);
    }
  }

  /** FirstTrue finds the first true flag, and `None` exactly when there is none. */
  lemma FirstTrueFirst(bs: seq<bool>)
    ensures FirstTrue(bs).None? <==> forall i :: 0 <= i < |bs| ==> !bs[i]
    ensures forall i :: 0 <= i < |bs| ==> (FirstTrue(bs) == Some(i) <==> bs[i] && forall j :: 0 <= j < i ==> !bs[j])
  {
    FirstTrueFromFirst(bs, 0);
  }

  /** The camera entity as the system sees it. */
  function ControllerOf(e: Entity): FreeCameraController
    reads e
    requires e.Has(FreeCameraControllerKind)
  {
    e.GetComponent(FreeCameraControllerKind).value.controller
  }

  class FreeCameraControllerSystem {
    /** iscolide: the result of the last collision check. */
    var isColliding: bool
    /** f: the shift-while-walking latch. */
    var f: bool
    /** The application's pending change of state to the menu. */
    var menuRequested: bool

    function Data(): SystemData
      reads this
    {
      SystemData(isColliding, f, menuRequested)
    }

    constructor ()
      ensures Data() == SystemData(false, false, false)
    {
      isColliding := false;
      f := false;
      menuRequested := false;
    }

    /** iscollide: a scan in entity order that returns at the first wall or zwall in reach. */
    method IsCollide(world: seq<Entity>, position: Vec3) returns (collided: bool)
      modifies this
      ensures collided == CameraScan(Bodies(world), position).collided
      ensures Data() == old(Data()).(menuRequested := old(menuRequested) || CameraScan(Bodies(world), position).touchedScarecrow)
    {
      ghost var bodies := Bodies(world);
      ghost var touched := false;
      collided := false;
      var i := 0;
      while i < |world| && !collided
        invariant 0 <= i <= |world|
        invariant Data() == old(Data()).(menuRequested := old(menuRequested) || touched)
        invariant CameraScan(bodies, position)
          == ScanResult(collided || ScanFrom(bodies, i, position).collided, touched || (!collided && ScanFrom(bodies, i, position).touchedScarecrow))
      {
        collided := VisitEntity(world[i], bodies[i], position);
        touched := touched || TouchesScarecrow(bodies[i], position);
        i := i + 1;
      }
    }

    /** One entity of the `iscollide` loop: the scarecrow test, then the wall and zwall tests. */
    method VisitEntity(e: Entity, ghost body: Body, position: Vec3) returns (hit: bool)
      requires body == BodyOf(e)
      modifies this
      ensures hit == Hits(body, position)
      ensures Data() == old(Data()).(menuRequested := old(menuRequested) || TouchesScarecrow(body, position))
    {
      hit := false;
      if e.Has(ScarecrowKind) {
        var crowPosition := CollisionPoint(e.localToWorld, e.position);
        if Within(position.x - crowPosition.x, 0.4) && Within(position.z - crowPosition.z, 0.1) {
          menuRequested := true;
        }
      }
      if e.Has(WallKind) {
        var wallPosition := CollisionPoint(e.localToWorld, e.position);
        if Within(position.x - wallPosition.x, 0.45) && Within(position.z - wallPosition.z, 0.1) {
          return true;
        }
      }
      if e.Has(ZWallKind) {
        var zwallPosition := CollisionPoint(e.localToWorld, e.position);
        if Within(position.x - zwallPosition.x, 0.1) && Within(position.z - zwallPosition.z, 0.45) {
          return true;
        }
      }
    }

    /** The selection loop of `update`: the first entity with both a camera and a controller. */
    static method SelectEntity(world: seq<Entity>) returns (r: Option<nat>)
      ensures r == FirstTrue(SelectableFlags(world))
    {
      ghost var flags := SelectableFlags(world);
      r := None;
      var i := 0;
      while i < |world| && r.None?
        invariant 0 <= i <= |world|
        invariant FirstTrue(flags) == if r.None? then FirstTrueFrom(flags, i) else r
      {
        var camera := world[i].GetComponent(CameraKind);
        var controller := world[i].GetComponent(FreeCameraControllerKind);
        assert flags[i] == Selectable(world[i]);
        if camera.Some? && controller.Some? {
          r := Some(i);
        }
        i := i + 1;
      }
    }

    /**
     * update: with no entity holding both a camera and a controller nothing
     * changes; otherwise the first such entity's position and rotation, and
     * this system's fields, become what CameraStep says, and no other entity
     * moves. The entities of a world are distinct (it keeps them in a set).
     */
    method Update(world: seq<Entity>, deltaTime: real, keys: Keys, toMat4: (Vec3, Vec3) -> Mat4)
      requires forall i, j :: 0 <= i < j < |world| ==> world[i] != world[j]
      modifies this, world
      ensures forall i :: 0 <= i < |world| ==>
        world[i].components == old(world[i].components) && world[i].localToWorld == old(world[i].localToWorld)
      ensures FirstTrue(old(SelectableFlags(world))).None? ==>
        && Data() == old(Data())
        && forall i :: 0 <= i < |world| ==> world[i].position == old(world[i].position) && world[i].rotation == old(world[i].rotation)
      ensures FirstTrue(old(SelectableFlags(world))).Some? ==>
        var k := FirstTrue(old(SelectableFlags(world))).value;
        && world[k].Has(FreeCameraControllerKind)
        && var r := CameraStep(old(Bodies(world)), k, old(world[k].position), old(world[k].rotation),
                               ControllerOf(world[k]), old(Data()), deltaTime, keys, toMat4);
          && world[k].position == r.position && world[k].rotation == r.rotation && Data() == r.system
          && forall i :: 0 <= i < |world| && i != k ==>
               world[i].position == old(world[i].position) && world[i].rotation == old(world[i].rotation)
    {
      ghost var bodies := Bodies(world);
      var selected := SelectEntity(world);
      if selected.None? {
        return;
      }
      var k := selected.value;
      assert SelectableFlags(world)[k];
      assert Tracks(world, bodies, k);
      Step(world, bodies, k, deltaTime, keys, toMat4);
    }

    /** The body of `update` once the camera entity `world[k]` is found. */
    method Step(world: seq<Entity>, ghost bodies: seq<Body>, k: nat, deltaTime: real, keys: Keys, toMat4: (Vec3, Vec3) -> Mat4)
      requires Tracks(world, bodies, k) && Selectable(world[k])
      modifies this, world[k]
      ensures world[k].components == old(world[k].components) && world[k].localToWorld == old(world[k].localToWorld)
      ensures var r := CameraStep(bodies, k, old(world[k].position), old(world[k].rotation),
                                  ControllerOf(world[k]), old(Data()), deltaTime, keys, toMat4);
        world[k].position == r.position && world[k].rotation == r.rotation && Data() == r.system
    {
      var controller := world[k].GetComponent(FreeCameraControllerKind).value.controller;
      Orient(world, bodies, k, keys);
      Move(world, bodies, k, controller, deltaTime, keys, toMat4);
    }

    /** Everything after the clamp, the wrap and the latch. */
    method Move(world: seq<Entity>, ghost bodies: seq<Body>, k: nat, controller: FreeCameraController,
                deltaTime: real, keys: Keys, toMat4: (Vec3, Vec3) -> Mat4)
      requires Tracks(world, bodies, k)
      modifies this, world[k]
      ensures world[k].components == old(world[k].components) && world[k].localToWorld == old(world[k].localToWorld)
      ensures var r := Motion(bodies, k, old(world[k].position), old(world[k].rotation),
                              controller, old(Data()), deltaTime, keys, toMat4);
        world[k].position == r.position && world[k].rotation == r.rotation && Data() == r.system
    {
      var entity := world[k];
      ghost var position0, rotation0, sys0 := entity.position, entity.rotation, Data();
      var matrix := toMat4(entity.position, entity.rotation);
      var sensitivity := Sensitivity(controller, keys.shift);
      var step := StepVector(deltaTime, sensitivity, Front(matrix));
      ghost var forward, backward := Walk(world, bodies, k, step, keys.w, keys.s);
      var turn, lift := deltaTime * 200.0 * controller.rotationSensitivity, Scale3(deltaTime * sensitivity.y, Up(matrix));
      Finish(entity, turn, lift, keys);
      SettleParts(rotation0, matrix, sensitivity, controller, sys0, deltaTime, keys, forward, backward, turn, lift);
      MotionStages(bodies, k, position0, rotation0, controller, sys0, deltaTime, keys, toMat4,
                   matrix, sensitivity, step, forward, backward);
    }

    /** The W half, then the S half. */
    method Walk(world: seq<Entity>, ghost bodies: seq<Body>, k: nat, step: Vec3, w: bool, s: bool)
      returns (ghost forward: Probe, ghost backward: Probe)
      requires Tracks(world, bodies, k)
      modifies this, world[k]
      ensures world[k].rotation == old(world[k].rotation) && world[k].components == old(world[k].components)
      ensures world[k].localToWorld == old(world[k].localToWorld)
      ensures forward == ForwardProbe(bodies, k, old(world[k].position), step, w)
      ensures backward == BackwardProbe(bodies, k, forward.position, step, s, forward.collided)
      ensures world[k].position == backward.position && isColliding == backward.collided && f == old(f)
      ensures menuRequested == (old(menuRequested) || forward.touchedScarecrow || backward.touchedScarecrow)
    {
      forward := ForwardProbe(bodies, k, world[k].position, step, w);
      WalkForward(world, bodies, k, step, w);
      backward := BackwardProbe(bodies, k, forward.position, step, s, forward.collided);
      WalkBackward(world, bodies, k, step, s);
    }

    /** The pitch clamp, the yaw wrap and the latch `f`. */
    method Orient(world: seq<Entity>, ghost bodies: seq<Body>, k: nat, keys: Keys)
      requires Tracks(world, bodies, k)
      modifies this, world[k]
      ensures Tracks(world, bodies, k)
      ensures world[k].rotation == Oriented(old(world[k].rotation))
      ensures world[k].position == old(world[k].position) && world[k].components == old(world[k].components)
      ensures world[k].localToWorld == old(world[k].localToWorld)
      ensures isColliding == old(isColliding) && f == Latch(old(f), keys) && menuRequested == old(menuRequested)
    {
      Place(world, bodies, k, world[k].position, Oriented(world[k].rotation));
      if keys.shiftJustPressed && keys.w {
        f := true;
      }
      if keys.shiftJustReleased && keys.w && f {
        f := false;
      }
    }

    /** W: step forward if held, check, and step back on a collision. */
    method WalkForward(world: seq<Entity>, ghost bodies: seq<Body>, k: nat, step: Vec3, w: bool)
      requires Tracks(world, bodies, k)
      modifies this, world[k]
      ensures Tracks(world, bodies, k)
      ensures world[k].rotation == old(world[k].rotation) && world[k].components == old(world[k].components)
      ensures world[k].localToWorld == old(world[k].localToWorld)
      ensures var r := ForwardProbe(bodies, k, old(world[k].position), step, w);
        && world[k].position == r.position
        && isColliding == r.collided && f == old(f) && menuRequested == (old(menuRequested) || r.touchedScarecrow)
    {
      var entity := world[k];
      if w {
        Place(world, bodies, k, Add3(entity.position, step), entity.rotation);
      }
      CheckStep(world, bodies, k, Sub3(entity.position, step));
    }

    /** S: step back if held and the last check found nothing, check, and step forward again on a collision. */
    method WalkBackward(world: seq<Entity>, ghost bodies: seq<Body>, k: nat, step: Vec3, s: bool)
      requires Tracks(world, bodies, k)
      modifies this, world[k]
      ensures Tracks(world, bodies, k)
      ensures world[k].rotation == old(world[k].rotation) && world[k].components == old(world[k].components)
      ensures world[k].localToWorld == old(world[k].localToWorld)
      ensures var r := BackwardProbe(bodies, k, old(world[k].position), step, s, old(isColliding));
        && world[k].position == r.position
        && isColliding == r.collided && f == old(f) && menuRequested == (old(menuRequested) || r.touchedScarecrow)
    {
      var entity := world[k];
      if s && !isColliding {
        Place(world, bodies, k, Sub3(entity.position, step), entity.rotation);
      }
      CheckStep(world, bodies, k, Add3(entity.position, step));
    }

    /** `iscollide` at the camera's position, and the camera moved to `undone` on a collision. */
    method CheckStep(world: seq<Entity>, ghost bodies: seq<Body>, k: nat, undone: Vec3)
      requires Tracks(world, bodies, k)
      modifies this, world[k]
      ensures Tracks(world, bodies, k)
      ensures world[k].rotation == old(world[k].rotation) && world[k].components == old(world[k].components)
      ensures world[k].localToWorld == old(world[k].localToWorld)
      ensures var r := Recheck(bodies, k, old(world[k].position), undone);
        && world[k].position == r.position
        && isColliding == r.collided && f == old(f) && menuRequested == (old(menuRequested) || r.touchedScarecrow)
    {
      var entity := world[k];
      MovedBodiesAreBodies(world, bodies, k);
      isColliding := IsCollide(world, entity.position);
      if isColliding {
        Place(world, bodies, k, undone, entity.rotation);
      }
    }

    /** Sets the camera entity's local position and rotation; the snapshot still tracks the world. */
    static method Place(world: seq<Entity>, ghost bodies: seq<Body>, k: nat, position: Vec3, rotation: Vec3)
      requires Tracks(world, bodies, k)
      modifies world[k]
      ensures Tracks(world, bodies, k)
      ensures world[k].position == position && world[k].rotation == rotation
      ensures world[k].components == old(world[k].components) && world[k].localToWorld == old(world[k].localToWorld)
    {
      world[k].position := position;
      world[k].rotation := rotation;
    }

    /** A and D turn, Q and E lift, and the exit check. */
    method Finish(entity: Entity, turn: real, lift: Vec3, keys: Keys)
      modifies this, entity
      ensures entity.position == Lift(old(entity.position), lift, keys.q, keys.e)
      ensures entity.rotation == old(entity.rotation).(y := Turn(old(entity.rotation.y), turn, keys.a, keys.d))
      ensures entity.components == old(entity.components) && entity.localToWorld == old(entity.localToWorld)
      ensures isColliding == old(isColliding) && f == old(f) && menuRequested == (old(menuRequested) || AtExit(entity.position))
    {
      if keys.d {
        entity.rotation := entity.rotation.(y := entity.rotation.y - turn);
      }
      if keys.a {
        entity.rotation := entity.rotation.(y := entity.rotation.y + turn);
      }
      if keys.q {
        entity.position := Add3(entity.position, lift);
      }
      if keys.e {
        entity.position := Sub3(entity.position, lift);
      }
      if entity.position.z < -9.5 && entity.position.x > -5.5 && entity.position.x < -4.8 {
        menuRequested := true;
      }
    }
  }

  /**
   * The snapshot `bodies` agrees with the world except for the local position
   * of the entity at `k`, the one entity `update` moves (and no other entity is it).
   */
  predicate Tracks(world: seq<Entity>, bodies: seq<Body>, k: nat)
    reads world
  {
    && k < |world| && |bodies| == |world|
    && (forall i :: 0 <= i < |world| && i != k ==> world[i] != world[k] && bodies[i] == BodyOf(world[i]))
    && bodies[k] == BodyOf(world[k]).(position := bodies[k].position)
  }

  /**
   * While only the entity at `k` has moved, the world's bodies are the
   * snapshot with that entity's position replaced by where it now stands.
   */
  lemma MovedBodiesAreBodies(world: seq<Entity>, bodies: seq<Body>, k: nat)
    requires Tracks(world, bodies, k)
    ensures Bodies(world) == MovedBodies(bodies, k, world[k].position)
  {
  }
}
