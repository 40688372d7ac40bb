/**
 * ScareCrowControllerSystem: `iscollide` classifies a position against the
 * walls of the world (first match wins), and `update` reverses a scarecrow's
 * velocity along the axis of the wall it touches.
 */
module ScarecrowController {
  import opened Wrappers
  import opened Geometry
  import opened Ecs

  const CollidedWithXWall: int := 1
  const CollidedWithZWall: int := -1
  const NoCollision: int := 0

  function Abs(r: real): real {
    if r < 0.0 then -r else r
  }

  /** `abs(d) < r`, written as the two comparisons it stands for. */
  predicate Within(d: real, r: real) {
    -r < d < r
  }

  lemma WithinIsAbs(d: real, r: real)
    ensures Within(d, r) <==> Abs(d) < r
  {
  }

  /** The wall test: within 0.45 along x and 0.1 along z of a "wall" entity. */
  predicate HitsXWall(b: Body, p: Vec3) {
    b.isWall && Within(p.x - b.WorldPoint().x, 0.45) && Within(p.z - b.WorldPoint().z, 0.1)
  }

  /** The zwall test: within 0.1 along x and 0.45 along z of a "zwall" entity. */
  predicate HitsZWall(b: Body, p: Vec3) {
    b.isZWall && Within(p.x - b.WorldPoint().x, 0.1) && Within(p.z - b.WorldPoint().z, 0.45)
  }

  predicate Hits(b: Body, p: Vec3) {
    HitsXWall(b, p) || HitsZWall(b, p)
  }

  /**
   * The classification `iscollide` returns: the first body that passes a test
   * decides, the wall test before the zwall test within one body; 0 when none passes.
   */
  function Collision(bodies: seq<Body>, p: Vec3): int {
    if bodies == [] then NoCollision
    else if HitsXWall(bodies[0], p) then CollidedWithXWall
    else if HitsZWall(bodies[0], p) then CollidedWithZWall
    else Collision(bodies[1..], p)
  }

  /**
   * Collision is three-valued and a first-match search: 0 exactly when no body
   * passes a test; 1 exactly when the first body to pass one passes the wall
   * test; -1 exactly when it passes only the zwall test.
   */
  lemma {:induction false} CollisionClassifies(bodies: seq<Body>, p: Vec3)
    ensures var r := Collision(bodies, p);
      r == NoCollision || r == CollidedWithXWall || r == CollidedWithZWall
    ensures Collision(bodies, p) == NoCollision <==> forall i :: 0 <= i < |bodies| ==> !Hits(bodies[i], p)
    ensures Collision(bodies, p) == CollidedWithXWall <==>
      exists i :: 0 <= i < |bodies| && HitsXWall(bodies[i], p) && forall j :: 0 <= j < i ==> !Hits(bodies[j], p)
    ensures Collision(bodies, p) == CollidedWithZWall <==>
      exists i :: 0 <= i < |bodies| && HitsZWall(bodies[i], p) && !HitsXWall(bodies[i], p)
        && forall j :: 0 <= j < i ==> !Hits(bodies[j], p)
  {
    if bodies != [] && !Hits(bodies[0], p) {
      var rest := bodies[1..];
      CollisionClassifies(rest, p);
      assert forall i :: 1 <= i < |bodies| ==> bodies[i] == rest[i - 1];
      if Collision(rest, p) == CollidedWithXWall {
        var i :| 0 <= i < |rest| && HitsXWall(rest[i], p) && forall j :: 0 <= j < i ==> !Hits(rest[j], p);
        assert HitsXWall(bodies[i + 1], p) && forall j :: 0 <= j < i + 1 ==> !Hits(bodies[j], p);
      }
      if Collision(rest, p) == CollidedWithZWall {
        var i :| 0 <= i < |rest| && HitsZWall(rest[i], p) && !HitsXWall(rest[i], p) && forall j :: 0 <= j < i ==> !Hits(rest[j], p);
        assert HitsZWall(bodies[i + 1], p) && !HitsXWall(bodies[i + 1], p) && forall j :: 0 <= j < i + 1 ==> !Hits(bodies[j], p);
      }
    }
  }

  /** iscollide: scans the entities in order and returns as soon as one passes its test. */
  method IsCollide(world: seq<Entity>, position: Vec3) returns (r: int)
    ensures r == Collision(Bodies(world), position)
  {
    ghost var bodies := Bodies(world);
    var i := 0;
    while i < |world|
      invariant 0 <= i <= |world|
      invariant Collision(bodies, position) == Collision(bodies[i..], position)
    {
      assert bodies[i..][1..] == bodies[i + 1..];
      var e := world[i];
      assert bodies[i] == BodyOf(e);
      if e.Has(WallKind) {
        var wallPosition := CollisionPoint(e.localToWorld, e.position);
        if Within(position.x - wallPosition.x, 0.45) && Within(position.z - wallPosition.z, 0.1) {
          return CollidedWithXWall;
        }
      }
      if e.Has(ZWallKind) {
        var zwallPosition := CollisionPoint(e.localToWorld, e.position);
        if Within(position.x - zwallPosition.x, 0.1) && Within(position.z - zwallPosition.z, 0.45) {
          return CollidedWithZWall;
        }
      }
      i := i + 1;
    }
    return NoCollision;
  }

  /** The scarecrow's turning region near the exit. */
  predicate InTurnRegion(p: Vec3) {
    p.z < -9.0 && p.x > -5.5 && p.x < -4.8
  }

  /**
   * The velocity `update` leaves: x reversed after a zwall, z reversed after a
   * wall or inside the turning region, y never touched.
   */
  function Flipped(v: Vec3, collision: int, p: Vec3): Vec3 {
    Vec3(if collision == CollidedWithZWall then -v.x else v.x,
         v.y,
         if collision == CollidedWithXWall || InTurnRegion(p) then -v.z else v.z)
  }

  /** An entity `update` acts on: it has both a scarecrow and a scarecrow controller. */
  predicate Controlled(e: Entity)
    reads e
  {
    e.Has(ScarecrowKind) && e.Has(ScareCrowControllerKind)
  }

  /** `update` writes this entity's movement velocity (and so needs its MovementComponent). */
  predicate Turns(e: Entity, bodies: seq<Body>)
    reads e
  {
    Controlled(e) && (Collision(bodies, e.position) != NoCollision || InTurnRegion(e.position))
  }

  function MovementOf(e: Entity): Movement
    reads e
    requires e.Has(MovementKind)
  {
    e.GetComponent(MovementKind).value.movement
  }

  /** An entity `update` may write to: a controlled scarecrow with a MovementComponent. */
  predicate Moving(e: Entity)
    reads e
  {
    Controlled(e) && e.Has(MovementKind)
  }

  /** The MovementComponents of the controlled scarecrows. */
  function ScarecrowMovements(world: seq<Entity>): set<Movement>
    reads world
  {
    set i | 0 <= i < |world| && Moving(world[i]) :: MovementOf(world[i])
  }

  /** For each entity, its movement if it is a controlled scarecrow with one. */
  function MovementSeq(world: seq<Entity>): (ms: seq<Option<Movement>>)
    reads world
    ensures |ms| == |world|
    ensures forall k :: 0 <= k < |world| ==> ms[k] == if Moving(world[k]) then Some(MovementOf(world[k])) else None
  {
    seq(|world|, k requires 0 <= k < |world| reads world =>
      if Moving(world[k]) then Some(MovementOf(world[k])) else None)
  }

  /**
   * update: every controlled scarecrow's velocity becomes the flipped one
   * (which is the old one when it neither touches a wall nor is in the
   * turning region), and no other state changes: no position or rotation,
   * no angular velocity, no other entity's movement. The C++ code dereferences
   * the MovementComponent of each scarecrow it turns, and each entity owns
   * its own component.
   */
  method Update(world: seq<Entity>)
    requires forall i :: 0 <= i < |world| && Turns(world[i], Bodies(world)) ==> world[i].Has(MovementKind)
    requires forall i, j :: 0 <= i < j < |world| && Moving(world[i]) && Moving(world[j]) ==>
      MovementOf(world[i]) != MovementOf(world[j])
    modifies ScarecrowMovements(world)
    ensures forall i :: 0 <= i < |world| && Moving(world[i]) ==>
      MovementOf(world[i]).linearVelocity
        == Flipped(old(MovementOf(world[i]).linearVelocity), Collision(Bodies(world), world[i].position), world[i].position)
    ensures forall i :: 0 <= i < |world| && Moving(world[i]) ==>
      MovementOf(world[i]).angularVelocity == old(MovementOf(world[i]).angularVelocity)
  {
    ghost var bodies, ms, cs, ps, olds, news, movements := UpdatePlan(world);
    UpdateLoop(world, bodies, ms, cs, ps, olds, news, movements);
    assert Bodies(world) == bodies;
  }

  /**
   * What the loop of `update` works from, fixed before it starts: the bodies,
   * each entity's movement (if it is a controlled scarecrow), position,
   * collision result, and old and new velocity.
   */
  ghost method UpdatePlan(world: seq<Entity>)
    returns (bodies: seq<Body>, ms: seq<Option<Movement>>, cs: seq<int>, ps: seq<Vec3>,
             olds: seq<Vec3>, news: seq<Vec3>, movements: set<Movement>)
    requires forall i, j :: 0 <= i < j < |world| && Moving(world[i]) && Moving(world[j]) ==>
      MovementOf(world[i]) != MovementOf(world[j])
    ensures bodies == Bodies(world) && |bodies| == |world| && forall k :: 0 <= k < |world| ==> bodies[k] == BodyOf(world[k])
    ensures |ms| == |cs| == |ps| == |olds| == |news| == |world|
    ensures forall k :: 0 <= k < |world| ==> ms[k] == if Moving(world[k]) then Some(MovementOf(world[k])) else None
    ensures forall k :: 0 <= k < |world| ==> ps[k] == world[k].position && cs[k] == Collision(bodies, ps[k])
    ensures forall k, j :: 0 <= k < j < |world| && ms[k].Some? && ms[j].Some? ==> ms[k].value != ms[j].value
    ensures forall k :: 0 <= k < |world| && ms[k].Some? ==> ms[k].value in movements && ms[k].value.linearVelocity == olds[k]
    ensures forall k :: 0 <= k < |world| ==> news[k] == Flipped(olds[k], cs[k], ps[k])
    ensures movements <= ScarecrowMovements(world)
  {
    bodies := Bodies(world);
    ms := MovementSeq(world);
    ps := seq(|world|, k requires 0 <= k < |world| reads world => world[k].position);
    cs := seq(|world|, k requires 0 <= k < |world| => Collision(bodies, ps[k]));
    movements := set k | 0 <= k < |ms| && ms[k].Some? :: ms[k].value;
    assert movements <= ScarecrowMovements(world) by {
      forall m | m in movements
        ensures m in ScarecrowMovements(world)
      {
        var k :| 0 <= k < |ms| && ms[k].Some? && ms[k].value == m;
      }
    }
    olds := seq(|world|, k requires 0 <= k < |world| reads movements =>
      if ms[k].Some? then ms[k].value.linearVelocity else Origin);
    news := seq(|world|, k requires 0 <= k < |world| => Flipped(olds[k], cs[k], ps[k]));
  }

  /** The loop of `update`, over the entities in iteration order. */
  method UpdateLoop(world: seq<Entity>, ghost bodies: seq<Body>, ghost ms: seq<Option<Movement>>, ghost cs: seq<int>,
                    ghost ps: seq<Vec3>, ghost olds: seq<Vec3>, ghost news: seq<Vec3>, ghost movements: set<Movement>)
    requires |bodies| == |world| && forall k :: 0 <= k < |world| ==> bodies[k] == BodyOf(world[k])
    requires |ms| == |cs| == |ps| == |olds| == |news| == |world|
    requires forall k :: 0 <= k < |world| ==> ms[k] == if Moving(world[k]) then Some(MovementOf(world[k])) else None
    requires forall k :: 0 <= k < |world| && Turns(world[k], bodies) ==> world[k].Has(MovementKind)
    requires forall k :: 0 <= k < |world| ==> ps[k] == world[k].position && cs[k] == Collision(bodies, ps[k])
    requires forall k, j :: 0 <= k < j < |world| && ms[k].Some? && ms[j].Some? ==> ms[k].value != ms[j].value
    requires forall k :: 0 <= k < |world| && ms[k].Some? ==> ms[k].value in movements && ms[k].value.linearVelocity == olds[k]
    requires forall k :: 0 <= k < |world| ==> news[k] == Flipped(olds[k], cs[k], ps[k])
    modifies movements
    ensures forall k :: 0 <= k < |world| ==> bodies[k] == BodyOf(world[k]) && ps[k] == world[k].position
    ensures forall k :: 0 <= k < |world| ==> ms[k] == if Moving(world[k]) then Some(MovementOf(world[k])) else None
    ensures forall k :: 0 <= k < |world| && ms[k].Some? ==>
      ms[k].value.linearVelocity == news[k] && ms[k].value.angularVelocity == old(ms[k].value.angularVelocity)
  {
    var i := 0;
    while i < |world|
      invariant 0 <= i <= |world|
      invariant forall k :: 0 <= k < |world| ==> bodies[k] == BodyOf(world[k])
      invariant forall k :: i <= k < |world| && ms[k].Some? ==> ms[k].value.linearVelocity == olds[k]
      invariant forall k :: 0 <= k < i && ms[k].Some? ==> ms[k].value.linearVelocity == news[k]
      invariant forall k :: 0 <= k < |world| && ms[k].Some? ==> ms[k].value.angularVelocity == old(ms[k].value.angularVelocity)
    {
      UpdateOne(world, bodies, i, ms, cs[i], ps[i]);
      i := i + 1;
    }
  }

  /** One iteration of `update`, for the entity at `i`: it writes that entity's movement `m` only. */
  method UpdateOne(world: seq<Entity>, ghost bodies: seq<Body>, i: nat, ghost ms: seq<Option<Movement>>, ghost c: int, ghost p: Vec3)
    requires i < |world| && |bodies| == |world| && forall k :: 0 <= k < |world| ==> bodies[k] == BodyOf(world[k])
    requires p == world[i].position && c == Collision(bodies, p)
    requires Turns(world[i], bodies) ==> world[i].Has(MovementKind)
    requires |ms| == |world|
    requires ms[i] == if Moving(world[i]) then Some(MovementOf(world[i])) else None
    requires forall k :: 0 <= k < |world| && k != i && ms[k].Some? && ms[i].Some? ==> ms[k].value != ms[i].value
    modifies if ms[i].Some? then {ms[i].value} else {}
    ensures forall k :: 0 <= k < |world| && k != i && ms[k].Some? ==>
      && ms[k].value.linearVelocity == old(ms[k].value.linearVelocity)
      && ms[k].value.angularVelocity == old(ms[k].value.angularVelocity)
    ensures forall k :: 0 <= k < |world| ==> bodies[k] == BodyOf(world[k])
    ensures ms[i].Some? ==>
      && ms[i].value.linearVelocity == Flipped(old(ms[i].value.linearVelocity), c, p)
      && ms[i].value.angularVelocity == old(ms[i].value.angularVelocity)
  {
    assert bodies == Bodies(world);
    var entity := world[i];
    if entity.Has(ScarecrowKind) && entity.Has(ScareCrowControllerKind) {
      var position := entity.position;
      var c := IsCollide(world, position);
      if c == CollidedWithZWall {
        var m := entity.GetComponent(MovementKind).value.movement;
        m.linearVelocity := m.linearVelocity.(x := -m.linearVelocity.x);
      }
      c := IsCollide(world, position);
      if c == CollidedWithXWall || InTurnRegion(position) {
        var m := entity.GetComponent(MovementKind).value.movement;
        m.linearVelocity := m.linearVelocity.(z := -m.linearVelocity.z);
      }
    }
  }

  /** The two collision-driven reversals exclude each other: one call cannot report both walls. */
  lemma CollisionFlipsExclusive(bodies: seq<Body>, p: Vec3, v: Vec3)
    requires !InTurnRegion(p)
    ensures var r := Flipped(v, Collision(bodies, p), p);
      !(r.x == -v.x && r.x != v.x && r.z == -v.z && r.z != v.z)
  {
  }

  /** A scarecrow touching no wall and outside the turning region keeps its velocity. */
  lemma FreeScarecrowKeepsVelocity(bodies: seq<Body>, p: Vec3, v: Vec3)
    requires forall i :: 0 <= i < |bodies| ==> !Hits(bodies[i], p)
    requires !InTurnRegion(p)
    ensures Flipped(v, Collision(bodies, p), p) == v
  {
    CollisionClassifies(bodies, p);
  }

  /** Only walls and zwalls count: bodies with neither marker never change the classification. */
  lemma {:induction false} MarkerlessBodiesIgnored(bodies: seq<Body>, others: seq<Body>, p: Vec3)
    requires forall i :: 0 <= i < |others| ==> !others[i].isWall && !others[i].isZWall
    ensures Collision(others + bodies, p) == Collision(bodies, p)
  {
    if others != [] {
      var all := others + bodies;
      assert all[0] == others[0] && !Hits(all[0], p);
      assert all[1..] == others[1..] + bodies;
      assert Collision(all, p) == Collision(all[1..], p);
      MarkerlessBodiesIgnored(bodies, others[1..], p);
    } else {
      assert others + bodies == bodies;
    }
  }
}
