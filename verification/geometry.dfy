/**
 * The small part of glm the renderer and game systems rely on: vectors, column-major 4x4 matrices,
 * the dot product and matrix products. Floats are modelled as reals, so every
 * product here is exact.
 */
module Geometry {

  datatype Vec2 = Vec2(x: real, y: real)
  datatype Vec3 = Vec3(x: real, y: real, z: real)
  datatype Vec4 = Vec4(x: real, y: real, z: real, w: real)
  datatype IVec2 = IVec2(x: int, y: int)

  /** A 4x4 matrix stored by columns, as glm stores it. */
  datatype Mat4 = Mat4(c0: Vec4, c1: Vec4, c2: Vec4, c3: Vec4)

  const Origin: Vec3 := Vec3(0.0, 0.0, 0.0)

  function Add3(a: Vec3, b: Vec3): Vec3 { Vec3(a.x + b.x, a.y + b.y, a.z + b.z) }
  function Sub3(a: Vec3, b: Vec3): Vec3 { Vec3(a.x - b.x, a.y - b.y, a.z - b.z) }
  function Scale3(k: real, a: Vec3): Vec3 { Vec3(k * a.x, k * a.y, k * a.z) }
  /** Component-wise product, glm's `vec3 * vec3`. */
  function Mul3(a: Vec3, b: Vec3): Vec3 { Vec3(a.x * b.x, a.y * b.y, a.z * b.z) }
  function Dot(a: Vec3, b: Vec3): real { a.x * b.x + a.y * b.y + a.z * b.z }

  function Add4(a: Vec4, b: Vec4): Vec4 { Vec4(a.x + b.x, a.y + b.y, a.z + b.z, a.w + b.w) }
  function Scale4(k: real, a: Vec4): Vec4 { Vec4(k * a.x, k * a.y, k * a.z, k * a.w) }

  /** glm::vec3(v) for a vec4: drops w. */
  function Xyz(v: Vec4): Vec3 { Vec3(v.x, v.y, v.z) }
  /** glm::vec4(p, 1): a point in homogeneous coordinates. */
  function Point(p: Vec3): Vec4 { Vec4(p.x, p.y, p.z, 1.0) }

  function Column(m: Mat4, j: nat): Vec4
    requires j < 4
  {
    if j == 0 then m.c0 else if j == 1 then m.c1 else if j == 2 then m.c2 else m.c3
  }

  function Coordinate4(v: Vec4, j: nat): real
    requires j < 4
  {
    if j == 0 then v.x else if j == 1 then v.y else if j == 2 then v.z else v.w
  }

  /** The first `n` columns of m, each scaled by the matching coordinate of v, summed. */
  function Combine(m: Mat4, v: Vec4, n: nat): Vec4
    requires n <= 4
  {
    if n == 0 then Vec4(0.0, 0.0, 0.0, 0.0)
    else Add4(Combine(m, v, n - 1), Scale4(Coordinate4(v, n - 1), Column(m, n - 1)))
  }

  /** m * v: the columns of m combined with the coordinates of v as weights. */
  function MulVec(m: Mat4, v: Vec4): Vec4 {
    Combine(m, v, 4)
  }

  /** m * v row by row, as the usual formula writes it. */
  lemma MulVecRows(m: Mat4, v: Vec4)
    ensures MulVec(m, v) == Vec4(
      v.x * m.c0.x + v.y * m.c1.x + v.z * m.c2.x + v.w * m.c3.x,
      v.x * m.c0.y + v.y * m.c1.y + v.z * m.c2.y + v.w * m.c3.y,
      v.x * m.c0.z + v.y * m.c1.z + v.z * m.c2.z + v.w * m.c3.z,
      v.x * m.c0.w + v.y * m.c1.w + v.z * m.c2.w + v.w * m.c3.w)
  {
    MulVecColumns(m, v);
  }

  /** m * v column by column. */
  lemma MulVecColumns(m: Mat4, v: Vec4)
    ensures MulVec(m, v) == Add4(Add4(Add4(Scale4(v.x, m.c0), Scale4(v.y, m.c1)), Scale4(v.z, m.c2)), Scale4(v.w, m.c3))
  {
    var zero := Vec4(0.0, 0.0, 0.0, 0.0);
    assert Combine(m, v, 0) == zero;
    assert Combine(m, v, 1) == Add4(zero, Scale4(v.x, m.c0));
    assert Add4(zero, Scale4(v.x, m.c0)) == Scale4(v.x, m.c0);
    assert Combine(m, v, 2) == Add4(Combine(m, v, 1), Scale4(v.y, m.c1));
    assert Combine(m, v, 3) == Add4(Combine(m, v, 2), Scale4(v.z, m.c2));
    assert Combine(m, v, 4) == Add4(Combine(m, v, 3), Scale4(v.w, m.c3));
  }

  /** a * b: column j of the product is a applied to column j of b. */
  function MulMat(a: Mat4, b: Mat4): Mat4 {
    Mat4(MulVec(a, b.c0), MulVec(a, b.c1), MulVec(a, b.c2), MulVec(a, b.c3))
  }

  const Identity: Mat4 :=
    Mat4(Vec4(1.0, 0.0, 0.0, 0.0), Vec4(0.0, 1.0, 0.0, 0.0), Vec4(0.0, 0.0, 1.0, 0.0), Vec4(0.0, 0.0, 0.0, 1.0))

  /** glm::translate(glm::mat4(1), t). */
  function Translate(t: Vec3): Mat4 {
    Identity.(c3 := Vec4(t.x, t.y, t.z, 1.0))
  }

  /** The translation part of a transform: its last column. */
  function TranslationOf(m: Mat4): Vec3 {
    Xyz(m.c3)
  }

  /** The translation part is where the transform sends the local origin. */
  lemma TranslationIsImageOfOrigin(m: Mat4)
    ensures TranslationOf(m) == Xyz(MulVec(m, Point(Origin)))
  {
    MulVecOrigin(m);
  }

  /** Applying a matrix to the homogeneous origin picks out its last column. */
  lemma MulVecOrigin(m: Mat4)
    ensures MulVec(m, Point(Origin)) == m.c3
  {
    MulVecRows(m, Point(Origin));
  }

  /** Matrices whose third row equals their fourth map every vector to one with z == w. */
  predicate DepthRowIsW(m: Mat4) {
    m.c0.z == m.c0.w && m.c1.z == m.c1.w && m.c2.z == m.c2.w && m.c3.z == m.c3.w
  }

  lemma {:induction false} DepthRowIsWPreserved(m: Mat4, v: Vec4)
    requires DepthRowIsW(m)
    ensures MulVec(m, v).z == MulVec(m, v).w
  {
    MulVecRows(m, v);
  }

  /**
   * The matrix the renderer applies after the view-projection to push the sky
   * to the far plane. Its columns are (1,0,0,0), (0,1,0,0), (0,0,0,0), (0,0,1,1).
   */
  const AlwaysBehind: Mat4 :=
    Mat4(Vec4(1.0, 0.0, 0.0, 0.0), Vec4(0.0, 1.0, 0.0, 0.0), Vec4(0.0, 0.0, 0.0, 0.0), Vec4(0.0, 0.0, 1.0, 1.0))

  /** AlwaysBehind sends (x, y, z, w) to (x, y, w, w): it replaces depth by w. */
  lemma AlwaysBehindReplacesDepth(v: Vec4)
    ensures MulVec(AlwaysBehind, v) == Vec4(v.x, v.y, v.w, v.w)
  {
    MulVecRows(AlwaysBehind, v);
  }

  /**
   * Whatever view-projection and sky model are used, every sky vertex lands
   * with clip-space z equal to w, so after the perspective divide its depth is 1.
   */
  lemma {:induction false} SkyDepthIsFar(viewProjection: Mat4, skyModel: Mat4, v: Vec4)
    ensures var clip := MulVec(MulMat(MulMat(AlwaysBehind, viewProjection), skyModel), v);
            clip.z == clip.w && (clip.w != 0.0 ==> clip.z / clip.w == 1.0)
  {
    var a := MulMat(AlwaysBehind, viewProjection);
    AlwaysBehindReplacesDepth(viewProjection.c0);
    AlwaysBehindReplacesDepth(viewProjection.c1);
    AlwaysBehindReplacesDepth(viewProjection.c2);
    AlwaysBehindReplacesDepth(viewProjection.c3);
    assert DepthRowIsW(a);
    var b := MulMat(a, skyModel);
    DepthRowIsWPreserved(a, skyModel.c0);
    DepthRowIsWPreserved(a, skyModel.c1);
    DepthRowIsWPreserved(a, skyModel.c2);
    DepthRowIsWPreserved(a, skyModel.c3);
    assert DepthRowIsW(b);
    DepthRowIsWPreserved(b, v);
  }

  /** A translation matrix sends the local origin to the translation vector. */
  lemma TranslateMovesOrigin(t: Vec3)
    ensures MulVec(Translate(t), Point(Origin)) == Point(t)
    ensures TranslationOf(Translate(t)) == t
  {
    MulVecOrigin(Translate(t));
  }

  /**
   * Scaling the direction by a positive factor (as normalisation does) does
   * not change which of two points lies further along it.
   */
  lemma {:induction false} PositiveScalingKeepsOrder(k: real, f: Vec3, a: Vec3, b: Vec3)
    requires k > 0.0
    ensures Dot(Scale3(k, f), a) > Dot(Scale3(k, f), b) <==> Dot(f, a) > Dot(f, b)
  {
    assert Dot(Scale3(k, f), a) == k * Dot(f, a);
    assert Dot(Scale3(k, f), b) == k * Dot(f, b);
    var d := Dot(f, a) - Dot(f, b);
    assert k * Dot(f, a) - k * Dot(f, b) == k * d;
    if d > 0.0 { assert k * d > 0.0; }
    if d <= 0.0 { assert k * d <= 0.0; }
  }
}
