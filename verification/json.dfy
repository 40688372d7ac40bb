/**
 * The part of nlohmann::json the deserialisers use: a JSON value, `contains`,
 * and `value(key, default)` for the value types the deserialisers read.
 *
 * `value(key, default)` returns the stored value when the key is present and
 * the default otherwise; it raises when the stored value has another JSON type.
 * The readers here therefore require that a present key holds the expected type.
 */
module Json {
  import opened Geometry

  datatype Json =
    | Null
    | Bool(b: bool)
    | Number(n: real)
    | Str(s: string)
    | Array(items: seq<Json>)
    | Object(fields: map<string, Json>)

  /** What a reader expects to find under a key. */
  datatype Kind = BoolKind | NumberKind | StringKind | Vec3Kind | Vec4Kind

  predicate IsNumberAt(items: seq<Json>, i: nat) {
    i < |items| && items[i].Number?
  }

  /** glm vectors are read from a JSON array by elements [0], [1], ... */
  predicate HasKind(v: Json, k: Kind) {
    match k
    case BoolKind => v.Bool?
    case NumberKind => v.Number?
    case StringKind => v.Str?
    case Vec3Kind => v.Array? && IsNumberAt(v.items, 0) && IsNumberAt(v.items, 1) && IsNumberAt(v.items, 2)
    case Vec4Kind => v.Array? && IsNumberAt(v.items, 0) && IsNumberAt(v.items, 1) && IsNumberAt(v.items, 2)
                     && IsNumberAt(v.items, 3)
  }

  /** json::contains: false for anything that is not an object. */
  predicate Contains(j: Json, key: string) {
    j.Object? && key in j.fields
  }

  /** A key that is absent, or present with the type a reader expects. */
  predicate KeyFits(j: Json, key: string, k: Kind) {
    Contains(j, key) ==> HasKind(j.fields[key], k)
  }

  function Vec3Of(v: Json): Vec3
    requires HasKind(v, Vec3Kind)
  {
    Vec3(v.items[0].n, v.items[1].n, v.items[2].n)
  }

  function Vec4Of(v: Json): Vec4
    requires HasKind(v, Vec4Kind)
  {
    Vec4(v.items[0].n, v.items[1].n, v.items[2].n, v.items[3].n)
  }

  /** C++'s conversion of a floating-point number to int: truncation toward zero. */
  function TruncateToInt(r: real): (i: int)
    ensures r >= 0.0 ==> 0 <= i && i as real <= r < i as real + 1.0
    ensures r < 0.0 ==> i <= 0 && i as real - 1.0 < r <= i as real
  {
    if r >= 0.0 then r.Floor else -((-r).Floor)
  }

  function BoolOr(j: Json, key: string, default: bool): bool
    requires j.Object? && KeyFits(j, key, BoolKind)
  {
    if key in j.fields then j.fields[key].b else default
  }

  function NumberOr(j: Json, key: string, default: real): real
    requires j.Object? && KeyFits(j, key, NumberKind)
  {
    if key in j.fields then j.fields[key].n else default
  }

  /** value(key, <int>): a stored number is converted to int by truncation. */
  function IntOr(j: Json, key: string, default: int): int
    requires j.Object? && KeyFits(j, key, NumberKind)
  {
    if key in j.fields then TruncateToInt(j.fields[key].n) else default
  }

  function StringOr(j: Json, key: string, default: string): string
    requires j.Object? && KeyFits(j, key, StringKind)
  {
    if key in j.fields then j.fields[key].s else default
  }

  function Vec3Or(j: Json, key: string, default: Vec3): Vec3
    requires j.Object? && KeyFits(j, key, Vec3Kind)
  {
    if key in j.fields then Vec3Of(j.fields[key]) else default
  }

  function Vec4Or(j: Json, key: string, default: Vec4): Vec4
    requires j.Object? && KeyFits(j, key, Vec4Kind)
  {
    if key in j.fields then Vec4Of(j.fields[key]) else default
  }
}
