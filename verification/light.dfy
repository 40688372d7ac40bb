/**
 * LightComponent and its `deserialize`: the type string picks an integer
 * code (DIRECTIONAL 0, POINT 1, SPOT 2), and which of the later keys are read
 * depends on the code that results.
 */
module Lights {
  import opened Wrappers
  import opened Geometry
  import opened Json

  /** glm::radians: degrees times pi / 180. */
  const DegreesToRadians: real := 0.017453292519943295

  function Radians(degrees: real): real {
    degrees * DegreesToRadians
  }

  const DirectionalLight: int := 0
  const PointLight: int := 1
  const SpotLight: int := 2

  /** The code for a light type name; `None` for a name the deserializer does not recognise. */
  function LightTypeCode(name: string): Option<int> {
    if name == "DIRECTIONAL" then Some(DirectionalLight)
    else if name == "POINT" then Some(PointLight)
    else if name == "SPOT" then Some(SpotLight)
    else None
  }

  /** The fields of a light, as one value. */
  datatype LightData = LightData(
    lightType: int,
    diffuse: Vec3,
    direction: Vec3,
    specular: Vec3,
    color: Vec4,
    attenuation: Vec3,
    coneAngles: Vec2,
    lightTypeStr: string)

  const Ones: Vec3 := Vec3(1.0, 1.0, 1.0)
  const ConstantAttenuation: Vec3 := Vec3(1.0, 0.0, 0.0)

  /** The type name read from the JSON object, "DIRECTIONAL" when absent. */
  function TypeName(data: Json): string
    requires data.Object? && KeyFits(data, "typeOfLight", StringKind)
  {
    StringOr(data, "typeOfLight", "DIRECTIONAL")
  }

  /** The light type after reading `data`: a recognised name sets the code, any other keeps `current`. */
  function NewLightType(current: int, data: Json): int
    requires data.Object? && KeyFits(data, "typeOfLight", StringKind)
  {
    match LightTypeCode(TypeName(data))
    case Some(code) => code
    case None => current
  }

  /** The keys `deserialize` reads hold the types it expects; "attenuation" and the cone angles only when read. */
  predicate LightKeysFit(current: int, data: Json) {
    data.Object? ==>
      && KeyFits(data, "typeOfLight", StringKind)
      && KeyFits(data, "direction", Vec3Kind)
      && KeyFits(data, "diffuse", Vec3Kind)
      && KeyFits(data, "specular", Vec3Kind)
      && (NewLightType(current, data) != DirectionalLight ==> KeyFits(data, "attenuation", Vec3Kind))
      && (NewLightType(current, data) == SpotLight ==>
            KeyFits(data, "cone_angles.in", NumberKind) && KeyFits(data, "cone_angles.out", NumberKind))
  }

  /** The light after `deserialize`. */
  function DecodedLight(d: LightData, data: Json): LightData
    requires LightKeysFit(d.lightType, data)
  {
    if !data.Object? then d
    else
      var lightType := NewLightType(d.lightType, data);
      d.(lightTypeStr := TypeName(data),
         direction := Vec3Or(data, "direction", Ones),
         lightType := lightType,
         diffuse := Vec3Or(data, "diffuse", Ones),
         specular := Vec3Or(data, "specular", Ones),
         attenuation := if lightType != DirectionalLight then Vec3Or(data, "attenuation", ConstantAttenuation) else d.attenuation,
         coneAngles :=
           if lightType == SpotLight then
             Vec2(Radians(IntOr(data, "cone_angles.in", 10) as real), Radians(IntOr(data, "cone_angles.out", 80) as real))
           else d.coneAngles)
  }

  class LightComponent {
    var lightType: int
    var diffuse: Vec3
    var direction: Vec3
    var specular: Vec3
    var color: Vec4
    var attenuation: Vec3
    var coneAngles: Vec2
    var lightTypeStr: string

    function Data(): LightData
      reads this
    {
      LightData(lightType, diffuse, direction, specular, color, attenuation, coneAngles, lightTypeStr)
    }

    /** A light whose fields start as `d` says (the class has no initialisers). */
    constructor (d: LightData)
      ensures Data() == d
    {
      lightType := d.lightType;
      diffuse := d.diffuse;
      direction := d.direction;
      specular := d.specular;
      color := d.color;
      attenuation := d.attenuation;
      coneAngles := d.coneAngles;
      lightTypeStr := d.lightTypeStr;
    }

    /** LightComponent::deserialize. */
    method Deserialize(data: Json)
      requires LightKeysFit(lightType, data)
      modifies this
      ensures Data() == DecodedLight(old(Data()), data)
    {
      if !data.Object? {
        return;
      }
      lightTypeStr := StringOr(data, "typeOfLight", "DIRECTIONAL");
      direction := Vec3Or(data, "direction", Ones);
      if lightTypeStr == "DIRECTIONAL" {
        lightType := 0;
      } else if lightTypeStr == "POINT" {
        lightType := 1;
      } else if lightTypeStr == "SPOT" {
        lightType := 2;
      }
      diffuse := Vec3Or(data, "diffuse", Ones);
      specular := Vec3Or(data, "specular", Ones);
      if lightType != 0 {
        attenuation := Vec3Or(data, "attenuation", ConstantAttenuation);
      }
      if lightType == 2 {
        coneAngles := coneAngles.(x := Radians(IntOr(data, "cone_angles.in", 10) as real));
        coneAngles := coneAngles.(y := Radians(IntOr(data, "cone_angles.out", 80) as real));
      }
    }
  }

  /** The three names map to three distinct codes, and only those names are recognised. */
  lemma LightTypeCodes(name: string)
    ensures LightTypeCode(name).Some? <==> name in ["DIRECTIONAL", "POINT", "SPOT"]
    ensures LightTypeCode(name) == Some(DirectionalLight) <==> name == "DIRECTIONAL"
    ensures LightTypeCode(name) == Some(PointLight) <==> name == "POINT"
    ensures LightTypeCode(name) == Some(SpotLight) <==> name == "SPOT"
  {
  }

  /** Anything that is not an object leaves the light unchanged. */
  lemma LightIgnoresNonObjects(d: LightData, data: Json)
    requires !data.Object?
    ensures DecodedLight(d, data) == d
  {
  }

  /**
   * The type: the name defaults to "DIRECTIONAL" and is always stored; an
   * unrecognised name leaves the code as it was. Direction, diffuse and
   * specular are always read, defaulting to (1,1,1); the colour is never read.
   */
  lemma LightTypeRead(d: LightData, data: Json)
    requires data.Object? && LightKeysFit(d.lightType, data)
    ensures var r := DecodedLight(d, data);
      && r.lightTypeStr == (if Contains(data, "typeOfLight") then data.fields["typeOfLight"].s else "DIRECTIONAL")
      && (LightTypeCode(r.lightTypeStr).None? ==> r.lightType == d.lightType)
      && (LightTypeCode(r.lightTypeStr).Some? ==> r.lightType == LightTypeCode(r.lightTypeStr).value)
      && (!Contains(data, "typeOfLight") ==> r.lightType == DirectionalLight)
      && (!Contains(data, "direction") ==> r.direction == Ones)
      && (!Contains(data, "diffuse") ==> r.diffuse == Ones)
      && (!Contains(data, "specular") ==> r.specular == Ones)
      && r.color == d.color
  {
  }

  /**
   * Attenuation is read (default (1,0,0)) exactly when the resulting type is
   * not directional; the cone angles (defaults 10 and 80 degrees, truncated
   * to whole degrees) exactly when it is a spot light. Otherwise both keep
   * their values.
   */
  lemma LightOptionalFields(d: LightData, data: Json)
    requires data.Object? && LightKeysFit(d.lightType, data)
    ensures var r := DecodedLight(d, data);
      && (r.lightType == DirectionalLight ==> r.attenuation == d.attenuation)
      && (r.lightType != DirectionalLight && !Contains(data, "attenuation") ==> r.attenuation == ConstantAttenuation)
      && (r.lightType != SpotLight ==> r.coneAngles == d.coneAngles)
      && (r.lightType == SpotLight && !Contains(data, "cone_angles.in") && !Contains(data, "cone_angles.out") ==>
            r.coneAngles == Vec2(Radians(10.0), Radians(80.0)))
  {
  }
}
