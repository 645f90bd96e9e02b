/**
 * A viewpoint: the eye position and the terrain under the reticule, each
 * held as its own object owned by the viewpoint.
 */
module Viewpoints {
  import opened JsValues
  import opened WorldWind
  import opened Terrains

  predicate PositionHasNaN(p: PositionValue) {
    p.latitude.NaN? || p.longitude.NaN? || p.altitude.NaN?
  }

  const InvalidPosition := PositionValue(NaN, NaN, NaN)
  const ZeroPosition := PositionValue(Fin(0.0), Fin(0.0), Fin(0.0))

  /**
   * The values of the named properties of a terrain, in order, as string
   * concatenation reads them: the first missing one is `undefined`, and
   * calling `toString` on it throws a TypeError.
   */
  function PropertyValues(t: TerrainValue, names: seq<string>): (r: Result<seq<Num>>)
    ensures r.Ok? <==> forall i :: 0 <= i < |names| ==> Property(t, names[i]).Some?
    ensures r.Err? ==> r.error == TypeError
    ensures r.Ok? ==> |r.value| == |names|
                      && forall i :: 0 <= i < |names| ==> Property(t, names[i]) == Some(r.value[i])
  {
    if names == [] then Ok([])
    else
      var first := Property(t, names[0]);
      if first.None? then Err(TypeError)
      else
        var rest := PropertyValues(t, names[1..]);
        if rest.Err? then rest else Ok([first.value] + rest.value)
  }

  /** The target properties `toString` reads, as written: the second name is misspelt. */
  const WrittenTargetProperties := ["latitude", "ongitude", "elevation", "aspect", "slope"]

  /** The target properties `toString` is meant to read. */
  const TargetProperties := ["latitude", "longitude", "elevation", "aspect", "slope"]

  /** The numbers a viewpoint's string shows: the eye's three, then the target's named properties. */
  function Displayed(eye: PositionValue, target: TerrainValue, targetProperties: seq<string>): Result<seq<Num>> {
    var values := PropertyValues(target, targetProperties);
    if values.Err? then Err(values.error)
    else Ok([eye.latitude, eye.longitude, eye.altitude] + values.value)
  }

  /** As written, `toString` throws for every viewpoint. */
  lemma ToStringAsWrittenThrows(eye: PositionValue, target: TerrainValue)
    ensures Displayed(eye, target, WrittenTargetProperties) == Err(TypeError)
  {
    assert Property(target, WrittenTargetProperties[1]).None?;
  }

  /** As intended, `toString` shows all eight values, the target's longitude fifth. */
  lemma ToStringCorrected(eye: PositionValue, target: TerrainValue)
    ensures Displayed(eye, target, TargetProperties)
         == Ok([eye.latitude, eye.longitude, eye.altitude,
                target.latitude, target.longitude, target.elevation, target.aspect, target.slope])
  {
    var values := PropertyValues(target, TargetProperties);
    assert values.Ok?;
    assert Property(target, TargetProperties[0]) == Some(values.value[0]);
    assert Property(target, TargetProperties[1]) == Some(values.value[1]);
    assert Property(target, TargetProperties[2]) == Some(values.value[2]);
    assert Property(target, TargetProperties[3]) == Some(values.value[3]);
    assert Property(target, TargetProperties[4]) == Some(values.value[4]);
    assert values.value == [target.latitude, target.longitude, target.elevation, target.aspect, target.slope];
    assert Displayed(eye, target, TargetProperties) == Ok([eye.latitude, eye.longitude, eye.altitude] + values.value);
    assert [eye.latitude, eye.longitude, eye.altitude] + values.value
        == [eye.latitude, eye.longitude, eye.altitude,
            target.latitude, target.longitude, target.elevation, target.aspect, target.slope];
  }

  class Viewpoint {
    const eye: Position
    const target: Terrain

    /** A viewpoint with its own copies of the eye position and the target terrain. */
    constructor (eyePosition: Position, targetTerrain: Terrain)
      ensures fresh(eye) && fresh(target)
      ensures eye.Value() == eyePosition.Value() && target.Value() == targetTerrain.Value()
    {
      var e := new Position(eyePosition.Value());
      var t := new Terrain(InvalidTerrain);  // the empty terrain, whose fields the copy then sets
      var _ := t.Copy(targetTerrain);
      eye := e;
      target := t;
    }

    /** The constructor's argument checks: a missing eye or target throws an ArgumentError. */
    static method Create(eyePosition: Position?, targetTerrain: Terrain?) returns (r: Result<Viewpoint>)
      ensures eyePosition == null || targetTerrain == null ==> r == Err(ArgumentError)
      ensures eyePosition != null && targetTerrain != null ==>
        r.Ok? && fresh(r.value) && fresh(r.value.eye) && fresh(r.value.target)
        && r.value.eye.Value() == eyePosition.Value() && r.value.target.Value() == targetTerrain.Value()
    {
      if eyePosition == null || targetTerrain == null {
        return Err(ArgumentError);
      }
      var v := new Viewpoint(eyePosition, targetTerrain);
      return Ok(v);
    }

    /** Sets this viewpoint's eye and target to another's; a missing argument throws and changes nothing. */
    method Copy(viewpoint: Viewpoint?) returns (r: Result<Viewpoint>)
      modifies eye, target
      ensures viewpoint == null ==>
        r == Err(ArgumentError) && eye.Value() == old(eye.Value()) && target.Value() == old(target.Value())
      ensures viewpoint != null ==>
        r == Ok(this) && eye.Value() == old(viewpoint.eye.Value()) && target.Value() == old(viewpoint.target.Value())
      ensures viewpoint != null && !PositionHasNaN(eye.Value()) && !HasNaN(target.Value()) ==> Equals(viewpoint)
    {
      if viewpoint == null {
        return Err(ArgumentError);
      }
      var _ := eye.Copy(viewpoint.eye);
      var _ := target.Copy(viewpoint.target);
      return Ok(this);
    }

    /** Eye and target equal field by field; false for a missing argument and whenever a field is NaN. */
    function Equals(viewpoint: Viewpoint?): (r: bool)
      reads this, eye, target, viewpoint
      reads if viewpoint != null then {viewpoint.eye, viewpoint.target} else {}
      ensures r <==> viewpoint != null
                     && viewpoint.eye.Value() == eye.Value() && !PositionHasNaN(eye.Value())
                     && viewpoint.target.Value() == target.Value() && !HasNaN(target.Value())
    {
      viewpoint != null && viewpoint.eye.Equals(eye) && viewpoint.target.Equals(target)
    }

    /** The numbers `toString` shows, with the target's longitude read under its right name. */
    function DisplayedValues(): (r: Result<seq<Num>>)
      reads this, eye, target
      ensures r.Ok? && |r.value| == 8 && r.value[4] == target.longitude
    {
      ToStringCorrected(eye.Value(), target.Value());
      Displayed(eye.Value(), target.Value(), TargetProperties)
    }
  }

  /** A viewpoint holding the all-NaN values equals nothing, itself included; the all-zero one equals itself. */
  lemma InvalidAndZeroViewpoint(v: Viewpoint, other: Viewpoint?)
    ensures v.eye.Value() == InvalidPosition && v.target.Value() == InvalidTerrain ==> !v.Equals(other) && !v.Equals(v)
    ensures v.eye.Value() == ZeroPosition && v.target.Value() == ZeroTerrain ==> v.Equals(v)
  {
  }
}
