/**
 * The terrain under a point of the globe: a location with its elevation,
 * aspect and slope, as a mutable object with copy and equality.
 */
module Terrains {
  import opened JsValues

  /** Latitude, longitude, aspect and slope in degrees; elevation in meters. */
  datatype TerrainValue = TerrainValue(latitude: Num, longitude: Num, elevation: Num, aspect: Num, slope: Num)

  /** Every field 0. */
  const ZeroTerrain := TerrainValue(Fin(0.0), Fin(0.0), Fin(0.0), Fin(0.0), Fin(0.0))

  /** Every field NaN. */
  const InvalidTerrain := TerrainValue(NaN, NaN, NaN, NaN, NaN)

  predicate HasNaN(t: TerrainValue) {
    t.latitude.NaN? || t.longitude.NaN? || t.elevation.NaN? || t.aspect.NaN? || t.slope.NaN?
  }

  /** The value of a terrain property looked up by name; unknown names are `undefined`. */
  function Property(t: TerrainValue, name: string): (r: Option<Num>)
    ensures r.Some? <==> name in {"latitude", "longitude", "elevation", "aspect", "slope"}
  {
    if name == "latitude" then Some(t.latitude)
    else if name == "longitude" then Some(t.longitude)
    else if name == "elevation" then Some(t.elevation)
    else if name == "aspect" then Some(t.aspect)
    else if name == "slope" then Some(t.slope)
    else None
  }

  class Terrain {
    var latitude: Num
    var longitude: Num
    var elevation: Num
    var aspect: Num
    var slope: Num

    constructor (v: TerrainValue)
      ensures Value() == v
    {
      latitude, longitude, elevation := v.latitude, v.longitude, v.elevation;
      aspect, slope := v.aspect, v.slope;
    }

    function Value(): TerrainValue
      reads this
    {
      TerrainValue(latitude, longitude, elevation, aspect, slope)
    }

    /**
     * Sets this terrain to the values of another and returns it; a missing
     * argument throws an ArgumentError and leaves this terrain unchanged.
     */
    method Copy(terrain: Terrain?) returns (r: Result<Terrain>)
      modifies this
      ensures terrain == null ==> r == Err(ArgumentError) && Value() == old(Value())
      ensures terrain != null ==> r == Ok(this) && Value() == old(terrain.Value())
      ensures terrain != null && !HasNaN(Value()) ==> Equals(terrain)
    {
      if terrain == null {
        return Err(ArgumentError);
      }
      latitude := terrain.latitude;
      longitude := terrain.longitude;
      elevation := terrain.elevation;
      aspect := terrain.aspect;
      slope := terrain.slope;
      return Ok(this);
    }

    /**
     * Field-wise `===` with another terrain: false for a missing argument,
     * and false whenever a field is NaN, even against itself.
     */
    function Equals(terrain: Terrain?): (r: bool)
      reads this, terrain
      ensures r <==> terrain != null && terrain.Value() == Value() && !HasNaN(Value())
    {
      terrain != null
      && StrictEq(terrain.latitude, latitude)
      && StrictEq(terrain.longitude, longitude)
      && StrictEq(terrain.elevation, elevation)
      && StrictEq(terrain.aspect, aspect)
      && StrictEq(terrain.slope, slope)
    }
  }

  /** Equality is symmetric. */
  lemma EqualsSymmetric(a: Terrain, b: Terrain)
    ensures a.Equals(b) <==> b.Equals(a)
  {
  }

  /** The all-NaN terrain equals nothing, itself included; the all-zero terrain equals itself. */
  lemma InvalidAndZeroTerrain(t: Terrain, other: Terrain?)
    ensures t.Value() == InvalidTerrain ==> !t.Equals(other) && !t.Equals(t)
    ensures t.Value() == ZeroTerrain ==> t.Equals(t)
  {
  }
}
