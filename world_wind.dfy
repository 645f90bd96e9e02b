/**
 * The parts of the WorldWind globe engine that the front-end reads and writes:
 * layers (with the properties the layer registry attaches to them), the
 * WorldWindow's ordered layer list, its navigator, its globe and the
 * geographic Position value. The engine's rendering is not modelled.
 */
module WorldWind {
  import opened JsValues

  /** The category tags the layer registry attaches to a layer. */
  datatype Category = Background | Base | Overlay | Data | Widget

  /** A snapshot of the properties of a layer that the registry writes. */
  datatype LayerFlags = LayerFlags(
    category: Option<Category>,
    enabled: bool,
    pickEnabled: Option<bool>,  // None stands for JavaScript `undefined`
    isTemporal: bool,
    detailHint: Num,
    opacity: Num,
    layerEnabled: bool,         // the UI observable mirroring `enabled`
    showInMenu: bool)           // the UI observable for the layer menu

  /** A WorldWind layer object, annotated in place by the layer registry. */
  class Layer {
    const displayName: string
    var category: Option<Category>
    var enabled: bool
    var pickEnabled: Option<bool>
    var isTemporal: bool
    var detailHint: Num
    var opacity: Num
    var layerEnabled: bool
    var showInMenu: bool

    /** A fresh layer as the engine builds it: enabled and pickable, not yet categorised. */
    constructor (displayName: string, detailHint: Num, opacity: Num)
      ensures this.displayName == displayName
      ensures Flags() == LayerFlags(None, true, Some(true), false, detailHint, opacity, false, false)
    {
      this.displayName := displayName;
      category := None;
      enabled := true;
      pickEnabled := Some(true);
      isTemporal := false;
      this.detailHint := detailHint;
      this.opacity := opacity;
      layerEnabled := false;
      showInMenu := false;
    }

    function Flags(): LayerFlags
      reads this
    {
      LayerFlags(category, enabled, pickEnabled, isTemporal, detailHint, opacity, layerEnabled, showInMenu)
    }
  }

  /** `s` with `x` inserted so that it ends up at index `i`. */
  function InsertAt<T>(s: seq<T>, i: nat, x: T): (r: seq<T>)
    requires i <= |s|
    ensures |r| == |s| + 1 && r[i] == x
    ensures forall k :: 0 <= k < i ==> r[k] == s[k]
    ensures forall k :: i < k < |r| ==> r[k] == s[k - 1]
  {
    s[..i] + [x] + s[i..]
  }

  /** JavaScript `s.splice(i, 0, x)` for a non-negative `i`: an index past the end appends. */
  function Splice<T>(s: seq<T>, i: nat, x: T): seq<T> {
    InsertAt(s, if i <= |s| then i else |s|, x)
  }

  /** The projections the front-end can select. */
  datatype Projection = Wgs84 | Equirectangular | Mercator | NorthPolar | SouthPolar | NorthUps | SouthUps

  datatype GlobeKind = RoundGlobe | FlatGlobe

  /** A globe: the round 3D globe or the flat 2D globe with its map projection. */
  class Globe {
    const kind: GlobeKind
    var projection: Projection

    /** A fresh globe with the engine's default projection for its kind. */
    constructor (kind: GlobeKind)
      ensures this.kind == kind
      ensures projection == (if kind == RoundGlobe then Wgs84 else Equirectangular)
    {
      this.kind := kind;
      projection := if kind == RoundGlobe then Wgs84 else Equirectangular;
    }
  }

  /** The navigator's view: look-at location, range (eye distance) and view angles. */
  datatype NavState = NavState(latitude: Num, longitude: Num, range: Num, heading: Num, tilt: Num, roll: Num)

  /** The look-at navigator of a WorldWindow. */
  class Navigator {
    var latitude: Num
    var longitude: Num
    var range: Num
    var heading: Num
    var tilt: Num
    var roll: Num

    constructor (s: NavState)
      ensures State() == s
    {
      latitude, longitude, range := s.latitude, s.longitude, s.range;
      heading, tilt, roll := s.heading, s.tilt, s.roll;
    }

    function State(): NavState
      reads this
    {
      NavState(latitude, longitude, range, heading, tilt, roll)
    }
  }

  /** The WorldWindow: the ordered layer list the engine renders, its navigator and its globe. */
  class WorldWindow {
    var layers: seq<Layer>
    var globe: Globe
    const navigator: Navigator

    constructor (view: NavState)
      ensures layers == [] && fresh(globe) && globe.kind == RoundGlobe
      ensures fresh(navigator) && navigator.State() == view
    {
      layers := [];
      globe := new Globe(RoundGlobe);
      navigator := new Navigator(view);
    }

    /** Inserts a layer into the render order at the given index. */
    method InsertLayer(index: nat, layer: Layer)
      modifies this
      ensures layers == Splice(old(layers), index, layer)
      ensures globe == old(globe)
    {
      layers := Splice(layers, index, layer);
    }
  }

  /** A geographic position (latitude and longitude in degrees, altitude in meters). */
  datatype PositionValue = PositionValue(latitude: Num, longitude: Num, altitude: Num)

  /** WorldWind's mutable Position object. */
  class Position {
    var latitude: Num
    var longitude: Num
    var altitude: Num

    constructor (v: PositionValue)
      ensures Value() == v
    {
      latitude, longitude, altitude := v.latitude, v.longitude, v.altitude;
    }

    function Value(): PositionValue
      reads this
    {
      PositionValue(latitude, longitude, altitude)
    }

    /** Sets this position to the values of another; a missing argument throws. */
    method Copy(source: Position?) returns (r: Result<Position>)
      modifies this
      ensures source == null ==> r == Err(ArgumentError) && Value() == old(Value())
      ensures source != null ==> r == Ok(this) && Value() == old(source.Value())
    {
      if source == null {
        return Err(ArgumentError);
      }
      latitude := source.latitude;
      longitude := source.longitude;
      altitude := source.altitude;
      return Ok(this);
    }

    /** Field-wise `===`: false for a missing argument and whenever a field is NaN. */
    function Equals(other: Position?): (r: bool)
      reads this, other
      ensures r <==> other != null && other.Value() == Value()
                     && !IsNaN(latitude) && !IsNaN(longitude) && !IsNaN(altitude)
    {
      other != null
      && StrictEq(other.latitude, latitude)
      && StrictEq(other.longitude, longitude)
      && StrictEq(other.altitude, altitude)
    }
  }
}
