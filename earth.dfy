/**
 * The Earth object: it owns the WorldWindow and its layer registry, looks layers
 * up by name, moves the view (animated `goto`, immediate `lookAt`, `reset`,
 * `resetHeading`), switches between the round and the flat globe, and refreshes
 * temporal layers.
 */
module Earth {
  import opened JsValues
  import opened WorldWind
  import opened Layers

  /** Which of the default layers the constructor's options ask for; each flag may be missing. */
  datatype EarthOptions = EarthOptions(showBackground: Option<bool>, showReticule: Option<bool>, showViewControls: Option<bool>)

  datatype DefaultLayer = SkyLayer | ReticuleLayer | ViewControlsLayer

  /**
   * Whether the constructor adds a default layer: without an options object
   * every default layer is added; with one, a flag that is missing or truthy adds it.
   */
  predicate ShowsDefault(options: Option<EarthOptions>, which: DefaultLayer) {
    options.None? ||
    (match which
     case SkyLayer => options.value.showBackground != Some(false)
     case ReticuleLayer => options.value.showReticule != Some(false)
     case ViewControlsLayer => options.value.showViewControls != Some(false))
  }

  /** The display names the default layers are created with. */
  const SkyName := "Sky"
  const CrosshairsName := "Crosshairs"
  const ViewControlsName := "View Controls"

  /** The start-up view of the application configuration. */
  const StartupView := NavState(StartupLatitude, StartupLongitude, StartupAltitude, StartupHeading, StartupTilt, StartupRoll)

  /** JavaScript `!x || isNaN(x)` rejects a missing, zero or NaN coordinate. */
  predicate UsableCoordinate(x: Option<Num>) {
    TruthyArg(x)
  }

  /** What the front-end has asked of the go-to animator, in order. */
  datatype AnimatorCall = Cancel | GoTo(latitude: Num, longitude: Num, range: Option<Num>)

  /** A caller's completion callback, identified by an opaque handle. */
  type CallbackId = nat

  /** A callback invocation, with the value `isAnimating` had when it ran. */
  datatype CallbackRun = CallbackRun(callback: CallbackId, animatingWhenRun: bool)

  /** The projection a recognised projection name selects for the flat globe. */
  function NamedProjection(name: string): (p: Option<Projection>)
    ensures p.Some? ==> p.value != Wgs84
  {
    if name == "Equirectangular" then Some(Equirectangular)
    else if name == "Mercator" then Some(Mercator)
    else if name == "North Polar" then Some(NorthPolar)
    else if name == "South Polar" then Some(SouthPolar)
    else if name == "North UPS" then Some(NorthUps)
    else if name == "South UPS" then Some(SouthUps)
    else None
  }

  /** The six flat-globe names are told apart: distinct names select distinct projections. */
  lemma NamedProjectionsDistinct(a: string, b: string)
    requires NamedProjection(a).Some? && NamedProjection(b).Some? && a != b
    ensures NamedProjection(a) != NamedProjection(b)
  {
  }

  /** The display names of a layer list, in order. */
  function Names(layers: seq<Layer>): (names: seq<string>)
    ensures |names| == |layers|
    ensures forall i :: 0 <= i < |layers| ==> names[i] == layers[i].displayName
  {
    if layers == [] then [] else Names(layers[..|layers| - 1]) + [layers[|layers| - 1].displayName]
  }

  /** The layers whose `isTemporal` is set, in list order. */
  function TemporalLayers(layers: seq<Layer>): (r: seq<Layer>)
    reads layers
    ensures forall k :: 0 <= k < |r| ==> r[k] in layers && r[k].isTemporal
    ensures forall k :: 0 <= k < |layers| && layers[k].isTemporal ==> layers[k] in r
    ensures |r| <= |layers|
  {
    if layers == [] then []
    else
      var last := layers[|layers| - 1];
      TemporalLayers(layers[..|layers| - 1]) + (if last.isTemporal then [last] else [])
  }

  function DefaultBackgroundNames(options: Option<EarthOptions>): seq<string> {
    if ShowsDefault(options, SkyLayer) then [SkyName] else []
  }

  function DefaultWidgetNames(options: Option<EarthOptions>): seq<string> {
    (if ShowsDefault(options, ReticuleLayer) then [CrosshairsName] else [])
    + (if ShowsDefault(options, ViewControlsLayer) then [ViewControlsName] else [])
  }

  /** The flags every default layer ends with: always on, hidden from the menu, tagged Background. */
  predicate AlwaysOnBackground(l: Layer)
    reads l
  {
    l.enabled && !l.showInMenu && l.category == Some(Background)
  }

  /** Every layer of the list has the default-layer flags. */
  predicate AllAlwaysOnBackground(layers: seq<Layer>)
    reads set l | l in layers
  {
    forall l :: l in layers ==> AlwaysOnBackground(l)
  }

  /** Adds one default layer, created fresh with the given name, when `show` holds. */
  method AddDefaultLayer(layerManager: LayerManager, list: Category, name: string, show: bool) returns (added: Layer?)
    requires list == Background || list == Widget
    requires layerManager.Valid() && AllAlwaysOnBackground(layerManager.wwd.layers)
    modifies layerManager, layerManager.wwd
    ensures layerManager.Valid() && AllAlwaysOnBackground(layerManager.wwd.layers)
    ensures show <==> added != null
    ensures added != null ==> fresh(added) && added.displayName == name && AlwaysOnBackground(added)
    ensures list == Background ==>
      layerManager.Lists() == old(layerManager.Lists()).(background := old(layerManager.Lists()).background + Listed(added))
    ensures list == Widget ==>
      layerManager.Lists() == old(layerManager.Lists()).(widget := old(layerManager.Lists()).widget + Listed(added))
    ensures layerManager.wwd.layers == Flatten(layerManager.Lists())
  {
    added := null;
    if show {
      var layer := new Layer(name, Fin(0.0), Fin(1.0));
      ghost var before := layer.Flags();
      if list == Background {
        layerManager.AddBackgroundLayer(layer);
      } else {
        layerManager.AddWidgetLayer(layer);
      }
      AlwaysOnHiddenFlags(before, Background);
      added := layer;
      assert forall l :: l in layerManager.wwd.layers ==> l in old(layerManager.wwd.layers) || l == layer;
    }
  }

  /** The one-element list holding `l`, or the empty list for null. */
  function Listed(l: Layer?): seq<Layer> {
    if l == null then [] else [l]
  }

  /** The names of the optional default layers, in the order they are added. */
  lemma DefaultLayerNames(sky: Layer?, reticule: Layer?, controls: Layer?, options: Option<EarthOptions>)
    requires (sky != null <==> ShowsDefault(options, SkyLayer)) && (sky != null ==> sky.displayName == SkyName)
    requires (reticule != null <==> ShowsDefault(options, ReticuleLayer)) && (reticule != null ==> reticule.displayName == CrosshairsName)
    requires (controls != null <==> ShowsDefault(options, ViewControlsLayer)) && (controls != null ==> controls.displayName == ViewControlsName)
    ensures Names(Listed(sky)) == DefaultBackgroundNames(options)
    ensures Names(Listed(reticule) + Listed(controls)) == DefaultWidgetNames(options)
  {
    assert Names(Listed(reticule)) == if reticule == null then [] else [CrosshairsName];
    assert Names(Listed(controls)) == if controls == null then [] else [ViewControlsName];
  }

  /**
   * The default-layer part of the Earth constructor: the sky as a background
   * layer, then the crosshairs and the view controls as widget layers, each
   * created fresh and added only when the options ask for it.
   */
  method AddDefaultLayers(layerManager: LayerManager, options: Option<EarthOptions>)
    requires layerManager.Lists() == EmptyRegistry() && layerManager.wwd.layers == []
    modifies layerManager, layerManager.wwd
    ensures layerManager.Valid()
    ensures Names(layerManager.Lists().background) == DefaultBackgroundNames(options)
    ensures layerManager.Lists().base == layerManager.Lists().overlay == layerManager.Lists().data == []
    ensures Names(layerManager.Lists().widget) == DefaultWidgetNames(options)
    ensures AllAlwaysOnBackground(layerManager.wwd.layers)
  {
    var sky := AddDefaultLayer(layerManager, Background, SkyName, ShowsDefault(options, SkyLayer));
    assert layerManager.Lists() == Registry(Listed(sky), [], [], [], []);
    var reticule := AddDefaultLayer(layerManager, Widget, CrosshairsName, ShowsDefault(options, ReticuleLayer));
    assert layerManager.Lists() == Registry(Listed(sky), [], [], [], Listed(reticule));
    var controls := AddDefaultLayer(layerManager, Widget, ViewControlsName, ShowsDefault(options, ViewControlsLayer));
    assert layerManager.Lists() == Registry(Listed(sky), [], [], [], Listed(reticule) + Listed(controls));
    DefaultLayerNames(sky, reticule, controls, options);
  }

  class Earth {
    const wwd: WorldWindow
    const layerManager: LayerManager
    var isAnimating: bool
    var animator: seq<AnimatorCall>
    var completion: Option<Option<CallbackId>>  // the completion function handed to the latest goTo, with the caller's callback
    var callbacksRun: seq<CallbackRun>
    var roundGlobe: Globe?
    var flatGlobe: Globe?

    /**
     * The Earth and its registry share one WorldWindow, whose layer list is the
     * registry's lists in render order: layers reach the globe only through the registry.
     */
    ghost predicate Valid()
      reads this, layerManager, wwd
    {
      layerManager.wwd == wwd && layerManager.Valid()
    }

    /** Creates the WorldWindow and its registry, then adds the default layers through the registry. */
    constructor (options: Option<EarthOptions>, view: NavState)
      ensures fresh(wwd) && fresh(layerManager) && Valid()
      ensures Names(layerManager.Lists().background) == DefaultBackgroundNames(options)
      ensures layerManager.Lists().base == layerManager.Lists().overlay == layerManager.Lists().data == []
      ensures Names(layerManager.Lists().widget) == DefaultWidgetNames(options)
      ensures AllAlwaysOnBackground(wwd.layers)
      ensures wwd.navigator.State() == view
      ensures !isAnimating && animator == [] && completion.None? && callbacksRun == []
      ensures roundGlobe == null && flatGlobe == null
    {
      var w := new WorldWindow(view);
      var lm := new LayerManager(w);
      AddDefaultLayers(lm, options);
      wwd := w;
      layerManager := lm;
      isAnimating := false;
      animator, completion, callbacksRun := [], None, [];
      roundGlobe, flatGlobe := null, null;
    }

    /** The first layer in render order with the given display name, or null when none has it. */
    method FindLayer(name: string) returns (found: Layer?)
      ensures found == null <==> name !in Names(wwd.layers)
      ensures found != null ==> exists i :: 0 <= i < |wwd.layers| && wwd.layers[i] == found
                                 && found.displayName == name && name !in Names(wwd.layers[..i])
    {
      var i := 0;
      while i < |wwd.layers|
        invariant 0 <= i <= |wwd.layers|
        invariant name !in Names(wwd.layers[..i])
      {
        var layer := wwd.layers[i];
        if layer.displayName == name {
          return layer;
        }
        assert wwd.layers[..i + 1] == wwd.layers[..i] + [layer];
        i := i + 1;
      }
      assert wwd.layers[..i] == wwd.layers;
      return null;
    }

    /**
     * Starts an animated move. A missing, zero or NaN coordinate is rejected and
     * nothing changes; otherwise a running animation is cancelled first.
     */
    method Goto(latitude: Option<Num>, longitude: Option<Num>, range: Option<Num>, callback: Option<CallbackId>)
      modifies this
      ensures !(UsableCoordinate(latitude) && UsableCoordinate(longitude)) ==>
        isAnimating == old(isAnimating) && animator == old(animator) && completion == old(completion)
      ensures UsableCoordinate(latitude) && UsableCoordinate(longitude) ==>
        isAnimating && completion == Some(callback)
        && animator == old(animator) + (if old(isAnimating) then [Cancel] else [])
                                     + [GoTo(latitude.value, longitude.value, range)]
      ensures callbacksRun == old(callbacksRun)
      ensures roundGlobe == old(roundGlobe) && flatGlobe == old(flatGlobe)
      ensures old(Valid()) ==> Valid()
    {
      if !UsableCoordinate(latitude) || !UsableCoordinate(longitude) {
        return;
      }
      if isAnimating {
        animator := animator + [Cancel];
      }
      isAnimating := true;
      animator := animator + [GoTo(latitude.value, longitude.value, range)];
      completion := Some(callback);
    }

    /**
     * The animator finishing the latest goTo and calling its completion
     * function: `isAnimating` is cleared first, then the caller's callback runs.
     */
    method AnimationFinished()
      modifies this
      ensures old(completion).None? ==>
        completion == old(completion) && isAnimating == old(isAnimating) && callbacksRun == old(callbacksRun)
      ensures old(completion).Some? ==>
        !isAnimating && completion.None?
        && callbacksRun == old(callbacksRun)
             + (if old(completion).value.Some? then [CallbackRun(old(completion).value.value, false)] else [])
      ensures forall k :: old(|callbacksRun|) <= k < |callbacksRun| ==> !callbacksRun[k].animatingWhenRun
      ensures animator == old(animator)
      ensures roundGlobe == old(roundGlobe) && flatGlobe == old(flatGlobe)
      ensures old(Valid()) ==> Valid()
    {
      if completion.None? {
        return;
      }
      var callback := completion.value;
      completion := None;
      isAnimating := false;
      if callback.Some? {
        callbacksRun := callbacksRun + [CallbackRun(callback.value, isAnimating)];
      }
    }

    /**
     * Moves the view without animation. A missing, zero or NaN coordinate is
     * rejected; the range changes only when a truthy range is given.
     */
    method LookAt(latitude: Option<Num>, longitude: Option<Num>, range: Option<Num>)
      modifies wwd.navigator
      ensures !(UsableCoordinate(latitude) && UsableCoordinate(longitude)) ==>
        wwd.navigator.State() == old(wwd.navigator.State())
      ensures UsableCoordinate(latitude) && UsableCoordinate(longitude) ==>
        wwd.navigator.State() == old(wwd.navigator.State()).(
          latitude := latitude.value,
          longitude := longitude.value,
          range := if TruthyArg(range) then range.value else old(wwd.navigator.range))
      ensures old(Valid()) ==> Valid()
    {
      if !UsableCoordinate(latitude) || !UsableCoordinate(longitude) {
        return;
      }
      wwd.navigator.latitude := latitude.value;
      wwd.navigator.longitude := longitude.value;
      if TruthyArg(range) {
        wwd.navigator.range := range.value;
      }
    }

    /** The layers `refreshLayers` calls `refresh` on, in order: exactly the temporal ones. */
    method RefreshLayers() returns (refreshed: seq<Layer>)
      ensures refreshed == TemporalLayers(wwd.layers)
    {
      refreshed := [];
      var i := 0;
      while i < |wwd.layers|
        invariant 0 <= i <= |wwd.layers|
        invariant refreshed == TemporalLayers(wwd.layers[..i])
      {
        var layer := wwd.layers[i];
        if layer.isTemporal {
          refreshed := refreshed + [layer];
        }
        assert wwd.layers[..i + 1][..i] == wwd.layers[..i];
        i := i + 1;
      }
      assert wwd.layers[..i] == wwd.layers;
    }

    /** Sets all six navigator fields from the start-up configuration. */
    method Reset()
      modifies wwd.navigator
      ensures wwd.navigator.State() == StartupView
      ensures old(Valid()) ==> Valid()
    {
      wwd.navigator.latitude := StartupLatitude;
      wwd.navigator.longitude := StartupLongitude;
      wwd.navigator.range := StartupAltitude;
      wwd.navigator.heading := StartupHeading;
      wwd.navigator.tilt := StartupTilt;
      wwd.navigator.roll := StartupRoll;
    }

    /** Turns the view north up and leaves the other navigator fields alone. */
    method ResetHeading()
      modifies wwd.navigator
      ensures wwd.navigator.State() == old(wwd.navigator.State()).(heading := Fin(0.0))
      ensures old(Valid()) ==> Valid()
    {
      wwd.navigator.heading := Fin(0.0);
    }

    /**
     * Installs the round globe for "3D" and the flat globe for any other name;
     * each is created on first use and reused afterwards. The flat globe's
     * projection changes only for the six recognised names.
     */
    method SetProjection(name: string)
      requires roundGlobe != null ==> roundGlobe.kind == RoundGlobe
      requires flatGlobe != null ==> flatGlobe.kind == FlatGlobe
      modifies this, wwd, flatGlobe
      ensures roundGlobe != null ==> roundGlobe.kind == RoundGlobe
      ensures flatGlobe != null ==> flatGlobe.kind == FlatGlobe
      ensures old(roundGlobe) != null ==> roundGlobe == old(roundGlobe)
      ensures old(flatGlobe) != null ==> flatGlobe == old(flatGlobe)
      ensures name == "3D" ==>
        roundGlobe != null && wwd.globe == roundGlobe && flatGlobe == old(flatGlobe)
        && (old(roundGlobe) == null ==> fresh(roundGlobe))
      ensures name != "3D" ==>
        flatGlobe != null && wwd.globe == flatGlobe && roundGlobe == old(roundGlobe)
        && (old(flatGlobe) == null ==> fresh(flatGlobe))
        && flatGlobe.projection == (if NamedProjection(name).Some? then NamedProjection(name).value
                                   else if old(flatGlobe) != null then old(flatGlobe.projection)
                                   else Equirectangular)
      ensures name == "3D" && flatGlobe != null ==> flatGlobe.projection == old(flatGlobe.projection)
      ensures wwd.layers == old(wwd.layers)
      ensures isAnimating == old(isAnimating) && animator == old(animator)
      ensures completion == old(completion) && callbacksRun == old(callbacksRun)
      ensures old(Valid()) ==> Valid()
    {
      if name == "3D" {
        if roundGlobe == null {
          roundGlobe := new Globe(RoundGlobe);
        }
        if wwd.globe != roundGlobe {
          wwd.globe := roundGlobe;
        }
      } else {
        if flatGlobe == null {
          flatGlobe := new Globe(FlatGlobe);
        }
        var p := NamedProjection(name);
        if p.Some? {
          flatGlobe.projection := p.value;
        }
        if wwd.globe != flatGlobe {
          wwd.globe := flatGlobe;
        }
      }
    }
  }
}
