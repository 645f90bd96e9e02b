/**
 * The layer registry: five ordered category lists (background, base, overlay,
 * data, widget) kept in step with the WorldWindow's render-order list, and the
 * option normalisation every added layer goes through.
 */
module Layers {
  import opened JsValues
  import opened WorldWind

  // ---------------------------------------------------------------------------
  // Option normalisation
  // ---------------------------------------------------------------------------

  /** The options record a caller may pass to `add*`; every field may be missing. */
  datatype LayerOptions = LayerOptions(
    enabled: Option<bool>,
    pickEnabled: Option<bool>,
    isTemporal: Option<bool>,
    detailHint: Option<Num>,
    opacity: Option<Num>,
    hideInMenu: Option<bool>)

  /** `{}` */
  const NoOptions := LayerOptions(None, None, None, None, None, None)

  /** `{hideInMenu: true, enabled: true}`, the options background and widget layers always get. */
  const AlwaysOnHidden := LayerOptions(Some(true), None, None, None, None, Some(true))

  /**
   * The flags a layer has after `applyOptionsToLayer(layer, options, category)`,
   * given the flags `f` it had before. Written as the source has it, quirks
   * included: `pickEnabled` takes the `enabled` option, and a falsy
   * `detailHint`, `opacity` or `isTemporal` option leaves the old value.
   */
  function ApplyOptions(f: LayerFlags, options: Option<LayerOptions>, category: Category): LayerFlags {
    var opt := if options.None? then NoOptions else options.value;
    var enabled := if opt.enabled.None? then true else opt.enabled.value;
    LayerFlags(
      category := Some(category),
      enabled := enabled,
      pickEnabled := if opt.pickEnabled.None? then Some(true) else opt.enabled,
      isTemporal := if opt.isTemporal == Some(true) then true else f.isTemporal,
      detailHint := if TruthyArg(opt.detailHint) then opt.detailHint.value else f.detailHint,
      opacity := if TruthyArg(opt.opacity) then opt.opacity.value else f.opacity,
      layerEnabled := enabled,
      showInMenu := if opt.hideInMenu.None? then true else !opt.hideInMenu.value)
  }

  /** Missing options behave as `{}`. */
  lemma MissingOptionsAreEmpty(f: LayerFlags, c: Category)
    ensures ApplyOptions(f, None, c) == ApplyOptions(f, Some(NoOptions), c)
  {
  }

  /** `enabled` defaults to true and otherwise copies the option; the UI flag starts equal to it. */
  lemma EnabledNormalised(f: LayerFlags, o: LayerOptions, c: Category)
    ensures ApplyOptions(f, Some(o), c).enabled <==> o.enabled != Some(false)
    ensures ApplyOptions(f, Some(o), c).layerEnabled == ApplyOptions(f, Some(o), c).enabled
    ensures ApplyOptions(f, Some(o), c).category == Some(c)
  {
  }

  /**
   * `pickEnabled` is true when its option is absent; when it is present the
   * layer gets the `enabled` option instead, so the pickEnabled option's own
   * value never matters and, given without `enabled`, it leaves `undefined`.
   */
  lemma PickEnabledTakesEnabledOption(f: LayerFlags, o: LayerOptions, c: Category, b: bool)
    ensures o.pickEnabled.None? ==> ApplyOptions(f, Some(o), c).pickEnabled == Some(true)
    ensures o.pickEnabled.Some? ==> ApplyOptions(f, Some(o), c).pickEnabled == o.enabled
    ensures ApplyOptions(f, Some(o.(pickEnabled := Some(b))), c)
         == ApplyOptions(f, Some(o.(pickEnabled := Some(!b))), c)
  {
  }

  /** `showInMenu` is true unless `hideInMenu` is given, and then it is its negation. */
  lemma ShowInMenuNormalised(f: LayerFlags, o: LayerOptions, c: Category)
    ensures ApplyOptions(f, Some(o), c).showInMenu <==> o.hideInMenu != Some(true)
  {
  }

  /** A falsy or missing `detailHint`, `opacity` or `isTemporal` leaves the layer's value; a truthy one is written. */
  lemma TuningWrittenOnlyWhenTruthy(f: LayerFlags, o: LayerOptions, c: Category)
    ensures var r := ApplyOptions(f, Some(o), c);
      (r.detailHint == if TruthyArg(o.detailHint) then o.detailHint.value else f.detailHint)
      && (r.opacity == if TruthyArg(o.opacity) then o.opacity.value else f.opacity)
      && (r.isTemporal <==> o.isTemporal == Some(true) || f.isTemporal)
  {
  }

  /** In particular an explicit opacity of 0 is dropped. */
  lemma ZeroOpacityIgnored(f: LayerFlags, c: Category)
    ensures ApplyOptions(f, Some(NoOptions.(opacity := Some(Fin(0.0)))), c).opacity == f.opacity
  {
  }

  /** Background and widget layers end enabled, pickable and hidden from the menu. */
  lemma AlwaysOnHiddenFlags(f: LayerFlags, c: Category)
    ensures var r := ApplyOptions(f, Some(AlwaysOnHidden), c);
      r.enabled && r.layerEnabled && r.pickEnabled == Some(true) && !r.showInMenu
      && r.category == Some(c) && r.detailHint == f.detailHint && r.opacity == f.opacity
  {
  }

  /** Normalising twice with the same options is normalising once. */
  lemma ApplyOptionsIdempotent(f: LayerFlags, o: Option<LayerOptions>, c: Category)
    ensures ApplyOptions(ApplyOptions(f, o, c), o, c) == ApplyOptions(f, o, c)
  {
  }

  /** `applyOptionsToLayer`: writes the normalised options onto the layer, field by field. */
  method ApplyOptionsToLayer(layer: Layer, options: Option<LayerOptions>, category: Category)
    modifies layer
    ensures layer.Flags() == ApplyOptions(old(layer.Flags()), options, category)
  {
    ghost var r := ApplyOptions(layer.Flags(), options, category);
    var opt := if options.None? then NoOptions else options.value;
    var enabled := if opt.enabled.None? then true else opt.enabled.value;
    layer.category := Some(category);
    layer.enabled := enabled;
    layer.pickEnabled := if opt.pickEnabled.None? then Some(true) else opt.enabled;
    if opt.isTemporal == Some(true) {
      layer.isTemporal := true;
    }
    assert layer.isTemporal == r.isTemporal;
    if TruthyArg(opt.detailHint) {
      layer.detailHint := opt.detailHint.value;
    }
    assert layer.detailHint == r.detailHint;
    if TruthyArg(opt.opacity) {
      layer.opacity := opt.opacity.value;
    }
    assert layer.opacity == r.opacity;
    layer.layerEnabled := enabled;
    layer.showInMenu := if opt.hideInMenu.None? then true else !opt.hideInMenu.value;
  }

  // ---------------------------------------------------------------------------
  // Toggling
  // ---------------------------------------------------------------------------

  /** The flags after `toggleLayer`: `enabled` negated and mirrored into the UI flag. */
  function Toggled(f: LayerFlags): (r: LayerFlags)
    ensures r.enabled == !f.enabled && r.layerEnabled == r.enabled
    ensures r.(enabled := f.enabled, layerEnabled := f.layerEnabled) == f
  {
    f.(enabled := !f.enabled, layerEnabled := !f.enabled)
  }

  /** Two toggles restore both flags of a layer whose UI flag mirrors `enabled`. */
  lemma ToggleTwiceRestores(f: LayerFlags)
    requires f.layerEnabled == f.enabled
    ensures Toggled(Toggled(f)) == f
  {
  }

  // ---------------------------------------------------------------------------
  // The category lists and the render order
  // ---------------------------------------------------------------------------

  /** The five category lists, in render order. */
  datatype Registry<T> = Registry(background: seq<T>, base: seq<T>, overlay: seq<T>, data: seq<T>, widget: seq<T>)

  function EmptyRegistry<T>(): Registry<T> {
    Registry([], [], [], [], [])
  }

  /** The render order the registry promises: background ++ base ++ overlay ++ data ++ widget. */
  function Flatten<T>(r: Registry<T>): seq<T> {
    r.background + r.base + r.overlay + r.data + r.widget
  }

  /** The index each `add*` computes: the preceding lists' lengths plus its own list's length. */
  function InsertIndex<T>(r: Registry<T>, list: Category): nat {
    match list
    case Background => |r.background|
    case Base => |r.background| + |r.base|
    case Overlay => |r.background| + |r.base| + |r.overlay|
    case Data => |r.background| + |r.base| + |r.overlay| + |r.data|
    case Widget => |r.background| + |r.base| + |r.overlay| + |r.data| + |r.widget|
  }

  /** `x` pushed onto the end of one list. */
  function Append<T>(r: Registry<T>, list: Category, x: T): Registry<T> {
    match list
    case Background => r.(background := r.background + [x])
    case Base => r.(base := r.base + [x])
    case Overlay => r.(overlay := r.overlay + [x])
    case Data => r.(data := r.data + [x])
    case Widget => r.(widget := r.widget + [x])
  }

  /** Appending changes exactly one list, which grows by `x` at its end. */
  lemma AppendOnlyTouchesItsList<T>(r: Registry<T>, list: Category, x: T)
    ensures var a := Append(r, list, x);
      (a.background == if list == Background then r.background + [x] else r.background)
      && (a.base == if list == Base then r.base + [x] else r.base)
      && (a.overlay == if list == Overlay then r.overlay + [x] else r.overlay)
      && (a.data == if list == Data then r.data + [x] else r.data)
      && (a.widget == if list == Widget then r.widget + [x] else r.widget)
  {
  }

  /** Inserting at the seam of two sequences puts the element between them. */
  lemma InsertAtSeam<T>(p: seq<T>, q: seq<T>, x: T)
    ensures InsertAt(p + q, |p|, x) == p + [x] + q
  {
    assert (p + q)[..|p|] == p;
    assert (p + q)[|p|..] == q;
  }

  /** The lists rendered before a layer pushed onto `list`: that list and the ones before it. */
  function Before<T>(r: Registry<T>, list: Category): seq<T> {
    match list
    case Background => r.background
    case Base => r.background + r.base
    case Overlay => r.background + r.base + r.overlay
    case Data => r.background + r.base + r.overlay + r.data
    case Widget => r.background + r.base + r.overlay + r.data + r.widget
  }

  /** The lists rendered after a layer pushed onto `list`. */
  function After<T>(r: Registry<T>, list: Category): seq<T> {
    match list
    case Background => r.base + r.overlay + r.data + r.widget
    case Base => r.overlay + r.data + r.widget
    case Overlay => r.data + r.widget
    case Data => r.widget
    case Widget => []
  }

  /** Pushing onto `list` is inserting between the lists before it and the lists after it. */
  lemma {:induction false} AppendSplitsRenderOrder<T>(r: Registry<T>, list: Category, x: T)
    ensures InsertIndex(r, list) == |Before(r, list)|
    ensures Flatten(r) == Before(r, list) + After(r, list)
    ensures Flatten(Append(r, list, x)) == Before(r, list) + [x] + After(r, list)
  {
    var bg, b, o, d, w := r.background, r.base, r.overlay, r.data, r.widget;
    match list
    case Background =>
      assert Flatten(Append(r, list, x)) == bg + [x] + (b + o + d + w);
    case Base =>
      assert Flatten(Append(r, list, x)) == (bg + b) + [x] + (o + d + w);
    case Overlay =>
      assert Flatten(Append(r, list, x)) == (bg + b + o) + [x] + (d + w);
    case Data =>
      assert Flatten(Append(r, list, x)) == (bg + b + o + d) + [x] + w;
    case Widget =>
      assert Flatten(r) == (bg + b + o + d + w) + [];
      assert Flatten(Append(r, list, x)) == (bg + b + o + d + w) + [x] + [];
  }

  /**
   * The heart of the registry: inserting at the computed index into the
   * flattened lists gives the flattening of the lists after the push.
   */
  lemma {:induction false} InsertKeepsRenderOrder<T>(r: Registry<T>, list: Category, x: T)
    ensures InsertIndex(r, list) <= |Flatten(r)|
    ensures InsertAt(Flatten(r), InsertIndex(r, list), x) == Flatten(Append(r, list, x))
  {
    AppendSplitsRenderOrder(r, list, x);
    InsertAtSeam(Before(r, list), After(r, list), x);
  }

  /** A layer added with `add*` for the given list, in call order. */
  datatype AddCall<T> = AddCall(list: Category, layer: T)

  /** The category lists after a sequence of `add*` calls on a fresh registry. */
  function ListsAfter<T>(calls: seq<AddCall<T>>): Registry<T> {
    if calls == [] then EmptyRegistry()
    else
      var last := calls[|calls| - 1];
      Append(ListsAfter(calls[..|calls| - 1]), last.list, last.layer)
  }

  /**
   * The WorldWindow's list after the same calls, starting empty: every call
   * splices its layer in at the index computed from the lists so far.
   */
  function RenderOrderAfter<T>(calls: seq<AddCall<T>>): seq<T> {
    if calls == [] then []
    else
      var before := calls[..|calls| - 1];
      var last := calls[|calls| - 1];
      Splice(RenderOrderAfter(before), InsertIndex(ListsAfter(before), last.list), last.layer)
  }

  /** Starting from an empty WorldWindow list, any sequence of `add*` calls keeps it equal to the flattened lists. */
  lemma {:induction false} RenderOrderIsFlattenedLists<T>(calls: seq<AddCall<T>>)
    ensures RenderOrderAfter(calls) == Flatten(ListsAfter(calls))
  {
    if calls != [] {
      var before := calls[..|calls| - 1];
      var last := calls[|calls| - 1];
      RenderOrderIsFlattenedLists(before);
      InsertKeepsRenderOrder(ListsAfter(before), last.list, last.layer);
    }
  }

  /** Within one list, a layer added earlier is rendered before a layer added later. */
  lemma {:induction false} EarlierAddRendersFirst<T>(r: Registry<T>, list: Category, x: T)
    ensures InsertIndex(Append(r, list, x), list) == InsertIndex(r, list) + 1
    ensures forall c :: ListPrecedes(list, c) ==> InsertIndex(Append(r, list, x), c) == InsertIndex(r, c) + 1
    ensures forall c :: ListPrecedes(c, list) ==> InsertIndex(Append(r, list, x), c) == InsertIndex(r, c)
  {
    forall c | ListPrecedes(list, c)
      ensures InsertIndex(Append(r, list, x), c) == InsertIndex(r, c) + 1
    {
    }
  }

  /** The fixed order of the category lists. */
  function ListRank(c: Category): nat {
    match c
    case Background => 0
    case Base => 1
    case Overlay => 2
    case Data => 3
    case Widget => 4
  }

  predicate ListPrecedes(a: Category, b: Category) {
    ListRank(a) < ListRank(b)
  }

  // ---------------------------------------------------------------------------
  // The LayerManager object
  // ---------------------------------------------------------------------------

  /** The registry object, holding the five observable lists and the WorldWindow it feeds. */
  class LayerManager {
    const wwd: WorldWindow
    var backgroundLayers: seq<Layer>
    var baseLayers: seq<Layer>
    var overlayLayers: seq<Layer>
    var dataLayers: seq<Layer>
    var widgetLayers: seq<Layer>

    function Lists(): Registry<Layer>
      reads this
    {
      Registry(backgroundLayers, baseLayers, overlayLayers, dataLayers, widgetLayers)
    }

    /** The render-order invariant, which holds while only the registry touches the WorldWindow's list. */
    ghost predicate Valid()
      reads this, wwd
    {
      wwd.layers == Flatten(Lists())
    }

    constructor (wwd: WorldWindow)
      ensures this.wwd == wwd && Lists() == EmptyRegistry()
      ensures Valid() <==> wwd.layers == []
    {
      this.wwd := wwd;
      backgroundLayers, baseLayers, overlayLayers, dataLayers, widgetLayers := [], [], [], [], [];
    }

    /** `toggleLayer`: negates `enabled` and mirrors it into the UI flag; the lists are untouched. */
    method ToggleLayer(layer: Layer)
      requires layer.category.Some?  // the layer went through applyOptionsToLayer, so its UI flag exists
      modifies layer
      ensures layer.Flags() == Toggled(old(layer.Flags()))
    {
      layer.enabled := !layer.enabled;
      layer.layerEnabled := layer.enabled;
    }

    method AddBackgroundLayer(layer: Layer)
      modifies this, wwd, layer
      ensures wwd.layers == Splice(old(wwd.layers), old(InsertIndex(Lists(), Background)), layer)
      ensures Lists() == Append(old(Lists()), Background, layer)
      ensures layer.Flags() == ApplyOptions(old(layer.Flags()), Some(AlwaysOnHidden), Background)
      ensures wwd.globe == old(wwd.globe)
      ensures old(Valid()) ==> Valid()
    {
      var index := |backgroundLayers|;
      ApplyOptionsToLayer(layer, Some(AlwaysOnHidden), Background);
      wwd.InsertLayer(index, layer);
      backgroundLayers := backgroundLayers + [layer];
      InsertKeepsRenderOrder(old(Lists()), Background, layer);
    }

    method AddBaseLayer(layer: Layer, options: Option<LayerOptions>)
      modifies this, wwd, layer
      ensures wwd.layers == Splice(old(wwd.layers), old(InsertIndex(Lists(), Base)), layer)
      ensures Lists() == Append(old(Lists()), Base, layer)
      ensures layer.Flags() == ApplyOptions(old(layer.Flags()), options, Base)
      ensures wwd.globe == old(wwd.globe)
      ensures old(Valid()) ==> Valid()
    {
      var index := |backgroundLayers| + |baseLayers|;
      ApplyOptionsToLayer(layer, options, Base);
      wwd.InsertLayer(index, layer);
      baseLayers := baseLayers + [layer];
      InsertKeepsRenderOrder(old(Lists()), Base, layer);
    }

    method AddOverlayLayer(layer: Layer, options: Option<LayerOptions>)
      modifies this, wwd, layer
      ensures wwd.layers == Splice(old(wwd.layers), old(InsertIndex(Lists(), Overlay)), layer)
      ensures Lists() == Append(old(Lists()), Overlay, layer)
      ensures layer.Flags() == ApplyOptions(old(layer.Flags()), options, Overlay)
      ensures wwd.globe == old(wwd.globe)
      ensures old(Valid()) ==> Valid()
    {
      var index := |backgroundLayers| + |baseLayers| + |overlayLayers|;
      ApplyOptionsToLayer(layer, options, Overlay);
      wwd.InsertLayer(index, layer);
      overlayLayers := overlayLayers + [layer];
      InsertKeepsRenderOrder(old(Lists()), Overlay, layer);
    }

    method AddDataLayer(layer: Layer, options: Option<LayerOptions>)
      modifies this, wwd, layer
      ensures wwd.layers == Splice(old(wwd.layers), old(InsertIndex(Lists(), Data)), layer)
      ensures Lists() == Append(old(Lists()), Data, layer)
      ensures layer.Flags() == ApplyOptions(old(layer.Flags()), options, Data)
      ensures wwd.globe == old(wwd.globe)
      ensures old(Valid()) ==> Valid()
    {
      var index := |backgroundLayers| + |baseLayers| + |overlayLayers| + |dataLayers|;
      ApplyOptionsToLayer(layer, options, Data);
      wwd.InsertLayer(index, layer);
      dataLayers := dataLayers + [layer];
      InsertKeepsRenderOrder(old(Lists()), Data, layer);
    }

    /** Widget layers go into the widget list but are tagged with the Background category. */
    method AddWidgetLayer(layer: Layer)
      modifies this, wwd, layer
      ensures wwd.layers == Splice(old(wwd.layers), old(InsertIndex(Lists(), Widget)), layer)
      ensures Lists() == Append(old(Lists()), Widget, layer)
      ensures layer.Flags() == ApplyOptions(old(layer.Flags()), Some(AlwaysOnHidden), Background)
      ensures wwd.globe == old(wwd.globe)
      ensures old(Valid()) ==> Valid()
    {
      var index := |backgroundLayers| + |baseLayers| + |overlayLayers| + |dataLayers| + |widgetLayers|;
      ApplyOptionsToLayer(layer, Some(AlwaysOnHidden), Background);
      wwd.InsertLayer(index, layer);
      widgetLayers := widgetLayers + [layer];
      InsertKeepsRenderOrder(old(Lists()), Widget, layer);
    }
  }
}
