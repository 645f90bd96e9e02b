# A Dafny model of the WorldWind globe front-end

This project models the core of a browser front-end built on the WorldWind
globe engine. It covers:

- the layer registry (`LayerManager`), which keeps five category lists and the
  WorldWindow's render-order list in step, and normalises each layer's options;
- the `Earth` object: first-match layer lookup, the guarded `goto`/`lookAt`,
  `reset`/`resetHeading`, lazy round/flat globes in `setProjection`, refreshing
  temporal layers, and the default layers its constructor adds through the registry;
- the keyboard controls: the key-code dispatch, the `activeOperation` flag and one
  timer tick of zooming or panning;
- the drag-and-drop controller: an armed/disarmed machine completing a drop at
  the picked terrain location;
- the `Terrain` and `Viewpoint` value objects, with `copy` and `===`-based `equals`;
- the Movable, Selectable and Openable capability mix-ins;
- saving the view to local storage and restoring it with NaN fallbacks.

JavaScript numbers are `Num = NaN | Fin(real)`, so `===` on NaN is captured.
A missing argument (`undefined`) is `Option.None` or a null reference.
Thrown exceptions are `Result.Err` values.
Event logs and animator calls are append-only sequences. Pending timers are a sequence: scheduling appends a timer, and running one removes it and, while an operation is active, appends it again.

Files:

- `js_values.dfy`: JavaScript numbers, truthiness and `===`, and the start-up configuration.
- `world_wind.dfy`: the engine objects the core reads and writes: layers, the WorldWindow, the navigator, globes and positions.
- `layer_manager.dfy`: the registry, its specification functions and lemmas.
- `earth.dfy`: the `Earth` object.
- `keyboard_controls.dfy`: the keyboard controls.
- `dnd_controller.dfy`: the drag-and-drop controller.
- `terrain.dfy`: `Terrain`.
- `viewpoint.dfy`: `Viewpoint`.
- `capabilities.dfy`: the Movable, Selectable and Openable mix-ins.
- `settings.dfy`: saving and restoring the session settings.

## Model

| member | source | states |
|---|---|---|
| Layers.MissingOptionsAreEmpty | root/js/model/earth/LayerManager.js:174 | missing options normalise exactly like `{}` |
| Layers.EnabledNormalised | root/js/model/earth/LayerManager.js:177-180 | `enabled` is true unless the option is false; the UI flag starts equal to it; the category is the one passed |
| Layers.PickEnabledTakesEnabledOption | root/js/model/earth/LayerManager.js:181 | `pickEnabled` is true when its option is absent, otherwise it is the *enabled* option (possibly undefined); the pickEnabled option's own value never matters |
| Layers.ShowInMenuNormalised | root/js/model/earth/LayerManager.js:201 | `showInMenu` holds iff `hideInMenu` is not true |
| Layers.TuningWrittenOnlyWhenTruthy | root/js/model/earth/LayerManager.js:184-196 | `detailHint` and `opacity` are written only when truthy, and `isTemporal` is only ever set, never cleared; otherwise the layer keeps its old value |
| Layers.ZeroOpacityIgnored | root/js/model/earth/LayerManager.js:194-196 | an explicit opacity of 0 leaves the layer's opacity unchanged |
| Layers.AlwaysOnHiddenFlags | root/js/model/earth/LayerManager.js:103 | the fixed background/widget options leave a layer enabled, pickable, hidden from the menu, with its tuning unchanged |
| Layers.ApplyOptionsIdempotent | root/js/model/earth/LayerManager.js:173-202 | normalising twice with the same options equals normalising once |
| Layers.ApplyOptionsToLayer | root/js/model/earth/LayerManager.js:173-202 | the layer's new flags are the normalisation of its old flags by the options and category |
| Layers.Toggled | root/js/model/earth/LayerManager.js:85-93 | toggling negates `enabled`, mirrors it into the UI flag and changes nothing else |
| Layers.ToggleTwiceRestores | root/js/model/earth/LayerManager.js:85-93 | two toggles restore a layer whose UI flag mirrors `enabled` |
| Layers.AppendOnlyTouchesItsList | root/js/model/earth/LayerManager.js:106 | a push grows its own list by the layer at its end and leaves the other four lists equal |
| Layers.AppendSplitsRenderOrder | root/js/model/earth/LayerManager.js:100-165 | each list's insert index is the length of the lists rendered before a new layer of it, and pushing places the layer between those and the lists after |
| Layers.InsertKeepsRenderOrder | root/js/model/earth/LayerManager.js:100-165 | inserting at the computed index into the flattened lists yields the flattening of the lists after the push |
| Layers.RenderOrderIsFlattenedLists | root/js/model/earth/LayerManager.js:100-165 | from an empty WorldWindow list, any sequence of `add*` calls leaves it equal to background ++ base ++ overlay ++ data ++ widget |
| Layers.EarlierAddRendersFirst | root/js/model/earth/LayerManager.js:101-159 | after a push, its own list's index and those of later lists grow by one, earlier lists' indices are unchanged |
| Layers.LayerManager.constructor | root/js/model/earth/LayerManager.js:54-78 | the five lists start empty; the invariant holds iff the WorldWindow list is empty |
| Layers.LayerManager.ToggleLayer | root/js/model/earth/LayerManager.js:85-93 | the layer's flags become their toggle; the lists are not in the frame |
| Layers.LayerManager.AddBackgroundLayer | root/js/model/earth/LayerManager.js:100-107 | insert at the background length, push onto background, normalise with the fixed options and tag Background, keep the render-order invariant |
| Layers.LayerManager.AddBaseLayer | root/js/model/earth/LayerManager.js:114-121 | insert at background+base length, push onto base, normalise with the caller's options, keep the invariant |
| Layers.LayerManager.AddOverlayLayer | root/js/model/earth/LayerManager.js:129-136 | insert after background, base and overlay, push onto overlay, normalise, keep the invariant |
| Layers.LayerManager.AddDataLayer | root/js/model/earth/LayerManager.js:143-151 | insert after the first four lists, push onto data, normalise, keep the invariant |
| Layers.LayerManager.AddWidgetLayer | root/js/model/earth/LayerManager.js:157-165 | insert at the end, push onto widget, normalise with the fixed options but tag the layer Background, keep the invariant |
| Earth.NamedProjection | root/js/model/earth/Earth.js:457-469 | the six flat-projection names select flat projections, never the round globe's |
| Earth.NamedProjectionsDistinct | root/js/model/earth/Earth.js:457-469 | distinct recognised names select distinct projections |
| Earth.TemporalLayers | root/js/model/earth/Earth.js:387-392 | exactly the layers with `isTemporal` set, in order |
| Earth.AddDefaultLayer | root/js/model/earth/Earth.js:150-152 | a default layer is created fresh and added through the registry iff asked for, ending enabled, hidden and tagged Background, invariant kept |
| Earth.DefaultLayerNames | root/js/model/earth/Earth.js:150-171 | the default layers added are named Sky, then Crosshairs and View Controls, each present iff its option asks for it |
| Earth.AddDefaultLayers | root/js/model/earth/Earth.js:150-171 | from an empty registry: background holds the sky, widget the crosshairs and view controls as the options ask; base, overlay and data are empty; all are enabled, hidden and tagged Background; invariant holds |
| Earth.Earth.constructor | root/js/model/earth/Earth.js:108-171 | a fresh WorldWindow and registry sharing it, with the default layers, the start view, no animation and no globes cached; the Earth invariant (the WorldWindow's layers are the registry's lists in render order) holds |
| Earth.Earth.FindLayer | root/js/model/earth/Earth.js:241-251 | null iff no layer has the name; otherwise the first layer in render order with that name |
| Earth.Earth.Goto | root/js/model/earth/Earth.js:336-352 | a missing, 0 or NaN coordinate changes nothing; otherwise a running animation is cancelled, then a go-to starts, `isAnimating` is set and the completion recorded |
| Earth.Earth.AnimationFinished | root/js/model/earth/Earth.js:346-351 | with no pending completion nothing changes; otherwise the completion is consumed, `isAnimating` is cleared before the caller's callback runs, so every callback sees it false |
| Earth.Earth.LookAt | root/js/model/earth/Earth.js:360-371 | a missing, 0 or NaN coordinate changes nothing; otherwise latitude and longitude are set, and the range only when a truthy one is given |
| Earth.Earth.RefreshLayers | root/js/model/earth/Earth.js:383-395 | the layers refreshed are exactly the temporal layers, in render order |
| Earth.Earth.Reset | root/js/model/earth/Earth.js:401-409 | all six navigator fields take the start-up configuration |
| Earth.Earth.ResetHeading | root/js/model/earth/Earth.js:414-417 | heading becomes 0 and the other navigator fields are unchanged |
| Earth.Earth.SetProjection | root/js/model/earth/Earth.js:444-477 | "3D" installs the round globe, any other name the flat globe; each is created at most once and then reused; the flat projection changes only for recognised names and never for "3D"; layers, animation and callbacks are untouched; the Earth invariant is kept |
| Keyboard.Command | root/js/model/earth/KeyboardControls.js:94-117 | the dispatch table and the key-code table are inverse: a code dispatches to a command iff it is that command's code |
| Keyboard.ZoomedRange | root/js/model/earth/KeyboardControls.js:156-160 | a zoom-in tick strictly shrinks a positive range and keeps it positive; a zoom-out tick strictly grows it; NaN stays NaN |
| Keyboard.PanHeading | root/js/model/earth/KeyboardControls.js:184-196 | the pan direction is the heading offset by 0 (up), -180 (down), -90 (left) or +90 (right) |
| Keyboard.OppositePans | root/js/model/earth/KeyboardControls.js:184-196 | right and left pans, and up and down pans, head 180 degrees apart |
| Keyboard.Tick | root/js/model/earth/KeyboardControls.js:154-206 | a tick never changes the view angles; a zoom tick moves only the range, a pan tick only the location |
| Keyboard.ZoomInThenOutShrinks | root/js/model/earth/KeyboardControls.js:154-164 | a zoom-in tick followed by a zoom-out tick leaves 0.9999 of the range, not the range |
| Keyboard.KeyboardControls.constructor | root/js/model/earth/KeyboardControls.js:55-84 | no operation active and no timer pending |
| Keyboard.KeyboardControls.HandleKeyDown | root/js/model/earth/KeyboardControls.js:90-132 | zoom and pan keys set the operation and schedule one tick without moving the view; N sets heading 0 only; R and unbound keys change nothing |
| Keyboard.KeyboardControls.ResetHeadingAndTiltView | root/js/model/earth/KeyboardControls.js:130-132 | the R key's handler changes no state: neither the active operation, the pending timers nor the view |
| Keyboard.KeyboardControls.HandleKeyUp | root/js/model/earth/KeyboardControls.js:138-143 | the operation is cleared; the default is prevented iff one was active |
| Keyboard.KeyboardControls.Zoom | root/js/model/earth/KeyboardControls.js:149-168 | zooming becomes the active operation and one zoom tick is scheduled |
| Keyboard.KeyboardControls.Pan | root/js/model/earth/KeyboardControls.js:174-209 | panning becomes the active operation and one pan tick is scheduled |
| Keyboard.KeyboardControls.RunTimer | root/js/model/earth/KeyboardControls.js:149-209 | with no active operation the tick changes no view and drops its timer; otherwise it applies one tick and reschedules itself |
| DragAndDrop.DnDController.constructor | root/js/model/earth/DnDController.js:43-63 | a new controller is not armed and holds no object or callback |
| DragAndDrop.DnDController.ArmDrop | root/js/model/earth/DnDController.js:73-78 | arms the controller, stores (replacing) the object and callback and shows the crosshair cursor; no callback is made |
| DragAndDrop.DnDController.HandleDrop | root/js/model/earth/DnDController.js:87-130 | unarmed, a touch end with no touch, or a pick with no terrain: nothing changes; a missing object is a TypeError with nothing changed; otherwise the object takes the picked location, the controller disarms, the cursor becomes a pointer, the event is stopped, and the callback is called once with the object and location, or a missing callback is a TypeError |
| DragAndDrop.DropOnce | root/js/model/earth/DnDController.js:88-90 | after a completed drop, a further event adds no callback call and leaves the object where it was dropped |
| Terrains.Property | root/js/model/earth/Terrain.js:56-82 | exactly the five terrain property names are defined |
| Terrains.Terrain.constructor | root/js/model/earth/Terrain.js:56-82 | the five fields take the given values |
| Terrains.Terrain.Copy | root/js/model/earth/Terrain.js:111-124 | a missing argument throws ArgumentError and changes nothing; otherwise all five fields are copied, `this` is returned, and a NaN-free copy equals its source |
| Terrains.Terrain.Equals | root/js/model/earth/Terrain.js:131-138 | true iff the argument is present, all five values agree, and none is NaN |
| Terrains.EqualsSymmetric | root/js/model/earth/Terrain.js:131-138 | terrain equality is symmetric |
| Terrains.InvalidAndZeroTerrain | root/js/model/earth/Terrain.js:89-95 | the all-NaN terrain equals nothing, itself included; the all-zero terrain equals itself |
| Viewpoints.PropertyValues | root/js/model/earth/Viewpoint.js:115-124 | reading named properties succeeds iff every name is a terrain property, and then yields their values in order |
| Viewpoints.ToStringAsWrittenThrows | root/js/model/earth/Viewpoint.js:120 | as written, the string of any viewpoint cannot be built: a TypeError |
| Viewpoints.ToStringCorrected | root/js/model/earth/Viewpoint.js:115-124 | with the property name corrected, the string shows the eight values, the target's longitude fifth |
| Viewpoints.Viewpoint.constructor | root/js/model/earth/Viewpoint.js:61-63 | fresh eye and target objects holding the arguments' values |
| Viewpoints.Viewpoint.Create | root/js/model/earth/Viewpoint.js:52-64 | a missing eye or target throws ArgumentError; otherwise a fresh viewpoint not aliasing its arguments |
| Viewpoints.Viewpoint.Copy | root/js/model/earth/Viewpoint.js:88-96 | a missing argument throws and changes nothing; otherwise eye and target are copied, `this` is returned, and a NaN-free copy equals its source |
| Viewpoints.Viewpoint.Equals | root/js/model/earth/Viewpoint.js:104-108 | true iff the argument is present and eye and target agree field by field with no NaN |
| Viewpoints.Viewpoint.DisplayedValues | root/js/model/earth/Viewpoint.js:115-124 | the corrected string shows eight values, the target's longitude fifth |
| Viewpoints.InvalidAndZeroViewpoint | root/js/model/earth/Viewpoint.js:71-80 | the all-NaN viewpoint equals nothing, itself included; the all-zero one equals itself |
| Capabilities.MadeIdempotent | root/js/model/util/Movable.js:76-78 | a second make call changes nothing, so the first callback is kept |
| Capabilities.MadeCopiesActions | root/js/model/util/Movable.js:80-87 | on a target without the guard member, every action of the mix-in is copied and the make function is not; other functions are untouched |
| Capabilities.MadeKeepsTheRest | root/js/model/util/Selectable.js:68-78 | a make call leaves the location, the event log and the other mix-ins' flags and callbacks alone |
| Capabilities.CopyFunctions | root/js/model/util/Movable.js:80-87 | the copying loop overwrites exactly the mix-in's non-make members |
| Capabilities.MakeMovable | root/js/model/util/Movable.js:74-94 | no change if `moveToLatLon` exists; otherwise the actions are copied, `isMovable` set and the object made a publisher |
| Capabilities.MakeSelectable | root/js/model/util/Selectable.js:61-82 | no change if `select` exists; otherwise `select` is copied, `isSelectable` set and `selectMe` takes the callback |
| Capabilities.MakeOpenable | root/js/model/util/Openable.js:61-82 | no change if `open` exists; otherwise `open` is copied, `isOpenable` set and `openMe` takes the callback |
| Capabilities.Host.MoveStarted | root/js/model/util/Movable.js:53-57 | if movable, exactly one move-started event and no other change; otherwise no change |
| Capabilities.Host.MoveToLatLon | root/js/model/util/Movable.js:58-64 | if movable, the location becomes the arguments and exactly one moved event fires; otherwise no change |
| Capabilities.Host.MoveFinished | root/js/model/util/Movable.js:65-69 | if movable, exactly one move-finished event and no other change; otherwise no change |
| Capabilities.Host.Select | root/js/model/util/Selectable.js:48-55 | one selected event iff selectable and the callback answers true; a missing callback is a TypeError; otherwise nothing |
| Capabilities.Host.Open | root/js/model/util/Openable.js:48-55 | one opened event iff openable and the callback answers true; a missing callback is a TypeError; otherwise nothing |
| Settings.Saved | root/js/model/util/Settings.js:71-78 | the six keys hold the target location, range and angles; other keys keep their values |
| Settings.SaveSessionSettings | root/js/model/util/Settings.js:57-80 | without local storage nothing is written; otherwise the storage becomes the saved map |
| Settings.ReadNumber | root/js/model/util/Settings.js:91-96 | a read is NaN only when the stored value is; a stored value is read as it is, so a key never written never triggers a fallback |
| Settings.RestoredView | root/js/model/util/Settings.js:98-112 | latitude and longitude fall back together, altitude alone, and the three angles together, each group when any member is NaN; the result has no NaN |
| Settings.Restored | root/js/model/util/Settings.js:91-119 | the look-at a restore makes never carries NaN |
| Settings.RestoreSessionSettings | root/js/model/util/Settings.js:85-119 | a look-at is made iff local storage exists; it never carries NaN; it targets the stored location when both coordinates are numbers and the start-up location otherwise, and the stored altitude unless it is NaN |
| Settings.SaveThenRestore | root/js/model/util/Settings.js:71-119 | a save of numeric values restores the saved location and range, whatever the storage held |
| Settings.NaNLocationFallsBack | root/js/model/util/Settings.js:98-102 | a NaN latitude or longitude restores both from the start-up configuration |
| Settings.NaNAltitudeFallsBackAlone | root/js/model/util/Settings.js:103-106 | a NaN altitude falls back alone, leaving a valid stored location |
| Settings.AnglesNotApplied | root/js/model/util/Settings.js:119-131 | the stored heading, tilt and roll never affect the restore |
| Settings.EmptyStorageRestoresZero | root/js/model/util/Settings.js:91-96 | an empty storage restores to 0, 0, 0 because missing keys read as 0, not NaN |

## Left out

- Rendering: every `redraw()` call, the canvas, CSS cursor changes other than the drop cursor, and DOM and jQuery event wiring.
- Engine internals: the navigator, globe, projections, `insertLayer` and WorldWind's `Position` are modelled only as the state the core reads and writes. `Position.copy` and `Position.equals` follow the engine's documented behaviour.
- Go-to animation: the animator is a log of `Cancel` and `GoTo` calls. What `cancel` does to a pending completion is the engine's concern. `AnimationFinished` stands for the animator calling the latest completion.
- `greatCircleLocation` is a function parameter of the pan tick; its spherical maths is not modelled.
- `setTimeout`: pending ticks are a list, and the event loop's choice of which tick runs next is the caller of `RunTimer`.
- The `event.preventDefault()` calls in `handleZoom` and `handlePan` use an undeclared `event`; they are not modelled.
- `Earth.resetHeadingAndTilt`, `getViewpoint`, `getTerrainAt*`, `adjustTiledImageLayerDetailHints` and the wiring of the selection, keyboard and drag-and-drop controllers into `Earth` depend on the engine's terrain picking and screen size. The view-controls layer's individual control flags are not modelled either.
- The default layers' engine defaults are taken as opacity 1 and detail hint 0. The view-controls layer is assumed to be named "View Controls". The flat globe is assumed to start with the equirectangular projection.
- `Terrain.distanceBetween` (the distance helper is not part of this model) and the number-to-string formatting inside both `toString` methods. Only which values `Viewpoint.toString` reads is modelled.
- `Publisher.makePublisher` is not part of this model. Making a publisher sets a flag, and `fire` appends to the event log.
- Knockout observables are plain fields, with no subscriptions.
- Logging: the `Log` and `log` calls (key presses in `handleKeyDown`, rejected coordinates in `goto` and `lookAt`, the messages of the errors `Terrain.copy` and `Viewpoint` throw, the warnings and errors of the session settings) produce no state the model keeps. The `try/catch` around `restoreSessionSettings` only logs, and nothing in the modelled body throws.
- Numbers are reals or NaN: floating-point rounding and infinities are not modelled.
- The values of local storage are held as the numbers `Number()` reads back from the stored strings.
- `Terrains.Terrain.Equals`: the source returns the falsy argument itself (`undefined` or `null`) when it is missing, and the model returns false.
- `Layers.LayerManager.ToggleLayer`: the model requires a layer that has been through the registry, because only then does the UI observable exist to be called.
- `Earth.Earth.SetProjection`: the model requires any cached globes to be of the right kind, which the code guarantees by only ever storing them from the two branches.

## Findings

| source | as written | input that shows it | evidently intended | confidence | as-written member | corrected member |
|---|---|---|---|---|---|---|
| root/js/model/earth/Viewpoint.js:120 | `toString` reads `this.target.ongitude`, which is undefined, and calls `toString` on it | any viewpoint, e.g. `Viewpoint.ZERO.toString()` throws a TypeError | `this.target.longitude` | high; not executed | Viewpoints.ToStringAsWrittenThrows | Viewpoints.ToStringCorrected |
