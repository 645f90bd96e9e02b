/**
 * Drag-and-drop onto the globe: `armDrop` hands over an object and a
 * callback, and the next click or touch that picks the terrain moves the
 * object to the picked location and passes it to the callback. The terrain
 * pick itself is the engine's; here it is a parameter.
 */
module DragAndDrop {
  import opened JsValues
  import opened WorldWind
  import opened Earth

  /** An object waiting to be dropped: its latitude and longitude are (re)written by the drop. */
  class DropObject {
    var latitude: Num
    var longitude: Num

    constructor (latitude: Num, longitude: Num)
      ensures this.latitude == latitude && this.longitude == longitude
    {
      this.latitude := latitude;
      this.longitude := longitude;
    }
  }

  /** The events the controller listens to; a touch end may carry no changed touch. */
  datatype DropEvent = Click | TouchEnd(hasChangedTouch: bool)

  /** The terrain position under the event, when the pick hits terrain. */
  datatype PickedLocation = PickedLocation(latitude: Num, longitude: Num)

  /** The CSS cursor of the globe's canvas. */
  datatype Cursor = Unchanged | Crosshair | Pointer

  /** A call of the drop callback, with the object it was given and the location it then held. */
  datatype DropCall = DropCall(callback: CallbackId, dropped: DropObject, latitude: Num, longitude: Num)

  class DnDController {
    const wwd: WorldWindow
    var isArmed: bool
    var dropObject: DropObject?        // null until armed, or when armed with no object
    var dropCallback: Option<CallbackId>
    var cursor: Cursor
    var calls: seq<DropCall>

    constructor (wwd: WorldWindow)
      ensures this.wwd == wwd && !isArmed && dropObject == null && dropCallback.None?
      ensures cursor == Unchanged && calls == []
    {
      this.wwd := wwd;
      isArmed := false;
      dropObject := null;
      dropCallback := None;
      cursor := Unchanged;
      calls := [];
    }

    /** Starts a drop: remembers the object and the callback and shows the crosshair cursor. */
    method ArmDrop(dropObject: DropObject?, dropCallback: Option<CallbackId>)
      modifies this
      ensures isArmed && this.dropObject == dropObject && this.dropCallback == dropCallback
      ensures cursor == Crosshair && calls == old(calls)
    {
      this.dropObject := dropObject;
      this.dropCallback := dropCallback;
      isArmed := true;
      cursor := Crosshair;
    }

    /**
     * Completes an armed drop. Nothing happens unless the controller is
     * armed, a touch end carries a changed touch and the pick hits terrain.
     * Then the object takes the picked location, the controller disarms, the
     * event is stopped and the callback receives the object. A missing object
     * or callback is a TypeError at the point where it is used.
     */
    method HandleDrop(event: DropEvent, pick: Option<PickedLocation>) returns (stopped: bool, error: Option<Error>)
      modifies this, dropObject
      ensures dropObject == old(dropObject) && dropCallback == old(dropCallback)
      ensures !(old(isArmed) && (event.TouchEnd? ==> event.hasChangedTouch) && pick.Some?) ==>
        !stopped && error.None? && isArmed == old(isArmed) && cursor == old(cursor) && calls == old(calls)
        && (dropObject != null ==> dropObject.latitude == old(dropObject.latitude)
                                   && dropObject.longitude == old(dropObject.longitude))
      ensures old(isArmed) && (event.TouchEnd? ==> event.hasChangedTouch) && pick.Some? && dropObject == null ==>
        !stopped && error == Some(TypeError) && isArmed && cursor == old(cursor) && calls == old(calls)
      ensures old(isArmed) && (event.TouchEnd? ==> event.hasChangedTouch) && pick.Some? && dropObject != null ==>
        stopped && !isArmed && cursor == Pointer
        && dropObject.latitude == pick.value.latitude && dropObject.longitude == pick.value.longitude
        && (dropCallback.None? ==> error == Some(TypeError) && calls == old(calls))
        && (dropCallback.Some? ==>
              error.None?
              && calls == old(calls) + [DropCall(dropCallback.value, dropObject, pick.value.latitude, pick.value.longitude)])
    {
      stopped, error := false, None;
      if !isArmed {
        return;
      }
      if event.TouchEnd? && !event.hasChangedTouch {
        return;
      }
      if pick.None? {
        return;
      }
      if dropObject == null {
        error := Some(TypeError);
        return;
      }
      dropObject.latitude := pick.value.latitude;
      dropObject.longitude := pick.value.longitude;
      cursor := Pointer;
      isArmed := false;
      stopped := true;
      if dropCallback.None? {
        error := Some(TypeError);
        return;
      }
      calls := calls + [DropCall(dropCallback.value, dropObject, dropObject.latitude, dropObject.longitude)];
    }
  }

  /** An armed drop completes at most once: after it, further events change nothing until re-armed. */
  method DropOnce(controller: DnDController, event: DropEvent, pick: PickedLocation, again: Option<PickedLocation>)
    requires controller.isArmed && controller.dropObject != null && controller.dropCallback.Some?
    modifies controller, controller.dropObject
    ensures |controller.calls| == old(|controller.calls|) + 1
    ensures !controller.isArmed && controller.dropObject == old(controller.dropObject)
    ensures controller.dropObject.latitude == pick.latitude && controller.dropObject.longitude == pick.longitude
  {
    var stopped, error := controller.HandleDrop(Click, Some(pick));
    stopped, error := controller.HandleDrop(event, again);
  }
}
