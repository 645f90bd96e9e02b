/**
 * The capability mix-ins: Movable, Selectable and Openable each copy their
 * action functions onto a target object, mark it with a flag (and, for the
 * last two, the callback that performs the action) and make it an event
 * publisher. The actions do their work only when the flag is set, and
 * report it by firing an event, kept here as an append-only log.
 */
module Capabilities {
  import opened JsValues

  datatype Mixin = Movable | Selectable | Openable

  /** The mix-in's own members, in declaration order: its actions, then its make function. */
  function Members(mixin: Mixin): seq<string> {
    match mixin
    case Movable => ["moveStarted", "moveToLatLon", "moveFinished", "makeMovable"]
    case Selectable => ["select", "makeSelectable"]
    case Openable => ["open", "makeOpenable"]
  }

  /** The make function, which is not copied. */
  function Maker(mixin: Mixin): string {
    match mixin
    case Movable => "makeMovable"
    case Selectable => "makeSelectable"
    case Openable => "makeOpenable"
  }

  /** The member whose presence on the target means the mix-in was already applied. */
  function Guard(mixin: Mixin): string {
    match mixin
    case Movable => "moveToLatLon"
    case Selectable => "select"
    case Openable => "open"
  }

  /** The names in `names` other than `maker`. */
  function Copyable(names: seq<string>, maker: string): set<string> {
    set n | n in names && n != maker
  }

  /** Where a function property of the target comes from. */
  datatype FunctionSource = OwnFunction | MixinFunction(mixin: Mixin)

  /** The function properties after the named ones are (over)written with the mix-in's. */
  function Overlay(functions: map<string, FunctionSource>, names: set<string>, mixin: Mixin): map<string, FunctionSource> {
    map n | n in functions.Keys + names :: if n in names then MixinFunction(mixin) else functions[n]
  }

  /** The events the actions fire. */
  datatype EventName = ObjectMoveStarted | ObjectMoved | ObjectMoveFinished | ObjectSelected | ObjectOpened

  /** The event type string each event is published under. */
  function EventType(e: EventName): string {
    match e
    case ObjectMoveStarted => "objectMoveStarted"
    case ObjectMoved => "objectMoved"
    case ObjectMoveFinished => "objectMoveFinished"
    case ObjectSelected => "objectSelected"
    case ObjectOpened => "objectOpened"
  }

  type CallbackId = nat

  /** A snapshot of the target object's capability-related properties. */
  datatype HostState = HostState(
    functions: map<string, FunctionSource>,
    isMovable: bool,
    isSelectable: bool,
    isOpenable: bool,
    selectMe: Option<CallbackId>,
    openMe: Option<CallbackId>,
    isPublisher: bool,
    latitude: Num,
    longitude: Num,
    fired: seq<EventName>)

  /** The state after a make function: unchanged if the guard member exists, otherwise the mix-in applied. */
  function Made(s: HostState, mixin: Mixin, callback: Option<CallbackId>): HostState {
    if Guard(mixin) in s.functions then s
    else
      var copied := s.(functions := Overlay(s.functions, Copyable(Members(mixin), Maker(mixin)), mixin));
      match mixin
      case Movable => copied.(isMovable := true, isPublisher := true)
      case Selectable => copied.(isSelectable := true, selectMe := callback, isPublisher := true)
      case Openable => copied.(isOpenable := true, openMe := callback, isPublisher := true)
  }

  /** Applying a make function twice is applying it once; the second call keeps the first callback. */
  lemma {:induction false} MadeIdempotent(s: HostState, mixin: Mixin, first: Option<CallbackId>, second: Option<CallbackId>)
    ensures Made(Made(s, mixin, first), mixin, second) == Made(s, mixin, first)
  {
    if Guard(mixin) !in s.functions {
      assert Guard(mixin) in Members(mixin);
      assert Guard(mixin) in Copyable(Members(mixin), Maker(mixin));
    }
  }

  /**
   * A make function applied to a target without the guard member adds every
   * action of the mix-in, from the mix-in, and not the make function itself;
   * other function properties keep their source.
   */
  lemma {:induction false} MadeCopiesActions(s: HostState, mixin: Mixin, callback: Option<CallbackId>)
    requires Guard(mixin) !in s.functions
    ensures var f := Made(s, mixin, callback).functions;
      && (forall n :: n in Members(mixin) && n != Maker(mixin) ==> n in f && f[n] == MixinFunction(mixin))
      && (Maker(mixin) in f <==> Maker(mixin) in s.functions)
      && (forall n :: n in s.functions && n !in Members(mixin) ==> n in f && f[n] == s.functions[n])
      && f.Keys == s.functions.Keys + Copyable(Members(mixin), Maker(mixin))
  {
    var f := Made(s, mixin, callback).functions;
    assert f == Overlay(s.functions, Copyable(Members(mixin), Maker(mixin)), mixin);
    forall n | n in Members(mixin) && n != Maker(mixin)
      ensures n in f && f[n] == MixinFunction(mixin)
    {
      assert n in Copyable(Members(mixin), Maker(mixin));
    }
  }

  /** A make function changes only the functions, its own flag and callback, and the publisher flag. */
  lemma MadeKeepsTheRest(s: HostState, mixin: Mixin, callback: Option<CallbackId>)
    ensures var t := Made(s, mixin, callback);
      t.latitude == s.latitude && t.longitude == s.longitude && t.fired == s.fired
      && (mixin != Movable ==> t.isMovable == s.isMovable)
      && (mixin != Selectable ==> t.isSelectable == s.isSelectable && t.selectMe == s.selectMe)
      && (mixin != Openable ==> t.isOpenable == s.isOpenable && t.openMe == s.openMe)
  {
  }

  /** An object that capabilities are mixed into. */
  class Host {
    var functions: map<string, FunctionSource>
    var isMovable: bool
    var isSelectable: bool
    var isOpenable: bool
    var selectMe: Option<CallbackId>
    var openMe: Option<CallbackId>
    var isPublisher: bool
    var latitude: Num
    var longitude: Num
    var fired: seq<EventName>

    /** A plain object with its own function properties and a location, and no capability yet. */
    constructor (functions: map<string, FunctionSource>, latitude: Num, longitude: Num)
      ensures State() == HostState(functions, false, false, false, None, None, false, latitude, longitude, [])
    {
      this.functions := functions;
      isMovable, isSelectable, isOpenable := false, false, false;
      selectMe, openMe := None, None;
      isPublisher := false;
      this.latitude, this.longitude := latitude, longitude;
      fired := [];
    }

    function State(): HostState
      reads this
    {
      HostState(functions, isMovable, isSelectable, isOpenable, selectMe, openMe, isPublisher, latitude, longitude, fired)
    }

    /** Publishes an event with this object as its source. */
    method Fire(e: EventName)
      modifies this
      ensures State() == old(State()).(fired := old(fired) + [e])
    {
      fired := fired + [e];
    }

    /** Fires the move-started event if movable; changes no other field. */
    method MoveStarted()
      modifies this
      ensures State() == if old(isMovable) then old(State()).(fired := old(fired) + [ObjectMoveStarted]) else old(State())
    {
      if isMovable {
        Fire(ObjectMoveStarted);
      }
    }

    /** If movable, moves to the given location and fires one moved event; otherwise changes nothing. */
    method MoveToLatLon(latitude: Num, longitude: Num)
      modifies this
      ensures State() == if old(isMovable)
                         then old(State()).(latitude := latitude, longitude := longitude, fired := old(fired) + [ObjectMoved])
                         else old(State())
    {
      if isMovable {
        this.latitude := latitude;
        this.longitude := longitude;
        Fire(ObjectMoved);
      }
    }

    /** Fires the move-finished event if movable; changes no other field. */
    method MoveFinished()
      modifies this
      ensures State() == if old(isMovable) then old(State()).(fired := old(fired) + [ObjectMoveFinished]) else old(State())
    {
      if isMovable {
        Fire(ObjectMoveFinished);
      }
    }

    /**
     * If selectable, calls the select callback, whose answer is `succeeded`,
     * and fires one selected event when it answers true. A missing callback
     * is a TypeError.
     */
    method Select(succeeded: bool) returns (error: Option<Error>)
      modifies this
      ensures old(isSelectable) && old(selectMe).None? ==> error == Some(TypeError) && State() == old(State())
      ensures !(old(isSelectable) && old(selectMe).None?) ==> error.None?
      ensures State() == if old(isSelectable) && old(selectMe).Some? && succeeded
                         then old(State()).(fired := old(fired) + [ObjectSelected])
                         else old(State())
    {
      error := None;
      if isSelectable {
        if selectMe.None? {
          return Some(TypeError);
        }
        if succeeded {
          Fire(ObjectSelected);
        }
      }
    }

    /**
     * If openable, calls the open callback, whose answer is `succeeded`, and
     * fires one opened event when it answers true. A missing callback is a
     * TypeError.
     */
    method Open(succeeded: bool) returns (error: Option<Error>)
      modifies this
      ensures old(isOpenable) && old(openMe).None? ==> error == Some(TypeError) && State() == old(State())
      ensures !(old(isOpenable) && old(openMe).None?) ==> error.None?
      ensures State() == if old(isOpenable) && old(openMe).Some? && succeeded
                         then old(State()).(fired := old(fired) + [ObjectOpened])
                         else old(State())
    {
      error := None;
      if isOpenable {
        if openMe.None? {
          return Some(TypeError);
        }
        if succeeded {
          Fire(ObjectOpened);
        }
      }
    }
  }

  /** Copying one more name extends the overlay by that name, unless it is the make function. */
  lemma OverlayStep(functions: map<string, FunctionSource>, names: seq<string>, i: nat, mixin: Mixin)
    requires i < |names|
    ensures Overlay(functions, Copyable(names[..i + 1], Maker(mixin)), mixin)
         == if names[i] != Maker(mixin)
            then Overlay(functions, Copyable(names[..i], Maker(mixin)), mixin)[names[i] := MixinFunction(mixin)]
            else Overlay(functions, Copyable(names[..i], Maker(mixin)), mixin)
  {
    assert names[..i + 1] == names[..i] + [names[i]];
    var before := Copyable(names[..i], Maker(mixin));
    assert Copyable(names[..i + 1], Maker(mixin))
        == if names[i] != Maker(mixin) then before + {names[i]} else before;
  }

  /** Copies the mix-in's functions, all but its make function, onto the target, one by one. */
  method CopyFunctions(o: Host, mixin: Mixin)
    modifies o
    ensures o.State() == old(o.State()).(functions := Overlay(old(o.functions), Copyable(Members(mixin), Maker(mixin)), mixin))
  {
    ghost var start := o.State();
    var names := Members(mixin);
    var i := 0;
    while i < |names|
      invariant 0 <= i <= |names|
      invariant o.functions == Overlay(start.functions, Copyable(names[..i], Maker(mixin)), mixin)
      invariant o.State() == start.(functions := o.functions)
    {
      OverlayStep(start.functions, names, i, mixin);
      if names[i] != Maker(mixin) {
        o.functions := o.functions[names[i] := MixinFunction(mixin)];
      }
      i := i + 1;
    }
    assert names[..i] == names;
  }

  /** Makes `o` movable unless it already has `moveToLatLon`. */
  method MakeMovable(o: Host)
    modifies o
    ensures o.State() == Made(old(o.State()), Movable, None)
  {
    if Guard(Movable) in o.functions {
      return;
    }
    CopyFunctions(o, Movable);
    o.isMovable := true;
    o.isPublisher := true;
  }

  /** Makes `o` selectable with the given callback unless it already has `select`. */
  method MakeSelectable(o: Host, selectCallback: Option<CallbackId>)
    modifies o
    ensures o.State() == Made(old(o.State()), Selectable, selectCallback)
  {
    if Guard(Selectable) in o.functions {
      return;
    }
    CopyFunctions(o, Selectable);
    o.isSelectable := true;
    o.selectMe := selectCallback;
    o.isPublisher := true;
  }

  /** Makes `o` openable with the given callback unless it already has `open`. */
  method MakeOpenable(o: Host, openCallback: Option<CallbackId>)
    modifies o
    ensures o.State() == Made(old(o.State()), Openable, openCallback)
  {
    if Guard(Openable) in o.functions {
      return;
    }
    CopyFunctions(o, Openable);
    o.isOpenable := true;
    o.openMe := openCallback;
    o.isPublisher := true;
  }
}
