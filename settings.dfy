/**
 * Saving the globe view to the browser's local storage and restoring it in
 * the next session. Each stored string is represented by the number
 * `Number()` reads back from it; a key that was never written reads as
 * `Number(null)`, which is 0.
 */
module Settings {
  import opened JsValues
  import opened WorldWind

  const LatitudeKey := "startupLatitude"
  const LongitudeKey := "startupLongitude"
  const AltitudeKey := "startupAltitude"
  const RollKey := "startupRoll"
  const TiltKey := "startupTilt"
  const HeadingKey := "startupHeading"

  const SettingsKeys := {LatitudeKey, LongitudeKey, AltitudeKey, HeadingKey, TiltKey, RollKey}

  /** The browser's local storage. */
  class LocalStorage {
    var items: map<string, Num>

    constructor (items: map<string, Num>)
      ensures this.items == items
    {
      this.items := items;
    }

    method SetItem(key: string, value: Num)
      modifies this
      ensures items == old(items)[key := value]
    {
      items := items[key := value];
    }
  }

  /** The storage after a save: the six keys hold the target location and the view's range and angles. */
  function Saved(items: map<string, Num>, latitude: Num, longitude: Num, view: NavState): (r: map<string, Num>)
    ensures r.Keys == items.Keys + SettingsKeys
    ensures r[LatitudeKey] == latitude && r[LongitudeKey] == longitude && r[AltitudeKey] == view.range
    ensures r[HeadingKey] == view.heading && r[TiltKey] == view.tilt && r[RollKey] == view.roll
    ensures forall k :: k in items && k !in SettingsKeys ==> r[k] == items[k]
  {
    items[LatitudeKey := latitude][LongitudeKey := longitude][AltitudeKey := view.range]
         [HeadingKey := view.heading][TiltKey := view.tilt][RollKey := view.roll]
  }

  /**
   * Saves the location of the target terrain and the navigator's range and
   * view angles; without local storage nothing is written.
   */
  method SaveSessionSettings(storage: LocalStorage?, targetLatitude: Num, targetLongitude: Num, view: NavState)
    modifies storage
    ensures storage != null ==> storage.items == Saved(old(storage.items), targetLatitude, targetLongitude, view)
  {
    if storage == null {
      return;
    }
    storage.SetItem(LatitudeKey, targetLatitude);
    storage.SetItem(LongitudeKey, targetLongitude);
    storage.SetItem(AltitudeKey, view.range);
    storage.SetItem(HeadingKey, view.heading);
    storage.SetItem(TiltKey, view.tilt);
    storage.SetItem(RollKey, view.roll);
  }

  /** `Number(localStorage.getItem(key))`: a missing key reads as 0. */
  function ReadNumber(items: map<string, Num>, key: string): (r: Num)
    ensures r.NaN? <==> key in items && items[key].NaN?
    ensures key in items ==> r == items[key]
  {
    if key in items then items[key] else Fin(0.0)
  }

  /**
   * The view after the fallbacks: latitude and longitude fall back together,
   * altitude alone, and heading, tilt and roll together, each group to the
   * start-up configuration when any of its values is NaN.
   */
  function RestoredView(read: NavState): (r: NavState)
    ensures read.latitude.NaN? || read.longitude.NaN? ==>
      r.latitude == StartupLatitude && r.longitude == StartupLongitude
    ensures !read.latitude.NaN? && !read.longitude.NaN? ==>
      r.latitude == read.latitude && r.longitude == read.longitude
    ensures r.range == if read.range.NaN? then StartupAltitude else read.range
    ensures read.heading.NaN? || read.tilt.NaN? || read.roll.NaN? ==>
      r.heading == StartupHeading && r.tilt == StartupTilt && r.roll == StartupRoll
    ensures !read.heading.NaN? && !read.tilt.NaN? && !read.roll.NaN? ==>
      r.heading == read.heading && r.tilt == read.tilt && r.roll == read.roll
    ensures !r.latitude.NaN? && !r.longitude.NaN? && !r.range.NaN?
    ensures !r.heading.NaN? && !r.tilt.NaN? && !r.roll.NaN?
  {
    var r := read;
    var r := if IsNaN(r.latitude) || IsNaN(r.longitude)
             then r.(latitude := StartupLatitude, longitude := StartupLongitude) else r;
    var r := if IsNaN(r.range) then r.(range := StartupAltitude) else r;
    if IsNaN(r.heading) || IsNaN(r.tilt) || IsNaN(r.roll)
    then r.(heading := StartupHeading, tilt := StartupTilt, roll := StartupRoll)
    else r
  }

  /** The six values read from the storage. */
  function ReadView(items: map<string, Num>): NavState {
    NavState(ReadNumber(items, LatitudeKey), ReadNumber(items, LongitudeKey), ReadNumber(items, AltitudeKey),
             ReadNumber(items, HeadingKey), ReadNumber(items, TiltKey), ReadNumber(items, RollKey))
  }

  /** The call restoring a session makes: the controller's `lookAtLatLon(latitude, longitude, altitude)`. */
  datatype LookAtCall = LookAtLatLon(latitude: Num, longitude: Num, altitude: Num)

  /** The look-at a restore from the given storage contents makes. */
  function Restored(items: map<string, Num>): (r: LookAtCall)
    ensures !r.latitude.NaN? && !r.longitude.NaN? && !r.altitude.NaN?
  {
    var view := RestoredView(ReadView(items));
    LookAtLatLon(view.latitude, view.longitude, view.range)
  }

  /**
   * Restores the saved view: no call without local storage; otherwise a
   * look-at of the restored location and altitude. The restored view angles
   * are never applied.
   */
  function RestoreSessionSettings(storage: LocalStorage?): (r: Option<LookAtCall>)
    reads storage
    ensures r.Some? <==> storage != null
    ensures r.Some? ==> !r.value.latitude.NaN? && !r.value.longitude.NaN? && !r.value.altitude.NaN?
    ensures r.Some? ==>
      var lat, lon := ReadNumber(storage.items, LatitudeKey), ReadNumber(storage.items, LongitudeKey);
      if lat.NaN? || lon.NaN? then r.value.latitude == StartupLatitude && r.value.longitude == StartupLongitude
      else r.value.latitude == lat && r.value.longitude == lon
    ensures r.Some? ==>
      var alt := ReadNumber(storage.items, AltitudeKey);
      r.value.altitude == if alt.NaN? then StartupAltitude else alt
  {
    if storage == null then None else Some(Restored(storage.items))
  }

  /** A session saved with numbers restores to the saved location and range, whatever was stored before. */
  lemma SaveThenRestore(items: map<string, Num>, latitude: Num, longitude: Num, view: NavState)
    requires latitude.Fin? && longitude.Fin? && view.range.Fin?
    ensures Restored(Saved(items, latitude, longitude, view)) == LookAtLatLon(latitude, longitude, view.range)
  {
    var read := ReadView(Saved(items, latitude, longitude, view));
    assert read.latitude == latitude && read.longitude == longitude && read.range == view.range;
  }

  /** A NaN stored latitude or longitude restores the start-up location, whatever the other one held. */
  lemma NaNLocationFallsBack(items: map<string, Num>)
    requires ReadNumber(items, LatitudeKey).NaN? || ReadNumber(items, LongitudeKey).NaN?
    ensures Restored(items).latitude == StartupLatitude && Restored(items).longitude == StartupLongitude
  {
  }

  /** A NaN stored altitude restores the start-up altitude and leaves the location as stored. */
  lemma NaNAltitudeFallsBackAlone(items: map<string, Num>)
    requires ReadNumber(items, AltitudeKey).NaN?
    requires !ReadNumber(items, LatitudeKey).NaN? && !ReadNumber(items, LongitudeKey).NaN?
    ensures Restored(items) == LookAtLatLon(ReadNumber(items, LatitudeKey), ReadNumber(items, LongitudeKey), StartupAltitude)
  {
  }

  /** The stored view angles do not affect the restore. */
  lemma AnglesNotApplied(items: map<string, Num>, other: map<string, Num>)
    requires forall k :: k in SettingsKeys - {HeadingKey, TiltKey, RollKey} ==> ReadNumber(items, k) == ReadNumber(other, k)
    ensures Restored(items) == Restored(other)
  {
    assert ReadNumber(items, LatitudeKey) == ReadNumber(other, LatitudeKey);
    assert ReadNumber(items, LongitudeKey) == ReadNumber(other, LongitudeKey);
    assert ReadNumber(items, AltitudeKey) == ReadNumber(other, AltitudeKey);
  }

  /** An empty storage restores to 0, 0, 0: missing keys read as 0, which is not NaN, so nothing falls back. */
  lemma EmptyStorageRestoresZero()
    ensures Restored(map[]) == LookAtLatLon(Fin(0.0), Fin(0.0), Fin(0.0))
  {
  }
}
