/**
 * The GPS service: the user's own position and accuracy, from the phone's GPS,
 * from coordinates typed in by hand, or from the desktop mock.
 */
module Gps {
  import opened Wrappers

  class LocationService {
    var latitude: real
    var longitude: real
    var accuracy: real       // metres
    var isActive: bool
    var isMock: bool
    var hasUpdateEvent: bool // `_update_event` is set; nothing in the service ever sets it

    constructor ()
      ensures latitude == 0.0 && longitude == 0.0 && accuracy == 0.0
      ensures !isActive && !isMock && !hasUpdateEvent
    {
      latitude, longitude, accuracy := 0.0, 0.0, 0.0;
      isActive, isMock, hasUpdateEvent := false, false, false;
    }

    /** `_start_mock_gps`: the desktop fallback, at (0, 0) with accuracy 0. */
    method StartMockGps()
      modifies this`latitude, this`longitude, this`accuracy, this`isActive, this`isMock
      ensures latitude == 0.0 && longitude == 0.0 && accuracy == 0.0
      ensures isActive && isMock
    {
      latitude, longitude, accuracy := 0.0, 0.0, 0.0;
      isActive := true;
      isMock := true;
    }

    /** `start`: does nothing when already active. On a phone whose GPS starts, the
        service becomes active and keeps its position until the first fix; when
        the GPS fails to start, and on a desktop, the mock starts. */
    method Start(onMobile: bool, gpsStarts: bool)
      modifies this`latitude, this`longitude, this`accuracy, this`isActive, this`isMock
      ensures old(isActive) ==>
        && latitude == old(latitude) && longitude == old(longitude) && accuracy == old(accuracy)
        && isMock == old(isMock)
      ensures isActive
      ensures !old(isActive) && onMobile && gpsStarts ==>
        && latitude == old(latitude) && longitude == old(longitude) && accuracy == old(accuracy)
        && isMock == old(isMock)
      ensures !old(isActive) && !(onMobile && gpsStarts) ==>
        latitude == 0.0 && longitude == 0.0 && accuracy == 0.0 && isMock
    {
      if isActive {
        return;
      }
      if onMobile && gpsStarts {
        isActive := true;
      } else {
        StartMockGps();
      }
    }

    /** `stop`: does nothing when inactive; otherwise stops the GPS, cancels any
        pending update event and deactivates. The position and the mock flag are
        kept. */
    method Stop()
      modifies this`isActive, this`hasUpdateEvent
      ensures !old(isActive) ==> !isActive && hasUpdateEvent == old(hasUpdateEvent)
      ensures old(isActive) ==> !isActive && !hasUpdateEvent
    {
      if !isActive {
        return;
      }
      hasUpdateEvent := false;
      isActive := false;
    }

    /** `set_manual_location`: exactly the given coordinates, an accuracy of 1 m,
        and an active service; whether it is the mock is left as it was. */
    method SetManualLocation(lat: real, lon: real)
      modifies this`latitude, this`longitude, this`accuracy, this`isActive
      ensures latitude == lat && longitude == lon && accuracy == 1.0 && isActive
    {
      latitude := lat;
      longitude := lon;
      accuracy := 1.0;
      isActive := true;
    }

    /** `_on_location(**kwargs)`: each of `lat`, `lon` and `accuracy` that the
        GPS supplies replaces the current value; the others are kept. */
    method OnLocation(lat: Option<real>, lon: Option<real>, acc: Option<real>)
      modifies this`latitude, this`longitude, this`accuracy
      ensures latitude == (if lat.Some? then lat.value else old(latitude))
      ensures longitude == (if lon.Some? then lon.value else old(longitude))
      ensures accuracy == (if acc.Some? then acc.value else old(accuracy))
    {
      latitude := GetOr(lat, latitude);
      longitude := GetOr(lon, longitude);
      accuracy := GetOr(acc, accuracy);
    }
  }

  /** `kwargs.get(key, default)` for a keyword that may be absent. */
  function GetOr(supplied: Option<real>, current: real): (r: real)
    ensures supplied.Some? ==> r == supplied.value
    ensures supplied.None? ==> r == current
  {
    match supplied
    case Some(v) => v
    case None => current
  }
}
