/**
 * The simulated map component: a bounded zoom level, the marker list it shows
 * (the supplied markers or four built-in ones), live location updates merged into
 * that list by marker id, the colour rule for markers, and the listener pair it
 * registers with the event bus while mounted.
 */
module GoogleMap {
  import opened Wrappers
  import Records
  import EventBus

  datatype MarkerKind = Driver | Delivery | Warehouse

  datatype MapMarker = MapMarker(
    id: string,
    lat: real,
    lng: real,
    kind: MarkerKind,
    title: string,
    status: Option<string>,
    info: Option<string>,
    speed: Option<real>,
    heading: Option<real>)

  /** The background colour class `getMarkerColor` picks. */
  datatype Color = Green | Gray | Yellow | Blue

  const MinZoom: int := 1
  const MaxZoom: int := 18
  const InitialZoom: int := 12

  const LocationKind: string := "location_update"
  const DeliveryKind: string := "delivery_status"

  /** `handleZoomIn`: one level closer, never past the maximum. */
  function ZoomedIn(z: int): (r: int)
    ensures MinZoom <= z <= MaxZoom ==> MinZoom <= r <= MaxZoom
    ensures z < MaxZoom ==> r == z + 1
    ensures z >= MaxZoom ==> r == MaxZoom
  {
    if z + 1 <= MaxZoom then z + 1 else MaxZoom
  }

  /** `handleZoomOut`: one level further, never past the minimum. */
  function ZoomedOut(z: int): (r: int)
    ensures MinZoom <= z <= MaxZoom ==> MinZoom <= r <= MaxZoom
    ensures z > MinZoom ==> r == z - 1
    ensures z <= MinZoom ==> r == MinZoom
  {
    if z - 1 >= MinZoom then z - 1 else MinZoom
  }

  datatype ZoomClick = In | Out

  /** The zoom level after a sequence of button clicks. */
  function ZoomAfter(z: int, clicks: seq<ZoomClick>): int
    decreases |clicks|
  {
    if clicks == [] then z
    else ZoomAfter(if clicks[0] == In then ZoomedIn(z) else ZoomedOut(z), clicks[1..])
  }

  /** Whatever the clicks, the level starting from 12 stays within [1, 18]. */
  lemma {:induction false} ZoomStaysInRange(z: int, clicks: seq<ZoomClick>)
    requires MinZoom <= z <= MaxZoom
    ensures MinZoom <= ZoomAfter(z, clicks) <= MaxZoom
    decreases |clicks|
  {
    if clicks != [] {
      ZoomStaysInRange(if clicks[0] == In then ZoomedIn(z) else ZoomedOut(z), clicks[1..]);
    }
  }

  /** The four markers shown when the caller supplies none. */
  function DefaultMarkers(): seq<MapMarker> {
    [
      MapMarker("DRV-001", 40.7128, -74.0060, Driver, "Mike Wilson", Some("active"),
        Some("Currently delivering DEL-002"), Some(25.0), Some(45.0)),
      MapMarker("DRV-002", 40.7614, -73.9776, Driver, "Lisa Chen", Some("active"),
        Some("On route to next delivery"), Some(30.0), Some(120.0)),
      MapMarker("delivery-1", 40.7282, -73.7949, Delivery, "Delivery DEL-003", Some("pending"),
        Some("123 Main St, Queens"), None, None),
      MapMarker("warehouse-1", 40.6782, -73.9442, Warehouse, "Main Warehouse", Some("active"),
        Some("Distribution Center"), None, None)
    ]
  }

  /** The markers the first effect installs: the supplied list unless it is empty. */
  function DisplayedMarkers(supplied: seq<MapMarker>): (r: seq<MapMarker>)
    ensures |r| > 0
    ensures supplied != [] ==> r == supplied
    ensures supplied == [] ==> r == DefaultMarkers()
  {
    if |supplied| > 0 then supplied else DefaultMarkers()
  }

  /** `handleLocationUpdate`: move the markers whose id is the update's driver id. */
  function ApplyLocationUpdate(ms: seq<MapMarker>, u: EventBus.LocationUpdate): (r: seq<MapMarker>)
    ensures |r| == |ms|
    ensures forall i :: 0 <= i < |ms| && ms[i].id == u.driverId ==>
              r[i] == ms[i].(lat := u.lat, lng := u.lng, speed := Some(u.speed), heading := Some(u.heading))
    ensures forall i :: 0 <= i < |ms| && ms[i].id != u.driverId ==> r[i] == ms[i]
    ensures forall i :: 0 <= i < |ms| ==>
              r[i].id == ms[i].id && r[i].kind == ms[i].kind && r[i].title == ms[i].title &&
              r[i].status == ms[i].status && r[i].info == ms[i].info
  {
    Records.MapWhere(ms, (m: MapMarker) => m.id == u.driverId,
      (m: MapMarker) => m.(lat := u.lat, lng := u.lng, speed := Some(u.speed), heading := Some(u.heading)))
  }

  /** An update for a driver that has no marker changes nothing. */
  lemma UnknownDriverIgnored(ms: seq<MapMarker>, u: EventBus.LocationUpdate)
    requires forall i :: 0 <= i < |ms| ==> ms[i].id != u.driverId
    ensures ApplyLocationUpdate(ms, u) == ms
  {
  }

  /** `getMarkerColor(type, status)`. */
  function MarkerColor(kind: MarkerKind, status: Option<string>): (r: Color)
    ensures r == Green <==> kind == Driver && status == Some("active")
    ensures r == Gray <==> kind == Driver && status != Some("active")
    ensures r == Yellow <==> kind == Delivery && status == Some("pending")
    ensures r == Blue <==> kind == Warehouse || (kind == Delivery && status != Some("pending"))
  {
    match kind
    case Driver => if status == Some("active") then Green else Gray
    case Delivery => if status == Some("pending") then Yellow else Blue
    case Warehouse => Blue
  }

  /**
   * Mounting subscribes the two handlers and unmounting unsubscribes the same two:
   * when neither was registered before, every kind's list is as it was.
   */
  lemma MountUnmountRestores(reg: EventBus.Registry, onLocation: EventBus.CallbackId, onDelivery: EventBus.CallbackId)
    requires onLocation !in EventBus.Listeners(reg, LocationKind)
    requires onDelivery !in EventBus.Listeners(reg, DeliveryKind)
    ensures EventBus.SameRegistrations(Unmounted(Mounted(reg, onLocation, onDelivery), onLocation, onDelivery), reg)
  {
    var r1 := EventBus.Subscribed(reg, LocationKind, onLocation);
    var r2 := EventBus.Subscribed(r1, DeliveryKind, onDelivery);
    var r3 := EventBus.Unsubscribed(r2, LocationKind, onLocation);
    var r4 := EventBus.Unsubscribed(r3, DeliveryKind, onDelivery);
    EventBus.RemoveFirstAfterAppend(EventBus.Listeners(reg, LocationKind), onLocation);
    EventBus.RemoveFirstAfterAppend(EventBus.Listeners(reg, DeliveryKind), onDelivery);
    forall kind ensures EventBus.Listeners(r4, kind) == EventBus.Listeners(reg, kind) {
      if kind == LocationKind {
        assert EventBus.Listeners(r3, kind) == EventBus.Listeners(reg, kind);
      } else if kind == DeliveryKind {
        assert EventBus.Listeners(r3, kind) == EventBus.Listeners(r2, kind);
      }
    }
  }

  /** The registry after the mount effect's two subscriptions. */
  function Mounted(reg: EventBus.Registry, onLocation: EventBus.CallbackId, onDelivery: EventBus.CallbackId): (r: EventBus.Registry)
    ensures EventBus.Listeners(r, LocationKind) == EventBus.Listeners(reg, LocationKind) + [onLocation]
    ensures EventBus.Listeners(r, DeliveryKind) == EventBus.Listeners(reg, DeliveryKind) + [onDelivery]
    ensures forall k :: k != LocationKind && k != DeliveryKind ==> EventBus.Listeners(r, k) == EventBus.Listeners(reg, k)
  {
    EventBus.Subscribed(EventBus.Subscribed(reg, LocationKind, onLocation), DeliveryKind, onDelivery)
  }

  /** The registry after the effect's cleanup unsubscribes the same two handlers. */
  function Unmounted(reg: EventBus.Registry, onLocation: EventBus.CallbackId, onDelivery: EventBus.CallbackId): (r: EventBus.Registry)
    ensures EventBus.Listeners(r, LocationKind) == EventBus.RemoveFirst(EventBus.Listeners(reg, LocationKind), onLocation)
    ensures EventBus.Listeners(r, DeliveryKind) == EventBus.RemoveFirst(EventBus.Listeners(reg, DeliveryKind), onDelivery)
    ensures forall k :: k != LocationKind && k != DeliveryKind ==> EventBus.Listeners(r, k) == EventBus.Listeners(reg, k)
  {
    EventBus.Unsubscribed(EventBus.Unsubscribed(reg, LocationKind, onLocation), DeliveryKind, onDelivery)
  }

  /** One mounted map: its state and the two handler references its effect created. */
  class MapView {
    var markers: seq<MapMarker>
    var selectedMarker: Option<MapMarker>
    var zoomLevel: int
    var isLoading: bool
    const bus: EventBus.WebSocketService
    const onLocation: EventBus.CallbackId
    const onDelivery: EventBus.CallbackId

    ghost predicate Valid()
      reads this
    {
      MinZoom <= zoomLevel <= MaxZoom
    }

    constructor (bus: EventBus.WebSocketService, onLocation: EventBus.CallbackId, onDelivery: EventBus.CallbackId)
      ensures Valid()
      ensures this.bus == bus && this.onLocation == onLocation && this.onDelivery == onDelivery
      ensures markers == [] && selectedMarker == None && zoomLevel == InitialZoom && isLoading
    {
      this.bus := bus;
      this.onLocation := onLocation;
      this.onDelivery := onDelivery;
      markers := [];
      selectedMarker := None;
      zoomLevel := InitialZoom;
      isLoading := true;
    }

    /** The first effect: install the supplied or the default markers and stop loading. */
    method InstallMarkers(supplied: seq<MapMarker>)
      modifies this
      ensures markers == DisplayedMarkers(supplied) && !isLoading
      ensures zoomLevel == old(zoomLevel) && selectedMarker == old(selectedMarker)
    {
      markers := if |supplied| > 0 then supplied else DefaultMarkers();
      isLoading := false;
    }

    /** The second effect: connect the bus and register the two handlers. */
    method Mount(connectThrows: bool)
      requires bus.Valid()
      modifies bus
      ensures bus.Valid()
      ensures bus.listeners == Mounted(old(bus.listeners), onLocation, onDelivery)
      ensures bus.sent == old(bus.sent)
      ensures !connectThrows ==>
                bus.ws == Some(EventBus.Connecting) && bus.reconnectAttempts == old(bus.reconnectAttempts)
      ensures connectThrows ==>
                bus.ws == old(bus.ws) && bus.reconnectAttempts == EventBus.NextReconnect(old(bus.reconnectAttempts)).0
    {
      var _ := bus.Connect(connectThrows);
      bus.Subscribe(LocationKind, onLocation);
      bus.Subscribe(DeliveryKind, onDelivery);
    }

    /** The second effect's cleanup: unregister the same two handlers. */
    method Unmount()
      modifies bus`listeners
      ensures bus.listeners == Unmounted(old(bus.listeners), onLocation, onDelivery)
      ensures bus.ws == old(bus.ws) && bus.reconnectAttempts == old(bus.reconnectAttempts)
      ensures bus.sent == old(bus.sent)
    {
      bus.Unsubscribe(LocationKind, onLocation);
      bus.Unsubscribe(DeliveryKind, onDelivery);
    }

    /** The location handler, run when the bus dispatches a `location_update`. */
    method OnLocationUpdate(u: EventBus.LocationUpdate)
      modifies this`markers
      ensures markers == ApplyLocationUpdate(old(markers), u)
    {
      markers := ApplyLocationUpdate(markers, u);
    }

    method ZoomIn()
      requires Valid()
      modifies this`zoomLevel
      ensures Valid() && zoomLevel == ZoomedIn(old(zoomLevel))
    {
      zoomLevel := if zoomLevel + 1 <= MaxZoom then zoomLevel + 1 else MaxZoom;
    }

    method ZoomOut()
      requires Valid()
      modifies this`zoomLevel
      ensures Valid() && zoomLevel == ZoomedOut(old(zoomLevel))
    {
      zoomLevel := if zoomLevel - 1 >= MinZoom then zoomLevel - 1 else MinZoom;
    }

    /** `handleMarkerClick`: remember the marker (the caller's own click callback is not modelled). */
    method SelectMarker(m: MapMarker)
      modifies this`selectedMarker
      ensures selectedMarker == Some(m)
    {
      selectedMarker := Some(m);
    }
  }
}
