/**
 * Records of the delivery dispatch engine: deliveries, their clusters
 * (legs) and the timed offers made to drivers, held in one database
 * object that the delivery service and the cluster service share.
 *
 * Timestamps are integers (ticks) supplied by the caller as `now`;
 * 0 stands for default(DateTime). Money is a real (C# decimal).
 */
module DispatchData {
  import opened Common

  datatype Coord = Coord(lat: real, lon: real)

  /** A pair of nullable coordinates, as entities and DTOs store them. */
  datatype Point = Point(lat: Option<real>, lon: Option<real>)
  {
    predicate Known() {
      lat.Some? && lon.Some?
    }

    function At(): Coord
      requires Known()
    {
      Coord(lat.value, lon.value)
    }

    /** C#'s `a ?? b`, applied to each coordinate separately. */
    function OrElse(other: Point): Point {
      Point(if lat.Some? then lat else other.lat, if lon.Some? then lon else other.lon)
    }
  }

  function PointAt(c: Coord): (p: Point)
    ensures p.Known() && p.At() == c
  {
    Point(Some(c.lat), Some(c.lon))
  }

  /** ILocationService: CalculateDistance (km) and GetMidpoint. */
  datatype Geometry = Geometry(distance: (Coord, Coord) -> real, midpoint: (Coord, Coord) -> Coord)

  /** DeliveryAssignmentSettings: MaxDriverDistanceKm, OfferExpiryTime (ticks), MaxRetries. */
  datatype Settings = Settings(maxDriverDistanceKm: real, offerExpiry: int, maxRetries: int)

  /** DeliveryPersonReadDTO as the matcher sees it. */
  datatype Driver = Driver(id: string, userId: Option<string>, position: Point)

  /** What the dispatch engine reads from other services: the list
      GetAvailableDeliveryPersonsAsync returns (empty when it fails), the
      driver look-up by id, and each tech company's coordinates. */
  datatype World = World(available: seq<Driver>, drivers: map<string, Driver>, companies: map<string, Point>)

  datatype DeliveryStatus = Pending | Assigned | PickedUp | Delivered | Cancelled
  {
    predicate Terminal() {
      Delivered? || Cancelled?
    }
  }

  datatype ClusterStatus = Pending | Assigned | Completed | Cancelled

  datatype OfferStatus = Pending | Accepted | Declined | Expired | Cancelled

  datatype Delivery = Delivery(
    id: string,
    orderId: string,
    trackingNumber: Option<string>,
    deliveryAddress: Option<string>,
    customerPhone: Option<string>,
    customerName: Option<string>,
    estimatedDeliveryDate: Option<int>,
    actualDeliveryDate: Option<int>,
    status: DeliveryStatus,
    notes: Option<string>,
    deliveryFee: Option<real>,
    deliveryPersonId: Option<string>,
    customerId: Option<string>,
    dropoff: Point,
    retryCount: int,
    updatedAt: Option<int>)

  /** DeliveryClusterTracking. */
  datatype Tracking = Tracking(location: Option<string>, lastUpdated: int, status: ClusterStatus, driver: Option<string>)

  /** DeliveryCluster: one leg of a delivery. The same shape serves as the
      DeliveryClusterDTO that UpdateClusterAsync receives. */
  datatype Cluster = Cluster(
    id: string,
    deliveryId: string,
    techCompanyId: Option<string>,
    techCompanyName: Option<string>,
    distanceKm: real,
    price: real,
    status: ClusterStatus,
    assignedDriverId: Option<string>,
    assignedDriverName: Option<string>,
    assignmentTime: Option<int>,
    dropoff: Point,
    pickup: Point,
    sequenceOrder: int,
    driverOfferCount: int,
    tracking: Option<Tracking>,
    updatedAt: Option<int>)

  /** DeliveryClusterCreateDTO. */
  datatype ClusterDraft = ClusterDraft(
    techCompanyId: Option<string>,
    techCompanyName: Option<string>,
    distanceKm: real,
    price: real,
    dropoff: Point,
    pickup: Point,
    sequenceOrder: int,
    assignedDriverId: Option<string>)

  /** DeliveryOffer. */
  datatype Offer = Offer(
    id: string,
    deliveryId: string,
    clusterId: Option<string>,
    driverId: string,
    status: OfferStatus,
    createdAt: int,
    respondedAt: Option<int>,
    expiryTime: Option<int>,
    isActive: bool)

  /** The offer the engine opens when it assigns a driver to a cluster. */
  function OpenOffer(id: string, deliveryId: string, clusterId: string, driverId: string,
                     now: int, settings: Settings): (o: Offer)
    ensures o.isActive && o.status.Pending? && o.respondedAt.None?
    ensures o.deliveryId == deliveryId && o.clusterId == Some(clusterId) && o.driverId == driverId
    ensures o.createdAt == now && o.expiryTime == Some(now + settings.offerExpiry)
    ensures o.expiryTime.value > o.createdAt <==> settings.offerExpiry > 0
  {
    Offer(id, deliveryId, Some(clusterId), driverId, OfferStatus.Pending, now, None,
          Some(now + settings.offerExpiry), true)
  }

  /** What an automatic assignment writes on the delivery: the driver,
      and status Assigned. */
  function AssignedTo(d: Delivery, driverId: string): (r: Delivery)
    ensures r.deliveryPersonId == Some(driverId) && r.status == DeliveryStatus.Assigned
    ensures r.(deliveryPersonId := d.deliveryPersonId, status := d.status) == d
  {
    d.(deliveryPersonId := Some(driverId), status := DeliveryStatus.Assigned)
  }

  /** An offer that is active and belongs to (clusterId, driverId). */
  predicate ActiveFor(o: Offer, clusterId: string, driverId: string) {
    o.clusterId == Some(clusterId) && o.driverId == driverId && o.isActive
  }

  /** Index of the first offer matching ActiveFor (FirstOrDefault), if any. */
  function FindActive(offers: seq<Offer>, clusterId: string, driverId: string): (r: Option<nat>)
    ensures r.Some? ==> r.value < |offers| && ActiveFor(offers[r.value], clusterId, driverId)
                        && forall j :: 0 <= j < r.value ==> !ActiveFor(offers[j], clusterId, driverId)
    ensures r.None? ==> forall j :: 0 <= j < |offers| ==> !ActiveFor(offers[j], clusterId, driverId)
  {
    if offers == [] then None
    else if ActiveFor(offers[0], clusterId, driverId) then Some(0)
    else
      var r := FindActive(offers[1..], clusterId, driverId);
      if r.Some? then Some(r.value + 1) else None
  }

  predicate OfferIdUnused(offers: seq<Offer>, id: string) {
    forall i :: 0 <= i < |offers| ==> offers[i].id != id
  }

  /** Only an unanswered offer can be active. */
  predicate ActiveArePending(offers: seq<Offer>) {
    forall i :: 0 <= i < |offers| && offers[i].isActive ==> offers[i].status.Pending?
  }

  /** Each table holds its records under their own ids. */
  predicate DeliveriesKeyed(deliveries: map<string, Delivery>) {
    forall k :: k in deliveries ==> deliveries[k].id == k
  }

  predicate ClustersKeyed(clusters: map<string, Cluster>) {
    forall k :: k in clusters ==> clusters[k].id == k
  }

  /** The shared database: deliveries and clusters keyed by id, offers in
      the order the offer repository enumerates them. */
  class DispatchDb {
    var deliveries: map<string, Delivery>
    var clusters: map<string, Cluster>
    var offers: seq<Offer>

    /** Every record is stored under its own id, and every active offer
        is still Pending. */
    ghost predicate Valid()
      reads this
    {
      && DeliveriesKeyed(deliveries)
      && ClustersKeyed(clusters)
      && ActiveArePending(offers)
    }

    constructor ()
      ensures Valid() && deliveries == map[] && clusters == map[] && offers == []
    {
      deliveries, clusters, offers := map[], map[], [];
    }
  }
}
