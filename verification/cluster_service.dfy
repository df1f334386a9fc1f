/**
 * DeliveryClusterService: creation, update, deletion, driver assignment
 * and tracking of clusters (the legs of a delivery), the list of
 * unassigned clusters, and the cluster-side driver auto-assignment.
 * The leg splitter lives with the delivery service, whose matcher it calls.
 */
module ClusterService {
  import opened Common
  import opened DispatchData
  import Matching

  /** DeliveryClusterMapper.ToEntity for a DeliveryClusterCreateDTO: the
      draft's fields under a new id, owned by deliveryId, status Pending,
      no offers counted, no tracking. */
  function NewCluster(id: string, deliveryId: string, d: ClusterDraft): (c: Cluster)
    ensures c.id == id && c.deliveryId == deliveryId && c.status.Pending?
    ensures c.techCompanyId == d.techCompanyId && c.price == d.price && c.sequenceOrder == d.sequenceOrder
    ensures c.dropoff == d.dropoff && c.pickup == d.pickup && c.assignedDriverId == d.assignedDriverId
    ensures c.driverOfferCount == 0 && c.tracking.None?
  {
    Cluster(id, deliveryId, d.techCompanyId, d.techCompanyName, d.distanceKm, d.price,
            ClusterStatus.Pending, d.assignedDriverId, None, None, d.dropoff, d.pickup,
            d.sequenceOrder, 0, None, None)
  }

  /** DeliveryClusterMapper.UpdateEntity: every field of the DTO replaces
      the entity's, except the id, the tracking record and UpdatedAt. */
  function UpdateEntity(c: Cluster, dto: Cluster): (r: Cluster)
    ensures r.id == c.id && r.tracking == c.tracking && r.updatedAt == c.updatedAt
    ensures r.(id := dto.id, tracking := dto.tracking, updatedAt := dto.updatedAt) == dto
  {
    dto.(id := c.id, tracking := c.tracking, updatedAt := c.updatedAt)
  }

  /** AssignDriverAsync's two writes. */
  function WithDriver(c: Cluster, driverId: string, now: int): (r: Cluster)
    ensures r.assignedDriverId == Some(driverId) && r.assignmentTime == Some(now)
    ensures r.(assignedDriverId := c.assignedDriverId, assignmentTime := c.assignmentTime) == c
  {
    c.(assignedDriverId := Some(driverId), assignmentTime := Some(now))
  }

  /** DeliveryClusterTrackingDTO. */
  datatype TrackingUpdate = TrackingUpdate(location: Option<string>, driverName: Option<string>,
                                           lastUpdated: int, status: ClusterStatus)

  /** UpdateClusterTrackingAsync's rewrite of a cluster. */
  function Tracked(c: Cluster, u: TrackingUpdate, now: int): (r: Cluster)
    ensures r.tracking.Some?
    ensures var t := r.tracking.value;
            && t.location == (if u.location.Some? then u.location
                              else if c.tracking.Some? then c.tracking.value.location else None)
            && t.driver == (if u.driverName.Some? then u.driverName
                            else if c.tracking.Some? then c.tracking.value.driver else None)
            && t.lastUpdated == (if u.lastUpdated == 0 then now else u.lastUpdated)
            && t.status == u.status
    ensures r.updatedAt == Some(now)
    ensures r.(tracking := c.tracking, updatedAt := c.updatedAt) == c
  {
    var t := if c.tracking.Some? then c.tracking.value else Tracking(None, 0, ClusterStatus.Pending, None);
    var t' := Tracking(if u.location.Some? then u.location else t.location,
                       if u.lastUpdated == 0 then now else u.lastUpdated,
                       u.status,
                       if u.driverName.Some? then u.driverName else t.driver);
    c.(tracking := Some(t'), updatedAt := Some(now))
  }

  /** The ids GetUnassignedClustersAsync returns. */
  function Unassigned(clusters: map<string, Cluster>): (r: set<string>)
    ensures forall k :: k in r <==> k in clusters && NullOrEmpty(clusters[k].assignedDriverId)
  {
    set k | k in clusters && NullOrEmpty(clusters[k].assignedDriverId)
  }

  /** Assigning a non-empty driver id takes exactly that cluster off the
      unassigned list; clearing the driver puts it back. */
  lemma UnassignedAfterAssign(clusters: map<string, Cluster>, id: string, driverId: string, now: int)
    requires id in clusters && driverId != ""
    ensures Unassigned(clusters[id := WithDriver(clusters[id], driverId, now)]) == Unassigned(clusters) - {id}
    ensures Unassigned(clusters[id := clusters[id].(assignedDriverId := None)]) == Unassigned(clusters) + {id}
  {
  }

  /** The ids of the clusters that belong to a delivery (GetByDeliveryIdAsync). */
  function OfDelivery(clusters: map<string, Cluster>, deliveryId: string): (r: set<string>)
    ensures forall k :: k in r <==> k in clusters && clusters[k].deliveryId == deliveryId
  {
    set k | k in clusters && clusters[k].deliveryId == deliveryId
  }

  class ClusterService {
    const db: DispatchDb
    const geo: Geometry
    const settings: Settings

    constructor (db: DispatchDb, geo: Geometry, settings: Settings)
      ensures this.db == db && this.geo == geo && this.settings == settings
    {
      this.db, this.geo, this.settings := db, geo, settings;
    }

    /** CreateClusterAsync: a null DTO fails; otherwise exactly one cluster
        is added, under a new id, owned by deliveryId. */
    method CreateCluster(deliveryId: string, dto: Option<ClusterDraft>, newId: string) returns (r: Result<Cluster>)
      requires db.Valid() && newId !in db.clusters
      modifies db
      ensures db.Valid()
      ensures dto.None? ==> r == Err(Invalid) && db.clusters == old(db.clusters)
      ensures dto.Some? ==> r == Ok(NewCluster(newId, deliveryId, dto.value))
                            && db.clusters == old(db.clusters)[newId := r.value]
      ensures db.deliveries == old(db.deliveries) && db.offers == old(db.offers)
    {
      if dto.None? {
        return Err(Invalid);
      }
      var c := NewCluster(newId, deliveryId, dto.value);
      db.clusters := db.clusters[newId := c];
      r := Ok(c);
    }

    /** GetByIdAsync. */
    function Find(id: string): (r: Option<Cluster>)
      reads db
      ensures r.Some? <==> id in db.clusters
      ensures r.Some? ==> r.value == db.clusters[id]
    {
      if id in db.clusters then Some(db.clusters[id]) else None
    }

    /** UpdateClusterAsync: an unknown id fails and changes nothing;
        otherwise the DTO overwrites the stored cluster. */
    method UpdateCluster(id: string, dto: Cluster) returns (r: Result<Cluster>)
      requires db.Valid()
      modifies db
      ensures db.Valid()
      ensures id !in old(db.clusters) ==> r == Err(NotFound) && db.clusters == old(db.clusters)
      ensures id in old(db.clusters) ==> r == Ok(UpdateEntity(old(db.clusters)[id], dto))
                                         && db.clusters == old(db.clusters)[id := r.value]
      ensures db.deliveries == old(db.deliveries) && db.offers == old(db.offers)
    {
      if id !in db.clusters {
        return Err(NotFound);
      }
      var c := UpdateEntity(db.clusters[id], dto);
      db.clusters := db.clusters[id := c];
      r := Ok(c);
    }

    /** DeleteClusterAsync: an unknown id fails and changes nothing; a
        known cluster is removed and nothing else is. */
    method DeleteCluster(id: string) returns (r: Result<bool>)
      requires db.Valid()
      modifies db
      ensures db.Valid()
      ensures id !in old(db.clusters) ==> r == Err(NotFound) && db.clusters == old(db.clusters)
      ensures id in old(db.clusters) ==> r == Ok(true) && db.clusters == old(db.clusters) - {id}
      ensures db.deliveries == old(db.deliveries) && db.offers == old(db.offers)
    {
      if id !in db.clusters {
        return Err(NotFound);
      }
      db.clusters := db.clusters - {id};
      r := Ok(true);
    }

    /** AssignDriverAsync: sets the driver and the assignment time of a
        known cluster and touches no other field. */
    method AssignDriver(id: string, driverId: string, now: int) returns (r: Result<Cluster>)
      requires db.Valid()
      modifies db
      ensures db.Valid()
      ensures id !in old(db.clusters) ==> r == Err(NotFound) && db.clusters == old(db.clusters)
      ensures id in old(db.clusters) ==> r == Ok(WithDriver(old(db.clusters)[id], driverId, now))
                                         && db.clusters == old(db.clusters)[id := r.value]
      ensures db.deliveries == old(db.deliveries) && db.offers == old(db.offers)
    {
      if id !in db.clusters {
        return Err(NotFound);
      }
      var c := WithDriver(db.clusters[id], driverId, now);
      db.clusters := db.clusters[id := c];
      r := Ok(c);
    }

    /** UpdateClusterTrackingAsync. */
    method UpdateClusterTracking(id: string, u: TrackingUpdate, now: int) returns (r: Result<Cluster>)
      requires db.Valid()
      modifies db
      ensures db.Valid()
      ensures id !in old(db.clusters) ==> r == Err(NotFound) && db.clusters == old(db.clusters)
      ensures id in old(db.clusters) ==> r == Ok(Tracked(old(db.clusters)[id], u, now))
                                         && db.clusters == old(db.clusters)[id := r.value]
      ensures db.deliveries == old(db.deliveries) && db.offers == old(db.offers)
    {
      if id !in db.clusters {
        return Err(NotFound);
      }
      var c := Tracked(db.clusters[id], u, now);
      db.clusters := db.clusters[id := c];
      r := Ok(c);
    }

    /** GetUnassignedClustersAsync. */
    function UnassignedClusters(): (r: set<string>)
      reads db
      ensures forall k :: k in r ==> k in db.clusters && NullOrEmpty(db.clusters[k].assignedDriverId)
      ensures forall k :: k in db.clusters && NullOrEmpty(db.clusters[k].assignedDriverId) ==> k in r
    {
      Unassigned(db.clusters)
    }

    /** The cluster service's AutoAssignDriverAsync: on success the nearest
        driver is assigned to the cluster and to the delivery, which becomes
        Assigned; no offer is opened. Any failure changes nothing. */
    method AutoAssignDriver(deliveryId: string, clusterId: string, override: Point, world: World, now: int)
      returns (r: Result<Matching.Candidate>)
      requires db.Valid()
      modifies db
      ensures db.Valid()
      ensures r == Matching.Match(old(db.deliveries), old(db.clusters), deliveryId, clusterId, override, world, settings, geo)
      ensures r.Err? ==> db.deliveries == old(db.deliveries) && db.clusters == old(db.clusters)
      ensures r.Ok? ==> db.clusters == old(db.clusters)[clusterId := WithDriver(old(db.clusters)[clusterId], r.value.driver.id, now)]
                        && db.deliveries == old(db.deliveries)[deliveryId := AssignedTo(old(db.deliveries)[deliveryId], r.value.driver.id)]
      ensures db.offers == old(db.offers)
    {
      r := Matching.Match(db.deliveries, db.clusters, deliveryId, clusterId, override, world, settings, geo);
      if r.Err? {
        return;
      }
      var _ := AssignDriver(clusterId, r.value.driver.id, now);
      db.deliveries := db.deliveries[deliveryId := AssignedTo(db.deliveries[deliveryId], r.value.driver.id)];
    }
  }
}
