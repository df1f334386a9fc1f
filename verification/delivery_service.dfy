/**
 * DeliveryService: the delivery / cluster / offer state machine. Every
 * operation validates its arguments, then rewrites deliveries, clusters
 * and offers as one unit: a failure after the first write restores the
 * state the operation started from (the source's TransactionScope).
 */
module DeliveryService {
  import opened Common
  import opened DispatchData
  import opened Matching
  import CS = ClusterService
  import opened DeliveryMapper

  /** An offer answered now with status st. */
  function Closed(o: Offer, st: OfferStatus, now: int): (r: Offer)
    ensures !r.isActive && r.status == st && r.respondedAt == Some(now)
    ensures r.(status := o.status, isActive := o.isActive, respondedAt := o.respondedAt) == o
  {
    o.(status := st, isActive := false, respondedAt := Some(now))
  }

  /** The offers after every active offer of a delivery is answered with st. */
  function CloseOffers(offers: seq<Offer>, deliveryId: string, st: OfferStatus, now: int): (r: seq<Offer>)
    ensures |r| == |offers|
    ensures forall i :: 0 <= i < |r| && r[i].deliveryId == deliveryId ==> !r[i].isActive
    ensures forall i :: 0 <= i < |r| && !(offers[i].deliveryId == deliveryId && offers[i].isActive) ==> r[i] == offers[i]
    ensures forall i :: 0 <= i < |r| && offers[i].deliveryId == deliveryId && offers[i].isActive ==> r[i] == Closed(offers[i], st, now)
  {
    seq(|offers|, i requires 0 <= i < |offers| =>
      if offers[i].deliveryId == deliveryId && offers[i].isActive then Closed(offers[i], st, now) else offers[i])
  }

  /** The ids of the Pending deliveries that hold an active offer whose
      expiry time is set and not after now (GetDeliveriesWithExpiredOffersAsync). */
  function ExpiredOfferDeliveries(deliveries: map<string, Delivery>, offers: seq<Offer>, now: int): (r: set<string>)
    ensures forall k :: k in r <==>
              k in deliveries && deliveries[k].status.Pending?
              && exists i :: 0 <= i < |offers| && Expired(offers[i], k, now)
  {
    set k | k in deliveries && deliveries[k].status.Pending?
                           && exists i :: 0 <= i < |offers| && Expired(offers[i], k, now)
  }

  predicate Expired(o: Offer, deliveryId: string, now: int) {
    o.deliveryId == deliveryId && o.isActive && o.expiryTime.Some? && o.expiryTime.value <= now
  }

  /** Once a delivery's offers are closed it never shows up with expired
      offers again, whatever its status and whatever the time. */
  lemma ClosedOffersNeverExpire(deliveries: map<string, Delivery>, offers: seq<Offer>, deliveryId: string,
                                st: OfferStatus, now: int, later: int)
    ensures deliveryId !in ExpiredOfferDeliveries(deliveries, CloseOffers(offers, deliveryId, st, now), later)
  {
  }

  /** The map after f is applied to the clusters with the given ids. */
  function Rewrite(m: map<string, Cluster>, ids: set<string>, f: Cluster -> Cluster): (r: map<string, Cluster>)
    ensures r.Keys == m.Keys
    ensures forall k :: k in m ==> r[k] == (if k in ids then f(m[k]) else m[k])
  {
    map k | k in m :: if k in ids then f(m[k]) else m[k]
  }

  /** Rewriting one more id extends the map update by one entry. */
  lemma RewriteOneMore(m: map<string, Cluster>, done: set<string>, id: string, f: Cluster -> Cluster)
    requires id in m && id !in done
    ensures Rewrite(m, done + {id}, f) == Rewrite(m, done, f)[id := f(m[id])]
  {
  }

  /** Moving one id from the pending set to the done set keeps the two
      apart, keeps their union and shrinks the pending set. */
  lemma MoveOne(ids: set<string>, done: set<string>, all: set<string>, id: string)
    requires ids !! done && ids + done == all && id in ids
    ensures (ids - {id}) !! (done + {id}) && (ids - {id}) + (done + {id}) == all
    ensures |ids - {id}| < |ids|
  {
  }

  /** Removing one more key extends the removal by that key. */
  lemma RemoveOneMore(m: map<string, Cluster>, done: set<string>, id: string)
    ensures (m - done) - {id} == m - (done + {id})
  {
  }

  /** f changes no field that UpdateClusterAsync leaves alone. */
  ghost predicate KeepsIdentity(f: Cluster -> Cluster) {
    forall c :: f(c).id == c.id && f(c).tracking == c.tracking && f(c).updatedAt == c.updatedAt
  }

  /** The leg CancelDeliveryAsync writes: Cancelled, with no driver. */
  function CancelledLeg(c: Cluster): (r: Cluster)
    ensures r.status.Cancelled? && r.assignedDriverId.None? && r.assignedDriverName.None? && r.assignmentTime.None?
    ensures r.(status := c.status, assignedDriverId := c.assignedDriverId,
               assignedDriverName := c.assignedDriverName, assignmentTime := c.assignmentTime) == c
  {
    c.(status := ClusterStatus.Cancelled, assignedDriverId := None, assignedDriverName := None, assignmentTime := None)
  }

  /** The leg CompleteDeliveryAsync writes: Completed, keeping its driver. */
  function CompletedLeg(c: Cluster): (r: Cluster)
    ensures r.status.Completed? && r.(status := c.status) == c
  {
    c.(status := ClusterStatus.Completed)
  }

  /** The leg DeclineDeliveryAsync writes: Pending, with no driver, and one
      more offer counted. */
  function DeclinedLeg(c: Cluster): (r: Cluster)
    ensures r.status.Pending? && r.assignedDriverId.None? && r.assignedDriverName.None? && r.assignmentTime.None?
    ensures r.driverOfferCount == c.driverOfferCount + 1
    ensures r.(status := c.status, assignedDriverId := c.assignedDriverId, assignedDriverName := c.assignedDriverName,
               assignmentTime := c.assignmentTime, driverOfferCount := c.driverOfferCount) == c
  {
    c.(status := ClusterStatus.Pending, assignedDriverId := None, assignedDriverName := None,
       assignmentTime := None, driverOfferCount := c.driverOfferCount + 1)
  }

  /** The leg AcceptDeliveryAsync leaves behind: Assigned to the accepting
      driver from now on. */
  function AcceptedLeg(c: Cluster, driverId: string, now: int): (r: Cluster)
    ensures r.status.Assigned? && r.assignedDriverId == Some(driverId) && r.assignmentTime == Some(now)
    ensures r.(status := c.status, assignedDriverId := c.assignedDriverId, assignmentTime := c.assignmentTime) == c
  {
    c.(status := ClusterStatus.Assigned, assignedDriverId := Some(driverId), assignmentTime := Some(now))
  }

  /** Cancelling leaves every leg of the delivery without a driver, so all
      of them are listed as unassigned. */
  lemma CancelledLegsUnassigned(m: map<string, Cluster>, deliveryId: string)
    ensures CS.OfDelivery(m, deliveryId) <= CS.Unassigned(Rewrite(m, CS.OfDelivery(m, deliveryId), CancelledLeg))
  {
  }

  /** The checks AcceptDeliveryAsync and DeclineDeliveryAsync make, in
      order, before writing anything; on success the index of the first
      active offer of (clusterId, driverId). */
  function OfferCheck(deliveries: map<string, Delivery>, clusters: map<string, Cluster>, offers: seq<Offer>,
                      clusterId: string, driverId: string): (r: Result<nat>)
    ensures r.Ok? ==>
              && clusterId in clusters && clusters[clusterId].deliveryId in deliveries
              && r.value < |offers| && ActiveFor(offers[r.value], clusterId, driverId)
  {
    if Blank(clusterId) || Blank(driverId) then Err(Invalid)
    else if clusterId !in clusters then Err(NotFound)
    else if clusters[clusterId].assignedDriverId != Some(driverId) then Err(NotAuthorized)
    else if clusters[clusterId].deliveryId !in deliveries then Err(NotFound)
    else
      var i := FindActive(offers, clusterId, driverId);
      if i.None? then Err(NoActiveOffer) else Ok(i.value)
  }

  /** The checks fail in order: blank ids, unknown leg, leg held by
      another driver, and they pass exactly when the leg is the driver's,
      its delivery exists and an offer to the driver is active; the index
      found is that of the first such offer. */
  lemma OfferCheckSpec(deliveries: map<string, Delivery>, clusters: map<string, Cluster>, offers: seq<Offer>,
                       clusterId: string, driverId: string)
    ensures var r := OfferCheck(deliveries, clusters, offers, clusterId, driverId);
            && (Blank(clusterId) || Blank(driverId) ==> r == Err(Invalid))
            && (!Blank(clusterId) && !Blank(driverId) && clusterId !in clusters ==> r == Err(NotFound))
            && (var held := clusterId in clusters && clusters[clusterId].assignedDriverId != Some(driverId);
                !Blank(clusterId) && !Blank(driverId) && held ==> r == Err(NotAuthorized))
            && (r.Ok? <==>
                  && !Blank(clusterId) && !Blank(driverId) && clusterId in clusters
                  && clusters[clusterId].assignedDriverId == Some(driverId)
                  && clusters[clusterId].deliveryId in deliveries
                  && FindActive(offers, clusterId, driverId).Some?)
            && (r.Ok? ==> forall j :: 0 <= j < r.value ==> !ActiveFor(offers[j], clusterId, driverId))
            && (r.Err? ==> r.error in {Invalid, NotFound, NotAuthorized, NoActiveOffer})
  {
  }

  /** Where a split puts the handover: a pickup leg from the company to
      there and a delivery leg from there to the customer. */
  datatype Plan = Keep | Split(company: Coord, customer: Coord)

  /** The decision AcceptDeliveryAsync makes after the offer check: the
      accepting driver must be known and located; a leg from a tech company
      is split when the driver is farther from the company than
      MaxDriverDistanceKm, which needs the company's and the customer's
      locations (the leg's dropoff, else the delivery's). */
  function AcceptPlan(c: Cluster, d: Delivery, driverId: string, world: World, settings: Settings, geo: Geometry): (r: Result<Plan>)
    ensures r.Ok? ==> driverId in world.drivers && world.drivers[driverId].position.Known()
    ensures r.Ok? && r.value.Split? ==>
              && !BlankOpt(c.techCompanyId) && c.techCompanyId.value in world.companies
              && world.companies[c.techCompanyId.value].Known()
              && r.value.company == world.companies[c.techCompanyId.value].At()
              && geo.distance(world.drivers[driverId].position.At(), r.value.company) > settings.maxDriverDistanceKm
              && c.dropoff.OrElse(d.dropoff).Known() && r.value.customer == c.dropoff.OrElse(d.dropoff).At()
    ensures r.Ok? && r.value.Keep? ==>
              BlankOpt(c.techCompanyId)
              || (c.techCompanyId.value in world.companies && world.companies[c.techCompanyId.value].Known()
                  && geo.distance(world.drivers[driverId].position.At(),
                              world.companies[c.techCompanyId.value].At()) <= settings.maxDriverDistanceKm)
    ensures r.Err? ==> r.error in {NotFound, MissingLocation}
  {
    if driverId !in world.drivers then Err(NotFound)
    else
      var p := world.drivers[driverId].position;
      if !p.Known() then Err(MissingLocation)
      else if BlankOpt(c.techCompanyId) then Ok(Keep)
      else
        var company := c.techCompanyId.value;
        if company !in world.companies || !world.companies[company].Known() then Err(MissingLocation)
        else
          var at := world.companies[company].At();
          if geo.distance(p.At(), at) <= settings.maxDriverDistanceKm then Ok(Keep)
          else
            var customer := c.dropoff.OrElse(d.dropoff);
            if !customer.Known() then Err(MissingLocation) else Ok(Split(at, customer.At()))
  }

  /** The checks SplitClusterAsync makes: the leg must name a tech company
      with a known location, the driver must be located and farther from
      the company than MaxDriverDistanceKm, and the customer must be located. */
  function SplitCheck(c: Cluster, d: Delivery, driver: Driver, world: World, settings: Settings, geo: Geometry): (r: Result<Plan>)
    ensures BlankOpt(c.techCompanyId) ==> r == Err(Invalid)
    ensures r.Ok? ==> r.value.Split? && !BlankOpt(c.techCompanyId) && driver.position.Known()
                      && c.techCompanyId.value in world.companies && world.companies[c.techCompanyId.value].Known()
                      && r.value.company == world.companies[c.techCompanyId.value].At()
                      && geo.distance(driver.position.At(), r.value.company) > settings.maxDriverDistanceKm
                      && c.dropoff.OrElse(d.dropoff).Known() && r.value.customer == c.dropoff.OrElse(d.dropoff).At()
    ensures r == Err(NoSplitNeeded) <==>
              && !BlankOpt(c.techCompanyId) && c.techCompanyId.value in world.companies
              && world.companies[c.techCompanyId.value].Known() && driver.position.Known()
              && geo.distance(driver.position.At(), world.companies[c.techCompanyId.value].At()) <= settings.maxDriverDistanceKm
    ensures r.Err? ==> r.error in {Invalid, MissingLocation, NoSplitNeeded}
  {
    if BlankOpt(c.techCompanyId) then Err(Invalid)
    else
      var company := c.techCompanyId.value;
      if company !in world.companies || !world.companies[company].Known() then Err(MissingLocation)
      else if !driver.position.Known() then Err(MissingLocation)
      else
        var at := world.companies[company].At();
        if geo.distance(driver.position.At(), at) <= settings.maxDriverDistanceKm then Err(NoSplitNeeded)
        else
          var customer := c.dropoff.OrElse(d.dropoff);
          if !customer.Known() then Err(MissingLocation) else Ok(Split(at, customer.At()))
  }

  /** Accepting a tech-company leg splits it exactly when SplitClusterAsync
      would split it for the accepting driver, at the same handover. */
  lemma AcceptSplitsLikeSplitCluster(c: Cluster, d: Delivery, driverId: string, world: World, settings: Settings, geo: Geometry)
    requires driverId in world.drivers && world.drivers[driverId].position.Known()
    requires AcceptPlan(c, d, driverId, world, settings, geo).Ok?
    ensures AcceptPlan(c, d, driverId, world, settings, geo).value.Split?
            <==> SplitCheck(c, d, world.drivers[driverId], world, settings, geo).Ok?
    ensures AcceptPlan(c, d, driverId, world, settings, geo).value.Split? ==>
              AcceptPlan(c, d, driverId, world, settings, geo) == SplitCheck(c, d, world.drivers[driverId], world, settings, geo)
  {
  }

  /** The pickup leg of a split: from the company to the handover point,
      half the price, the original sequence number, no driver yet. */
  function PickupDraft(c: Cluster, company: Coord, customer: Coord, geo: Geometry): (p: ClusterDraft)
    ensures p.price == c.price / 2.0 && p.sequenceOrder == c.sequenceOrder
    ensures p.techCompanyId == c.techCompanyId && p.techCompanyName == c.techCompanyName && p.assignedDriverId.None?
    ensures p.dropoff == PointAt(geo.midpoint(company, customer)) && !p.pickup.Known()
    ensures p.distanceKm == geo.distance(company, geo.midpoint(company, customer))
  {
    var h := geo.midpoint(company, customer);
    ClusterDraft(c.techCompanyId, c.techCompanyName, geo.distance(company, h), c.price / 2.0,
                 PointAt(h), Point(None, None), c.sequenceOrder, None)
  }

  /** The delivery leg of a split: from the handover point to the customer,
      half the price, the next sequence number, pre-assigned to the driver. */
  function DeliveryLegDraft(c: Cluster, company: Coord, customer: Coord, driverId: string, geo: Geometry): (l: ClusterDraft)
    ensures l.price == c.price / 2.0 && l.sequenceOrder == c.sequenceOrder + 1
    ensures l.assignedDriverId == Some(driverId) && l.techCompanyId.None?
    ensures l.pickup == PointAt(geo.midpoint(company, customer)) && l.dropoff == PointAt(customer)
    ensures l.distanceKm == geo.distance(geo.midpoint(company, customer), customer)
  {
    var h := geo.midpoint(company, customer);
    ClusterDraft(None, None, geo.distance(h, customer), c.price / 2.0, PointAt(customer), PointAt(h),
                 c.sequenceOrder + 1, Some(driverId))
  }

  /** The two legs of a split share the price, follow each other, and meet
      at the handover point. */
  lemma SplitLegsFit(c: Cluster, company: Coord, customer: Coord, driverId: string, geo: Geometry)
    ensures var p, l := PickupDraft(c, company, customer, geo), DeliveryLegDraft(c, company, customer, driverId, geo);
            && p.price + l.price == c.price
            && l.sequenceOrder == p.sequenceOrder + 1
            && p.dropoff == l.pickup
  {
  }

  /** The cluster AcceptDeliveryAsync writes at the end, AS WRITTEN: the DTO
      is built from the accepted cluster c, whatever leg it is written to. */
  function AcceptUpdateAsWritten(c: Cluster, target: Cluster, deliveryId: string, driverId: string, now: int): (r: Cluster)
    ensures r.id == target.id && r.tracking == target.tracking && r.updatedAt == target.updatedAt
    ensures r.deliveryId == deliveryId && r.status == ClusterStatus.Assigned
            && r.assignedDriverId == Some(driverId) && r.assignmentTime == Some(now)
    ensures r.price == c.price && r.sequenceOrder == c.sequenceOrder && r.pickup == c.pickup && r.dropoff == c.dropoff
            && r.techCompanyId == c.techCompanyId && r.distanceKm == c.distanceKm
  {
    CS.UpdateEntity(target, c.(id := target.id, deliveryId := deliveryId, status := ClusterStatus.Assigned,
                               assignedDriverId := Some(driverId), assignmentTime := Some(now)))
  }

  /** Without a split the final write is the accepted cluster itself. */
  lemma AcceptUpdateAgreesWithoutSplit(c: Cluster, driverId: string, now: int)
    ensures AcceptUpdateAsWritten(c, c, c.deliveryId, driverId, now) == AcceptedLeg(c, driverId, now)
  {
  }

  /** After a split the final write, as written, gives the delivery leg the
      full price and the sequence number of the leg it replaced: the halving
      and the s+1 of the split are undone. */
  lemma AcceptUpdateUndoesSplit(c: Cluster, company: Coord, customer: Coord, legId: string, driverId: string,
                                geo: Geometry, now: int)
    requires c.price != 0.0
    ensures var leg := CS.NewCluster(legId, c.deliveryId, DeliveryLegDraft(c, company, customer, driverId, geo));
            var w := AcceptUpdateAsWritten(c, leg, c.deliveryId, driverId, now);
            && w.price == c.price && leg.price == c.price / 2.0 && w.price != leg.price
            && w.sequenceOrder == c.sequenceOrder && leg.sequenceOrder == c.sequenceOrder + 1
            && w.techCompanyId == c.techCompanyId && w.pickup == c.pickup
  {
  }

  /** The accept split with the final write corrected: the delivery leg
      keeps half the price and sequence number s+1 and only becomes
      Assigned to the accepting driver. */
  lemma AcceptedDeliveryLegKeepsSplit(c: Cluster, company: Coord, customer: Coord, legId: string, driverId: string,
                                      geo: Geometry, now: int)
    ensures var leg := AcceptedLeg(CS.NewCluster(legId, c.deliveryId, DeliveryLegDraft(c, company, customer, driverId, geo)), driverId, now);
            && leg.price == c.price / 2.0 && leg.sequenceOrder == c.sequenceOrder + 1
            && leg.status.Assigned? && leg.assignedDriverId == Some(driverId)
            && leg.pickup == PointAt(geo.midpoint(company, customer)) && leg.dropoff == PointAt(customer)
  {
  }

  /** The pickup leg a split creates, under its new id. */
  function PickupLeg(c: Cluster, company: Coord, customer: Coord, pickupId: string, geo: Geometry): Cluster {
    CS.NewCluster(pickupId, c.deliveryId, PickupDraft(c, company, customer, geo))
  }

  /** The delivery leg a split creates, under its new id. */
  function DeliveryLeg(c: Cluster, company: Coord, customer: Coord, legId: string, driverId: string, geo: Geometry): Cluster {
    CS.NewCluster(legId, c.deliveryId, DeliveryLegDraft(c, company, customer, driverId, geo))
  }

  /** The customer location of a create request. */
  function Customer(dto: DeliveryCreate): Coord {
    Coord(dto.customerLat, dto.customerLon)
  }

  /** The legs a create request lists (null is none). */
  function Drafts(dto: DeliveryCreate): seq<ClusterDraft> {
    dto.clusters.GetOr([])
  }

  /** The delivery CreateAsync adds: the mapped fields under the new id,
      the order id, and the customer location as its dropoff. */
  function NewDelivery(id: string, dto: DeliveryCreate): (d: Delivery)
    ensures d.id == id && d.orderId == dto.orderId.GetOr("") && d.dropoff == PointAt(Customer(dto))
    ensures d.retryCount == 0 && d.status == DeliveryStatus.Assigned
  {
    MapToDelivery(id, Some(dto)).value.(orderId := dto.orderId.GetOr(""), dropoff := PointAt(Customer(dto)))
  }

  /** CreateAsync refuses a null request, a blank order id and a negative
      customer coordinate. */
  predicate CreateAccepted(dto: Option<DeliveryCreate>) {
    dto.Some? && !BlankOpt(dto.value.orderId) && dto.value.customerLat >= 0.0 && dto.value.customerLon >= 0.0
  }

  /** A listed leg that arrives without a driver is auto-assigned. */
  predicate NeedsDriver(draft: ClusterDraft) {
    BlankOpt(draft.assignedDriverId)
  }

  /** Some of the first k drafts arrives without a driver. */
  predicate NeedsAny(drafts: seq<ClusterDraft>, k: nat)
    requires k <= |drafts|
  {
    k > 0 && (NeedsAny(drafts, k - 1) || NeedsDriver(drafts[k - 1]))
  }

  /** NeedsAny holds exactly when one of the first k drafts needs a
      driver. */
  lemma {:induction false} NeedsAnySpec(drafts: seq<ClusterDraft>, k: nat)
    requires k <= |drafts|
    ensures NeedsAny(drafts, k) <==> exists j :: 0 <= j < k && NeedsDriver(drafts[j])
  {
    if k > 0 {
      NeedsAnySpec(drafts, k - 1);
      if NeedsAny(drafts, k) && !NeedsDriver(drafts[k - 1]) {
        var j :| 0 <= j < k - 1 && NeedsDriver(drafts[j]);
        assert 0 <= j < k;
      }
    }
  }

  lemma NeedsAnyStep(drafts: seq<ClusterDraft>, k: nat)
    requires k < |drafts|
    ensures NeedsAny(drafts, k + 1) <==> NeedsAny(drafts, k) || NeedsDriver(drafts[k])
  {
  }

  /** One leg that needs a driver is enough for the whole list. */
  lemma NeedsAnyWitness(drafts: seq<ClusterDraft>, k: nat)
    requires k < |drafts| && NeedsDriver(drafts[k])
    ensures NeedsAny(drafts, |drafts|)
  {
    NeedsAnySpec(drafts, |drafts|);
  }

  /** Leg k of a created delivery: the draft sent to the customer, and,
      when it came without a driver, given the driver the matcher chose. */
  function CreatedLeg(deliveryId: string, draft: ClusterDraft, id: string, customer: Coord, driver: string, now: int): (c: Cluster)
    ensures c.id == id && c.deliveryId == deliveryId && c.dropoff == PointAt(customer)
    ensures c.price == draft.price && c.sequenceOrder == draft.sequenceOrder && c.pickup == draft.pickup
    ensures c.assignedDriverId == (if NeedsDriver(draft) then Some(driver) else draft.assignedDriverId)
  {
    var c := CS.NewCluster(id, deliveryId, draft.(dropoff := PointAt(customer)));
    if NeedsDriver(draft) then CS.WithDriver(c, driver, now) else c
  }

  /** The legs created for the first k drafts, keyed by their new ids. */
  function CreatedLegs(deliveryId: string, drafts: seq<ClusterDraft>, ids: seq<string>, customer: Coord,
                       driver: string, now: int, k: nat): (m: map<string, Cluster>)
    requires k <= |drafts| <= |ids|
    ensures forall key :: key in m ==> m[key].id == key && m[key].deliveryId == deliveryId
  {
    if k == 0 then map[]
    else CreatedLegs(deliveryId, drafts, ids, customer, driver, now, k - 1)[ids[k - 1] := CreatedLeg(deliveryId, drafts[k - 1], ids[k - 1], customer, driver, now)]
  }

  /** Exactly the first k ids are keys of the created legs. */
  lemma {:induction false} CreatedLegsKeys(deliveryId: string, drafts: seq<ClusterDraft>, ids: seq<string>, customer: Coord,
                                           driver: string, now: int, k: nat)
    requires k <= |drafts| <= |ids|
    ensures forall key :: key in CreatedLegs(deliveryId, drafts, ids, customer, driver, now, k) <==> key in ids[..k]
  {
    if k > 0 {
      CreatedLegsKeys(deliveryId, drafts, ids, customer, driver, now, k - 1);
      assert ids[..k] == ids[..k - 1] + [ids[k - 1]];
    }
  }

  /** The offers opened for the first k drafts, in order: one for each
      draft that needed a driver. */
  function CreatedOffers(deliveryId: string, drafts: seq<ClusterDraft>, ids: seq<string>, offerIds: seq<string>,
                         driver: string, now: int, settings: Settings, k: nat): (os: seq<Offer>)
    requires k <= |drafts| <= |ids| && |drafts| <= |offerIds|
    ensures |os| <= k
    ensures forall i :: 0 <= i < |os| ==> os[i].isActive && os[i].status.Pending? && os[i].id in offerIds[..k]
  {
    if k == 0 then []
    else
      var prev := CreatedOffers(deliveryId, drafts, ids, offerIds, driver, now, settings, k - 1);
      assert offerIds[..k - 1] <= offerIds[..k];
      if NeedsDriver(drafts[k - 1]) then prev + [OpenOffer(offerIds[k - 1], deliveryId, ids[k - 1], driver, now, settings)]
      else prev
  }

  /** Every listed leg appears under its new id. */
  lemma {:induction false} CreatedLegsComplete(deliveryId: string, drafts: seq<ClusterDraft>, ids: seq<string>,
                                               customer: Coord, driver: string, now: int, k: nat)
    requires k <= |drafts| <= |ids|
    requires forall i, j :: 0 <= i < j < |ids| ==> ids[i] != ids[j]
    ensures forall j :: 0 <= j < k ==>
              ids[j] in CreatedLegs(deliveryId, drafts, ids, customer, driver, now, k)
              && CreatedLegs(deliveryId, drafts, ids, customer, driver, now, k)[ids[j]]
                 == CreatedLeg(deliveryId, drafts[j], ids[j], customer, driver, now)
  {
    if k > 0 {
      CreatedLegsComplete(deliveryId, drafts, ids, customer, driver, now, k - 1);
    }
  }

  /** The delivery gets an offer exactly when some listed leg arrived
      without a driver. */
  lemma {:induction false} CreatedOffersWhenNeeded(deliveryId: string, drafts: seq<ClusterDraft>, ids: seq<string>,
                                                   offerIds: seq<string>, driver: string, now: int, settings: Settings, k: nat)
    requires k <= |drafts| <= |ids| && |drafts| <= |offerIds|
    ensures CreatedOffers(deliveryId, drafts, ids, offerIds, driver, now, settings, k) == []
            <==> forall j :: 0 <= j < k ==> !NeedsDriver(drafts[j])
  {
    if k > 0 {
      CreatedOffersWhenNeeded(deliveryId, drafts, ids, offerIds, driver, now, settings, k - 1);
    }
  }

  /** Overwriting an entry after removing another key is removing it
      after overwriting. */
  lemma SwapUpdateRemove(m: map<string, Cluster>, k: string, v: Cluster, w: Cluster, gone: string)
    requires k != gone
    ensures (m[k := v] - {gone})[k := w] == m[k := w] - {gone}
  {
  }

  /** Adding an entry to the right operand of a union adds it to the union. */
  lemma UnionUpdate(a: map<string, Cluster>, b: map<string, Cluster>, k: string, v: Cluster)
    ensures a + b[k := v] == (a + b)[k := v]
  {
  }

  /** What the first k steps of CreateAsync's loop have written: the legs
      and offers of the first k drafts, and the delivery, assigned to the
      matched driver once some leg needed one. */
  ghost predicate CreateProgress(deliveries: map<string, Delivery>, clusters: map<string, Cluster>, offers: seq<Offer>,
                                 d0: map<string, Delivery>, c0: map<string, Cluster>, o0: seq<Offer>, newId: string,
                                 base: Delivery, drafts: seq<ClusterDraft>, ids: seq<string>, offerIds: seq<string>,
                                 customer: Coord, n: Result<Candidate>, now: int, settings: Settings, k: nat)
  {
    && k <= |drafts| <= |ids| && |drafts| <= |offerIds|
    && (NeedsAny(drafts, k) ==> n.Ok?)
    && var driver := if n.Ok? then n.value.driver.id else "";
    && deliveries == d0[newId := if NeedsAny(drafts, k) then AssignedTo(base, driver) else base]
    && clusters == c0 + CreatedLegs(newId, drafts, ids, customer, driver, now, k)
    && offers == o0 + CreatedOffers(newId, drafts, ids, offerIds, driver, now, settings, k)
  }

  /** The ids CreateAsync is handed for its legs and offers: non-blank,
      pairwise distinct and unused before the first step. */
  ghost predicate FreshIds(c0: map<string, Cluster>, o0: seq<Offer>, ids: seq<string>, offerIds: seq<string>) {
    && (forall j :: 0 <= j < |ids| ==> !Blank(ids[j]) && ids[j] !in c0)
    && (forall i, j :: 0 <= i < j < |ids| ==> ids[i] != ids[j])
    && (forall j :: 0 <= j < |offerIds| ==> OfferIdUnused(o0, offerIds[j]))
    && (forall i, j :: 0 <= i < j < |offerIds| ==> offerIds[i] != offerIds[j])
  }

  /** Leg k's ids are still free after k steps. */
  lemma CreateProgressFresh(deliveries: map<string, Delivery>, clusters: map<string, Cluster>, offers: seq<Offer>,
                            d0: map<string, Delivery>, c0: map<string, Cluster>, o0: seq<Offer>, newId: string,
                            base: Delivery, drafts: seq<ClusterDraft>, ids: seq<string>, offerIds: seq<string>,
                            customer: Coord, n: Result<Candidate>, now: int, settings: Settings, k: nat)
    requires CreateProgress(deliveries, clusters, offers, d0, c0, o0, newId, base, drafts, ids, offerIds, customer, n, now, settings, k)
    requires k < |drafts|
    requires FreshIds(c0, o0, ids, offerIds)
    ensures !Blank(ids[k]) && ids[k] !in clusters && OfferIdUnused(offers, offerIds[k])
  {
    var driver := if n.Ok? then n.value.driver.id else "";
    var os := CreatedOffers(newId, drafts, ids, offerIds, driver, now, settings, k);
    CreatedLegsKeys(newId, drafts, ids, customer, driver, now, k);
    assert ids[k] !in ids[..k] by {
      forall j | 0 <= j < k ensures ids[j] != ids[k] { }
    }
    forall j | 0 <= j < |offers| ensures offers[j].id != offerIds[k] {
      if j >= |o0| {
        assert offers[j] == os[j - |o0|];
        assert os[j - |o0|].id in offerIds[..k];
      }
    }
  }

  /** One more step of CreateAsync's loop extends the progress by draft k. */
  lemma CreateProgressStep(d1: map<string, Delivery>, c1: map<string, Cluster>, o1: seq<Offer>,
                           d2: map<string, Delivery>, c2: map<string, Cluster>, o2: seq<Offer>,
                           d0: map<string, Delivery>, c0: map<string, Cluster>, o0: seq<Offer>, newId: string,
                           base: Delivery, drafts: seq<ClusterDraft>, ids: seq<string>, offerIds: seq<string>,
                           customer: Coord, n: Result<Candidate>, now: int, settings: Settings, k: nat)
    requires CreateProgress(d1, c1, o1, d0, c0, o0, newId, base, drafts, ids, offerIds, customer, n, now, settings, k)
    requires k < |drafts|
    requires !NeedsDriver(drafts[k]) ==>
               c2 == c1[ids[k] := CS.NewCluster(ids[k], newId, drafts[k].(dropoff := PointAt(customer)))]
               && d2 == d1 && o2 == o1
    requires NeedsDriver(drafts[k]) ==>
               && n.Ok?
               && c2 == c1[ids[k] := CreatedLeg(newId, drafts[k], ids[k], customer, n.value.driver.id, now)]
               && d2 == d1[newId := AssignedTo(d1[newId], n.value.driver.id)]
               && o2 == o1 + [OpenOffer(offerIds[k], newId, ids[k], n.value.driver.id, now, settings)]
    ensures CreateProgress(d2, c2, o2, d0, c0, o0, newId, base, drafts, ids, offerIds, customer, n, now, settings, k + 1)
  {
    var driver := if n.Ok? then n.value.driver.id else "";
    var legs := CreatedLegs(newId, drafts, ids, customer, driver, now, k);
    var offers := CreatedOffers(newId, drafts, ids, offerIds, driver, now, settings, k);
    var leg := CreatedLeg(newId, drafts[k], ids[k], customer, driver, now);
    NeedsAnyStep(drafts, k);
    UnionUpdate(c0, legs, ids[k], leg);
    if NeedsDriver(drafts[k]) {
      var o := OpenOffer(offerIds[k], newId, ids[k], driver, now, settings);
      assert (o0 + offers) + [o] == o0 + (offers + [o]);
    }
  }

  class DeliveryService {
    const db: DispatchDb
    const clusters: CS.ClusterService
    const geo: Geometry
    const settings: Settings

    /** The delivery service and the cluster service share one database,
        one location service and one set of assignment settings. */
    ghost predicate Wired() {
      clusters.db == db && clusters.geo == geo && clusters.settings == settings
    }

    constructor (clusters: CS.ClusterService)
      ensures this.clusters == clusters && Wired()
    {
      this.db, this.clusters, this.geo, this.settings := clusters.db, clusters, clusters.geo, clusters.settings;
    }

    /** AutoAssignDriverAsync: on success the nearest driver is assigned to
        the cluster and the delivery, which becomes Assigned, and a Pending,
        active offer expiring OfferExpiryTime from now is opened for that
        driver. A failure (the source throws) changes nothing. */
    method AutoAssignDriver(deliveryId: string, clusterId: string, override: Point, world: World, now: int, offerId: string)
      returns (r: Result<Candidate>)
      requires Wired() && db.Valid() && OfferIdUnused(db.offers, offerId)
      modifies db
      ensures db.Valid()
      ensures r == Match(old(db.deliveries), old(db.clusters), deliveryId, clusterId, override, world, settings, geo)
      ensures r.Err? ==> db.deliveries == old(db.deliveries) && db.clusters == old(db.clusters) && db.offers == old(db.offers)
      ensures r.Ok? ==>
                && db.clusters == old(db.clusters)[clusterId := CS.WithDriver(old(db.clusters)[clusterId], r.value.driver.id, now)]
                && db.deliveries == old(db.deliveries)[deliveryId := AssignedTo(old(db.deliveries)[deliveryId], r.value.driver.id)]
                && db.offers == old(db.offers) + [OpenOffer(offerId, deliveryId, clusterId, r.value.driver.id, now, settings)]
    {
      r := Match(db.deliveries, db.clusters, deliveryId, clusterId, override, world, settings, geo);
      if r.Err? {
        return;
      }
      var _ := clusters.AssignDriver(clusterId, r.value.driver.id, now);
      db.deliveries := db.deliveries[deliveryId := AssignedTo(db.deliveries[deliveryId], r.value.driver.id)];
      db.offers := db.offers + [OpenOffer(offerId, deliveryId, clusterId, r.value.driver.id, now, settings)];
    }

    /** AssignDriverToClusterAsync: the cluster gets the driver, the
        delivery gets the driver and status Assigned, and exactly one
        Pending, active offer expiring OfferExpiryTime from now is added. */
    method AssignDriverToCluster(clusterId: string, driverId: string, now: int, offerId: string) returns (r: Result<bool>)
      requires Wired() && db.Valid() && OfferIdUnused(db.offers, offerId)
      modifies db
      ensures db.Valid()
      ensures Blank(clusterId) || Blank(driverId) ==> r == Err(Invalid)
      ensures r.Ok? <==> !Blank(clusterId) && !Blank(driverId) && clusterId in old(db.clusters)
                         && old(db.clusters)[clusterId].deliveryId in old(db.deliveries)
      ensures r.Err? ==> r.error in {Invalid, NotFound}
                         && db.deliveries == old(db.deliveries) && db.clusters == old(db.clusters) && db.offers == old(db.offers)
      ensures r.Ok? ==>
                var dId := old(db.clusters)[clusterId].deliveryId;
                && db.clusters == old(db.clusters)[clusterId := CS.WithDriver(old(db.clusters)[clusterId], driverId, now)]
                && db.deliveries == old(db.deliveries)[dId := AssignedTo(old(db.deliveries)[dId], driverId)]
                && db.offers == old(db.offers) + [OpenOffer(offerId, dId, clusterId, driverId, now, settings)]
    {
      if Blank(clusterId) || Blank(driverId) {
        return Err(Invalid);
      }
      if clusterId !in db.clusters {
        return Err(NotFound);
      }
      var dId := db.clusters[clusterId].deliveryId;
      if dId !in db.deliveries {
        return Err(NotFound);
      }
      var _ := clusters.AssignDriver(clusterId, driverId, now);
      db.deliveries := db.deliveries[dId := AssignedTo(db.deliveries[dId], driverId)];
      db.offers := db.offers + [OpenOffer(offerId, dId, clusterId, driverId, now, settings)];
      r := Ok(true);
    }

    /** Answers every active offer of a delivery with st (the offer loops of
        cancel, complete and delete). */
    method CloseActiveOffers(deliveryId: string, st: OfferStatus, now: int)
      requires db.Valid()
      modifies db
      ensures db.Valid()
      ensures db.offers == CloseOffers(old(db.offers), deliveryId, st, now)
      ensures db.deliveries == old(db.deliveries) && db.clusters == old(db.clusters)
    {
      var o0 := db.offers;
      var i := 0;
      while i < |db.offers|
        invariant 0 <= i <= |db.offers| == |o0|
        invariant db.offers[..i] == CloseOffers(o0, deliveryId, st, now)[..i]
        invariant db.offers[i..] == o0[i..]
        invariant db.Valid()
        invariant db.deliveries == old(db.deliveries) && db.clusters == old(db.clusters)
      {
        assert db.offers[i] == o0[i];
        if db.offers[i].deliveryId == deliveryId && db.offers[i].isActive {
          db.offers := db.offers[i := Closed(db.offers[i], st, now)];
        }
        i := i + 1;
      }
      assert db.offers == db.offers[..i];
    }

    /** Writes f over every leg of a delivery through UpdateClusterAsync
        (the cluster loops of cancel and complete). */
    method RewriteLegs(deliveryId: string, f: Cluster -> Cluster)
      requires Wired() && db.Valid() && KeepsIdentity(f)
      modifies db
      ensures db.Valid()
      ensures db.clusters == Rewrite(old(db.clusters), CS.OfDelivery(old(db.clusters), deliveryId), f)
      ensures db.deliveries == old(db.deliveries) && db.offers == old(db.offers)
    {
      var c0 := db.clusters;
      var ids := CS.OfDelivery(db.clusters, deliveryId);
      var done: set<string> := {};
      while ids != {}
        invariant ids !! done && ids + done == CS.OfDelivery(c0, deliveryId)
        invariant db.clusters == Rewrite(c0, done, f)
        invariant db.Valid()
        invariant db.deliveries == old(db.deliveries) && db.offers == old(db.offers)
        decreases |ids|
      {
        var id :| id in ids;
        var c := db.clusters[id];
        assert c == c0[id];
        var _ := clusters.UpdateCluster(id, f(c));
        assert f(c).id == c.id && f(c).tracking == c.tracking && f(c).updatedAt == c.updatedAt;
        assert CS.UpdateEntity(c, f(c)) == f(c);
        RewriteOneMore(c0, done, id, f);
        MoveOne(ids, done, CS.OfDelivery(c0, deliveryId), id);
        ids, done := ids - {id}, done + {id};
      }
    }

    /** Removes every leg of a delivery through DeleteClusterAsync (the
        cluster loop of delete). */
    method RemoveLegs(deliveryId: string)
      requires Wired() && db.Valid()
      modifies db
      ensures db.Valid()
      ensures db.clusters == old(db.clusters) - CS.OfDelivery(old(db.clusters), deliveryId)
      ensures db.deliveries == old(db.deliveries) && db.offers == old(db.offers)
    {
      var c0 := db.clusters;
      var ids := CS.OfDelivery(db.clusters, deliveryId);
      var done: set<string> := {};
      while ids != {}
        invariant ids !! done && ids + done == CS.OfDelivery(c0, deliveryId)
        invariant db.clusters == c0 - done
        invariant db.Valid()
        invariant db.deliveries == old(db.deliveries) && db.offers == old(db.offers)
        decreases |ids|
      {
        var id :| id in ids;
        var _ := clusters.DeleteCluster(id);
        RemoveOneMore(c0, done, id);
        MoveOne(ids, done, CS.OfDelivery(c0, deliveryId), id);
        ids, done := ids - {id}, done + {id};
      }
    }

    /** CancelDeliveryAsync: refused on a Delivered or Cancelled delivery;
        otherwise the delivery becomes Cancelled, every leg Cancelled with no
        driver, and every active offer Expired and inactive. */
    method Cancel(deliveryId: string, now: int) returns (r: Result<bool>)
      requires Wired() && db.Valid()
      modifies db
      ensures db.Valid()
      ensures Blank(deliveryId) ==> r == Err(Invalid)
      ensures !Blank(deliveryId) && deliveryId !in old(db.deliveries) ==> r == Err(NotFound)
      ensures r == Err(InvalidState) <==>
                !Blank(deliveryId) && deliveryId in old(db.deliveries) && old(db.deliveries)[deliveryId].status.Terminal()
      ensures r.Ok? <==>
                !Blank(deliveryId) && deliveryId in old(db.deliveries) && !old(db.deliveries)[deliveryId].status.Terminal()
      ensures r.Err? ==> db.deliveries == old(db.deliveries) && db.clusters == old(db.clusters) && db.offers == old(db.offers)
      ensures r.Ok? ==>
                && db.deliveries == old(db.deliveries)[deliveryId := old(db.deliveries)[deliveryId].(
                                      status := DeliveryStatus.Cancelled, updatedAt := Some(now))]
                && db.clusters == Rewrite(old(db.clusters), CS.OfDelivery(old(db.clusters), deliveryId), CancelledLeg)
                && db.offers == CloseOffers(old(db.offers), deliveryId, OfferStatus.Expired, now)
    {
      if Blank(deliveryId) {
        return Err(Invalid);
      }
      if deliveryId !in db.deliveries {
        return Err(NotFound);
      }
      var d := db.deliveries[deliveryId];
      if d.status.Delivered? || d.status.Cancelled? {
        return Err(InvalidState);
      }
      db.deliveries := db.deliveries[deliveryId := d.(status := DeliveryStatus.Cancelled, updatedAt := Some(now))];
      RewriteLegs(deliveryId, CancelledLeg);
      CloseActiveOffers(deliveryId, OfferStatus.Expired, now);
      r := Ok(true);
    }

    /** CompleteDeliveryAsync: only the delivery's own driver may complete
        it, and only while it is neither Delivered nor Cancelled; then it
        becomes Delivered now, every leg Completed (keeping its driver), and
        every active offer Accepted and inactive. */
    method Complete(deliveryId: string, driverId: string, now: int) returns (r: Result<bool>)
      requires Wired() && db.Valid()
      modifies db
      ensures db.Valid()
      ensures Blank(deliveryId) || Blank(driverId) ==> r == Err(Invalid)
      ensures !Blank(deliveryId) && !Blank(driverId) && deliveryId !in old(db.deliveries) ==> r == Err(NotFound)
      ensures (!Blank(deliveryId) && !Blank(driverId) && deliveryId in old(db.deliveries)
               && old(db.deliveries)[deliveryId].deliveryPersonId != Some(driverId)) ==> r == Err(NotAuthorized)
      ensures r.Ok? <==>
                && !Blank(deliveryId) && !Blank(driverId) && deliveryId in old(db.deliveries)
                && old(db.deliveries)[deliveryId].deliveryPersonId == Some(driverId)
                && !old(db.deliveries)[deliveryId].status.Terminal()
      ensures r.Err? ==> db.deliveries == old(db.deliveries) && db.clusters == old(db.clusters) && db.offers == old(db.offers)
      ensures r.Ok? ==>
                && db.deliveries == old(db.deliveries)[deliveryId := old(db.deliveries)[deliveryId].(
                                      status := DeliveryStatus.Delivered, actualDeliveryDate := Some(now), updatedAt := Some(now))]
                && db.clusters == Rewrite(old(db.clusters), CS.OfDelivery(old(db.clusters), deliveryId), CompletedLeg)
                && db.offers == CloseOffers(old(db.offers), deliveryId, OfferStatus.Accepted, now)
    {
      if Blank(deliveryId) || Blank(driverId) {
        return Err(Invalid);
      }
      if deliveryId !in db.deliveries {
        return Err(NotFound);
      }
      var d := db.deliveries[deliveryId];
      if d.deliveryPersonId != Some(driverId) {
        return Err(NotAuthorized);
      }
      if d.status.Delivered? || d.status.Cancelled? {
        return Err(InvalidState);
      }
      db.deliveries := db.deliveries[deliveryId := d.(status := DeliveryStatus.Delivered, actualDeliveryDate := Some(now),
                                                      updatedAt := Some(now))];
      RewriteLegs(deliveryId, CompletedLeg);
      CloseActiveOffers(deliveryId, OfferStatus.Accepted, now);
      r := Ok(true);
    }

    /** DeleteAsync, a soft delete: refused on a Delivered delivery;
        otherwise the delivery becomes Cancelled, its legs are removed and
        its active offers become Expired and inactive. */
    method DeleteDelivery(deliveryId: string, now: int) returns (r: Result<bool>)
      requires Wired() && db.Valid()
      modifies db
      ensures db.Valid()
      ensures Blank(deliveryId) ==> r == Err(Invalid)
      ensures !Blank(deliveryId) && deliveryId !in old(db.deliveries) ==> r == Err(NotFound)
      ensures r.Ok? <==>
                !Blank(deliveryId) && deliveryId in old(db.deliveries) && !old(db.deliveries)[deliveryId].status.Delivered?
      ensures r.Err? ==> db.deliveries == old(db.deliveries) && db.clusters == old(db.clusters) && db.offers == old(db.offers)
      ensures r.Ok? ==>
                && db.deliveries == old(db.deliveries)[deliveryId := old(db.deliveries)[deliveryId].(
                                      status := DeliveryStatus.Cancelled, updatedAt := Some(now))]
                && db.clusters == old(db.clusters) - CS.OfDelivery(old(db.clusters), deliveryId)
                && db.offers == CloseOffers(old(db.offers), deliveryId, OfferStatus.Expired, now)
    {
      if Blank(deliveryId) {
        return Err(Invalid);
      }
      if deliveryId !in db.deliveries {
        return Err(NotFound);
      }
      var d := db.deliveries[deliveryId];
      if d.status.Delivered? {
        return Err(InvalidState);
      }
      db.deliveries := db.deliveries[deliveryId := d.(status := DeliveryStatus.Cancelled, updatedAt := Some(now))];
      RemoveLegs(deliveryId);
      CloseActiveOffers(deliveryId, OfferStatus.Expired, now);
      r := Ok(true);
    }

    /** The part of a split that AcceptDeliveryAsync and SplitClusterAsync
        share: create the pickup leg, give it to the driver nearest the
        company (opening an offer), then create the delivery leg for the
        given driver. When the assignment fails the pickup leg has already
        been written and the delivery leg is not. */
    method CreateSplitLegs(c: Cluster, company: Coord, customer: Coord, driverId: string, world: World, now: int,
                           pickupId: string, legId: string, offerId: string) returns (m: Result<Candidate>)
      requires Wired() && db.Valid() && c.deliveryId in db.deliveries
      requires !BlankOpt(c.techCompanyId) && c.techCompanyId.value in world.companies
               && world.companies[c.techCompanyId.value].Known() && company == world.companies[c.techCompanyId.value].At()
      requires !Blank(pickupId) && pickupId !in db.clusters && legId !in db.clusters && pickupId != legId
      requires OfferIdUnused(db.offers, offerId)
      modifies db
      ensures db.Valid()
      ensures m == Nearest(world.available, company, settings, geo)
      ensures m.Err? ==> db.clusters == old(db.clusters)[pickupId := PickupLeg(c, company, customer, pickupId, geo)]
                         && db.deliveries == old(db.deliveries) && db.offers == old(db.offers)
      ensures m.Ok? ==>
                && db.clusters == old(db.clusters)[pickupId := CS.WithDriver(PickupLeg(c, company, customer, pickupId, geo), m.value.driver.id, now)]
                                                  [legId := DeliveryLeg(c, company, customer, legId, driverId, geo)]
                && db.deliveries == old(db.deliveries)[c.deliveryId := AssignedTo(old(db.deliveries)[c.deliveryId], m.value.driver.id)]
                && db.offers == old(db.offers) + [OpenOffer(offerId, c.deliveryId, pickupId, m.value.driver.id, now, settings)]
    {
      var _ := clusters.CreateCluster(c.deliveryId, Some(PickupDraft(c, company, customer, geo)), pickupId);
      MatchIsNearest(db.deliveries, db.clusters, c.deliveryId, pickupId, Point(None, None), world, settings, geo);
      m := AutoAssignDriver(c.deliveryId, pickupId, Point(None, None), world, now, offerId);
      if m.Err? {
        return;
      }
      var _ := clusters.CreateCluster(c.deliveryId, Some(DeliveryLegDraft(c, company, customer, driverId, geo)), legId);
    }

    /** The split branch of AcceptDeliveryAsync, from the moment the offer
        has been answered: create both legs, move the offer to the delivery
        leg, remove the original leg, mark the delivery Assigned and make
        the delivery leg Assigned to the accepting driver. A failure
        restores the state the branch started from. */
    method AcceptSplit(c: Cluster, i: nat, company: Coord, customer: Coord, driverId: string, world: World, now: int,
                       pickupId: string, legId: string, offerId: string) returns (m: Result<Candidate>)
      requires Wired() && db.Valid() && c.id in db.clusters && c.deliveryId in db.deliveries && i < |db.offers|
      requires !BlankOpt(c.techCompanyId) && c.techCompanyId.value in world.companies
               && world.companies[c.techCompanyId.value].Known() && company == world.companies[c.techCompanyId.value].At()
      requires !Blank(pickupId) && pickupId !in db.clusters && legId !in db.clusters && pickupId != legId
      requires OfferIdUnused(db.offers, offerId)
      modifies db
      ensures db.Valid()
      ensures m == Nearest(world.available, company, settings, geo)
      ensures m.Err? ==> db.deliveries == old(db.deliveries) && db.clusters == old(db.clusters) && db.offers == old(db.offers)
      ensures m.Ok? ==>
                && db.clusters == (old(db.clusters)
                                     [pickupId := CS.WithDriver(PickupLeg(c, company, customer, pickupId, geo), m.value.driver.id, now)]
                                     [legId := AcceptedLeg(DeliveryLeg(c, company, customer, legId, driverId, geo), driverId, now)])
                                  - {c.id}
                && db.deliveries == old(db.deliveries)[c.deliveryId := AssignedTo(old(db.deliveries)[c.deliveryId], m.value.driver.id)]
                && db.offers == old(db.offers)[i := old(db.offers)[i].(clusterId := Some(legId))]
                                + [OpenOffer(offerId, c.deliveryId, pickupId, m.value.driver.id, now, settings)]
    {
      var c0, d0, o0 := db.clusters, db.deliveries, db.offers;
      m := CreateSplitLegs(c, company, customer, driverId, world, now, pickupId, legId, offerId);
      if m.Err? {
        db.clusters, db.deliveries, db.offers := c0, d0, o0;
        return;
      }
      assert db.offers[i] == o0[i];
      var leg := db.clusters[legId];
      assert leg == DeliveryLeg(c, company, customer, legId, driverId, geo);
      FinishSplit(c, i, legId, driverId, now);
      SwapUpdateRemove(c0[pickupId := CS.WithDriver(PickupLeg(c, company, customer, pickupId, geo), m.value.driver.id, now)],
                       legId, leg, AcceptedLeg(leg, driverId, now), c.id);
    }

    /** The writes that end an accepted split: the offer moves to the
        delivery leg, the original leg is removed, the delivery becomes
        Assigned and the delivery leg Assigned to the accepting driver. */
    method FinishSplit(c: Cluster, i: nat, legId: string, driverId: string, now: int)
      requires Wired() && db.Valid() && c.deliveryId in db.deliveries && legId in db.clusters && legId != c.id
      requires i < |db.offers|
      modifies db
      ensures db.Valid()
      ensures db.offers == old(db.offers)[i := old(db.offers)[i].(clusterId := Some(legId))]
      ensures db.clusters == old(db.clusters)[legId := AcceptedLeg(old(db.clusters)[legId], driverId, now)] - {c.id}
      ensures db.deliveries == old(db.deliveries)[c.deliveryId := old(db.deliveries)[c.deliveryId].(status := DeliveryStatus.Assigned)]
    {
      db.offers := db.offers[i := db.offers[i].(clusterId := Some(legId))];
      var _ := clusters.DeleteCluster(c.id);
      db.deliveries := db.deliveries[c.deliveryId := db.deliveries[c.deliveryId].(status := DeliveryStatus.Assigned)];
      var leg := db.clusters[legId];
      var _ := clusters.UpdateCluster(legId, AcceptedLeg(leg, driverId, now));
      assert CS.UpdateEntity(leg, AcceptedLeg(leg, driverId, now)) == AcceptedLeg(leg, driverId, now);
    }

    /** AcceptDeliveryAsync. After the offer checks the offer is Accepted;
        the accepting driver must be known and located. When the leg comes
        from a tech company farther from the driver than
        MaxDriverDistanceKm, it is split at the midpoint between company and
        customer: the pickup leg goes to the driver nearest the company (a
        new offer), the accepting driver keeps the delivery leg, the offer
        moves to that leg and the original leg is removed. The delivery
        becomes Assigned, and the leg the driver keeps becomes Assigned to
        them from now on. Any failure restores the starting state. */
    method Accept(clusterId: string, driverId: string, world: World, now: int,
                  pickupId: string, legId: string, offerId: string) returns (r: Result<bool>)
      requires Wired() && db.Valid()
      requires !Blank(pickupId) && pickupId !in db.clusters && legId !in db.clusters && pickupId != legId
      requires OfferIdUnused(db.offers, offerId)
      modifies db
      ensures db.Valid()
      ensures r.Err? ==> db.deliveries == old(db.deliveries) && db.clusters == old(db.clusters) && db.offers == old(db.offers)
      ensures var chk := OfferCheck(old(db.deliveries), old(db.clusters), old(db.offers), clusterId, driverId);
              chk.Err? ==> r == Err(chk.error)
      ensures var chk := OfferCheck(old(db.deliveries), old(db.clusters), old(db.offers), clusterId, driverId);
              chk.Ok? ==>
                var c := old(db.clusters)[clusterId];
                var plan := AcceptPlan(c, old(db.deliveries)[c.deliveryId], driverId, world, settings, geo);
                && (plan.Err? ==> r == Err(plan.error))
                && (plan.Ok? && plan.value.Keep? ==>
                      && r == Ok(true)
                      && db.clusters == old(db.clusters)[clusterId := AcceptedLeg(c, driverId, now)]
                      && db.deliveries == old(db.deliveries)[c.deliveryId := old(db.deliveries)[c.deliveryId].(status := DeliveryStatus.Assigned)]
                      && db.offers == old(db.offers)[chk.value := Closed(old(db.offers)[chk.value], OfferStatus.Accepted, now)])
      ensures var chk := OfferCheck(old(db.deliveries), old(db.clusters), old(db.offers), clusterId, driverId);
              chk.Ok? ==>
                var c := old(db.clusters)[clusterId];
                var plan := AcceptPlan(c, old(db.deliveries)[c.deliveryId], driverId, world, settings, geo);
                plan.Ok? && plan.value.Split? ==>
                  var n := Nearest(world.available, plan.value.company, settings, geo);
                  && (n.Err? ==> r == Err(n.error))
                  && (n.Ok? ==>
                        && r == Ok(true)
                        && db.clusters == (old(db.clusters)
                                             [pickupId := CS.WithDriver(PickupLeg(c, plan.value.company, plan.value.customer, pickupId, geo), n.value.driver.id, now)]
                                             [legId := AcceptedLeg(DeliveryLeg(c, plan.value.company, plan.value.customer, legId, driverId, geo), driverId, now)])
                                          - {clusterId}
                        && db.deliveries == old(db.deliveries)[c.deliveryId := AssignedTo(old(db.deliveries)[c.deliveryId], n.value.driver.id)]
                        && db.offers == old(db.offers)[chk.value := Closed(old(db.offers)[chk.value], OfferStatus.Accepted, now).(clusterId := Some(legId))]
                                        + [OpenOffer(offerId, c.deliveryId, pickupId, n.value.driver.id, now, settings)])
    {
      var c0, d0, o0 := db.clusters, db.deliveries, db.offers;
      var chk := OfferCheck(db.deliveries, db.clusters, db.offers, clusterId, driverId);
      if chk.Err? {
        return Err(chk.error);
      }
      var i := chk.value;
      var c := db.clusters[clusterId];
      var dId := c.deliveryId;
      var d := db.deliveries[dId];
      db.offers := db.offers[i := Closed(db.offers[i], OfferStatus.Accepted, now)];
      var plan := AcceptPlan(c, d, driverId, world, settings, geo);
      if plan.Err? {
        db.clusters, db.deliveries, db.offers := c0, d0, o0;
        return Err(plan.error);
      }
      if plan.value.Keep? {
        db.deliveries := db.deliveries[dId := d.(status := DeliveryStatus.Assigned)];
        var _ := clusters.UpdateCluster(clusterId, AcceptedLeg(c, driverId, now));
        return Ok(true);
      }
      var m := AcceptSplit(c, i, plan.value.company, plan.value.customer, driverId, world, now, pickupId, legId, offerId);
      if m.Err? {
        db.offers := o0;
        return Err(m.error);
      }
      r := Ok(true);
    }

    /** DeclineDeliveryAsync. After the offer checks the offer is Declined,
        the leg goes back to Pending without a driver and with one more
        offer counted, and the delivery loses its driver and becomes
        Pending. While the delivery's retry count is below MaxRetries it is
        raised by one and the leg is offered to the driver nearest the
        delivery's dropoff, which must be known; a failed re-assignment
        fails the whole decline and restores the starting state. */
    method Decline(clusterId: string, driverId: string, world: World, now: int, offerId: string) returns (r: Result<bool>)
      requires Wired() && db.Valid() && OfferIdUnused(db.offers, offerId)
      modifies db
      ensures db.Valid()
      ensures r.Err? ==> db.deliveries == old(db.deliveries) && db.clusters == old(db.clusters) && db.offers == old(db.offers)
      ensures var chk := OfferCheck(old(db.deliveries), old(db.clusters), old(db.offers), clusterId, driverId);
              chk.Err? ==> r == Err(chk.error)
      ensures var chk := OfferCheck(old(db.deliveries), old(db.clusters), old(db.offers), clusterId, driverId);
              chk.Ok? ==>
                var c := old(db.clusters)[clusterId];
                var d := old(db.deliveries)[c.deliveryId];
                var declined := d.(deliveryPersonId := None, status := DeliveryStatus.Pending);
                var closed := old(db.offers)[chk.value := Closed(old(db.offers)[chk.value], OfferStatus.Declined, now)];
                && (d.retryCount >= settings.maxRetries ==>
                      && r == Ok(true)
                      && db.clusters == old(db.clusters)[clusterId := DeclinedLeg(c)]
                      && db.deliveries == old(db.deliveries)[c.deliveryId := declined]
                      && db.offers == closed)
                && (d.retryCount < settings.maxRetries && !d.dropoff.Known() ==> r == Err(MissingLocation))
                && (d.retryCount < settings.maxRetries && d.dropoff.Known() ==>
                      var n := Nearest(world.available, d.dropoff.At(), settings, geo);
                      && (n.Err? ==> r == Err(n.error))
                      && (n.Ok? ==>
                            && r == Ok(true)
                            && db.clusters == old(db.clusters)[clusterId := CS.WithDriver(DeclinedLeg(c), n.value.driver.id, now)]
                            && db.deliveries == old(db.deliveries)[c.deliveryId :=
                                                  AssignedTo(declined.(retryCount := d.retryCount + 1), n.value.driver.id)]
                            && db.offers == closed + [OpenOffer(offerId, c.deliveryId, clusterId, n.value.driver.id, now, settings)]))
    {
      var c0, d0, o0 := db.clusters, db.deliveries, db.offers;
      var chk := OfferCheck(db.deliveries, db.clusters, db.offers, clusterId, driverId);
      if chk.Err? {
        return Err(chk.error);
      }
      var c := db.clusters[clusterId];
      var dId := c.deliveryId;
      var d := db.deliveries[dId];
      var declined := d.(deliveryPersonId := None, status := DeliveryStatus.Pending);
      var retry := d.retryCount < settings.maxRetries;
      WriteDecline(clusterId, chk.value, now, retry);
      if retry {
        r := Reoffer(dId, clusterId, d.dropoff, world, now, offerId);
        if r.Err? {
          db.clusters, db.deliveries, db.offers := c0, d0, o0;
        }
        return;
      }
      r := Ok(true);
    }

    /** The retry branch of DeclineDeliveryAsync, once the retry count has
        gone up: the leg is offered to the driver nearest the delivery's
        dropoff; a dropoff without coordinates fails. A failure leaves the
        restoring to the caller. */
    method Reoffer(dId: string, clusterId: string, dropoff: Point, world: World, now: int, offerId: string)
      returns (r: Result<bool>)
      requires Wired() && db.Valid() && dId in db.deliveries && clusterId in db.clusters && !Blank(clusterId)
      requires OfferIdUnused(db.offers, offerId)
      modifies db
      ensures db.Valid()
      ensures !dropoff.Known() ==> r == Err(MissingLocation)
      ensures dropoff.Known() ==>
                var n := Nearest(world.available, dropoff.At(), settings, geo);
                && (n.Err? ==> r == Err(n.error))
                && (n.Ok? ==>
                      && r == Ok(true)
                      && db.clusters == old(db.clusters)[clusterId := CS.WithDriver(old(db.clusters)[clusterId], n.value.driver.id, now)]
                      && db.deliveries == old(db.deliveries)[dId := AssignedTo(old(db.deliveries)[dId], n.value.driver.id)]
                      && db.offers == old(db.offers) + [OpenOffer(offerId, dId, clusterId, n.value.driver.id, now, settings)])
    {
      if !dropoff.Known() {
        return Err(MissingLocation);
      }
      MatchIsNearest(db.deliveries, db.clusters, dId, clusterId, dropoff, world, settings, geo);
      var m := AutoAssignDriver(dId, clusterId, dropoff, world, now, offerId);
      if m.Err? {
        return Err(m.error);
      }
      r := Ok(true);
    }

    /** The writes every answered decline makes: the offer becomes
        Declined and inactive, the leg loses its driver and returns to
        Pending with one more offer counted, and the delivery loses its
        driver and returns to Pending, its retry count raised by one when
        it will be offered again. */
    method WriteDecline(clusterId: string, i: nat, now: int, retry: bool)
      requires Wired() && db.Valid() && clusterId in db.clusters && db.clusters[clusterId].deliveryId in db.deliveries
      requires i < |db.offers|
      modifies db
      ensures db.Valid()
      ensures var c := old(db.clusters)[clusterId];
              var d := old(db.deliveries)[c.deliveryId];
              var declined := d.(deliveryPersonId := None, status := DeliveryStatus.Pending);
              && db.clusters == old(db.clusters)[clusterId := DeclinedLeg(c)]
              && db.deliveries == old(db.deliveries)[c.deliveryId :=
                                    if retry then declined.(retryCount := d.retryCount + 1) else declined]
              && db.offers == old(db.offers)[i := Closed(old(db.offers)[i], OfferStatus.Declined, now)]
    {
      var c := db.clusters[clusterId];
      var d := db.deliveries[c.deliveryId];
      db.offers := db.offers[i := Closed(db.offers[i], OfferStatus.Declined, now)];
      var _ := clusters.UpdateCluster(clusterId, DeclinedLeg(c));
      assert CS.UpdateEntity(c, DeclinedLeg(c)) == DeclinedLeg(c);
      var declined := d.(deliveryPersonId := None, status := DeliveryStatus.Pending);
      db.deliveries := db.deliveries[c.deliveryId := if retry then declined.(retryCount := d.retryCount + 1) else declined];
    }

    /** One step of CreateAsync's loop: create a listed leg with the
        customer as its dropoff and, when it came without a driver, give it
        to the driver nearest the customer (with an offer). */
    method AddListedLeg(deliveryId: string, draft: ClusterDraft, id: string, customer: Coord, world: World, now: int,
                        offerId: string) returns (r: Result<Option<Candidate>>)
      requires Wired() && db.Valid() && deliveryId in db.deliveries
      requires !Blank(id) && id !in db.clusters && OfferIdUnused(db.offers, offerId)
      modifies db
      ensures db.Valid()
      ensures !NeedsDriver(draft) ==>
                && r == Ok(None)
                && db.clusters == old(db.clusters)[id := CS.NewCluster(id, deliveryId, draft.(dropoff := PointAt(customer)))]
                && db.deliveries == old(db.deliveries) && db.offers == old(db.offers)
      ensures NeedsDriver(draft) ==>
                var n := Nearest(world.available, customer, settings, geo);
                && (n.Err? ==> r == Err(n.error))
                && (n.Ok? ==>
                      && r == Ok(Some(n.value))
                      && db.clusters == old(db.clusters)[id := CreatedLeg(deliveryId, draft, id, customer, n.value.driver.id, now)]
                      && db.deliveries == old(db.deliveries)[deliveryId := AssignedTo(old(db.deliveries)[deliveryId], n.value.driver.id)]
                      && db.offers == old(db.offers) + [OpenOffer(offerId, deliveryId, id, n.value.driver.id, now, settings)])
    {
      var _ := clusters.CreateCluster(deliveryId, Some(draft.(dropoff := PointAt(customer))), id);
      if !NeedsDriver(draft) {
        return Ok(None);
      }
      MatchIsNearest(db.deliveries, db.clusters, deliveryId, id, PointAt(customer), world, settings, geo);
      var m := AutoAssignDriver(deliveryId, id, PointAt(customer), world, now, offerId);
      if m.Err? {
        return Err(m.error);
      }
      r := Ok(Some(m.value));
    }

    /** Step k of CreateAsync's loop: it fails exactly when draft k needs a
        driver and the matcher finds none near the customer. */
    method CreateStep(ghost c0: map<string, Cluster>, ghost d0: map<string, Delivery>, ghost o0: seq<Offer>, newId: string,
                      ghost base: Delivery, drafts: seq<ClusterDraft>, clusterIds: seq<string>, offerIds: seq<string>,
                      customer: Coord, ghost n: Result<Candidate>, world: World, now: int, k: nat)
      returns (m: Result<Option<Candidate>>)
      requires Wired() && db.Valid() && k < |drafts| && newId in db.deliveries
      requires n == Nearest(world.available, customer, settings, geo)
      requires CreateProgress(db.deliveries, db.clusters, db.offers, d0, c0, o0, newId, base, drafts, clusterIds, offerIds,
                              customer, n, now, settings, k)
      requires FreshIds(c0, o0, clusterIds, offerIds)
      modifies db
      ensures db.Valid()
      ensures m.Err? ==> NeedsDriver(drafts[k]) && n.Err? && m.error == n.error
      ensures m.Ok? ==> CreateProgress(db.deliveries, db.clusters, db.offers, d0, c0, o0, newId, base, drafts, clusterIds,
                                       offerIds, customer, n, now, settings, k + 1)
    {
      CreateProgressFresh(db.deliveries, db.clusters, db.offers, d0, c0, o0, newId, base, drafts, clusterIds, offerIds,
                          customer, n, now, settings, k);
      ghost var d1, c1, o1 := db.deliveries, db.clusters, db.offers;
      m := AddListedLeg(newId, drafts[k], clusterIds[k], customer, world, now, offerIds[k]);
      if m.Err? {
        return;
      }
      CreateProgressStep(d1, c1, o1, db.deliveries, db.clusters, db.offers, d0, c0, o0, newId, base, drafts, clusterIds,
                         offerIds, customer, n, now, settings, k);
    }

    /** CreateAsync. A null request, a blank order id or a negative
        customer coordinate is refused. Otherwise the delivery is added with
        the customer location as its dropoff, and each listed leg is created
        with that dropoff; every leg that arrives without a driver is given
        to the driver nearest the customer, with an offer. When that
        assignment fails the whole creation is undone. */
    method Create(dto: Option<DeliveryCreate>, newId: string, clusterIds: seq<string>, offerIds: seq<string>,
                  world: World, now: int) returns (r: Result<Delivery>)
      requires Wired() && db.Valid() && newId !in db.deliveries
      requires dto.Some? ==> |Drafts(dto.value)| <= |clusterIds| && |Drafts(dto.value)| <= |offerIds|
      requires forall j :: 0 <= j < |clusterIds| ==> !Blank(clusterIds[j]) && clusterIds[j] !in db.clusters
      requires forall i, j :: 0 <= i < j < |clusterIds| ==> clusterIds[i] != clusterIds[j]
      requires forall j :: 0 <= j < |offerIds| ==> OfferIdUnused(db.offers, offerIds[j])
      requires forall i, j :: 0 <= i < j < |offerIds| ==> offerIds[i] != offerIds[j]
      modifies db
      ensures db.Valid()
      ensures !CreateAccepted(dto) ==> r == Err(Invalid)
      ensures r.Err? ==> db.deliveries == old(db.deliveries) && db.clusters == old(db.clusters) && db.offers == old(db.offers)
      ensures CreateAccepted(dto) ==>
                var drafts := Drafts(dto.value);
                var n := Nearest(world.available, Customer(dto.value), settings, geo);
                var driver := if n.Ok? then n.value.driver.id else "";
                var base := NewDelivery(newId, dto.value);
                && (NeedsAny(drafts, |drafts|) && n.Err? ==> r == Err(n.error))
                && (!NeedsAny(drafts, |drafts|) || n.Ok? ==>
                      && r == Ok(if NeedsAny(drafts, |drafts|) then AssignedTo(base, driver) else base)
                      && db.deliveries == old(db.deliveries)[newId := r.value]
                      && db.clusters == old(db.clusters) + CreatedLegs(newId, drafts, clusterIds, Customer(dto.value), driver, now, |drafts|)
                      && db.offers == old(db.offers) + CreatedOffers(newId, drafts, clusterIds, offerIds, driver, now, settings, |drafts|))
    {
      if !CreateAccepted(dto) {
        return Err(Invalid);
      }
      var c0, d0, o0 := db.clusters, db.deliveries, db.offers;
      var req := dto.value;
      var customer := Customer(req);
      var drafts := Drafts(req);
      ghost var n := Nearest(world.available, customer, settings, geo);
      ghost var driver := if n.Ok? then n.value.driver.id else "";
      var base := NewDelivery(newId, req);
      db.deliveries := db.deliveries[newId := base];
      assert db.clusters == c0 + CreatedLegs(newId, drafts, clusterIds, customer, driver, now, 0);
      assert db.offers == o0 + CreatedOffers(newId, drafts, clusterIds, offerIds, driver, now, settings, 0);
      assert FreshIds(c0, o0, clusterIds, offerIds);
      var m := CreateLegs(c0, d0, o0, newId, base, drafts, clusterIds, offerIds, customer, n, world, now);
      if m.Err? {
        db.clusters, db.deliveries, db.offers := c0, d0, o0;
        return Err(m.error);
      }
      r := Ok(db.deliveries[newId]);
    }

    /** CreateAsync's loop over the listed legs: it stops at the first leg
        that needs a driver when the matcher finds none. */
    method CreateLegs(ghost c0: map<string, Cluster>, ghost d0: map<string, Delivery>, ghost o0: seq<Offer>, newId: string,
                      ghost base: Delivery, drafts: seq<ClusterDraft>, clusterIds: seq<string>, offerIds: seq<string>,
                      customer: Coord, ghost n: Result<Candidate>, world: World, now: int)
      returns (m: Result<Option<Candidate>>)
      requires Wired() && db.Valid() && newId in db.deliveries
      requires n == Nearest(world.available, customer, settings, geo)
      requires CreateProgress(db.deliveries, db.clusters, db.offers, d0, c0, o0, newId, base, drafts, clusterIds, offerIds,
                              customer, n, now, settings, 0)
      requires FreshIds(c0, o0, clusterIds, offerIds)
      modifies db
      ensures db.Valid()
      ensures m.Err? ==> NeedsAny(drafts, |drafts|) && n.Err? && m.error == n.error
      ensures m.Ok? ==> CreateProgress(db.deliveries, db.clusters, db.offers, d0, c0, o0, newId, base, drafts, clusterIds,
                                       offerIds, customer, n, now, settings, |drafts|)
    {
      m := Ok(None);
      var k := 0;
      while k < |drafts|
        invariant 0 <= k <= |drafts|
        invariant db.Valid()
        invariant CreateProgress(db.deliveries, db.clusters, db.offers, d0, c0, o0, newId, base, drafts, clusterIds,
                                 offerIds, customer, n, now, settings, k)
      {
        var step := CreateStep(c0, d0, o0, newId, base, drafts, clusterIds, offerIds, customer, n, world, now, k);
        if step.Err? {
          m := step;
          NeedsAnyWitness(drafts, k);
          return;
        }
        k := k + 1;
      }
    }

    /** SplitClusterAsync: splits a tech-company leg for a driver who is
        farther from the company than MaxDriverDistanceKm. It refuses a leg
        without a company, a company or driver without a location, a driver
        within range (no split needed) and an unknown customer location.
        Otherwise it creates the pickup leg, gives it to the driver nearest
        the company, creates the delivery leg for the given driver, removes
        the original leg (whatever the outcome of that removal) and returns
        the delivery leg. Nothing is undone: when the assignment fails, the
        pickup leg stays. */
    method SplitCluster(deliveryId: string, cluster: Option<Cluster>, driver: Option<Driver>, world: World, now: int,
                        pickupId: string, legId: string, offerId: string) returns (r: Result<Cluster>)
      requires Wired() && db.Valid()
      requires !Blank(pickupId) && pickupId !in db.clusters && legId !in db.clusters && pickupId != legId
      requires cluster.Some? ==> cluster.value.id != pickupId && cluster.value.id != legId
      requires OfferIdUnused(db.offers, offerId)
      modifies db
      ensures db.Valid()
      ensures deliveryId !in old(db.deliveries) || cluster.None? || driver.None? ==> r == Err(Invalid)
      ensures deliveryId !in old(db.deliveries) || cluster.None? || driver.None?
              || SplitCheck(cluster.value, old(db.deliveries)[deliveryId], driver.value, world, settings, geo).Err? ==>
                db.deliveries == old(db.deliveries) && db.clusters == old(db.clusters) && db.offers == old(db.offers)
      ensures deliveryId in old(db.deliveries) && cluster.Some? && driver.Some? ==>
                var c := cluster.value.(deliveryId := deliveryId);
                var chk := SplitCheck(cluster.value, old(db.deliveries)[deliveryId], driver.value, world, settings, geo);
                && (chk.Err? ==> r == Err(chk.error))
                && (chk.Ok? ==>
                      var n := Nearest(world.available, chk.value.company, settings, geo);
                      var pickup := PickupLeg(c, chk.value.company, chk.value.customer, pickupId, geo);
                      && (n.Err? ==> r == Err(n.error)
                                     && db.clusters == old(db.clusters)[pickupId := pickup]
                                     && db.deliveries == old(db.deliveries) && db.offers == old(db.offers))
                      && (n.Ok? ==>
                            && r == Ok(DeliveryLeg(c, chk.value.company, chk.value.customer, legId, driver.value.id, geo))
                            && db.clusters == old(db.clusters)[pickupId := CS.WithDriver(pickup, n.value.driver.id, now)]
                                                              [legId := r.value] - {cluster.value.id}
                            && db.deliveries == old(db.deliveries)[deliveryId := AssignedTo(old(db.deliveries)[deliveryId], n.value.driver.id)]
                            && db.offers == old(db.offers) + [OpenOffer(offerId, deliveryId, pickupId, n.value.driver.id, now, settings)]))
    {
      if deliveryId !in db.deliveries || cluster.None? || driver.None? {
        return Err(Invalid);
      }
      var chk := SplitCheck(cluster.value, db.deliveries[deliveryId], driver.value, world, settings, geo);
      if chk.Err? {
        return Err(chk.error);
      }
      var c := cluster.value.(deliveryId := deliveryId);
      var m := CreateSplitLegs(c, chk.value.company, chk.value.customer, driver.value.id, world, now, pickupId, legId, offerId);
      if m.Err? {
        return Err(m.error);
      }
      var _ := clusters.DeleteCluster(cluster.value.id);
      r := Ok(DeliveryLeg(c, chk.value.company, chk.value.customer, legId, driver.value.id, geo));
    }
  }
}
