/**
 * The nearest-driver matcher shared by both AutoAssignDriverAsync
 * variants: pick the location to match against, keep the available
 * drivers that report coordinates, rank them by distance (a stable sort),
 * and take the first unless it is beyond MaxDriverDistanceKm.
 */
module Matching {
  import opened Common
  import opened DispatchData
  import Sorting

  /** The location the cluster is matched against: the override when both
      coordinates are given; else the tech company's coordinates when the
      cluster names a company (missing coordinates fail); else the
      cluster's dropoff when both coordinates are known; else failure. */
  function Target(override: Point, cluster: Cluster, companies: map<string, Point>): (r: Result<Coord>)
    ensures r.Err? ==> r.error == NoTarget
  {
    if override.Known() then Ok(override.At())
    else if !BlankOpt(cluster.techCompanyId) then
      var company := cluster.techCompanyId.value;
      if company in companies && companies[company].Known() then Ok(companies[company].At())
      else Err(NoTarget)
    else if cluster.dropoff.Known() then Ok(cluster.dropoff.At())
    else Err(NoTarget)
  }

  /** The target is chosen in order of precedence: explicit coordinates,
      then the company's location for a company leg (failing when it is
      unknown, never falling back to the dropoff), then the dropoff. */
  lemma TargetSpec(override: Point, cluster: Cluster, companies: map<string, Point>)
    ensures var r := Target(override, cluster, companies);
            && (override.Known() ==> r == Ok(override.At()))
            && (!override.Known() && !BlankOpt(cluster.techCompanyId) ==>
                  (r.Ok? <==> cluster.techCompanyId.value in companies && companies[cluster.techCompanyId.value].Known())
                  && (r.Ok? ==> r.value == companies[cluster.techCompanyId.value].At()))
            && (!override.Known() && BlankOpt(cluster.techCompanyId) ==>
                  (r.Ok? <==> cluster.dropoff.Known()) && (r.Ok? ==> r.value == cluster.dropoff.At()))
  {
  }

  /** An available driver paired with its distance from the target. */
  datatype Candidate = Candidate(driver: Driver, km: real)

  function Km(geo: Geometry, target: Coord, d: Driver): real
    requires d.position.Known()
  {
    geo.distance(target, d.position.At())
  }

  /** Where(driver has both coordinates).Select(driver, distance). */
  function Candidates(ds: seq<Driver>, target: Coord, geo: Geometry): (cs: seq<Candidate>)
    ensures |cs| <= |ds|
    ensures cs == [] <==> forall j :: 0 <= j < |ds| ==> !ds[j].position.Known()
    ensures forall i :: 0 <= i < |cs| ==>
              cs[i].driver in ds && cs[i].driver.position.Known() && cs[i].km == Km(geo, target, cs[i].driver)
  {
    if ds == [] then []
    else
      var rest := Candidates(ds[1..], target, geo);
      assert forall j :: 1 <= j < |ds| ==> ds[1..][j - 1] == ds[j];
      assert forall d :: d in ds[1..] ==> d in ds;
      if ds[0].position.Known() then
        var cs := [Candidate(ds[0], Km(geo, target, ds[0]))] + rest;
        assert forall i :: 1 <= i < |cs| ==> cs[i] == rest[i - 1];
        cs
      else rest
  }

  /** The candidates keep the drivers' order: the candidates of a
      concatenation are the concatenated candidates. */
  lemma {:induction false} CandidatesConcat(xs: seq<Driver>, ys: seq<Driver>, target: Coord, geo: Geometry)
    ensures Candidates(xs + ys, target, geo) == Candidates(xs, target, geo) + Candidates(ys, target, geo)
  {
    if xs == [] {
      assert xs + ys == ys;
    } else {
      var d, rest := xs[0], xs[1..];
      assert xs == [d] + rest;
      assert xs + ys == [d] + (rest + ys);
      var h := if d.position.Known() then [Candidate(d, Km(geo, target, d))] else [];
      var a, b := Candidates(rest, target, geo), Candidates(ys, target, geo);
      CandidatesConcat(rest, ys, target, geo);
      CandidatesCons(d, rest + ys, target, geo);
      CandidatesCons(d, rest, target, geo);
      calc {
        Candidates(xs + ys, target, geo);
        h + Candidates(rest + ys, target, geo);
        h + (a + b);
        { ConcatAssoc(h, a, b); }
        (h + a) + b;
        Candidates(xs, target, geo) + b;
      }
    }
  }

  /** A single driver is a candidate, at its own distance, exactly when
      it is located. */
  lemma CandidatesUnit(d: Driver, target: Coord, geo: Geometry)
    ensures Candidates([d], target, geo) == if d.position.Known() then [Candidate(d, Km(geo, target, d))] else []
  {
    CandidatesCons(d, [], target, geo);
  }

  /** The candidates of a driver followed by a list: the driver if it is
      located, then the candidates of the list. */
  lemma CandidatesCons(d: Driver, rest: seq<Driver>, target: Coord, geo: Geometry)
    ensures Candidates([d] + rest, target, geo)
            == (if d.position.Known() then [Candidate(d, Km(geo, target, d))] else []) + Candidates(rest, target, geo)
  {
    assert ([d] + rest)[0] == d && ([d] + rest)[1..] == rest;
  }

  /** The key order of OrderBy(x => x.DistanceKm). */
  function ByKm(): (Candidate, Candidate) -> bool {
    (a: Candidate, b: Candidate) => a.km <= b.km
  }

  lemma ByKmPreorder()
    ensures Sorting.TotalPreorder(ByKm())
  {
  }

  /** The ranked candidate list. */
  function Ranked(ds: seq<Driver>, target: Coord, geo: Geometry): seq<Candidate> {
    Sorting.SortBy(Candidates(ds, target, geo), ByKm())
  }

  /** candidates.First() after the emptiness and distance checks. */
  function Nearest(ds: seq<Driver>, target: Coord, settings: Settings, geo: Geometry): Result<Candidate> {
    if ds == [] then Err(NoDrivers)
    else
      var ranked := Ranked(ds, target, geo);
      if ranked == [] then Err(NoLocatedDrivers)
      else if settings.maxDriverDistanceKm > 0.0 && ranked[0].km > settings.maxDriverDistanceKm then Err(TooFar)
      else Ok(ranked[0])
  }

  /** Candidate m is driver k of ds, located, at its own distance, and
      every located driver before k is strictly farther. */
  predicate FirstAt(ds: seq<Driver>, target: Coord, geo: Geometry, m: Candidate, k: int) {
    && 0 <= k < |ds| && ds[k] == m.driver && ds[k].position.Known()
    && m.km == Km(geo, target, ds[k])
    && (forall j :: 0 <= j < k && ds[j].position.Known() ==> Km(geo, target, ds[j]) > m.km)
  }

  /** A candidate found at k in the tail is found at k + 1 in the whole
      list when the head is not nearer. */
  lemma FirstAtShift(ds: seq<Driver>, target: Coord, geo: Geometry, m: Candidate, k: int)
    requires ds != [] && FirstAt(ds[1..], target, geo, m, k)
    requires ds[0].position.Known() ==> Km(geo, target, ds[0]) > m.km
    ensures FirstAt(ds, target, geo, m, k + 1)
  {
    forall j | 0 <= j < k + 1 && ds[j].position.Known()
      ensures Km(geo, target, ds[j]) > m.km
    {
      if j > 0 {
        assert ds[j] == ds[1..][j - 1];
      }
    }
  }

  /** The first least-distance candidate comes from a located driver at
      some position k of the input; every located driver before k is
      strictly farther. */
  lemma {:induction false} FirstMinCandidate(ds: seq<Driver>, target: Coord, geo: Geometry)
    requires Candidates(ds, target, geo) != []
    ensures exists k :: FirstAt(ds, target, geo, Sorting.FirstMin(Candidates(ds, target, geo), ByKm()), k)
  {
    var cs := Candidates(ds, target, geo);
    var rest := Candidates(ds[1..], target, geo);
    var m := Sorting.FirstMin(cs, ByKm());
    if !ds[0].position.Known() {
      assert cs == rest;
      FirstMinCandidate(ds[1..], target, geo);
      var k :| FirstAt(ds[1..], target, geo, m, k);
      FirstAtShift(ds, target, geo, m, k);
    } else if rest == [] {
      assert cs == [Candidate(ds[0], Km(geo, target, ds[0]))];
      assert FirstAt(ds, target, geo, m, 0);
    } else {
      var head := Candidate(ds[0], Km(geo, target, ds[0]));
      assert cs == [head] + rest && cs[1..] == rest;
      var mr := Sorting.FirstMin(rest, ByKm());
      if head.km <= mr.km {
        assert m == head;
        assert FirstAt(ds, target, geo, m, 0);
      } else {
        assert m == mr;
        FirstMinCandidate(ds[1..], target, geo);
        var k :| FirstAt(ds[1..], target, geo, m, k);
        FirstAtShift(ds, target, geo, m, k);
      }
    }
  }

  /** No located driver is nearer than the first least-distance
      candidate. */
  lemma {:induction false} FirstMinLeast(ds: seq<Driver>, target: Coord, geo: Geometry)
    requires Candidates(ds, target, geo) != []
    ensures var m := Sorting.FirstMin(Candidates(ds, target, geo), ByKm());
            forall j :: 0 <= j < |ds| && ds[j].position.Known() ==> m.km <= Km(geo, target, ds[j])
  {
    var cs := Candidates(ds, target, geo);
    var rest := Candidates(ds[1..], target, geo);
    var m := Sorting.FirstMin(cs, ByKm());
    assert forall j :: 1 <= j < |ds| ==> ds[1..][j - 1] == ds[j];
    if !ds[0].position.Known() {
      FirstMinLeast(ds[1..], target, geo);
    } else if rest == [] {
      assert cs == [Candidate(ds[0], Km(geo, target, ds[0]))];
    } else {
      FirstMinLeast(ds[1..], target, geo);
      assert cs == [cs[0]] + rest && cs[1..] == rest;
    }
  }

  /** What the matcher promises: it fails on an empty driver list, on a
      list without located drivers, and when the nearest located driver is
      beyond a positive MaxDriverDistanceKm; otherwise it returns the first
      located driver at least distance, with that distance. */
  lemma NearestSpec(ds: seq<Driver>, target: Coord, settings: Settings, geo: Geometry)
    ensures var r := Nearest(ds, target, settings, geo);
            (ds == [] ==> r == Err(NoDrivers))
            && (ds != [] && (forall j :: 0 <= j < |ds| ==> !ds[j].position.Known()) ==> r == Err(NoLocatedDrivers))
    ensures var r := Nearest(ds, target, settings, geo);
            r.Ok? ==>
              exists k :: 0 <= k < |ds| && ds[k] == r.value.driver && ds[k].position.Known()
                          && r.value.km == Km(geo, target, ds[k])
                          && (forall j :: 0 <= j < k && ds[j].position.Known() ==> Km(geo, target, ds[j]) > r.value.km)
    ensures var r := Nearest(ds, target, settings, geo);
            r.Ok? ==> (forall j :: 0 <= j < |ds| && ds[j].position.Known() ==> r.value.km <= Km(geo, target, ds[j]))
                      && !(settings.maxDriverDistanceKm > 0.0 && r.value.km > settings.maxDriverDistanceKm)
    ensures var r := Nearest(ds, target, settings, geo);
            r == Err(TooFar) <==>
              ds != [] && (exists j :: 0 <= j < |ds| && ds[j].position.Known())
              && settings.maxDriverDistanceKm > 0.0
              && (forall j :: 0 <= j < |ds| && ds[j].position.Known() ==> Km(geo, target, ds[j]) > settings.maxDriverDistanceKm)
    ensures var r := Nearest(ds, target, settings, geo);
            r.Err? ==> r.error in {NoDrivers, NoLocatedDrivers, TooFar}
  {
    var cs := Candidates(ds, target, geo);
    if ds != [] && cs != [] {
      ByKmPreorder();
      Sorting.SortByHead(cs, ByKm());
      FirstMinCandidate(ds, target, geo);
      FirstMinLeast(ds, target, geo);
    }
  }

  /** Every check AutoAssignDriverAsync makes before its first write: the
      delivery exists and clusterId is not blank, the cluster exists, a
      target location is found, and the matcher picks a driver. */
  function Match(deliveries: map<string, Delivery>, clusters: map<string, Cluster>,
                 deliveryId: string, clusterId: string, override: Point, world: World,
                 settings: Settings, geo: Geometry): (r: Result<Candidate>)
    ensures r.Ok? ==> deliveryId in deliveries && clusterId in clusters
  {
    if deliveryId !in deliveries || Blank(clusterId) then Err(Invalid)
    else if clusterId !in clusters then Err(NotFound)
    else
      var t := Target(override, clusters[clusterId], world.companies);
      if t.Err? then Err(t.error)
      else Nearest(world.available, t.value, settings, geo)
  }

  /** The checks fail in order (unknown delivery or blank cluster id, then
      unknown cluster); a match found is a located driver from the
      available list, at its distance from the target. */
  lemma MatchSpec(deliveries: map<string, Delivery>, clusters: map<string, Cluster>,
                  deliveryId: string, clusterId: string, override: Point, world: World,
                  settings: Settings, geo: Geometry)
    ensures var r := Match(deliveries, clusters, deliveryId, clusterId, override, world, settings, geo);
            && (deliveryId !in deliveries || Blank(clusterId) ==> r == Err(Invalid))
            && (deliveryId in deliveries && !Blank(clusterId) && clusterId !in clusters ==> r == Err(NotFound))
            && (r.Ok? ==> && Target(override, clusters[clusterId], world.companies).Ok?
                          && r.value.driver in world.available && r.value.driver.position.Known()
                          && r.value.km == Km(geo, Target(override, clusters[clusterId], world.companies).value, r.value.driver))
  {
    if deliveryId in deliveries && !Blank(clusterId) && clusterId in clusters {
      var t := Target(override, clusters[clusterId], world.companies);
      if t.Ok? {
        NearestSpec(world.available, t.value, settings, geo);
      }
    }
  }

  /** Once the delivery, the cluster and a target are found, the match is
      the matcher's answer for that target. */
  lemma MatchIsNearest(deliveries: map<string, Delivery>, clusters: map<string, Cluster>,
                       deliveryId: string, clusterId: string, override: Point, world: World,
                       settings: Settings, geo: Geometry)
    requires deliveryId in deliveries && !Blank(clusterId) && clusterId in clusters
    requires Target(override, clusters[clusterId], world.companies).Ok?
    ensures Match(deliveries, clusters, deliveryId, clusterId, override, world, settings, geo)
            == Nearest(world.available, Target(override, clusters[clusterId], world.companies).value, settings, geo)
  {
  }
}
