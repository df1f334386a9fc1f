/**
 * One iteration of the delivery reassignment background service: every
 * Pending delivery whose first active offer has expired loses that offer;
 * then either an administrator is alerted (retries exhausted, or no
 * driver available) or the delivery goes to the first available driver
 * and its retry count goes up by one. The service repeats the iteration
 * until it is stopped; repeated calls of Pass model that loop.
 */
module Reassignment {
  import opened Common
  import opened DispatchData

  /** The service's own retry limit (it does not read the settings). */
  const MaxRetries: int := 3

  /** A delivery as the iteration sees it, with its offers. */
  datatype Job = Job(id: string, status: DeliveryStatus, trackingNumber: Option<string>, retryCount: int, offers: seq<Offer>)

  datatype AlertReason = RetriesExhausted | NoDriverAvailable

  /** What the iteration asks other services to do. */
  datatype Event =
    | AdminAlert(deliveryId: string, reason: AlertReason)
    | Reassigned(deliveryId: string, driverId: string)
    | DriverNotified(driverId: string)

  /** Index of the first active offer (FirstOrDefault(o => o.IsActive)). */
  function FirstActive(offers: seq<Offer>): (r: Option<nat>)
    ensures r.Some? ==> r.value < |offers| && offers[r.value].isActive
                        && forall j :: 0 <= j < r.value ==> !offers[j].isActive
    ensures r.None? ==> forall j :: 0 <= j < |offers| ==> !offers[j].isActive
  {
    if offers == [] then None
    else if offers[0].isActive then Some(0)
    else
      var r := FirstActive(offers[1..]);
      if r.Some? then Some(r.value + 1) else None
  }

  /** The delivery is Pending and its first active offer has an expiry
      time that is set and not after now. */
  predicate Due(j: Job, now: int) {
    && j.status.Pending?
    && var i := FirstActive(j.offers);
    && i.Some? && j.offers[i.value].expiryTime.Some? && j.offers[i.value].expiryTime.value <= now
  }

  function ActiveCount(offers: seq<Offer>): nat {
    if offers == [] then 0 else (if offers[0].isActive then 1 else 0) + ActiveCount(offers[1..])
  }

  /** Turning one active offer off removes exactly one from the count. */
  lemma {:induction false} DeactivateCount(offers: seq<Offer>, i: nat)
    requires i < |offers| && offers[i].isActive
    ensures ActiveCount(offers[i := offers[i].(isActive := false)]) == ActiveCount(offers) - 1
  {
    var o' := offers[i := offers[i].(isActive := false)];
    if i > 0 {
      assert o'[1..] == offers[1..][i - 1 := offers[i].(isActive := false)];
      DeactivateCount(offers[1..], i - 1);
    } else {
      assert o'[1..] == offers[1..];
    }
  }

  /** What the iteration does with one delivery. `drivers` is the list of
      available drivers, None when that query failed. */
  datatype Outcome = Outcome(job: Job, events: seq<Event>)

  function Step(j: Job, drivers: Option<seq<Driver>>, now: int): (r: Outcome)
    ensures !Due(j, now) ==> r == Outcome(j, [])
    ensures r.job.id == j.id && r.job.status == j.status && |r.job.offers| == |j.offers|
  {
    if !Due(j, now) then Outcome(j, [])
    else
      var i := FirstActive(j.offers).value;
      var closed := j.(offers := j.offers[i := j.offers[i].(isActive := false)]);
      if j.retryCount >= MaxRetries then Outcome(closed, [AdminAlert(j.id, RetriesExhausted)])
      else if drivers.None? || drivers.value == [] then Outcome(closed, [AdminAlert(j.id, NoDriverAvailable)])
      else
        var next := drivers.value[0];
        Outcome(closed.(retryCount := j.retryCount + 1), [Reassigned(j.id, next.id), DriverNotified(next.id)])
  }

  /** A due delivery always loses exactly its expired offer; then exactly
      one of three things happens: retries exhausted (alert, count kept),
      no driver (alert, count kept), or reassignment to the first
      available driver with the count raised by one. */
  lemma StepSpec(j: Job, drivers: Option<seq<Driver>>, now: int)
    requires Due(j, now)
    ensures var r := Step(j, drivers, now);
            var i := FirstActive(j.offers).value;
            && r.job.offers == j.offers[i := j.offers[i].(isActive := false)]
            && ActiveCount(r.job.offers) == ActiveCount(j.offers) - 1
    ensures var r := Step(j, drivers, now);
            && (j.retryCount >= MaxRetries ==>
                  r.events == [AdminAlert(j.id, RetriesExhausted)] && r.job.retryCount == j.retryCount)
            && (j.retryCount < MaxRetries && (drivers.None? || drivers.value == []) ==>
                  r.events == [AdminAlert(j.id, NoDriverAvailable)] && r.job.retryCount == j.retryCount)
            && (j.retryCount < MaxRetries && drivers.Some? && drivers.value != [] ==>
                  r.events == [Reassigned(j.id, drivers.value[0].id), DriverNotified(drivers.value[0].id)]
                  && r.job.retryCount == j.retryCount + 1)
  {
    DeactivateCount(j.offers, FirstActive(j.offers).value);
  }

  /** The retry count never falls, rises by at most one, and never rises
      past MaxRetries; it rises exactly when the delivery is reassigned. */
  lemma StepRetryBound(j: Job, drivers: Option<seq<Driver>>, now: int)
    ensures var r := Step(j, drivers, now);
            && j.retryCount <= r.job.retryCount <= j.retryCount + 1
            && r.job.retryCount <= (if j.retryCount > MaxRetries then j.retryCount else MaxRetries)
            && (r.job.retryCount == j.retryCount + 1 <==> exists e :: e in r.events && e.Reassigned?)
  {
    var r := Step(j, drivers, now);
    if Due(j, now) && j.retryCount < MaxRetries && drivers.Some? && drivers.value != [] {
      assert r.events[0].Reassigned?;
    }
  }

  /** The events of a whole pass, delivery by delivery: delivery k is
      judged at clock reading nows[k] against driver answer drivers[k]. */
  function PassEvents(jobs: seq<Job>, drivers: seq<Option<seq<Driver>>>, nows: seq<int>): seq<Event>
    requires |drivers| == |jobs| && |nows| == |jobs|
  {
    if jobs == [] then []
    else
      var n := |jobs| - 1;
      PassEvents(jobs[..n], drivers[..n], nows[..n]) + Step(jobs[n], drivers[n], nows[n]).events
  }

  /** One iteration of the service: `found` is the Pending-delivery query's
      answer (None when it failed, and then nothing happens). The service
      reads the clock and asks for the available drivers afresh for each
      delivery, so each delivery k has its own reading nows[k] and its
      own answer drivers[k]; a delivery that does not need them ignores
      them. */
  method Pass(found: Option<seq<Job>>, drivers: seq<Option<seq<Driver>>>, nows: seq<int>) returns (jobs: seq<Job>, events: seq<Event>)
    requires found.Some? ==> |drivers| == |found.value| && |nows| == |found.value|
    ensures found.None? ==> jobs == [] && events == []
    ensures found.Some? ==> |jobs| == |found.value|
                            && (forall k :: 0 <= k < |jobs| ==> jobs[k] == Step(found.value[k], drivers[k], nows[k]).job)
                            && events == PassEvents(found.value, drivers, nows)
  {
    if found.None? {
      return [], [];
    }
    var ds := found.value;
    jobs, events := ds, [];
    for k := 0 to |ds|
      invariant |jobs| == |ds|
      invariant forall m :: 0 <= m < k ==> jobs[m] == Step(ds[m], drivers[m], nows[m]).job
      invariant forall m :: k <= m < |ds| ==> jobs[m] == ds[m]
      invariant events == PassEvents(ds[..k], drivers[..k], nows[..k])
    {
      var j := ds[k];
      if Due(j, nows[k]) {
        var i := FirstActive(j.offers).value;
        var closed := j.(offers := j.offers[i := j.offers[i].(isActive := false)]);
        if j.retryCount >= MaxRetries {
          jobs := jobs[k := closed];
          events := events + [AdminAlert(j.id, RetriesExhausted)];
        } else if drivers[k].None? || drivers[k].value == [] {
          jobs := jobs[k := closed];
          events := events + [AdminAlert(j.id, NoDriverAvailable)];
        } else {
          var next := drivers[k].value[0];
          jobs := jobs[k := closed.(retryCount := j.retryCount + 1)];
          events := events + [Reassigned(j.id, next.id), DriverNotified(next.id)];
        }
      }
      assert ds[..k + 1][..k] == ds[..k];
      assert drivers[..k + 1][..k] == drivers[..k];
      assert nows[..k + 1][..k] == nows[..k];
    }
    assert ds[..|ds|] == ds;
    assert drivers[..|ds|] == drivers;
    assert nows[..|ds|] == nows;
  }

  /** Readings for a run of iterations over `n` deliveries: per iteration,
      one driver answer and one clock reading per delivery. */
  predicate Readings(n: nat, drivers: seq<seq<Option<seq<Driver>>>>, nows: seq<seq<int>>) {
    && |drivers| == |nows|
    && (forall p :: 0 <= p < |drivers| ==> |drivers[p]| == n)
    && (forall p :: 0 <= p < |nows| ==> |nows[p]| == n)
  }

  /** The service loop as repeated passes over the same deliveries, each
      carrying the previous pass's offer and retry-count changes. */
  function Passes(ds: seq<Job>, drivers: seq<seq<Option<seq<Driver>>>>, nows: seq<seq<int>>): (r: seq<Job>)
    requires Readings(|ds|, drivers, nows)
    ensures |r| == |ds|
    decreases |drivers|
  {
    if drivers == [] then ds
    else
      var next := seq(|ds|, k requires 0 <= k < |ds| => Step(ds[k], drivers[0][k], nows[0][k]).job);
      Passes(next, drivers[1..], nows[1..])
  }

  /** However many iterations run, no delivery that started at or below
      MaxRetries is ever offered more than MaxRetries times over: its
      retry count ends between where it started and MaxRetries. */
  lemma {:induction false} PassesRetryBound(ds: seq<Job>, drivers: seq<seq<Option<seq<Driver>>>>, nows: seq<seq<int>>)
    requires Readings(|ds|, drivers, nows)
    decreases |drivers|
    ensures forall k :: 0 <= k < |ds| && ds[k].retryCount <= MaxRetries ==>
              ds[k].retryCount <= Passes(ds, drivers, nows)[k].retryCount <= MaxRetries
  {
    if drivers != [] {
      var next := seq(|ds|, k requires 0 <= k < |ds| => Step(ds[k], drivers[0][k], nows[0][k]).job);
      forall k | 0 <= k < |ds|
        ensures ds[k].retryCount <= next[k].retryCount
        ensures ds[k].retryCount <= MaxRetries ==> next[k].retryCount <= MaxRetries
      {
        StepRetryBound(ds[k], drivers[0][k], nows[0][k]);
      }
      PassesRetryBound(next, drivers[1..], nows[1..]);
    }
  }
}
