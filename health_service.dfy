/**
 * The sidecar's gRPC health endpoint (`HealthServiceImpl`): it asks every registered
 * checker for its health and answers with each one's report and an overall status that is
 * DOWN as soon as one checker reports DOWN. The response observer is modelled by the
 * sequence of calls made on it.
 */
module HealthService {
  import opened Common

  /** The protocol's health status; values other than UP and DOWN are kept apart as `Other`. */
  datatype HealthStatus = Up | Down | Other(code: int)

  /** A checker's report: its status and the rest of the message, kept as-is. */
  datatype Health = Health(status: HealthStatus, details: map<string, string>)

  /** A registered checker; what it reports at the time of the call. */
  type HealthChecker = () -> Health

  datatype HealthResponse = HealthResponse(status: HealthStatus, health: map<string, Health>)

  /** The calls made on a response observer. */
  datatype ObserverCall = OnNext(response: HealthResponse) | OnCompleted

  /** The status the loop arrives at over the reports in iteration order: UP, turned DOWN by any DOWN report. */
  function FoldStatus(reports: seq<Health>): (r: HealthStatus)
    decreases |reports|
  {
    if reports == [] then Up
    else if reports[|reports| - 1].status == Down then Down
    else FoldStatus(reports[..|reports| - 1])
  }

  /** The overall status is DOWN exactly when some report is DOWN, and UP otherwise; so the iteration order does not matter. */
  lemma {:induction false} FoldStatusDown(reports: seq<Health>)
    ensures FoldStatus(reports) == Down <==> exists i :: 0 <= i < |reports| && reports[i].status == Down
    ensures FoldStatus(reports) != Down ==> FoldStatus(reports) == Up
    decreases |reports|
  {
    if reports != [] {
      var init := reports[..|reports| - 1];
      FoldStatusDown(init);
      if FoldStatus(init) == Down {
        var i :| 0 <= i < |init| && init[i].status == Down;
        assert reports[i] == init[i];
      }
      if (exists i :: 0 <= i < |reports| && reports[i].status == Down) && reports[|reports| - 1].status != Down {
        var i :| 0 <= i < |reports| && reports[i].status == Down;
        assert init[i] == reports[i];
      }
    }
  }

  /** The answer to a health request, as the loop over the checkers in the order `names` builds it. */
  function ResponseOf(checkers: map<string, HealthChecker>, names: seq<string>): (r: HealthResponse)
    requires forall k :: k in names ==> k in checkers
  {
    HealthResponse(FoldStatus(Reports(checkers, names)), map k | k in checkers :: checkers[k]())
  }

  /** The reports of the checkers named, in that order. */
  function Reports(checkers: map<string, HealthChecker>, names: seq<string>): (r: seq<Health>)
    requires forall k :: k in names ==> k in checkers
  {
    seq(|names|, i requires 0 <= i < |names| => checkers[names[i]]())
  }

  /**
   * Whatever the iteration order, the answer reports every checker under its name and is
   * DOWN exactly when one of them reports DOWN, and UP otherwise; without checkers it is UP
   * with no reports.
   */
  lemma ResponseMeaning(checkers: map<string, HealthChecker>, names: seq<string>)
    requires forall k :: k in checkers <==> k in names
    ensures var r := ResponseOf(checkers, names);
      r.health.Keys == checkers.Keys &&
      (forall k :: k in checkers ==> r.health[k] == checkers[k]()) &&
      (r.status == Down <==> exists k :: k in checkers && checkers[k]().status == Down) &&
      (r.status != Down ==> r.status == Up) &&
      (checkers == map[] ==> r == HealthResponse(Up, map[]))
  {
    var reports := Reports(checkers, names);
    FoldStatusDown(reports);
    if exists k :: k in checkers && checkers[k]().status == Down {
      var k :| k in checkers && checkers[k]().status == Down;
      var i :| 0 <= i < |names| && names[i] == k;
      assert reports[i].status == Down;
    }
  }

  /** The loop of `health`: ask each checker in the order `ks`, keeping its report and lowering the status on DOWN. */
  method Ask(checkers: map<string, HealthChecker>, ks: seq<string>) returns (status: HealthStatus, statuses: map<string, Health>)
    requires forall k :: k in checkers <==> k in ks
    ensures status == FoldStatus(Reports(checkers, ks))
    ensures statuses == map k | k in checkers :: checkers[k]()
  {
    status := Up;
    statuses := map[];
    ghost var reports := Reports(checkers, ks);
    var i := 0;
    while i < |ks|
      invariant 0 <= i <= |ks|
      invariant status == FoldStatus(reports[..i])
      invariant forall k :: k in statuses <==> k in ks[..i]
      invariant forall k :: k in statuses ==> statuses[k] == checkers[k]()
    {
      assert reports[..i + 1][..i] == reports[..i];
      var report := checkers[ks[i]]();
      if report.status == Down {
        status := Down;
      }
      statuses := statuses[ks[i] := report];
      i := i + 1;
    }
    assert reports[..i] == reports;
    assert ks[..i] == ks;
  }

  class HealthServiceImpl {
    /** The registered checkers by name. */
    const checkers: map<string, HealthChecker>

    /** A null registry counts as an empty one. */
    constructor (checkers: Option<map<string, HealthChecker>>)
      ensures checkers.None? ==> this.checkers == map[]
      ensures checkers.Some? ==> this.checkers == checkers.value
    {
      if checkers.None? {
        this.checkers := map[];
      } else {
        this.checkers := checkers.value;
      }
    }

    /**
     * `health(request, responseObserver)`: one response, then completion. `names` is the
     * order in which the checkers were asked.
     */
    method Health() returns (calls: seq<ObserverCall>, ghost names: seq<string>)
      ensures |names| == |checkers| && Distinct(names) && (forall k :: k in checkers <==> k in names)
      ensures calls == [OnNext(ResponseOf(checkers, names)), OnCompleted]
    {
      var status := Up;
      var statuses: map<string, Health> := map[];
      names := [];
      if |checkers| > 0 {
        var ks := KeysOf(checkers);
        status, statuses := Ask(checkers, ks);
        names := ks;
      }
      calls := [OnNext(HealthResponse(status, statuses)), OnCompleted];
    }
  }
}
