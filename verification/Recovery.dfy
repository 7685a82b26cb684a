/**
 * A lost connection and the session after it, which the server plans from the manifest it had cached before.
 */
module Recovery {
  import opened Manifests
  import opened Rounds
  import opened Delivery
  import opened ClientScan
  import opened History
  import opened Resume

  /** Nothing but the connection has stopped the session. */
  predicate CutCleanly(log: Log, visit: Visit, steps: nat) {
    Try(Reached(log, visit, steps), Start(log.world, Planned(log)), visit.crcOn, visit.base).result.Done?
  }

  /** It has then carried out that many actions of its plan. */
  lemma CutIsAborted(log: Log, visit: Visit, steps: nat)
    requires CutCleanly(log, visit, steps)
    ensures var k := |Reached(log, visit, steps)|;
      && k <= |PlanNow(log, CrcsNow(log, visit))|
      && AfterCut(log, visit, steps).world == AbortedFor(log.world, Planned(log), CrcsNow(log, visit), k)
  {
    var reached, start := Reached(log, visit, steps), Start(log.world, Planned(log));
    TryIsPrefix(reached, start, visit.crcOn, visit.base);
    assert reached[..|reached|] == reached;
    assert reached == PlanNow(log, CrcsNow(log, visit))[..|reached|];
  }

  /**
   * A session planned from a fresh scan loses its connection after some of its actions; the next one plans from the
   * same manifest, which its actions have overtaken.  If it completes, with true scans, both disks are as one round
   * without the interruption leaves them, and so is the saved state, if CRCs are on or the first session fetched nothing.
   */
  lemma CutThenCompleted(log: Log, visit: Visit, steps: nat, next: Visit)
    requires Sound(log) && Fresh(log) && CutCleanly(log, visit, steps) && visit.crcOn == next.crcOn
    requires AllTrue(log.world.client, CrcsNow(log, visit))
    requires var after := AfterCut(log, visit, steps);
      && AllTrue(after.world.client, CrcsNow(after, next))
      && SessionOf(after, CrcsNow(after, next), next.base).attempt.done == |PlanNow(after, CrcsNow(after, next))|
    ensures var after := AfterSession(AfterCut(log, visit, steps), next);
      var round, done := Round(log.world, visit.crcOn), Reached(log, visit, steps);
      && after.world.server == round.server && after.world.client == round.client
      && (after.world.state == round.state <==> visit.crcOn || !FetchesInSight(done))
  {
    var w := log.world;
    TrueCut(log, visit, steps);
    UnsavedKeepsManifest(log, visit, steps);
    CompletedIsRound(AfterCut(log, visit, steps), next);
    assert Planned(AfterCut(log, visit, steps)) == ScanServer(w.server);
    ResumedFromStaleManifest(w, visit.crcOn, |Reached(log, visit, steps)|);
  }

  lemma CompletedIsRound(log: Log, visit: Visit)
    requires Keyed(Planned(log)) && AllTrue(log.world.client, CrcsNow(log, visit))
    requires SessionOf(log, CrcsNow(log, visit), visit.base).attempt.done == |PlanNow(log, CrcsNow(log, visit))|
    ensures AfterSession(log, visit).world == RoundFrom(log.world, Planned(log), visit.crcOn)
  {
    SessionIsRound(log.world, Planned(log), CrcsNow(log, visit), visit.base);
    TrueReportIsScan(log.world, Planned(log), CrcsNow(log, visit), visit.base);
  }

  lemma TrueCut(log: Log, visit: Visit, steps: nat)
    requires CutCleanly(log, visit, steps) && AllTrue(log.world.client, CrcsNow(log, visit))
    ensures var k := |Reached(log, visit, steps)|;
      && k <= |PlanOf(log.world, Planned(log), visit.crcOn)|
      && Reached(log, visit, steps) == PlanOf(log.world, Planned(log), visit.crcOn)[..k]
      && AfterCut(log, visit, steps).world == AbortedAfter(log.world, Planned(log), visit.crcOn, k)
  {
    CutIsAborted(log, visit, steps);
    TrueReportIsScan(log.world, Planned(log), CrcsNow(log, visit), visit.base);
  }
}
