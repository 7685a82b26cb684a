/**
 * Sessions that keep failing: where an action the client cannot take stops each of them, they come to rest after the
 * first.
 */
module Standstill {
  import opened Wrappers
  import opened Ordering
  import opened Names
  import opened Manifests
  import opened Planner
  import opened Rounds
  import opened Delivery
  import opened Agreement
  import opened Resume

  function FreshSession(w: World, crcOn: bool, base: nat): Outcome {
    SessionFrom(w, ScanServer(w.server), Computed(crcOn), base)
  }

  function FreshPlan(w: World, crcOn: bool): seq<SyncAction> {
    PlanOf(w, ScanServer(w.server), crcOn)
  }

  // ---------------------------------------------------------------- what the first session leaves

  /** True scans: only the client's limits can stop a session. */
  lemma StopIsUnacceptable(w: World, crcOn: bool, base: nat)
    ensures var plan, k := FreshPlan(w, crcOn), FreshSession(w, crcOn, base).attempt.done;
      && k <= |plan| && (forall i :: 0 <= i < k ==> Acceptable(plan[i], base))
      && (k < |plan| ==> !Acceptable(plan[k], base))
  {
    var plan := FreshPlan(w, crcOn);
    ScanIsServerMade(w.server);
    SessionStops(w, ScanServer(w.server), Computed(crcOn), base);
    FreshIsHeld(w, Computed(crcOn));
    forall i | 0 <= i < |plan|
      ensures Meets(plan[i], w, crcOn, base).Done? <==> Acceptable(plan[i], base)
    {
      assert Held(plan[i], w, crcOn);
      MeetsDone(plan[i], w, crcOn, base);
    }
  }

  /** A refused action that is no remote deletion: at most the client's temporary file is gone. */
  function Refusal(action: SyncAction, base: nat, client: Disk): Disk {
    if action.Download? && Fits(action, base) then Cleared(client, action.item.path) else client
  }

  lemma UnacceptableEffect(action: SyncAction, p: Progress, crcOn: bool, base: nat)
    requires !Acceptable(action, base) && !action.DeleteRemote?
    requires action.Download? ==> ContentMatches(p.server, action.item, crcOn)
    ensures ResultOf(action, p, crcOn, base).Refused?
    ensures EffectOf(action, p, crcOn, base) == p.(client := Refusal(action, base, p.client))
  {
    if action.Download? {
      WholeFile(p.server[action.item.path].content, action.item.fingerprint.size);
    }
  }

  lemma StoppedWorld(w: World, crcOn: bool, base: nat)
    requires var plan, k := FreshPlan(w, crcOn), FreshSession(w, crcOn, base).attempt.done;
      k < |plan| && !plan[k].DeleteRemote?
    ensures var plan, k := FreshPlan(w, crcOn), FreshSession(w, crcOn, base).attempt.done;
      var p := Delivery.After(plan, k, Start(w, ScanServer(w.server)));
      FreshSession(w, crcOn, base).world == World(p.server, Refusal(plan[k], base, p.client), w.state)
  {
    var plan, k, crcs := FreshPlan(w, crcOn), FreshSession(w, crcOn, base).attempt.done, Computed(crcOn);
    var manifest := ScanServer(w.server);
    var p := Delivery.After(plan, k, Start(w, manifest));
    ScanIsServerMade(w.server);
    StopIsUnacceptable(w, crcOn, base);
    SessionStops(w, manifest, crcs, base);
    PathUntouched(w, manifest, crcs, k);
    if plan[k].Download? {
      FreshDownloadHeld(w, crcs, k);
      SameFileMatches(p.server, w.server, plan[k].item, crcOn);
    }
    UnacceptableEffect(plan[k], p, crcOn, base);
    ResultIsMeets(w, manifest, crcs, base, k);
  }

  lemma SameFileMatches(disk: Disk, other: Disk, item: ManifestItem, crcOn: bool)
    requires Get(disk, item.path) == Get(other, item.path) && ContentMatches(other, item, crcOn)
    ensures ContentMatches(disk, item, crcOn)
  {
    assert item.path in other <==> Get(other, item.path).Some?;
  }

  // ---------------------------------------------------------------- the second session

  lemma TempIsNotListed(client: Disk, path: Path, crcs: Crcs)
    ensures ListClient(Cleared(client, path), crcs) == ListClient(client, crcs)
  {
    if IsTempName(path) {
      assert RESERVED[0] == TEMP_NAME;
      assert !Reportable(path);
    }
  }

  lemma PlanUnmoved(v: World, a: World, crcOn: bool, action: SyncAction, base: nat)
    requires v == a.(client := Refusal(action, base, a.client))
    ensures FreshPlan(v, crcOn) == FreshPlan(a, crcOn)
  {
    if action.Download? {
      TempIsNotListed(a.client, action.item.path, Computed(crcOn));
    }
  }

  /** What is planned again: conflicts, and downloads. */
  lemma {:induction false} DueAgainKinds(actions: seq<SyncAction>)
    ensures forall i :: 0 <= i < |DueAgain(actions)| ==>
      DueAgain(actions)[i] in actions && (DueAgain(actions)[i].Conflict? || DueAgain(actions)[i].Download?)
  {
    if actions != [] {
      var n := |actions| - 1;
      DueAgainKinds(actions[..n]);
      assert actions == actions[..n] + [actions[n]];
    }
  }

  /** The action changes neither disk. */
  predicate Idle(action: SyncAction, server: Disk, client: Disk) {
    || action.Conflict?
    || (action.Download? && action.item.path in server
        && Get(client, action.item.path) == Some(File(server[action.item.path].content, action.item.dosTime)))
  }

  lemma {:induction false} IdleActions(actions: seq<SyncAction>, start: Progress)
    requires forall i :: 0 <= i < |actions| ==> Idle(actions[i], start.server, start.client)
    ensures var p := PerformAll(actions, start); p.server == start.server && p.client == start.client
  {
    if actions != [] {
      IdleActions(actions[..|actions| - 1], start);
      IdleOne(actions[|actions| - 1], PerformAll(actions[..|actions| - 1], start));
    }
  }

  lemma IdleOne(action: SyncAction, p: Progress)
    requires Idle(action, p.server, p.client)
    ensures Perform(action, p).server == p.server && Perform(action, p).client == p.client
  {
    if action.Download? {
      assert p.client[action.item.path := p.client[action.item.path]] == p.client;
    }
  }

  /** A download carried out among the first k leaves its file as it would leave it again. */
  lemma DoneIsIdle(w: World, crcOn: bool, k: nat, action: SyncAction)
    requires k <= |FreshPlan(w, crcOn)| && action in FreshPlan(w, crcOn)[..k]
    requires action.Conflict? || action.Download?
    ensures var p := Delivery.After(FreshPlan(w, crcOn), k, Start(w, ScanServer(w.server)));
      Idle(action, p.server, p.client)
  {
    var plan, start := FreshPlan(w, crcOn), Start(w, ScanServer(w.server));
    ScansKeyed(w.server, w.client, crcOn);
    PlanExact(w.state, ScanServer(w.server), ScanClient(w.client, crcOn));
    var i :| 0 <= i < k && plan[..k][i] == action;
    var path := ActionPath(action);
    ActionForUnique(plan[..k], action);
    PerformAllAt(plan[..k], start, path);
    if action.Download? {
      assert plan[i] == action;
      FreshDownloadHeld(w, Computed(crcOn), i);
      SlotIsIdle(action, SlotOf(start, path), SlotOf(PerformAll(plan[..k], start), path), w);
    }
  }

  lemma SlotIsIdle(action: SyncAction, before: Slot, after: Slot, w: World)
    requires action.Download? && action.item.path in w.server && before.server == Get(w.server, action.item.path)
    requires after == PerformAt(action.item.path, Some(action), before)
    ensures after.server.Some? && after.client == Some(File(after.server.value.content, action.item.dosTime))
  {
  }

  lemma IdleElsewhere(action: SyncAction, server: Disk, client: Disk, other: SyncAction, base: nat)
    requires Idle(action, server, client) && ActionPath(action) != ActionPath(other)
    ensures Idle(action, server, Refusal(other, base, client))
  {
  }

  lemma RefusedOnce(action: SyncAction, base: nat, client: Disk)
    ensures Refusal(action, base, Refusal(action, base, client)) == Refusal(action, base, client)
  {
  }

  function SessionWith(crcOn: bool, base: nat): World -> World {
    w => FreshSession(w, crcOn, base).world
  }

  function RepeatSessions(n: nat, w: World, crcOn: bool, base: nat): World {
    Iterate(SessionWith(crcOn, base), n, w)
  }

  lemma {:induction false} FixedIterates<T>(f: T -> T, n: nat, t: T)
    requires f(t) == t
    ensures Iterate(f, n, t) == t
  {
    if n > 0 {
      FixedIterates(f, n - 1, t);
    }
  }

  lemma SecondStop(v: World, crcOn: bool, base: nat, due: seq<SyncAction>, rest: seq<SyncAction>)
    requires FreshPlan(v, crcOn) == due + rest && rest != [] && !Acceptable(rest[0], base)
    requires forall i :: 0 <= i < |due| ==> Acceptable(due[i], base)
    ensures FreshSession(v, crcOn, base).attempt.done == |due|
    ensures FreshPlan(v, crcOn)[|due|] == rest[0]
    ensures Delivery.After(FreshPlan(v, crcOn), |due|, Start(v, ScanServer(v.server))) ==
      PerformAll(due, Start(v, ScanServer(v.server)))
  {
    var plan := FreshPlan(v, crcOn);
    StopIsUnacceptable(v, crcOn, base);
    assert plan[..|due|] == due && plan[|due|] == rest[0];
    assert forall i :: 0 <= i < |due| ==> plan[i] == due[i];
  }

  /** What the first session leaves due again is idle. */
  lemma DueIsIdle(w: World, crcOn: bool, k: nat, base: nat, i: nat)
    requires k < |FreshPlan(w, crcOn)| && i < |DueAgain(FreshPlan(w, crcOn)[..k])|
    requires forall j :: 0 <= j < k ==> Acceptable(FreshPlan(w, crcOn)[j], base)
    ensures var plan := FreshPlan(w, crcOn);
      var p, action := Delivery.After(plan, k, Start(w, ScanServer(w.server))), DueAgain(plan[..k])[i];
      Acceptable(action, base) && Idle(action, p.server, Refusal(plan[k], base, p.client))
  {
    var plan := FreshPlan(w, crcOn);
    var p, action := Delivery.After(plan, k, Start(w, ScanServer(w.server))), DueAgain(plan[..k])[i];
    ScansKeyed(w.server, w.client, crcOn);
    PlanExact(w.state, ScanServer(w.server), ScanClient(w.client, crcOn));
    DueAgainKinds(plan[..k]);
    var j :| 0 <= j < k && plan[..k][j] == action;
    assert plan[j] == action && ActionPath(plan[j]) != ActionPath(plan[k]);
    DoneIsIdle(w, crcOn, k, action);
    IdleElsewhere(action, p.server, p.client, plan[k], base);
  }

  /**
   * Where true scans find nothing edited, a session that an action stops leaves a world in which the next one stops at
   * the same action and changes nothing, and so does every later one.  Excepted is only a deletion on the server of a
   * path too long for the client, which is carried out before the client refuses it.
   */
  lemma StoppedSessionRests(w: World, crcOn: bool, base: nat)
    requires GoodState(w.state)
    requires var plan, k := FreshPlan(w, crcOn), FreshSession(w, crcOn, base).attempt.done;
      k < |plan| && !plan[k].DeleteRemote?
    ensures var v := FreshSession(w, crcOn, base).world;
      var k, k' := FreshSession(w, crcOn, base).attempt.done, FreshSession(v, crcOn, base).attempt.done;
      && (forall n: nat :: RepeatSessions(n, v, crcOn, base) == v)
      && k' < |FreshPlan(v, crcOn)| && FreshPlan(v, crcOn)[k'] == FreshPlan(w, crcOn)[k]
  {
    var plan, k := FreshPlan(w, crcOn), FreshSession(w, crcOn, base).attempt.done;
    var p, v := Delivery.After(plan, k, Start(w, ScanServer(w.server))), FreshSession(w, crcOn, base).world;
    var due := DueAgain(plan[..k]);
    StopIsUnacceptable(w, crcOn, base);
    StoppedWorld(w, crcOn, base);
    ResumedPlan(w, crcOn, k);
    PlanUnmoved(v, AbortedAfter(w, ScanServer(w.server), crcOn, k), crcOn, plan[k], base);
    forall i | 0 <= i < |due|
      ensures Acceptable(due[i], base) && Idle(due[i], v.server, v.client)
    {
      DueIsIdle(w, crcOn, k, base, i);
    }
    SecondStop(v, crcOn, base, due, plan[k..]);
    StoppedWorld(v, crcOn, base);
    IdleActions(due, Start(v, ScanServer(v.server)));
    RefusedOnce(plan[k], base, p.client);
    forall n: nat
      ensures RepeatSessions(n, v, crcOn, base) == v
    {
      FixedIterates(SessionWith(crcOn, base), n, v);
    }
  }
}
