/**
 * Runs over a single path, in which everything a session does can be followed: the material for examples.
 */
module SoloRuns {
  import opened Wrappers
  import opened Ordering
  import opened Crc32
  import opened Names
  import opened Manifests
  import opened Planner
  import opened Rounds
  import opened Delivery
  import opened Agreement
  import opened ClientScan
  import opened History
  import CrcCache

  // ---------------------------------------------------------------- worlds with one path

  predicate Solo(w: World, path: Path) {
    w.server.Keys <= {path} && w.client.Keys <= {path} && w.state.Keys <= {path}
  }

  /** What the client's scan reports at the path. */
  function SoloView(w: World, crcs: Crcs, path: Path): Option<ManifestItem> {
    ListView(path, Get(w.client, path), crcs)
  }

  /** The action a fresh scan leads to. */
  function SoloAction(w: World, crcs: Crcs, path: Path): Option<SyncAction> {
    ActionBy(path, CellOf(w, path), ServerView(path, Get(w.server, path)), SoloView(w, crcs, path))
  }

  function SoloNext(w: World, crcs: Crcs, path: Path): Cell {
    CellBy(path, CellOf(w, path), ServerView(path, Get(w.server, path)), SoloView(w, crcs, path))
  }

  function Listed(action: Option<SyncAction>): seq<SyncAction> {
    if action.Some? then [action.value] else []
  }

  lemma OnlyOne(actions: seq<SyncAction>, path: Path, action: Option<SyncAction>)
    requires DistinctPaths(actions) && forall a :: a in actions ==> ActionPath(a) == path && action == Some(a)
    requires action.Some? ==> action.value in actions
    ensures actions == Listed(action)
  {
    OnOnePath(actions, path);
    AtMostOne(actions, path);
    Alone(actions, action);
  }

  lemma OnOnePath(actions: seq<SyncAction>, path: Path)
    requires forall a :: a in actions ==> ActionPath(a) == path
    ensures forall i :: 0 <= i < |actions| ==> ActionPath(actions[i]) == path
  {
    forall i | 0 <= i < |actions|
      ensures ActionPath(actions[i]) == path
    {
      assert actions[i] in actions;
    }
  }

  lemma AtMostOne(actions: seq<SyncAction>, path: Path)
    requires DistinctPaths(actions) && forall i :: 0 <= i < |actions| ==> ActionPath(actions[i]) == path
    ensures |actions| <= 1
  {
    FirstTwoDiffer(actions);
  }

  lemma FirstTwoDiffer(actions: seq<SyncAction>)
    requires DistinctPaths(actions)
    ensures |actions| > 1 ==> ActionPath(actions[0]) != ActionPath(actions[1])
  {
  }

  lemma Alone(actions: seq<SyncAction>, action: Option<SyncAction>)
    requires |actions| <= 1 && (forall a :: a in actions ==> action == Some(a)) && (action.Some? ==> action.value in actions)
    ensures actions == Listed(action)
  {
    if |actions| == 1 {
      assert actions[0] in actions;
    }
  }

  /** The plan over one path is its action, if it has one. */
  lemma SoloPlan(w: World, crcs: Crcs, path: Path)
    requires Solo(w, path)
    ensures PlanFor(w, ScanServer(w.server), crcs) == Listed(SoloAction(w, crcs, path))
    ensures SoloAction(w, crcs, path).Some? ==> ActionPath(SoloAction(w, crcs, path).value) == path
  {
    var manifest, client := ScanServer(w.server), ListClient(w.client, crcs);
    ScansKeyed(w.server, w.client, true);
    ListKeyed(w.client, crcs);
    PlanExact(w.state, manifest, client);
    ScansArePathwise(w.server, w.client, true, path);
    ListIsPathwise(w.client, crcs, path);
    assert PlanAt(path, w.state, manifest, client) == SoloAction(w, crcs, path);
    forall action | action in PlanFor(w, manifest, crcs)
      ensures ActionPath(action) == path
    {
      PlannedPathsKnown(ActionPath(action), w.state, manifest, client);
    }
    if SoloAction(w, crcs, path).Some? {
      PlanPathKeepsPath(path, Get(w.state, path), Get(manifest, path), Get(client, path));
    }
    OnlyOne(PlanFor(w, manifest, crcs), path, SoloAction(w, crcs, path));
  }

  lemma SoloStays(w: World, crcs: Crcs, path: Path)
    requires Solo(w, path)
    ensures Solo(RoundFor(w, ScanServer(w.server), crcs), path)
  {
    var after := RoundFor(w, ScanServer(w.server), crcs);
    ScansKeyed(w.server, w.client, true);
    forall other | other != path
      ensures CellOf(after, other) == Cell(None, None, None)
    {
      RoundIsPathwise(w, ScanServer(w.server), crcs, other);
      NothingThere(other);
    }
    OnlyThere(after, path);
  }

  lemma NothingThere(path: Path)
    ensures CellBy(path, Cell(None, None, None), None, None) == Cell(None, None, None)
  {
  }

  lemma OnlyThere(w: World, path: Path)
    requires forall other :: other != path ==> CellOf(w, other) == Cell(None, None, None)
    ensures Solo(w, path)
  {
    assert forall other :: other in w.server && other != path ==> CellOf(w, other).server.Some?;
    assert forall other :: other in w.client && other != path ==> CellOf(w, other).client.Some?;
    assert forall other :: other in w.state && other != path ==> CellOf(w, other).entry.Some?;
  }

  // ---------------------------------------------------------------- one session

  /** Any action at the path can be carried out. */
  predicate Roomy(path: Path, base: nat) {
    DownloadFits(path, base) && !IsTempName(path)
  }

  lemma RoomySuffices(action: SyncAction, base: nat)
    requires Roomy(ActionPath(action), base)
    ensures Acceptable(action, base)
  {
  }

  /** An upload is reported truly. */
  predicate UploadTrue(w: World, crcs: Crcs, path: Path) {
    SoloAction(w, crcs, path).Some? && SoloAction(w, crcs, path).value.Upload? ==> TrueAt(w.client, crcs, path)
  }

  lemma SoloHeld(w: World, crcs: Crcs, path: Path)
    requires Solo(w, path) && UploadTrue(w, crcs, path)
    ensures AllHeld(PlanFor(w, ScanServer(w.server), crcs), w, crcs.CrcsOn?)
  {
    var plan := PlanFor(w, ScanServer(w.server), crcs);
    ScansKeyed(w.server, w.client, true);
    SoloPlan(w, crcs, path);
    FreshIsHeld(w, crcs);
    if plan != [] && plan[0].Upload? {
      UploadHeld(w, ScanServer(w.server), crcs, 0);
    }
  }

  lemma SoloCompletes(w: World, crcs: Crcs, base: nat, path: Path)
    requires Solo(w, path) && Roomy(path, base) && UploadTrue(w, crcs, path)
    ensures var manifest := ScanServer(w.server);
      var plan, o := PlanFor(w, manifest, crcs), SessionFrom(w, manifest, crcs, base);
      && o.attempt.done == |plan|
      && o.world == RoundFor(w, manifest, crcs) && o.cached == PerformAll(plan, Start(w, manifest)).manifest
  {
    var plan := PlanFor(w, ScanServer(w.server), crcs);
    ScansKeyed(w.server, w.client, true);
    SoloPlan(w, crcs, path);
    SoloHeld(w, crcs, path);
    if plan != [] {
      RoomySuffices(plan[0], base);
    }
    SessionIsRound(w, ScanServer(w.server), crcs, base);
  }

  /** From a fresh scan a session over one path is a completed round, and leaves a fresh manifest. */
  lemma SoloSession(log: Log, visit: Visit, path: Path)
    requires Solo(log.world, path) && Fresh(log) && Roomy(path, visit.base)
    requires UploadTrue(log.world, CrcsNow(log, visit), path)
    ensures var after := AfterSession(log, visit);
      && Solo(after.world, path) && Fresh(after)
      && CellOf(after.world, path) == SoloNext(log.world, CrcsNow(log, visit), path)
  {
    var w, crcs := log.world, CrcsNow(log, visit);
    SoloCompletes(w, crcs, visit.base, path);
    ManifestTracksDisk(w, crcs);
    SoloStays(w, crcs, path);
    ScansKeyed(w.server, w.client, true);
    ScansArePathwise(w.server, w.client, true, path);
    RoundIsPathwise(w, ScanServer(w.server), crcs, path);
  }

  /** A true report at the path: the session's cell is that of a round. */
  lemma TrueSoloNext(w: World, crcs: Crcs, path: Path)
    requires TrueAt(w.client, crcs, path)
    ensures SoloNext(w, crcs, path) == Next(path, CellOf(w, path), crcs.CrcsOn?)
    ensures SoloAction(w, crcs, path) == Action(path, CellOf(w, path), crcs.CrcsOn?)
  {
    TrueViewIsScanned(path, Get(w.client, path), crcs);
  }

  /** A session with one action has that action's effect, whatever it meets. */
  lemma ListedAttempt(w: World, manifest: Manifest, crcs: Crcs, base: nat, action: SyncAction)
    requires PlanFor(w, manifest, crcs) == [action]
    ensures var a, start := SessionFrom(w, manifest, crcs, base).attempt, Start(w, manifest);
      && a.progress == EffectOf(action, start, crcs.CrcsOn?, base)
      && a.result == ResultOf(action, start, crcs.CrcsOn?, base)
      && a.done == if a.result.Done? then 1 else 0
  {
    var start := Start(w, manifest);
    AttemptOfSession(w, manifest, crcs, base);
    TryNone(start, crcs.CrcsOn?, base);
    assert [action][..0] == [];
  }

  lemma TryNone(start: Progress, crcOn: bool, base: nat)
    ensures Try([], start, crcOn, base) == Attempt(start, 0, Done)
  {
  }

  lemma ListedWorld(w: World, manifest: Manifest, crcs: Crcs, base: nat, action: Option<SyncAction>)
    requires PlanFor(w, manifest, crcs) == Listed(action)
    ensures var o, start := SessionFrom(w, manifest, crcs, base), Start(w, manifest);
      if action.None? then o.world.server == w.server && o.world.client == w.client
      else var p := EffectOf(action.value, start, crcs.CrcsOn?, base); o.world.server == p.server && o.world.client == p.client
  {
    if action.Some? {
      ListedAttempt(w, manifest, crcs, base, action.value);
    } else {
      AttemptOfSession(w, manifest, crcs, base);
      TryNone(Start(w, manifest), crcs.CrcsOn?, base);
    }
  }

  /** A session whose only action is refused leaves the server's files unless it was to delete one, and saves nothing. */
  lemma RefusedSession(log: Log, visit: Visit, path: Path, action: SyncAction)
    requires Solo(log.world, path) && Fresh(log)
    requires SoloAction(log.world, CrcsNow(log, visit), path) == Some(action) && !action.DeleteRemote?
    requires ResultOf(action, Start(log.world, Planned(log)), visit.crcOn, visit.base).Refused?
    ensures var o := SessionOf(log, CrcsNow(log, visit), visit.base);
      && PlanNow(log, CrcsNow(log, visit)) == [action]
      && o.attempt.done == 0 && o.attempt.result.Refused? && !Saves(log, CrcsNow(log, visit), visit.base)
      && o.world == log.world.(client := o.world.client) && o.cached == ScanServer(log.world.server)
      && o.world.client == if action.Download? && Fits(action, visit.base)
         then Cleared(log.world.client, path) else log.world.client
  {
    SoloPlan(log.world, CrcsNow(log, visit), path);
    ListedAttempt(log.world, Planned(log), CrcsNow(log, visit), visit.base, action);
  }

  // ---------------------------------------------------------------- the first session of a run

  function DiskWith(path: Path, file: Option<File>): Disk {
    if file.Some? then map[path := file.value] else map[]
  }

  function Opening(path: Path, theirs: Option<File>, own: Option<File>): Log {
    Run([], DiskWith(path, theirs), DiskWith(path, own))
  }

  lemma OpeningIs(path: Path, theirs: Option<File>, own: Option<File>)
    ensures var start := Opening(path, theirs, own);
      && Solo(start.world, path) && Fresh(start) && CellOf(start.world, path) == Cell(theirs, own, None)
      && start.cache == CrcCache.EMPTY && Distinguishing(start.stood) && Remembers(start) && Sound(start)
  {
    RunRemembers([], DiskWith(path, theirs), DiskWith(path, own));
    RunKeepsSound([], DiskWith(path, theirs), DiskWith(path, own));
  }

  lemma TrueThere(log: Log, visit: Visit, path: Path)
    requires Remembers(log) && Distinguishing(log.stood)
    ensures TrueAt(log.world.client, CrcsNow(log, visit), path)
  {
    DistinguishedScanIsTrue(log.world.client, log.cache, visit, log.stood);
  }

  lemma RunMore(events: seq<Event>, event: Event, server: Disk, client: Disk)
    ensures Run(events + [event], server, client) == Happen(Run(events, server, client), event)
  {
    assert (events + [event])[..|events|] == events;
  }

  lemma RunSession(events: seq<Event>, visit: Visit, server: Disk, client: Disk)
    ensures Run(events + [Session(visit)], server, client) == AfterSession(Run(events, server, client), visit)
  {
    RunMore(events, Session(visit), server, client);
  }

  /** The run that consists of one session. */
  lemma OneSession(path: Path, theirs: Option<File>, own: Option<File>, visit: Visit)
    requires Roomy(path, visit.base)
    ensures var after := AfterSession(Opening(path, theirs, own), visit);
      && Solo(after.world, path) && Fresh(after)
      && CellOf(after.world, path) == Next(path, Cell(theirs, own, None), visit.crcOn)
  {
    var start := Opening(path, theirs, own);
    OpeningIs(path, theirs, own);
    TrueThere(start, visit, path);
    TrueSoloNext(start.world, CrcsNow(start, visit), path);
    SoloSession(start, visit, path);
  }

  // ---------------------------------------------------------------- what the cache holds

  /** The cache answers for the path as for this file. */
  predicate Caches(cache: CrcCache.Cache, path: Path, file: File) {
    path in cache.entries && CrcCache.LooksLike(cache.entries[path].known, file)
  }

  lemma {:induction false} EmptyScan(cache: CrcCache.Cache, visit: Visit, n: nat)
    requires n <= |visit.glances|
    ensures ScanUpTo(map[], cache, visit, n) == Scan(cache, map[])
  {
    if n > 0 {
      EmptyScan(cache, visit, n - 1);
    }
  }

  lemma NotEmpty(path: Path)
    requires Reportable(path)
    ensures path != ""
  {
    SplitNoSeparator("", '/');
  }

  /** A first download with CRCs on is remembered. */
  lemma DownloadIsCached(path: Path, first: File, visit: Visit)
    requires Reportable(path) && Roomy(path, visit.base) && |first.content| <= MAX_FILE_SIZE && visit.crcOn
    ensures Caches(AfterSession(Opening(path, Some(first), None), visit).cache, path, first)
  {
    var start := Opening(path, Some(first), None);
    var crcs := CrcsNow(start, visit);
    OpeningIs(path, Some(first), None);
    SoloPlan(start.world, crcs, path);
    SoloCompletes(start.world, crcs, visit.base, path);
    EmptyScan(start.cache, visit, |visit.glances|);
    ReportableIsListed(path);
    NotEmpty(path);
    OneRemembered(start, visit, path, first);
  }

  lemma OneRemembered(start: Log, visit: Visit, path: Path, first: File)
    requires path != "" && visit.crcOn && start.cache == CrcCache.EMPTY
    requires WholeScan(start.world.client, start.cache, visit).cache == start.cache
    requires PlanNow(start, CrcsNow(start, visit)) == [Download(ServerItemOf(path, first))]
    requires SessionOf(start, CrcsNow(start, visit), visit.base).attempt.done == 1
    ensures Caches(AfterSession(start, visit).cache, path, first)
  {
    var plan := PlanNow(start, CrcsNow(start, visit));
    assert plan[..1] == plan && plan[..0] == [];
    assert ServerCrc(first.content) == ClientCrc(first.content);
    assert ActionsCache(plan[..0], start.cache, visit) == start.cache;
  }

  /** A scan that comes upon one file alone, cached, without rechecking, reports the cached CRC. */
  predicate Quick(visit: Visit, path: Path) {
    visit.crcOn && !visit.recheck && |visit.glances| == 1 && visit.glances[0].path == path
  }

  lemma CachedReport(disk: Disk, cache: CrcCache.Cache, visit: Visit, path: Path, was: File)
    requires path in disk && ClientSees(path, disk[path]) && Caches(cache, path, was) && Quick(visit, path)
    requires |was.content| == |disk[path].content| && was.dosTime == disk[path].dosTime
    ensures ReportedCrc(CrcsOf(disk, cache, visit), path, disk[path]) == ClientCrc(was.content)
    ensures WholeScan(disk, cache, visit).cache == cache
  {
    assert ScanUpTo(disk, cache, visit, 0) == Scan(cache, map[]);
  }
}
