/**
 * Runs: edits on either side, scans of the server, sessions and sessions cut off, in any order, from an empty saved
 * state.  A session plans from the server manifest cached by an earlier scan or session, which may be older than the
 * disk, and from CRCs that the client's cache may have answered, which may be older than the files.  The promise
 * checked is the one of README.md, line 10: conflicts are reported, nothing is overwritten silently.
 */
module History {
  import opened Wrappers
  import opened Ordering
  import opened Crc32
  import opened Manifests
  import opened Planner
  import opened Rounds
  import opened Delivery
  import opened Agreement
  import opened ClientScan
  import CrcCache

  datatype Event =
    | ServerEdit(path: Path, file: Option<File>)
    | ClientEdit(path: Path, file: Option<File>)
    | Scanned
    /** The client starts again, with an empty cache. */
    | Restarted
    /** A session that runs as far as it can. */
    | Session(visit: Visit)
    /** A session whose connection is lost after at most so many actions. */
    | Cut(visit: Visit, steps: nat)

  /** A file version as far as size and CRC tell it apart. */
  datatype Revision = Revision(path: Path, size: nat, crc: Word)

  /**
   * The world, the server's cached manifest and the client's CRC cache; every revision the server ever held; those the
   * client held at the end of a session that was saved, and the server then or before; those both disks held at such
   * an end; every file the client ever held.
   */
  datatype Log = Log(
    world: World, cached: Option<Manifest>, cache: CrcCache.Cache,
    once: set<Revision>, shared: set<Revision>, agreed: set<Revision>, stood: set<Standing>)

  function RevisionOf(path: Path, file: File): Revision {
    Revision(path, |file.content|, ServerCrc(file.content))
  }

  function RevisionsOn(disk: Disk): set<Revision> {
    set path | path in disk :: RevisionOf(path, disk[path])
  }

  function HeldByBoth(w: World): set<Revision> {
    RevisionsOn(w.server) * RevisionsOn(w.client)
  }

  function Edited(disk: Disk, path: Path, file: Option<File>): Disk {
    if file.Some? then disk[path := file.value] else disk - {path}
  }

  /** The manifest the next session plans from. */
  function Planned(log: Log): Manifest {
    if log.cached.Some? then log.cached.value else ScanServer(log.world.server)
  }

  /** The CRCs the client's scan reports. */
  function CrcsNow(log: Log, visit: Visit): Crcs {
    CrcsOf(log.world.client, log.cache, visit)
  }

  function SessionOf(log: Log, crcs: Crcs, base: nat): Outcome {
    SessionFrom(log.world, Planned(log), crcs, base)
  }

  function PlanNow(log: Log, crcs: Crcs): seq<SyncAction> {
    PlanFor(log.world, Planned(log), crcs)
  }

  /** The server got to the end of the action loop and saved. */
  predicate Saves(log: Log, crcs: Crcs, base: nat) {
    ServerSatisfied(SessionOf(log, crcs, base).attempt, |PlanNow(log, crcs)|)
  }

  /** The client's cache after its scan and the actions it has answered. */
  function CacheAfter(log: Log, visit: Visit, actions: seq<SyncAction>, a: Attempt): CrcCache.Cache {
    var scanned := WholeScan(log.world.client, log.cache, visit).cache;
    var answered := Answers(a, |actions|);
    if answered <= |actions| then ActionsCache(actions[..answered], scanned, visit) else scanned
  }

  function AfterSession(log: Log, visit: Visit): Log {
    var crcs := CrcsNow(log, visit);
    var o := SessionOf(log, crcs, visit.base);
    var once := log.once + RevisionsOn(o.world.server);
    var saves := Saves(log, crcs, visit.base);
    Log(o.world, Some(o.cached), CacheAfter(log, visit, PlanNow(log, crcs), o.attempt), once,
        if saves then log.shared + once * RevisionsOn(o.world.client) else log.shared,
        if saves then log.agreed + HeldByBoth(o.world) else log.agreed,
        log.stood + StandingOn(o.world.client))
  }

  /** The actions that are begun before the connection is lost. */
  function Reached(log: Log, visit: Visit, steps: nat): seq<SyncAction> {
    var plan := PlanNow(log, CrcsNow(log, visit));
    if steps <= |plan| then plan[..steps] else plan
  }

  function CutAttempt(log: Log, visit: Visit, steps: nat): Attempt {
    var reached := Reached(log, visit, steps);
    Begun(reached, Try(reached, Start(log.world, Planned(log)), visit.crcOn, visit.base))
  }

  function AfterCut(log: Log, visit: Visit, steps: nat): Log {
    var a := CutAttempt(log, visit, steps);
    log.(world := World(a.progress.server, a.progress.client, log.world.state), cached := Some(Planned(log)),
         cache := CacheAfter(log, visit, Reached(log, visit, steps), a),
         once := log.once + RevisionsOn(a.progress.server), stood := log.stood + StandingOn(a.progress.client))
  }

  function Happen(log: Log, event: Event): Log {
    var w := log.world;
    match event
    case ServerEdit(path, file) =>
      var disk := Edited(w.server, path, file);
      log.(world := w.(server := disk), once := log.once + RevisionsOn(disk))
    case ClientEdit(path, file) =>
      var disk := Edited(w.client, path, file);
      log.(world := w.(client := disk), stood := log.stood + StandingOn(disk))
    case Scanned => log.(cached := Some(ScanServer(w.server)))
    case Restarted => log.(cache := CrcCache.EMPTY)
    case Session(visit) => AfterSession(log, visit)
    case Cut(visit, steps) => AfterCut(log, visit, steps)
  }

  function Run(events: seq<Event>, server: Disk, client: Disk): Log {
    if events == [] then
      Log(World(server, client, map[]), None, CrcCache.EMPTY, RevisionsOn(server), {}, {}, StandingOn(client))
    else Happen(Run(events[..|events| - 1], server, client), events[|events| - 1])
  }

  // ---------------------------------------------------------------- what every run keeps

  predicate ItemOnce(item: ManifestItem, once: set<Revision>) {
    Revision(item.path, item.fingerprint.size, item.fingerprint.crc32) in once
  }

  /** The manifest shows only what the server held at some time, under its own path and with its CRC. */
  predicate Shown(manifest: Manifest, once: set<Revision>) {
    ServerMade(manifest) && forall path :: path in manifest ==> ItemOnce(manifest[path], once)
  }

  predicate Sound(log: Log) {
    && GoodState(log.world.state)
    && RevisionsOn(log.world.server) <= log.once
    && Shown(Planned(log), log.once)
  }

  lemma ScanIsShown(disk: Disk, once: set<Revision>)
    requires RevisionsOn(disk) <= once
    ensures Shown(ScanServer(disk), once)
  {
    ScanIsServerMade(disk);
    forall path | path in ScanServer(disk)
      ensures ItemOnce(ScanServer(disk)[path], once)
    {
      assert RevisionOf(path, disk[path]) in RevisionsOn(disk);
    }
  }

  lemma ShownLater(manifest: Manifest, once: set<Revision>, later: set<Revision>)
    requires Shown(manifest, once) && once <= later
    ensures Shown(manifest, later)
  {
    forall path | path in manifest
      ensures ItemOnce(manifest[path], later)
    {
      assert ItemOnce(manifest[path], once);
    }
  }

  lemma ItemKeptOrStored(path: Path, action: Option<SyncAction>, slot: Slot)
    ensures var after := PerformAt(path, action, slot);
      || after.item == slot.item
      || after.item.None?
      || (after.server.Some? && after.item == Some(ServerItemOf(path, after.server.value)))
  {
  }

  lemma StateAfterIsGood(server: Manifest, client: Manifest)
    requires ServerMade(server)
    ensures GoodState(StateAfter(server, client))
  {
    forall path | path in StateAfter(server, client)
      ensures GoodEntry(StateAfter(server, client)[path])
    {
      SavedEntryGood(Get(server, path), Get(client, path));
    }
  }

  /** The entry saved for a path, from what the manifest shows and the server believes at the end. */
  lemma SavedEntryAt(log: Log, crcs: Crcs, base: nat, path: Path)
    requires Sound(log) && Saves(log, crcs, base)
    ensures var o, slot := SessionOf(log, crcs, base), SlotOf(Start(log.world, Planned(log)), path);
      var view := ListView(path, slot.client, crcs);
      var action := PlanPath(path, Get(log.world.state, path), slot.item, view);
      && ActionFor(PlanNow(log, crcs), path) == action
      && Ends(SlotOf(o.attempt.progress, path), path, action, slot, crcs.CrcsOn?)
      && Get(o.world.state, path) == EntryAfter(PerformAt(path, action, slot).item, PredictAt(action, view))
      && Get(o.cached, path) == PerformAt(path, action, slot).item
      && Get(o.world.client, path) == ClientAfter(path, action, slot)
  {
    var w, manifest := log.world, Planned(log);
    var client := ListClient(w.client, crcs);
    SavedSessionAt(w, manifest, crcs, base, path);
    ListKeyed(w.client, crcs);
    ListIsPathwise(w.client, crcs, path);
    ActionForPlan(w.state, manifest, client, path);
    PredictedAt(client, PlanNow(log, crcs), path);
    StatePathwise(SessionOf(log, crcs, base).cached, Predict(client, PlanNow(log, crcs)), path);
  }

  lemma SavedManifestIsShown(log: Log, crcs: Crcs, base: nat)
    requires Sound(log) && Saves(log, crcs, base)
    ensures var o := SessionOf(log, crcs, base);
      Shown(o.cached, log.once + RevisionsOn(o.world.server))
  {
    var o, start := SessionOf(log, crcs, base), Start(log.world, Planned(log));
    forall path | path in o.cached
      ensures o.cached[path].path == path && o.cached[path].fingerprint.crcKnown
      ensures ItemOnce(o.cached[path], log.once + RevisionsOn(o.world.server))
    {
      SavedEntryAt(log, crcs, base, path);
      ItemKeptOrStored(path, ActionFor(PlanNow(log, crcs), path), SlotOf(start, path));
      if path in o.world.server && o.cached[path] == ServerItemOf(path, o.world.server[path]) {
        assert RevisionOf(path, o.world.server[path]) in RevisionsOn(o.world.server);
      } else {
        assert ItemOnce(start.manifest[path], log.once);
      }
    }
  }

  lemma SessionKeepsSound(log: Log, visit: Visit)
    requires Sound(log)
    ensures Sound(AfterSession(log, visit))
  {
    var crcs := CrcsNow(log, visit);
    var o := SessionOf(log, crcs, visit.base);
    if Saves(log, crcs, visit.base) {
      SavedManifestIsShown(log, crcs, visit.base);
      StateAfterIsGood(o.cached, Predict(ListClient(log.world.client, crcs), PlanNow(log, crcs)));
    } else {
      ShownLater(Planned(log), log.once, log.once + RevisionsOn(o.world.server));
    }
  }

  lemma HappenKeepsSound(log: Log, event: Event)
    requires Sound(log)
    ensures Sound(Happen(log, event))
  {
    var after := Happen(log, event);
    match event
    case ServerEdit(path, file) =>
      ScanIsShown(after.world.server, after.once);
      ShownLater(Planned(log), log.once, after.once);
    case Scanned => ScanIsShown(log.world.server, log.once);
    case Session(visit) => SessionKeepsSound(log, visit);
    case Cut(_, _) => ShownLater(Planned(log), log.once, after.once);
    case _ =>
  }

  /** In every run the saved state is good, and the cached manifest shows only what the server held at some time. */
  lemma {:induction false} RunKeepsSound(events: seq<Event>, server: Disk, client: Disk)
    ensures Sound(Run(events, server, client))
  {
    if events == [] {
      ScanIsShown(server, RevisionsOn(server));
    } else {
      RunKeepsSound(events[..|events| - 1], server, client);
      HappenKeepsSound(Run(events[..|events| - 1], server, client), events[|events| - 1]);
    }
  }

  // ---------------------------------------------------------------- which manifest is planned from

  /** A session that does not save, and one cut off, leave the manifest that was planned from for the next. */
  lemma UnsavedKeepsManifest(log: Log, visit: Visit, steps: nat)
    ensures !Saves(log, CrcsNow(log, visit), visit.base) ==> AfterSession(log, visit).cached == Some(Planned(log))
    ensures AfterCut(log, visit, steps).cached == Some(Planned(log))
  {
  }

  /** A session that saves leaves the manifest as its actions have updated it. */
  lemma SavedUpdatesManifest(log: Log, visit: Visit, path: Path)
    requires Sound(log) && Saves(log, CrcsNow(log, visit), visit.base)
    ensures var action := ActionFor(PlanNow(log, CrcsNow(log, visit)), path);
      var before, after := Get(Planned(log), path), AfterSession(log, visit);
      && after.cached.Some?
      && (action.None? || action.value.Download? || action.value.DeleteLocal? || action.value.Conflict? ==>
            Get(after.cached.value, path) == before)
      && (action.Some? && action.value.DeleteRemote? ==> path !in after.cached.value)
      && (action.Some? && action.value.Upload? && path in log.world.client ==>
            && path in after.world.server
            && Get(after.cached.value, path) == Some(ServerItemOf(path, after.world.server[path])))
  {
    SavedEntryAt(log, CrcsNow(log, visit), visit.base, path);
  }

  /** Edits, client restarts, lost connections and sessions that do not save. */
  predicate KeepsManifest(log: Log, event: Event) {
    match event
    case Scanned => false
    case Session(visit) => !Saves(log, CrcsNow(log, visit), visit.base)
    case _ => true
  }

  function AfterEvents(log: Log, events: seq<Event>): Log {
    if events == [] then log else Happen(AfterEvents(log, events[..|events| - 1]), events[|events| - 1])
  }

  predicate AllKeepManifest(log: Log, events: seq<Event>) {
    forall i :: 0 <= i < |events| ==> KeepsManifest(AfterEvents(log, events[..i]), events[i])
  }

  /** Until the next scan or saved session, once a manifest is cached, all sessions plan from it. */
  lemma {:induction false} OneManifestTillNextScan(log: Log, events: seq<Event>)
    requires log.cached.Some? && AllKeepManifest(log, events)
    ensures AfterEvents(log, events).cached == log.cached
  {
    if events != [] {
      var n := |events| - 1;
      var before := events[..n];
      forall i | 0 <= i < n
        ensures KeepsManifest(AfterEvents(log, before[..i]), before[i])
      {
        assert before[..i] == events[..i] && before[i] == events[i];
      }
      OneManifestTillNextScan(log, before);
      OneManifestKept(AfterEvents(log, before), events[n]);
    }
  }

  lemma OneManifestKept(log: Log, event: Event)
    requires log.cached.Some? && KeepsManifest(log, event)
    ensures Happen(log, event).cached == log.cached
  {
    match event
    case Session(visit) => UnsavedKeepsManifest(log, visit, 0);
    case Cut(visit, steps) => UnsavedKeepsManifest(log, visit, steps);
    case _ =>
  }

  // ---------------------------------------------------------------- what the client's cache remembers

  /** The client's files and the CRCs in its cache are those of files it has held. */
  ghost predicate Remembers(log: Log) {
    StandingOn(log.world.client) <= log.stood && Recalled(log.cache, log.stood)
  }

  lemma PlanIsDistinct(log: Log, crcs: Crcs, k: nat)
    requires Sound(log) && k <= |PlanNow(log, crcs)|
    ensures DistinctPaths(PlanNow(log, crcs)[..k])
  {
    ListKeyed(log.world.client, crcs);
    PlanExact(log.world.state, Planned(log), ListClient(log.world.client, crcs));
  }

  /** Whatever part of its actions the client has answered. */
  lemma CacheRecalls(log: Log, visit: Visit, actions: seq<SyncAction>, t: Attempt, stood: set<Standing>)
    requires Remembers(log) && DistinctPaths(actions)
    requires t == Try(actions, Start(log.world, Planned(log)), visit.crcOn, visit.base)
    requires stood == log.stood + StandingOn(t.progress.client)
    ensures Recalled(CacheAfter(log, visit, actions, t), stood)
  {
    var scanned := WholeScan(log.world.client, log.cache, visit).cache;
    ScanRecalls(log.world.client, log.cache, visit, |visit.glances|, log.stood);
    RecalledLater(scanned, log.stood, stood);
    TryLeavesDownloads(actions, Start(log.world, Planned(log)), visit.crcOn, visit.base);
    var answered := actions[..Answers(t, |actions|)];
    forall i | 0 <= i < |answered| && answered[i].Download?
      ensures StandsAs(Get(t.progress.client, answered[i].item.path), answered[i].item, visit.crcOn)
    {
      assert answered[i] == actions[i];
    }
    ActionsRecall(answered, scanned, visit, t.progress.client, stood);
  }

  /** The action the server begins after a surplus concerns neither the client's files nor its answers. */
  lemma BegunSparesClient(actions: seq<SyncAction>, t: Attempt)
    ensures var a := Begun(actions, t);
      a.progress.client == t.progress.client && Answers(a, |actions|) == Answers(t, |actions|)
  {
  }

  lemma SessionRemembers(log: Log, visit: Visit)
    requires Sound(log) && Remembers(log)
    ensures Remembers(AfterSession(log, visit))
  {
    var crcs := CrcsNow(log, visit);
    var plan := PlanNow(log, crcs);
    var t := Tried(log.world, Planned(log), crcs, visit.base);
    PlanIsDistinct(log, crcs, |plan|);
    assert plan[..|plan|] == plan;
    AttemptOfSession(log.world, Planned(log), crcs, visit.base);
    BegunSparesClient(plan, t);
    CacheRecalls(log, visit, plan, t, log.stood + StandingOn(t.progress.client));
  }

  lemma CutRemembers(log: Log, visit: Visit, steps: nat)
    requires Sound(log) && Remembers(log)
    ensures Remembers(AfterCut(log, visit, steps))
  {
    var crcs := CrcsNow(log, visit);
    var plan, reached := PlanNow(log, crcs), Reached(log, visit, steps);
    var t := Try(reached, Start(log.world, Planned(log)), visit.crcOn, visit.base);
    PlanIsDistinct(log, crcs, |reached|);
    assert reached == plan[..|reached|];
    BegunSparesClient(reached, t);
    CacheRecalls(log, visit, reached, t, log.stood + StandingOn(t.progress.client));
  }

  lemma HappenRemembers(log: Log, event: Event)
    requires Sound(log) && Remembers(log)
    ensures Remembers(Happen(log, event))
  {
    match event
    case ClientEdit(path, file) => RecalledLater(log.cache, log.stood, Happen(log, event).stood);
    case Session(visit) => SessionRemembers(log, visit);
    case Cut(visit, steps) => CutRemembers(log, visit, steps);
    case _ =>
  }

  /** In every run each CRC in the client's cache is that of a file that once stood at its path. */
  lemma {:induction false} RunRemembers(events: seq<Event>, server: Disk, client: Disk)
    ensures Remembers(Run(events, server, client))
  {
    if events != [] {
      var before := events[..|events| - 1];
      RunRemembers(before, server, client);
      RunKeepsSound(before, server, client);
      HappenRemembers(Run(before, server, client), events[|events| - 1]);
    }
  }

  /** Every completed session's scan reported the files' own CRCs. */
  predicate TrueScans(events: seq<Event>, server: Disk, client: Disk) {
    forall i :: 0 <= i < |events| && events[i].Session? ==>
      var log := Run(events[..i], server, client);
      AllTrue(log.world.client, CrcsNow(log, events[i].visit))
  }

  lemma {:induction false} StoodGrows(events: seq<Event>, n: nat, server: Disk, client: Disk)
    requires n <= |events|
    ensures Run(events[..n], server, client).stood <= Run(events, server, client).stood
  {
    if n == |events| {
      assert events[..n] == events;
    } else {
      var before := events[..|events| - 1];
      assert before[..n] == events[..n];
      StoodGrows(before, n, server, client);
    }
  }

  /** Where size and stamp tell apart the CRCs of the files that ever stood at a path, every scan of the run was true. */
  lemma DistinguishedRunsScanTruly(events: seq<Event>, server: Disk, client: Disk)
    requires Distinguishing(Run(events, server, client).stood)
    ensures TrueScans(events, server, client)
    ensures var log := Run(events, server, client);
      forall visit :: AllTrue(log.world.client, CrcsNow(log, visit))
  {
    forall i, visit | 0 <= i <= |events|
      ensures var log := Run(events[..i], server, client); AllTrue(log.world.client, CrcsNow(log, visit))
    {
      var log := Run(events[..i], server, client);
      StoodGrows(events, i, server, client);
      RunRemembers(events[..i], server, client);
      DistinguishedScanIsTrue(log.world.client, log.cache, visit, log.stood);
    }
    assert events[..|events|] == events;
  }

  /** The last action the client has answered, a cut download included, is what the cache goes by afterwards. */
  lemma LastAnswerCached(log: Log, visit: Visit)
    requires var plan, a := PlanNow(log, CrcsNow(log, visit)), SessionOf(log, CrcsNow(log, visit), visit.base).attempt;
      0 < Answers(a, |plan|) <= |plan| && ActionPath(plan[Answers(a, |plan|) - 1]) != ""
    ensures var plan, a := PlanNow(log, CrcsNow(log, visit)), SessionOf(log, CrcsNow(log, visit), visit.base).attempt;
      var last, cache := plan[Answers(a, |plan|) - 1], AfterSession(log, visit).cache.entries;
      && (last.Download? && visit.crcOn ==>
            last.item.path in cache && cache[last.item.path].known.crc == last.item.fingerprint.crc32)
      && ((last.Download? && !visit.crcOn) || last.DeleteLocal? ==> ActionPath(last) !in cache)
      && (a.result.OutOfStep? && a.done < |plan| ==> last == plan[a.done])
  {
    var plan, a := PlanNow(log, CrcsNow(log, visit)), SessionOf(log, CrcsNow(log, visit), visit.base).attempt;
    var answered := plan[..Answers(a, |plan|)];
    LastAnswerIsCached(answered, WholeScan(log.world.client, log.cache, visit).cache, visit);
  }

  // ---------------------------------------------------------------- what saved entries name

  predicate AllCrcOn(events: seq<Event>) {
    forall i :: 0 <= i < |events| && events[i].Session? ==> events[i].visit.crcOn
  }

  function EntryRevision(path: Path, entry: SyncStateEntry): Revision
    requires entry.server.Some?
  {
    Revision(path, entry.server.value.size, entry.server.value.crc32)
  }

  predicate EntryShared(path: Path, entry: SyncStateEntry, shared: set<Revision>) {
    GoodEntry(entry) && entry.client.value.crcKnown && EntryRevision(path, entry) in shared
  }

  predicate StateShared(log: Log) {
    forall path :: path in log.world.state ==> EntryShared(path, log.world.state[path], log.shared)
  }

  /** With CRCs on and truly reported, what is saved for a path is the revision the client then holds. */
  lemma SavedIsHeld(path: Path, previous: Option<SyncStateEntry>, slot: Slot)
    requires slot.item.Some? ==> slot.item.value.fingerprint.crcKnown
    requires var action := PlanPath(path, previous, slot.item, ClientView(path, slot.client, true));
      action.Some? && action.value.Download? ==> Takes(slot, action.value.item, true)
    ensures var view := ClientView(path, slot.client, true);
      var action := PlanPath(path, previous, slot.item, view);
      var saved := EntryAfter(PerformAt(path, action, slot).item, PredictAt(action, view));
      saved.Some? ==>
        && GoodEntry(saved.value) && saved.value.client.value.crcKnown
        && ClientAfter(path, action, slot).Some?
        && RevisionOf(path, ClientAfter(path, action, slot).value) == EntryRevision(path, saved.value)
  {
  }

  lemma EntryIsShared(log: Log, visit: Visit, path: Path)
    requires Sound(log) && visit.crcOn && Saves(log, CrcsNow(log, visit), visit.base)
    requires AllTrue(log.world.client, CrcsNow(log, visit))
    requires path in AfterSession(log, visit).world.state
    ensures var after := AfterSession(log, visit);
      EntryShared(path, after.world.state[path], after.shared)
  {
    var crcs, slot := CrcsNow(log, visit), SlotOf(Start(log.world, Planned(log)), path);
    var after := AfterSession(log, visit);
    SavedEntryAt(log, crcs, visit.base, path);
    TrueViewIsScanned(path, slot.client, crcs);
    SavedIsHeld(path, Get(log.world.state, path), slot);
    SessionKeepsSound(log, visit);
    assert ItemOnce(Planned(after)[path], after.once);
    assert RevisionOf(path, after.world.client[path]) in RevisionsOn(after.world.client);
  }

  lemma HappenKeepsStateShared(log: Log, event: Event)
    requires Sound(log) && StateShared(log)
    requires event.Session? ==> event.visit.crcOn && AllTrue(log.world.client, CrcsNow(log, event.visit))
    ensures StateShared(Happen(log, event))
  {
    var after := Happen(log, event);
    if event.Session? && Saves(log, CrcsNow(log, event.visit), event.visit.base) {
      forall path | path in after.world.state
        ensures EntryShared(path, after.world.state[path], after.shared)
      {
        EntryIsShared(log, event.visit, path);
      }
    }
  }

  /**
   * In every run whose sessions have CRCs on and scan truly, however stale the manifests, every saved entry names one
   * revision that the client held at the end of a saved session and the server then or before.
   */
  lemma {:induction false} RunKeepsStateShared(events: seq<Event>, server: Disk, client: Disk)
    requires AllCrcOn(events) && TrueScans(events, server, client)
    ensures StateShared(Run(events, server, client))
  {
    if events != [] {
      var before := events[..|events| - 1];
      FewerTrueScans(events, server, client);
      RunKeepsStateShared(before, server, client);
      RunKeepsSound(before, server, client);
      HappenKeepsStateShared(Run(before, server, client), events[|events| - 1]);
    }
  }

  lemma FewerTrueScans(events: seq<Event>, server: Disk, client: Disk)
    requires events != [] && TrueScans(events, server, client)
    ensures TrueScans(events[..|events| - 1], server, client)
  {
    var before := events[..|events| - 1];
    assert forall i :: 0 <= i < |before| ==> before[..i] == events[..i] && before[i] == events[i];
  }

  // ---------------------------------------------------------------- runs planned from fresh scans

  predicate Fresh(log: Log) {
    Planned(log) == ScanServer(log.world.server)
  }

  /** Every session finds the server's disk as its manifest shows it. */
  predicate AllFresh(events: seq<Event>, server: Disk, client: Disk) {
    forall i :: 0 <= i < |events| && events[i].Session? ==> Fresh(Run(events[..i], server, client))
  }

  /** An entry whose client CRC was known names a revision both sides really held at once. */
  predicate Backed(path: Path, entry: SyncStateEntry, agreed: set<Revision>) {
    GoodEntry(entry) && (entry.client.value.crcKnown ==> EntryRevision(path, entry) in agreed)
  }

  predicate EntriesBacked(state: SyncState, agreed: set<Revision>) {
    forall path :: path in state ==> Backed(path, state[path], agreed)
  }

  predicate StateBacked(log: Log) {
    EntriesBacked(log.world.state, log.agreed)
  }

  /** A fresh session that is saved is a completed round; any other leaves the saved state alone. */
  lemma FreshSession(log: Log, visit: Visit)
    requires Sound(log) && Fresh(log)
    ensures var after, crcs := AfterSession(log, visit), CrcsNow(log, visit);
      if Saves(log, crcs, visit.base)
      then after.world == RoundFor(log.world, ScanServer(log.world.server), crcs)
        && after.agreed == log.agreed + HeldByBoth(after.world)
      else after.world.state == log.world.state && after.agreed == log.agreed
  {
    var w, crcs := log.world, CrcsNow(log, visit);
    var plan, o := PlanNow(log, crcs), SessionOf(log, crcs, visit.base);
    SessionIsRound(w, Planned(log), crcs, visit.base);
    if o.attempt.done < |plan| {
      NoSurplusFresh(log, crcs, visit.base);
    }
  }

  lemma NoSurplusFresh(log: Log, crcs: Crcs, base: nat)
    requires Sound(log) && Fresh(log)
    ensures !SessionOf(log, crcs, base).attempt.result.OutOfStep?
  {
    var w, plan, o := log.world, PlanNow(log, crcs), SessionOf(log, crcs, base);
    SessionStops(w, Planned(log), crcs, base);
    var k := o.attempt.done;
    if k < |plan| && plan[k].Download? {
      FreshDownloadHeld(w, crcs, k);
      HeldIsWhole(plan[k], w, crcs.CrcsOn?, base);
    }
  }

  lemma HeldIsWhole(action: SyncAction, w: World, crcOn: bool, base: nat)
    requires Held(action, w, crcOn)
    ensures !Meets(action, w, crcOn, base).OutOfStep?
  {
  }

  /** A saved entry with a known client CRC names what both sides then hold. */
  predicate EntryHeld(path: Path, after: Cell) {
    after.entry.Some? ==>
      && GoodEntry(after.entry.value)
      && (after.entry.value.client.value.crcKnown ==>
            && after.server.Some? && after.client.Some?
            && RevisionOf(path, after.server.value) == RevisionOf(path, after.client.value)
               == EntryRevision(path, after.entry.value))
  }

  lemma QuietEntryHeld(path: Path, cell: Cell, crcOn: bool)
    requires Action(path, cell, crcOn).None? || IsConflict(Action(path, cell, crcOn))
    ensures EntryHeld(path, Next(path, cell, crcOn))
  {
  }

  lemma MovedEntryHeld(path: Path, cell: Cell, crcOn: bool)
    requires Action(path, cell, crcOn).Some? && !IsConflict(Action(path, cell, crcOn))
    ensures EntryHeld(path, Next(path, cell, crcOn))
  {
  }

  lemma SavedEntryHeld(path: Path, cell: Cell, crcOn: bool)
    ensures EntryHeld(path, Next(path, cell, crcOn))
  {
    if Action(path, cell, crcOn).None? || IsConflict(Action(path, cell, crcOn)) {
      QuietEntryHeld(path, cell, crcOn);
    } else {
      MovedEntryHeld(path, cell, crcOn);
    }
  }

  lemma RoundBacks(w: World, crcs: Crcs, agreed: set<Revision>)
    requires AllTrue(w.client, crcs) && HeldByBoth(RoundFor(w, ScanServer(w.server), crcs)) <= agreed
    ensures EntriesBacked(RoundFor(w, ScanServer(w.server), crcs).state, agreed)
  {
    var after := RoundFor(w, ScanServer(w.server), crcs);
    forall path | path in after.state
      ensures Backed(path, after.state[path], agreed)
    {
      TrueRoundAt(w, crcs, path);
      SavedEntryHeld(path, CellOf(w, path), crcs.CrcsOn?);
      assert CellOf(after, path) == Next(path, CellOf(w, path), crcs.CrcsOn?);
      if after.state[path].client.value.crcKnown {
        assert RevisionOf(path, after.server[path]) in RevisionsOn(after.server);
        assert RevisionOf(path, after.client[path]) in RevisionsOn(after.client);
      }
    }
  }

  lemma BackedByMore(state: SyncState, agreed: set<Revision>, more: set<Revision>)
    requires EntriesBacked(state, agreed) && agreed <= more
    ensures EntriesBacked(state, more)
  {
    forall path | path in state
      ensures Backed(path, state[path], more)
    {
      assert Backed(path, state[path], agreed);
    }
  }

  lemma SessionBacks(log: Log, visit: Visit)
    requires Sound(log) && EntriesBacked(log.world.state, log.agreed)
    requires Fresh(log) && AllTrue(log.world.client, CrcsNow(log, visit))
    ensures var after := AfterSession(log, visit); EntriesBacked(after.world.state, after.agreed)
  {
    var after, crcs := AfterSession(log, visit), CrcsNow(log, visit);
    FreshSession(log, visit);
    if Saves(log, crcs, visit.base) {
      RoundBacks(log.world, crcs, after.agreed);
    } else {
      BackedByMore(log.world.state, log.agreed, after.agreed);
    }
  }

  lemma HappenBacks(log: Log, event: Event)
    requires Sound(log) && StateBacked(log)
    requires event.Session? ==> Fresh(log) && AllTrue(log.world.client, CrcsNow(log, event.visit))
    ensures StateBacked(Happen(log, event))
  {
    if event.Session? {
      SessionBacks(log, event.visit);
    }
  }

  /**
   * Where every session scans truly and plans from a fresh scan of the server, entries with a known client CRC name
   * what both sides held at once.
   */
  lemma {:induction false} RunKeepsStateBacked(events: seq<Event>, server: Disk, client: Disk)
    requires AllFresh(events, server, client) && TrueScans(events, server, client)
    ensures StateBacked(Run(events, server, client))
  {
    if events != [] {
      var n := |events| - 1;
      var before := events[..n];
      forall i | 0 <= i < n && before[i].Session?
        ensures Fresh(Run(before[..i], server, client))
      {
        assert before[..i] == events[..i];
      }
      FewerTrueScans(events, server, client);
      RunKeepsStateBacked(before, server, client);
      RunKeepsSound(before, server, client);
      HappenBacks(Run(before, server, client), events[n]);
    }
  }

  // ---------------------------------------------------------------- what an action destroys

  predicate HitsClient(action: SyncAction) {
    action.Download? || action.DeleteLocal?
  }

  predicate HitsServer(action: SyncAction) {
    action.Upload? || action.DeleteRemote?
  }

  /** The file the action is about to replace or remove. */
  function Victim(action: SyncAction, p: Progress): Option<File> {
    if HitsClient(action) then Get(p.client, ActionPath(action))
    else if HitsServer(action) then Get(p.server, ActionPath(action))
    else None
  }

  /** The session's k-th action and the file in its way. */
  function VictimOf(log: Log, crcs: Crcs, k: nat): Option<File>
    requires k < |PlanNow(log, crcs)|
  {
    Victim(PlanNow(log, crcs)[k], Delivery.After(PlanNow(log, crcs), k, Start(log.world, Planned(log))))
  }

  /** The item is the file's revision, seen by the server's scan. */
  predicate Shows(item: Option<ManifestItem>, path: Path, file: File) {
    && ServerSees(path, file) && item.Some?
    && item.value.fingerprint.size == |file.content| && item.value.fingerprint.crc32 == ServerCrc(file.content)
  }

  /** The plan was made with the file in view: by the client's scan, or by the manifest the server planned from. */
  predicate InView(action: SyncAction, item: Option<ManifestItem>, file: File) {
    if HitsClient(action) then ClientSees(ActionPath(action), file) else Shows(item, ActionPath(action), file)
  }

  /** A client file was compared with the CRC recorded for it by a CRC that is not its own. */
  predicate Mistaken(action: SyncAction, entry: Option<SyncStateEntry>, file: File, crcs: Crcs) {
    && HitsClient(action) && entry.Some? && entry.value.client.Some? && entry.value.client.value.crcKnown
    && !ReportsTruly(crcs, ActionPath(action), file)
  }

  predicate RecordedFor(action: SyncAction, entry: Option<SyncStateEntry>, file: File, crcOn: bool) {
    && entry.Some?
    && if HitsClient(action)
       then !ClientChanged(entry.value, ClientView(ActionPath(action), Some(file), crcOn))
       else !ServerChanged(entry.value, ServerView(ActionPath(action), Some(file)))
  }

  /** The saved state records the file's revision for its side. */
  predicate Recorded(state: SyncState, action: SyncAction, file: File, crcOn: bool) {
    RecordedFor(action, Get(state, ActionPath(action)), file, crcOn)
  }

  /** The file the action hits at its path. */
  predicate IsVictim(action: SyncAction, cell: Cell, victim: File) {
    || (HitsClient(action) && cell.client == Some(victim))
    || (HitsServer(action) && cell.server == Some(victim))
  }

  lemma VictimAt(path: Path, cell: Cell, item: Option<ManifestItem>, crcs: Crcs, victim: File)
    requires ActionBy(path, cell, item, ListView(path, cell.client, crcs)).Some?
    requires var action := ActionBy(path, cell, item, ListView(path, cell.client, crcs)).value;
      ActionPath(action) == path && IsVictim(action, cell, victim)
    requires GoodCell(cell) && (item.Some? ==> item.value.fingerprint.crcKnown)
    ensures var action := ActionBy(path, cell, item, ListView(path, cell.client, crcs)).value;
      RecordedFor(action, cell.entry, victim, crcs.CrcsOn?) <==>
        InView(action, item, victim) && !Mistaken(action, cell.entry, victim, crcs)
  {
  }

  lemma RecordedRevision(action: SyncAction, entry: SyncStateEntry, victim: File)
    requires GoodEntry(entry) && entry.client.value.crcKnown
    requires RecordedFor(action, Some(entry), victim, true)
    requires if HitsClient(action) then ClientSees(ActionPath(action), victim) else ServerSees(ActionPath(action), victim)
    ensures RevisionOf(ActionPath(action), victim) == EntryRevision(ActionPath(action), entry)
  {
  }

  lemma NoSilentOverwriteFrom(log: Log, crcs: Crcs, k: nat)
    requires Sound(log) && k < |PlanNow(log, crcs)| && VictimOf(log, crcs, k).Some?
    ensures var action, victim := PlanNow(log, crcs)[k], VictimOf(log, crcs, k).value;
      Recorded(log.world.state, action, victim, crcs.CrcsOn?) <==>
        && InView(action, Get(Planned(log), ActionPath(action)), victim)
        && !Mistaken(action, Get(log.world.state, ActionPath(action)), victim, crcs)
  {
    var w, manifest, plan := log.world, Planned(log), PlanNow(log, crcs);
    var action, path := plan[k], ActionPath(plan[k]);
    PathUntouched(w, manifest, crcs, k);
    ListIsPathwise(w.client, crcs, path);
    VictimAt(path, CellOf(w, path), Get(manifest, path), crcs, VictimOf(log, crcs, k).value);
  }

  /**
   * Whatever has happened before, however old the manifest and the CRCs in the client's cache are, when the k-th
   * action of a session replaces or removes a file, the saved state records exactly that revision for that side - if
   * and only if the plan was made with the file in view: the client's scan sees it, or the manifest shows this revision
   * of the server's; and a client file that was compared by CRC was reported with its own.  With CRCs on and true
   * scans throughout, the revision was held by the client at the end of a saved session and by the server then or
   * before.
   */
  lemma NoSilentOverwrite(events: seq<Event>, server: Disk, client: Disk, visit: Visit, k: nat)
    requires var log := Run(events, server, client);
      k < |PlanNow(log, CrcsNow(log, visit))| && VictimOf(log, CrcsNow(log, visit), k).Some?
    ensures
      var log := Run(events, server, client);
      var crcs := CrcsNow(log, visit);
      var action, victim := PlanNow(log, crcs)[k], VictimOf(log, crcs, k).value;
      var recorded := Recorded(log.world.state, action, victim, visit.crcOn);
      && (recorded <==>
            && InView(action, Get(Planned(log), ActionPath(action)), victim)
            && !Mistaken(action, Get(log.world.state, ActionPath(action)), victim, crcs))
      && (recorded && visit.crcOn && AllCrcOn(events) && TrueScans(events, server, client) ==>
            RevisionOf(ActionPath(action), victim) in log.shared)
  {
    var log := Run(events, server, client);
    var crcs := CrcsNow(log, visit);
    RunKeepsSound(events, server, client);
    NoSilentOverwriteFrom(log, crcs, k);
    var action, victim := PlanNow(log, crcs)[k], VictimOf(log, crcs, k).value;
    if Recorded(log.world.state, action, victim, visit.crcOn) && visit.crcOn && AllCrcOn(events)
       && TrueScans(events, server, client) {
      RunKeepsStateShared(events, server, client);
      assert EntryShared(ActionPath(action), log.world.state[ActionPath(action)], log.shared);
      RecordedRevision(action, log.world.state[ActionPath(action)], victim);
    }
  }

  predicate SeenBySide(action: SyncAction, file: File) {
    if HitsClient(action) then ClientSees(ActionPath(action), file) else ServerSees(ActionPath(action), file)
  }

  /**
   * Where size and stamp tell apart the CRCs of the files that ever stood at a path of the client, and the manifest is
   * a fresh scan, the condition is that the scan of the file's side can see it.  If every session so far was planned
   * from a fresh scan, with CRCs on, the revision was held by both sides at once.
   */
  lemma NoSilentOverwriteFresh(events: seq<Event>, server: Disk, client: Disk, visit: Visit, k: nat)
    requires var log := Run(events, server, client);
      && Fresh(log) && Distinguishing(log.stood)
      && k < |PlanNow(log, CrcsNow(log, visit))| && VictimOf(log, CrcsNow(log, visit), k).Some?
    ensures
      var log := Run(events, server, client);
      var crcs := CrcsNow(log, visit);
      var action, victim := PlanNow(log, crcs)[k], VictimOf(log, crcs, k).value;
      var recorded := Recorded(log.world.state, action, victim, visit.crcOn);
      && (recorded <==> SeenBySide(action, victim))
      && (recorded && visit.crcOn && AllCrcOn(events) && AllFresh(events, server, client) ==>
            RevisionOf(ActionPath(action), victim) in log.agreed)
  {
    var log := Run(events, server, client);
    var crcs := CrcsNow(log, visit);
    RunKeepsSound(events, server, client);
    NoSilentOverwriteFrom(log, crcs, k);
    var action, victim := PlanNow(log, crcs)[k], VictimOf(log, crcs, k).value;
    FreshInView(log, crcs, k);
    DistinguishedRunsScanTruly(events, server, client);
    assert AllTrue(log.world.client, CrcsNow(log, visit));
    if Recorded(log.world.state, action, victim, visit.crcOn) && visit.crcOn && AllCrcOn(events)
       && AllFresh(events, server, client) {
      RunKeepsStateShared(events, server, client);
      RunKeepsStateBacked(events, server, client);
      assert EntryShared(ActionPath(action), log.world.state[ActionPath(action)], log.shared);
      assert Backed(ActionPath(action), log.world.state[ActionPath(action)], log.agreed);
      RecordedRevision(action, log.world.state[ActionPath(action)], victim);
    }
  }

  lemma FreshInView(log: Log, crcs: Crcs, k: nat)
    requires Sound(log) && Fresh(log) && k < |PlanNow(log, crcs)| && VictimOf(log, crcs, k).Some?
    ensures var action, victim := PlanNow(log, crcs)[k], VictimOf(log, crcs, k).value;
      && (InView(action, Get(Planned(log), ActionPath(action)), victim) <==> SeenBySide(action, victim))
      && (AllTrue(log.world.client, crcs) ==>
            !Mistaken(action, Get(log.world.state, ActionPath(action)), victim, crcs))
  {
    var w, path := log.world, ActionPath(PlanNow(log, crcs)[k]);
    PathUntouched(w, Planned(log), crcs, k);
    ScansArePathwise(w.server, w.client, true, path);
  }
}
