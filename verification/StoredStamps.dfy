/**
 * What the server's file system makes of an uploaded stamp.  Rounds keeps stamps as they were sent; here an upload
 * leaves the stamp that the next scan reads back (set_file_mtime, server/src/main.rs).
 */
module StoredStamps {
  import opened Wrappers
  import opened Ordering
  import opened DosStamp
  import opened Manifests
  import opened Planner
  import opened Rounds
  import opened Agreement

  /** The manifest keeps the stamp as sent, the disk the one read back. */
  function PerformStored(action: SyncAction, p: Progress, written: nat): Progress {
    var after := Perform(action, p);
    if action.Upload? && action.item.path in p.client then
      var file := p.client[action.item.path];
      after.(server := p.server[action.item.path := File(file.content, StoredThenScanned(action.item.dosTime, written))])
    else after
  }

  function PerformAllStored(actions: seq<SyncAction>, p: Progress, written: nat): Progress {
    if actions == [] then p
    else PerformStored(actions[|actions| - 1], PerformAllStored(actions[..|actions| - 1], p, written), written)
  }

  predicate RealUpload(action: SyncAction) {
    action.Upload? ==> RealStamp(action.item.dosTime)
  }

  predicate RealUploads(actions: seq<SyncAction>) {
    forall i :: 0 <= i < |actions| ==> RealUpload(actions[i])
  }

  lemma {:induction false} RealStampsStored(actions: seq<SyncAction>, p: Progress, written: nat)
    requires RealUploads(actions)
    ensures PerformAllStored(actions, p, written) == PerformAll(actions, p)
  {
    if actions != [] {
      var n := |actions| - 1;
      RealStampsStored(actions[..n], p, written);
      RealUploadStored(actions[n], PerformAll(actions[..n], p), written);
    }
  }

  lemma RealUploadStored(action: SyncAction, p: Progress, written: nat)
    requires RealUpload(action)
    ensures PerformStored(action, p, written) == Perform(action, p)
  {
    if action.Upload? {
      RealReturns(action.item.dosTime, written);
    }
  }

  /** What becomes of one path's server file and item. */
  datatype Stored = Stored(file: Option<File>, item: Option<ManifestItem>)

  function StoredOf(p: Progress, path: Path): Stored {
    Stored(Get(p.server, path), Get(p.manifest, path))
  }

  predicate IsStored(s: Stored, item: ManifestItem, written: nat) {
    s.file.Some? && s.item.Some? && s.item.value.dosTime == item.dosTime
    && s.file.value.dosTime == StoredThenScanned(item.dosTime, written)
  }

  lemma StoredElsewhere(action: SyncAction, p: Progress, written: nat, path: Path)
    requires ActionPath(action) != path
    ensures StoredOf(PerformStored(action, p, written), path) == StoredOf(p, path)
    ensures Get(PerformStored(action, p, written).client, path) == Get(p.client, path)
  {
  }

  lemma {:induction false} PathLeft(actions: seq<SyncAction>, p: Progress, written: nat, path: Path)
    requires forall i :: 0 <= i < |actions| ==> ActionPath(actions[i]) != path
    ensures var after := PerformAllStored(actions, p, written);
      StoredOf(after, path) == StoredOf(p, path) && Get(after.client, path) == Get(p.client, path)
  {
    if actions != [] {
      var n := |actions| - 1;
      PathLeft(actions[..n], p, written, path);
      StoredElsewhere(actions[n], PerformAllStored(actions[..n], p, written), written, path);
    }
  }

  lemma {:induction false} UploadStored(actions: seq<SyncAction>, p: Progress, written: nat, k: nat)
    requires DistinctPaths(actions) && k < |actions| && actions[k].Upload? && actions[k].item.path in p.client
    ensures IsStored(StoredOf(PerformAllStored(actions, p, written), actions[k].item.path), actions[k].item, written)
  {
    var n := |actions| - 1;
    var path, before := actions[k].item.path, actions[..n];
    assert ActionPath(actions[k]) == path;
    if k < n {
      UploadStored(before, p, written, k);
      StoredElsewhere(actions[n], PerformAllStored(before, p, written), written, path);
    } else {
      PathLeft(before, p, written, path);
    }
  }

  /** Every upload of a plan is of a file on the client's disk, with that file's stamp. */
  lemma PlannedUpload(w: World, crcs: Crcs, k: nat)
    requires k < |PlanFor(w, ScanServer(w.server), crcs)| && PlanFor(w, ScanServer(w.server), crcs)[k].Upload?
    ensures var item := PlanFor(w, ScanServer(w.server), crcs)[k].item;
      item.path in w.client && item.dosTime == w.client[item.path].dosTime
  {
    var manifest, client := ScanServer(w.server), ListClient(w.client, crcs);
    var path := ActionPath(PlanFor(w, manifest, crcs)[k]);
    ScansKeyed(w.server, w.client, true);
    ListKeyed(w.client, crcs);
    PlanExact(w.state, manifest, client);
    PlannedItems(path, Get(w.state, path), Get(manifest, path), Get(client, path));
    ListIsPathwise(w.client, crcs, path);
  }

  /**
   * After the action loop the server's manifest is what scanning its disk afresh would give, whenever the uploads were
   * written, if and only if every uploaded stamp names a real date and time.
   */
  lemma ManifestTracksStored(w: World, crcs: Crcs)
    ensures var manifest := ScanServer(w.server);
      var plan, start := PlanFor(w, manifest, crcs), Start(w, manifest);
      (forall written: nat :: Tracks(PerformAllStored(plan, start, written))) <==> RealUploads(plan)
  {
    var manifest := ScanServer(w.server);
    var plan, start := PlanFor(w, manifest, crcs), Start(w, manifest);
    if RealUploads(plan) {
      ManifestTracksDisk(w, crcs);
      forall written: nat
        ensures Tracks(PerformAllStored(plan, start, written))
      {
        RealStampsStored(plan, start, written);
      }
    } else {
      var k :| 0 <= k < |plan| && !RealUpload(plan[k]);
      UnrealUploadShows(w, crcs, k);
    }
  }

  predicate Tracks(end: Progress) {
    end.manifest == ScanServer(end.server)
  }

  lemma TracksAt(end: Progress, path: Path)
    requires Tracks(end) && path in end.manifest
    ensures path in end.server && end.manifest[path].dosTime == end.server[path].dosTime
  {
  }

  lemma UnrealUploadShows(w: World, crcs: Crcs, k: nat)
    requires k < |PlanFor(w, ScanServer(w.server), crcs)| && !RealUpload(PlanFor(w, ScanServer(w.server), crcs)[k])
    ensures var manifest := ScanServer(w.server);
      !Tracks(PerformAllStored(PlanFor(w, manifest, crcs), Start(w, manifest), FIRST))
  {
    var manifest := ScanServer(w.server);
    var plan, start := PlanFor(w, manifest, crcs), Start(w, manifest);
    ScansKeyed(w.server, w.client, true);
    ListKeyed(w.client, crcs);
    PlanExact(w.state, manifest, ListClient(w.client, crcs));
    PlannedUpload(w, crcs, k);
    UploadStored(plan, start, FIRST, k);
    UnrealChanges(plan[k].item.dosTime);
    var end := PerformAllStored(plan, start, FIRST);
    if Tracks(end) {
      TracksAt(end, plan[k].item.path);
      assert false;
    }
  }

  // ---------------------------------------------------------------- worlds with real stamps

  predicate RealDisk(disk: Disk) {
    forall path :: path in disk ==> RealStamp(disk[path].dosTime)
  }

  predicate RealWorld(w: World) {
    RealDisk(w.server) && RealDisk(w.client)
  }

  predicate RealFile(file: Option<File>) {
    file.Some? ==> RealStamp(file.value.dosTime)
  }

  lemma RealAt(path: Path, cell: Cell, crcs: Crcs)
    requires RealFile(cell.server) && RealFile(cell.client)
    ensures var after := CellBy(path, cell, ServerView(path, cell.server), ListView(path, cell.client, crcs));
      RealFile(after.server) && RealFile(after.client)
  {
  }

  /**
   * Where every stamp names a real date and time, a round stores every stamp as it was sent, and leaves such a world
   * again: what is proved about repeated rounds then holds of the file system too.
   */
  lemma RealWorldStays(w: World, crcs: Crcs, written: nat)
    requires RealWorld(w)
    ensures RealWorld(RoundFor(w, ScanServer(w.server), crcs))
    ensures var manifest := ScanServer(w.server);
      var plan, start := PlanFor(w, manifest, crcs), Start(w, manifest);
      RealUploads(plan) && PerformAllStored(plan, start, written) == PerformAll(plan, start)
  {
    var manifest, after := ScanServer(w.server), RoundFor(w, ScanServer(w.server), crcs);
    var plan := PlanFor(w, manifest, crcs);
    forall path
      ensures RealFile(Get(after.server, path)) && RealFile(Get(after.client, path))
    {
      ScanIsServerMade(w.server);
      RoundIsPathwise(w, manifest, crcs, path);
      ScansArePathwise(w.server, w.client, true, path);
      RealAt(path, CellOf(w, path), crcs);
      assert CellOf(after, path).server == Get(after.server, path);
    }
    forall k | 0 <= k < |plan|
      ensures RealUpload(plan[k])
    {
      if plan[k].Upload? {
        PlannedUpload(w, crcs, k);
      }
    }
    RealStampsStored(plan, Start(w, manifest), written);
    assert forall path :: path in after.server ==> RealFile(Get(after.server, path));
    assert forall path :: path in after.client ==> RealFile(Get(after.client, path));
  }
}
