/**
 * The server's side of one client connection, updating its disk, its cached manifest and its saved state in
 * place: handle_sync_client with current_server_manifest (server/src/main.rs).
 * The client's replies are taken together with the requests; their interleaving is the subject of Session.dfy.
 */
module SyncServer {
  import opened Wrappers
  import opened Crc32
  import opened Manifests
  import opened Planner
  import opened Rounds
  import opened Delivery

  class Win16Client {
    var disk: Disk
    /** What its scan reports: whether CRCs are on, and the answers its cache gives. */
    var crcs: Crcs
    /** The length of the root directory with its separator. */
    const base: nat

    constructor (disk: Disk, crcs: Crcs, base: nat)
      ensures this.disk == disk && this.crcs == crcs && this.base == base
    {
      this.disk, this.crcs, this.base := disk, crcs, base;
    }
  }

  class Server {
    var disk: Disk
    var cached: Option<Manifest>
    var state: SyncState

    constructor (disk: Disk)
      ensures this.disk == disk && this.cached == None && this.state == map[]
    {
      this.disk, this.cached, this.state := disk, None, map[];
    }

    ghost function WorldWith(client: Win16Client): World
      reads this, client
    {
      World(disk, client.disk, state)
    }

    ghost function ProgressWith(client: Win16Client, manifest: Manifest): Progress
      reads this, client
    {
      Progress(disk, client.disk, manifest)
    }

    /** The manifest the next session will plan from. */
    ghost function Planned(): Manifest
      reads this
    {
      if cached.Some? then cached.value else ScanServer(disk)
    }

    method CurrentServerManifest() returns (manifest: Manifest)
      modifies this`cached
      ensures manifest == old(Planned()) && cached == Some(manifest)
    {
      if cached.Some? {
        return cached.value;
      }
      manifest := ScanServer(disk);
      cached := Some(manifest);
    }

    /**
     * Sends the whole file as it is now; the client takes the announced number of bytes of it.  Too few leave both
     * sides waiting, too many stay in the stream.
     */
    method SendActionDownload(client: Win16Client, item: ManifestItem, ghost manifest: Manifest) returns (result: Reception)
      modifies client`disk
      ensures var p := old(ProgressWith(client, manifest));
        && result == ResultOf(Download(item), p, client.crcs.CrcsOn?, client.base)
        && ProgressWith(client, manifest) == EffectOf(Download(item), p, client.crcs.CrcsOn?, client.base)
    {
      if !DownloadFits(item.path, client.base) {
        return Refused;
      }
      client.disk := Cleared(client.disk, item.path);
      if item.path !in disk {
        return Refused;
      }
      var sent, size := disk[item.path].content, item.fingerprint.size;
      if |sent| < size {
        return Blocked;
      }
      var received := sent[..size];
      if client.crcs.CrcsOn? && ClientCrc(received) != item.fingerprint.crc32 {
        return Refused;
      }
      if IsTempName(item.path) {
        return Refused;
      }
      client.disk := client.disk[item.path := File(received, item.dosTime)];
      if |sent| > size {
        return OutOfStep(sent[size..]);
      }
      assert received == sent;
      return Done;
    }

    /** Fetches a file; fails when it is gone, has another length, or fails the server's CRC check. */
    method ReceiveUpload(client: Win16Client, item: ManifestItem) returns (stored: Option<ManifestItem>)
      modifies this`disk
      ensures stored.Some? <==>
        PathFits(item.path) && ContentMatches(client.disk, item, item.fingerprint.crcKnown)
      ensures stored.Some? ==>
        var file := File(client.disk[item.path].content, item.dosTime);
        disk == old(disk)[item.path := file] && stored.value == ServerItemOf(item.path, file)
      ensures stored.None? ==> disk == old(disk)
    {
      if !PathFits(item.path) || item.path !in client.disk {
        return None;
      }
      var content := client.disk[item.path].content;
      if |content| != item.fingerprint.size {
        return None;
      }
      var fileCrc := ServerCrc(content);
      if item.fingerprint.crcKnown && fileCrc != item.fingerprint.crc32 {
        return None;
      }
      disk := disk[item.path := File(content, item.dosTime)];
      return Some(ManifestItem(item.path, Fingerprint(|content|, fileCrc, true), item.dosTime));
    }

    /** One turn of the action loop. */
    method CarryOut(client: Win16Client, action: SyncAction, manifest: Manifest) returns (result: Reception, after: Manifest)
      modifies this`disk, client`disk
      ensures var p := old(ProgressWith(client, manifest));
        && result == ResultOf(action, p, client.crcs.CrcsOn?, client.base)
        && ProgressWith(client, after) == EffectOf(action, p, client.crcs.CrcsOn?, client.base)
    {
      result, after := Done, manifest;
      match action {
        case Download(item) => result := SendActionDownload(client, item, manifest);
        case Upload(item) =>
          var stored := ReceiveUpload(client, item);
          if stored.Some? {
            after := after[stored.value.path := stored.value];
          } else {
            result := Refused;
          }
        case DeleteLocal(path) =>
          if !DeleteFits(path, client.base) {
            return Refused, after;
          }
          client.disk := client.disk - {path};
        case DeleteRemote(path) =>
          disk := disk - {path};
          after := after - {path};
          if !PathFits(path) {
            result := Refused;
          }
        case Conflict(path, _, _) =>
          if !PathFits(path) {
            result := Refused;
          }
      }
    }

    /** The next turn as far as its request. */
    method BeginAction(client: Win16Client, action: SyncAction, manifest: Manifest) returns (after: Manifest)
      modifies this`disk
      ensures ProgressWith(client, after) == Begin(action, old(ProgressWith(client, manifest)))
    {
      after := manifest;
      if action.DeleteRemote? {
        disk := disk - {action.path};
        after := after - {action.path};
      }
    }

    /** The action loop: carries out actions in order until one meets an obstacle. */
    method CarryOutAll(client: Win16Client, actions: seq<SyncAction>, manifest: Manifest)
      returns (result: Reception, after: Manifest, conflictCount: nat, done: nat)
      modifies this`disk, client`disk
      ensures Attempt(ProgressWith(client, after), done, result) ==
        Begun(actions, Try(actions, old(ProgressWith(client, manifest)), client.crcs.CrcsOn?, client.base))
      ensures conflictCount == ConflictCount(actions[..done])
    {
      result, after, conflictCount, done := Done, manifest, 0, 0;
      ghost var start := ProgressWith(client, manifest);
      while done < |actions|
        invariant done <= |actions| && result.Done?
        invariant Attempt(ProgressWith(client, after), done, result) ==
          Try(actions[..done], start, client.crcs.CrcsOn?, client.base)
        invariant conflictCount == ConflictCount(actions[..done])
      {
        assert actions[..done + 1][..done] == actions[..done];
        result, after := CarryOut(client, actions[done], after);
        if !result.Done? {
          TryStops(actions, done + 1, start, client.crcs.CrcsOn?, client.base);
          break;
        }
        if actions[done].Conflict? {
          conflictCount := conflictCount + 1;
        }
        done := done + 1;
      }
      assert result.Done? ==> actions[..done] == actions;
      assert Attempt(ProgressWith(client, after), done, result) == Try(actions, start, client.crcs.CrcsOn?, client.base);
      if result.OutOfStep? && done + 1 < |actions| {
        after := BeginAction(client, actions[done + 1], after);
      }
    }

    /** The end of a session: the updated manifest is cached, the agreeing pairs are saved. */
    method SaveSync(serverManifest: Manifest, clientManifest: Manifest, actions: seq<SyncAction>)
      modifies this`cached, this`state
      ensures cached == Some(serverManifest) && state == StateAfter(serverManifest, Predict(clientManifest, actions))
    {
      cached := Some(serverManifest);
      var predicted := ApplyActionsToClientManifest(clientManifest, actions);
      state := BuildStateAfterSync(serverManifest, predicted);
    }

    /**
     * One session: exactly the one that the manifest planned from, the client's files and settings and the saved
     * state determine.  The counts are those that DONE reports when the server gets that far.
     */
    method HandleSyncClient(client: Win16Client) returns (result: Reception, actionCount: nat, conflictCount: nat)
      modifies this, client`disk
      ensures var w, manifest := old(WorldWith(client)), old(Planned());
        var plan, o := PlanFor(w, manifest, client.crcs), SessionFrom(w, manifest, client.crcs, client.base);
        && WorldWith(client) == o.world && cached == Some(o.cached) && result == o.attempt.result
        && actionCount == |plan|
        && (ServerSatisfied(o.attempt, |plan|) ==> conflictCount == ConflictCount(plan))
        && (!ServerSatisfied(o.attempt, |plan|) ==> cached == Some(manifest) && state == w.state)
    {
      ghost var before := WorldWith(client);
      var clientManifest := ListClient(client.disk, client.crcs);
      var serverManifest := CurrentServerManifest();
      ghost var manifest := serverManifest;
      var actions := BuildSyncActions(state, serverManifest, clientManifest);
      actionCount := |actions|;
      var done: nat;
      result, serverManifest, conflictCount, done := CarryOutAll(client, actions, serverManifest);
      ghost var a := Attempt(ProgressWith(client, serverManifest), done, result);
      SessionConcludes(before, manifest, client.crcs, client.base, a);
      if done == |actions| || (done + 1 == |actions| && result.OutOfStep?) {
        CountAll(actions, done);
        SaveSync(serverManifest, clientManifest, actions);
      }
    }
  }

  lemma SessionConcludes(w: World, manifest: Manifest, crcs: Crcs, base: nat, a: Attempt)
    requires a == Begun(PlanFor(w, manifest, crcs),
                        Try(PlanFor(w, manifest, crcs), Start(w, manifest), crcs.CrcsOn?, base))
    ensures SessionFrom(w, manifest, crcs, base) ==
      Concluded(w, manifest, ListClient(w.client, crcs), PlanFor(w, manifest, crcs), a)
  {
  }

  lemma CountAll(actions: seq<SyncAction>, done: nat)
    requires done <= |actions| <= done + 1
    ensures done == |actions| || !actions[done].Conflict? ==> ConflictCount(actions) == ConflictCount(actions[..done])
  {
    if done == |actions| {
      assert actions[..done] == actions;
    }
  }
}
