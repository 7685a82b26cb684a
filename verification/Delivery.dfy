/**
 * How far a session gets: what each action of the plan meets when it is carried out, from a manifest that may be
 * older than the server's disk.  send_action_download and receive_upload (server/src/main.rs) against
 * proto_receive_download and the loop of proto_sync_directory (client/proto.c).
 */
module Delivery {
  import opened Wrappers
  import opened Ordering
  import opened Crc32
  import opened Names
  import opened Manifests
  import opened Planner
  import opened Rounds
  import opened LocalPaths

  // ---------------------------------------------------------------- what the client can take

  predicate PathFits(path: Path) { |path| < PATH_CAPACITY }

  /** A download needs its target and the temporary file beside it; `base`: the length of the root with its separator. */
  predicate DownloadFits(path: Path, base: nat) {
    PathFits(path) && LocalFits(base, path) && TempFits(base, path)
  }

  predicate DeleteFits(path: Path, base: nat) {
    PathFits(path) && LocalFits(base, path)
  }

  /** The client's buffers hold every path that carrying out the action needs. */
  predicate Fits(action: SyncAction, base: nat) {
    match action
    case Download(item) => DownloadFits(item.path, base)
    case DeleteLocal(path) => DeleteFits(path, base)
    case _ => PathFits(ActionPath(action))
  }

  /** What the client's path functions say, for the root that it has. */
  lemma FitsExactly(action: SyncAction, root: string)
    requires ServerLists(ActionPath(action)) && ActionPath(action) != []
    ensures var path := ActionPath(action);
      Fits(action, |Base(root)|) <==>
        && |path| <= 143
        && (action.Download? || action.DeleteLocal? ==> LocalPath(root, path).Some?)
        && (action.Download? ==> TempPath(LocalPath(root, path).value).Some?)
  {
    var path := ActionPath(action);
    LocalPathFits(root, path);
    if LocalPath(root, path).Some? {
      TempPathFits(root, path);
    }
  }

  predicate IsTempName(path: Path) {
    FileName(path) == TEMP_NAME
  }

  predicate OnTempName(action: SyncAction) {
    action.Download? && IsTempName(action.item.path)
  }

  /** Before it asks for the content the client deletes its temporary file, here the target itself. */
  function Cleared(disk: Disk, path: Path): Disk {
    if IsTempName(path) then disk - {path} else disk
  }

  predicate Acceptable(action: SyncAction, base: nat) {
    Fits(action, base) && !OnTempName(action)
  }

  predicate AllAcceptable(actions: seq<SyncAction>, base: nat) {
    forall i :: 0 <= i < |actions| ==> Acceptable(actions[i], base)
  }

  // ---------------------------------------------------------------- one action

  /** Blocked: both sides wait.  OutOfStep: all went well, but these bytes stand before the server's next line. */
  datatype Reception = Done | Refused | Blocked | OutOfStep(surplus: Bytes)

  predicate ContentMatches(disk: Disk, item: ManifestItem, crcChecked: bool) {
    && item.path in disk && |disk[item.path].content| == item.fingerprint.size
    && (crcChecked ==> ServerCrc(disk[item.path].content) == item.fingerprint.crc32)
  }

  /** The server sends the whole file as it is; the client takes the announced number of bytes. */
  function DownloadResult(file: Option<File>, item: ManifestItem, crcOn: bool): Reception {
    if file.None? then Refused
    else
      var content, size := file.value.content, item.fingerprint.size;
      if |content| < size then Blocked
      else if crcOn && ClientCrc(content[..size]) != item.fingerprint.crc32 then Refused
      else if IsTempName(item.path) then Refused
      else if |content| > size then OutOfStep(content[size..])
      else Done
  }

  /** The client sends what it has; the server stores it only with the listed length and, if one was listed, CRC. */
  function UploadResult(disk: Disk, item: ManifestItem): Reception {
    if ContentMatches(disk, item, item.fingerprint.crcKnown) then Done else Refused
  }

  function ResultOf(action: SyncAction, p: Progress, crcOn: bool, base: nat): Reception {
    if !Fits(action, base) then Refused
    else
      match action
      case Download(item) => DownloadResult(Get(p.server, item.path), item, crcOn)
      case Upload(item) => UploadResult(p.client, item)
      case _ => Done
  }

  /** What the client stores of a file that is longer than announced. */
  function Beginning(p: Progress, item: ManifestItem): File
    requires item.path in p.server && item.fingerprint.size <= |p.server[item.path].content|
  {
    File(p.server[item.path].content[..item.fingerprint.size], item.dosTime)
  }

  function EffectOf(action: SyncAction, p: Progress, crcOn: bool, base: nat): Progress {
    match ResultOf(action, p, crcOn, base)
    case Done => Perform(action, p)
    case OutOfStep(_) => p.(client := p.client[ActionPath(action) := Beginning(p, action.item)])
    case _ =>
      // The server deletes before it tells the client.
      if action.DeleteRemote? then Perform(action, p)
      else if action.Download? && Fits(action, base) then p.(client := Cleared(p.client, action.item.path))
      else p
  }

  // ---------------------------------------------------------------- the action loop

  /** The first `done` actions were carried out; the next one, if any, met `result`. */
  datatype Attempt = Attempt(progress: Progress, done: nat, result: Reception)

  function Try(actions: seq<SyncAction>, start: Progress, crcOn: bool, base: nat): (a: Attempt)
    ensures a.done <= |actions| && (a.result.Done? <==> a.done == |actions|)
  {
    if actions == [] then Attempt(start, 0, Done)
    else
      var n := |actions| - 1;
      var before := Try(actions[..n], start, crcOn, base);
      if before.done < n then before
      else
        var result := ResultOf(actions[n], before.progress, crcOn, base);
        Attempt(EffectOf(actions[n], before.progress, crcOn, base), if result.Done? then n + 1 else n, result)
  }

  /** Once a session has stopped, the actions after the obstacle make no difference. */
  lemma {:induction false} TryStops(actions: seq<SyncAction>, n: nat, start: Progress, crcOn: bool, base: nat)
    requires n <= |actions| && !Try(actions[..n], start, crcOn, base).result.Done?
    ensures Try(actions, start, crcOn, base) == Try(actions[..n], start, crcOn, base)
  {
    if n < |actions| {
      var fewer := actions[..|actions| - 1];
      assert fewer[..n] == actions[..n];
      TryStops(fewer, n, start, crcOn, base);
    } else {
      assert actions[..n] == actions;
    }
  }

  /** The server's part of an action before it waits for the client: a remote deletion takes effect at once. */
  function Begin(action: SyncAction, p: Progress): Progress {
    if action.DeleteRemote? then Perform(action, p) else p
  }

  /** After a surplus the server has read OK, so it still begins the next action. */
  function Begun(actions: seq<SyncAction>, a: Attempt): Attempt {
    if a.result.OutOfStep? && a.done + 1 < |actions|
    then a.(progress := Begin(actions[a.done + 1], a.progress)) else a
  }

  /** The server has seen every action answered with OK. */
  predicate ServerSatisfied(a: Attempt, total: nat) {
    a.done == total || (a.done + 1 == total && a.result.OutOfStep?)
  }

  /** A session planned from a server manifest: files, saved state and the manifest cached for the next one. */
  datatype Outcome = Outcome(world: World, cached: Manifest, attempt: Attempt)

  function SessionFrom(w: World, manifest: Manifest, crcs: Crcs, base: nat): Outcome {
    var plan := PlanFor(w, manifest, crcs);
    Concluded(w, manifest, ListClient(w.client, crcs), plan, Begun(plan, Tried(w, manifest, crcs, base)))
  }

  function Tried(w: World, manifest: Manifest, crcs: Crcs, base: nat): Attempt {
    Try(PlanFor(w, manifest, crcs), Start(w, manifest), crcs.CrcsOn?, base)
  }

  /** The server saves only when it is satisfied. */
  function Concluded(w: World, manifest: Manifest, items: Manifest, plan: seq<SyncAction>, a: Attempt): Outcome {
    if ServerSatisfied(a, |plan|) then
      var state := StateAfter(a.progress.manifest, Predict(items, plan));
      Outcome(World(a.progress.server, a.progress.client, state), a.progress.manifest, a)
    else Outcome(World(a.progress.server, a.progress.client, w.state), manifest, a)
  }

  // ---------------------------------------------------------------- the prefix carried out

  function After(actions: seq<SyncAction>, k: nat, start: Progress): Progress
    requires k <= |actions|
  {
    PerformAll(actions[..k], start)
  }

  predicate Went(actions: seq<SyncAction>, i: nat, start: Progress, crcOn: bool, base: nat)
    requires i < |actions|
  {
    ResultOf(actions[i], After(actions, i, start), crcOn, base).Done?
  }

  lemma Shorter(actions: seq<SyncAction>, n: nat, i: nat, start: Progress, crcOn: bool, base: nat)
    requires i <= n <= |actions|
    ensures After(actions[..n], i, start) == After(actions, i, start)
    ensures i < n ==> (Went(actions[..n], i, start, crcOn, base) <==> Went(actions, i, start, crcOn, base))
  {
    assert actions[..n][..i] == actions[..i];
  }

  lemma OneMore(actions: seq<SyncAction>, n: nat, start: Progress)
    requires n < |actions|
    ensures After(actions, n + 1, start) == Perform(actions[n], After(actions, n, start))
  {
    assert actions[..n + 1][..n] == actions[..n];
  }

  /** Up to the obstacle every action was carried out; there, the session has what the obstacle leaves. */
  predicate IsTried(a: Attempt, actions: seq<SyncAction>, start: Progress, crcOn: bool, base: nat) {
    && a.done <= |actions|
    && (forall i :: 0 <= i < a.done ==> Went(actions, i, start, crcOn, base))
    && (a.done == |actions| ==> a.result.Done? && a.progress == After(actions, a.done, start))
    && (a.done < |actions| ==>
          && !a.result.Done?
          && a.result == ResultOf(actions[a.done], After(actions, a.done, start), crcOn, base)
          && a.progress == EffectOf(actions[a.done], After(actions, a.done, start), crcOn, base))
  }

  lemma TryStep(actions: seq<SyncAction>, start: Progress, crcOn: bool, base: nat, before: Attempt)
    requires actions != [] && IsTried(before, actions[..|actions| - 1], start, crcOn, base)
    requires before == Try(actions[..|actions| - 1], start, crcOn, base)
    ensures IsTried(Try(actions, start, crcOn, base), actions, start, crcOn, base)
  {
    var n, a := |actions| - 1, Try(actions, start, crcOn, base);
    Shorter(actions, n, before.done, start, crcOn, base);
    if before.done == n {
      OneMore(actions, n, start);
    }
    forall i | 0 <= i < a.done
      ensures Went(actions, i, start, crcOn, base)
    {
      if i < n {
        Shorter(actions, n, i, start, crcOn, base);
      }
    }
  }

  lemma {:induction false} TryIsPrefix(actions: seq<SyncAction>, start: Progress, crcOn: bool, base: nat)
    ensures IsTried(Try(actions, start, crcOn, base), actions, start, crcOn, base)
  {
    if actions != [] {
      TryIsPrefix(actions[..|actions| - 1], start, crcOn, base);
      TryStep(actions, start, crcOn, base, Try(actions[..|actions| - 1], start, crcOn, base));
    }
  }

  // ---------------------------------------------------------------- exactly when a session is a round

  /** What an action of a plan meets depends only on the two disks as the session found them. */
  function Meets(action: SyncAction, w: World, crcOn: bool, base: nat): Reception {
    if !Fits(action, base) then Refused
    else
      match action
      case Download(item) => DownloadResult(Get(w.server, item.path), item, crcOn)
      case Upload(item) => UploadResult(w.client, item)
      case _ => Done
  }

  /** The side that is to send the file still holds it as it was listed. */
  predicate Held(action: SyncAction, w: World, crcOn: bool) {
    match action
    case Download(item) => ContentMatches(w.server, item, crcOn)
    case Upload(item) => ContentMatches(w.client, item, item.fingerprint.crcKnown)
    case _ => true
  }

  predicate AllHeld(actions: seq<SyncAction>, w: World, crcOn: bool) {
    forall i :: 0 <= i < |actions| ==> Held(actions[i], w, crcOn)
  }

  lemma MeetsDone(action: SyncAction, w: World, crcOn: bool, base: nat)
    ensures Meets(action, w, crcOn, base).Done? <==> Acceptable(action, base) && Held(action, w, crcOn)
  {
    if action.Download? && action.item.path in w.server {
      WholeFile(w.server[action.item.path].content, action.item.fingerprint.size);
    }
  }

  lemma WholeFile(content: Bytes, size: nat)
    ensures |content| == size ==> content[..size] == content
    ensures |content| >= size ==> ServerCrc(content[..size]) == ClientCrc(content[..size])
  {
  }

  lemma PathUntouched(w: World, manifest: Manifest, crcs: Crcs, i: nat)
    requires Keyed(manifest) && i < |PlanFor(w, manifest, crcs)|
    ensures var plan, start := PlanFor(w, manifest, crcs), Start(w, manifest);
      var path := ActionPath(plan[i]);
      && Get(After(plan, i, start).server, path) == Get(w.server, path)
      && Get(After(plan, i, start).client, path) == Get(w.client, path)
      && PlanAt(path, w.state, manifest, ListClient(w.client, crcs)) == Some(plan[i])
  {
    ListKeyed(w.client, crcs);
    PlanExact(w.state, manifest, ListClient(w.client, crcs));
    var plan, start := PlanFor(w, manifest, crcs), Start(w, manifest);
    PrefixLeavesPath(plan, i, start);
    assert SlotOf(After(plan, i, start), ActionPath(plan[i])) == SlotOf(start, ActionPath(plan[i]));
  }

  lemma ResultIsMeets(w: World, manifest: Manifest, crcs: Crcs, base: nat, i: nat)
    requires Keyed(manifest) && i < |PlanFor(w, manifest, crcs)|
    ensures var plan, crcOn := PlanFor(w, manifest, crcs), crcs.CrcsOn?;
      ResultOf(plan[i], After(plan, i, Start(w, manifest)), crcOn, base) == Meets(plan[i], w, crcOn, base)
  {
    PathUntouched(w, manifest, crcs, i);
    MeetsByPath(PlanFor(w, manifest, crcs)[i], After(PlanFor(w, manifest, crcs), i, Start(w, manifest)), w, crcs.CrcsOn?, base);
  }

  lemma MeetsByPath(action: SyncAction, p: Progress, w: World, crcOn: bool, base: nat)
    requires Get(p.server, ActionPath(action)) == Get(w.server, ActionPath(action))
    requires Get(p.client, ActionPath(action)) == Get(w.client, ActionPath(action))
    ensures ResultOf(action, p, crcOn, base) == Meets(action, w, crcOn, base)
  {
    if action.Upload? {
      assert action.item.path in p.client <==> Get(p.client, action.item.path).Some?;
      assert action.item.path in w.client <==> Get(w.client, action.item.path).Some?;
    }
  }

  /** Every action before the stop met nothing; the one at the stop met what it did. */
  predicate StopsAt(actions: seq<SyncAction>, k: nat, w: World, crcOn: bool, base: nat) {
    && k <= |actions|
    && (forall i :: 0 <= i < k ==> Meets(actions[i], w, crcOn, base).Done?)
    && (k < |actions| ==> !Meets(actions[k], w, crcOn, base).Done?)
  }

  /**
   * A session carries out the actions before the first that meets an obstacle on the disks as they were at the
   * start.  Those disks and the client's buffers decide alone, not what the session itself does.  After a surplus the
   * server has begun the action behind it.
   */
  lemma SessionStops(w: World, manifest: Manifest, crcs: Crcs, base: nat)
    requires Keyed(manifest)
    ensures var plan, o, crcOn := PlanFor(w, manifest, crcs), SessionFrom(w, manifest, crcs, base), crcs.CrcsOn?;
      && StopsAt(plan, o.attempt.done, w, crcOn, base)
      && o.attempt == Begun(plan, Stopped(plan, o.attempt.done, w, Start(w, manifest), crcOn, base))
  {
    var plan, crcOn := PlanFor(w, manifest, crcs), crcs.CrcsOn?;
    TryIsPrefix(plan, Start(w, manifest), crcOn, base);
    forall i | 0 <= i < |plan|
      ensures ResultOf(plan[i], After(plan, i, Start(w, manifest)), crcOn, base) == Meets(plan[i], w, crcOn, base)
    {
      ResultIsMeets(w, manifest, crcs, base, i);
    }
    TriedStops(plan, w, Start(w, manifest), crcOn, base, Tried(w, manifest, crcs, base));
    AttemptOfSession(w, manifest, crcs, base);
  }

  /** What an attempt has reached when it stops before action k, or after the last. */
  function Stopped(plan: seq<SyncAction>, k: nat, w: World, start: Progress, crcOn: bool, base: nat): Attempt
    requires k <= |plan|
  {
    if k == |plan| then Attempt(PerformAll(plan, start), k, Done)
    else Attempt(EffectOf(plan[k], After(plan, k, start), crcOn, base), k, Meets(plan[k], w, crcOn, base))
  }

  lemma AttemptOfSession(w: World, manifest: Manifest, crcs: Crcs, base: nat)
    ensures SessionFrom(w, manifest, crcs, base).attempt == Begun(PlanFor(w, manifest, crcs), Tried(w, manifest, crcs, base))
  {
  }

  lemma TriedStops(plan: seq<SyncAction>, w: World, start: Progress, crcOn: bool, base: nat, a: Attempt)
    requires IsTried(a, plan, start, crcOn, base)
    requires forall i :: 0 <= i < |plan| ==>
      ResultOf(plan[i], After(plan, i, start), crcOn, base) == Meets(plan[i], w, crcOn, base)
    ensures StopsAt(plan, a.done, w, crcOn, base)
    ensures a == Stopped(plan, a.done, w, start, crcOn, base)
  {
    forall i | 0 <= i < a.done
      ensures Meets(plan[i], w, crcOn, base).Done?
    {
      assert Went(plan, i, start, crcOn, base);
    }
    assert plan[..|plan|] == plan;
  }

  /**
   * Planned from any manifest, fresh or not, and any reported CRCs, true or not, a session carries out its whole plan
   * if and only if every action is one the client can take and every file to be sent is still held, as far as size
   * and checked CRC tell, as its side listed it.  It is then the atomic round from that manifest and report.
   */
  lemma SessionIsRound(w: World, manifest: Manifest, crcs: Crcs, base: nat)
    requires Keyed(manifest)
    ensures var plan, o := PlanFor(w, manifest, crcs), SessionFrom(w, manifest, crcs, base);
      && (o.attempt.done == |plan| <==> AllAcceptable(plan, base) && AllHeld(plan, w, crcs.CrcsOn?))
      && (o.attempt.done == |plan| ==>
            o.world == RoundFor(w, manifest, crcs)
            && o.cached == PerformAll(plan, Start(w, manifest)).manifest)
  {
    var plan, o := PlanFor(w, manifest, crcs), SessionFrom(w, manifest, crcs, base);
    SessionStops(w, manifest, crcs, base);
    forall i | 0 <= i < |plan|
      ensures Meets(plan[i], w, crcs.CrcsOn?, base).Done? <==>
        Acceptable(plan[i], base) && Held(plan[i], w, crcs.CrcsOn?)
    {
      MeetsDone(plan[i], w, crcs.CrcsOn?, base);
    }
  }

  // ---------------------------------------------------------------- when the files to be sent are held

  /** A planned upload has a file on the client's disk; it is held exactly if its CRC was reported truly. */
  lemma UploadHeld(w: World, manifest: Manifest, crcs: Crcs, i: nat)
    requires Keyed(manifest) && i < |PlanFor(w, manifest, crcs)| && PlanFor(w, manifest, crcs)[i].Upload?
    ensures var item := PlanFor(w, manifest, crcs)[i].item;
      && item.path in w.client && ClientSees(item.path, w.client[item.path])
      && item == ListedItem(item.path, w.client[item.path], crcs)
      && (Held(PlanFor(w, manifest, crcs)[i], w, crcs.CrcsOn?) <==> ReportsTruly(crcs, item.path, w.client[item.path]))
  {
    var path := ActionPath(PlanFor(w, manifest, crcs)[i]);
    PathUntouched(w, manifest, crcs, i);
    PlannedItems(path, Get(w.state, path), Get(manifest, path), Get(ListClient(w.client, crcs), path));
    ListIsPathwise(w.client, crcs, path);
    assert ClientCrc(w.client[path].content) == ServerCrc(w.client[path].content);
  }

  lemma FreshDownloadHeld(w: World, crcs: Crcs, i: nat)
    requires i < |PlanFor(w, ScanServer(w.server), crcs)| && !PlanFor(w, ScanServer(w.server), crcs)[i].Upload?
    ensures Held(PlanFor(w, ScanServer(w.server), crcs)[i], w, crcs.CrcsOn?)
  {
    var manifest := ScanServer(w.server);
    var path := ActionPath(PlanFor(w, manifest, crcs)[i]);
    ScansKeyed(w.server, w.client, true);
    PathUntouched(w, manifest, crcs, i);
    PlannedItems(path, Get(w.state, path), Get(manifest, path), Get(ListClient(w.client, crcs), path));
    ScansArePathwise(w.server, w.client, true, path);
  }

  /** The CRCs reported for the files to be uploaded are the files' own. */
  predicate UploadsTrue(actions: seq<SyncAction>, disk: Disk, crcs: Crcs) {
    forall i :: 0 <= i < |actions| && actions[i].Upload? && actions[i].item.path in disk ==>
      ReportsTruly(crcs, actions[i].item.path, disk[actions[i].item.path])
  }

  /** From a fresh scan every file to be sent is held, if and only if the uploads' CRCs are reported truly. */
  lemma FreshIsHeld(w: World, crcs: Crcs)
    ensures var plan := PlanFor(w, ScanServer(w.server), crcs);
      AllHeld(plan, w, crcs.CrcsOn?) <==> UploadsTrue(plan, w.client, crcs)
  {
    var manifest := ScanServer(w.server);
    var plan := PlanFor(w, manifest, crcs);
    ScansKeyed(w.server, w.client, true);
    forall i | 0 <= i < |plan|
      ensures Held(plan[i], w, crcs.CrcsOn?) <==>
        (plan[i].Upload? && plan[i].item.path in w.client ==>
           ReportsTruly(crcs, plan[i].item.path, w.client[plan[i].item.path]))
    {
      if plan[i].Upload? {
        UploadHeld(w, manifest, crcs, i);
      } else {
        FreshDownloadHeld(w, crcs, i);
      }
    }
  }

  /** A file that has grown since the scan is cut on the client, and the bytes left over precede the next line. */
  lemma GrownFileIsCut(w: World, manifest: Manifest, crcs: Crcs, base: nat)
    requires Keyed(manifest)
    ensures var plan, o := PlanFor(w, manifest, crcs), SessionFrom(w, manifest, crcs, base);
      var k := o.attempt.done;
      k < |plan| && o.attempt.result.OutOfStep? ==>
        && plan[k].Download? && plan[k].item.path in w.server
        && var content, size := w.server[plan[k].item.path].content, plan[k].item.fingerprint.size;
        && size < |content| && o.attempt.result.surplus == content[size..]
        && Get(o.world.client, plan[k].item.path) == Some(File(content[..size], plan[k].item.dosTime))
  {
    var plan, o := PlanFor(w, manifest, crcs), SessionFrom(w, manifest, crcs, base);
    var k := o.attempt.done;
    SessionStops(w, manifest, crcs, base);
    if k < |plan| && o.attempt.result.OutOfStep? {
      PathUntouched(w, manifest, crcs, k);
      ResultIsMeets(w, manifest, crcs, base, k);
    }
  }

  /** A download blocks both sides exactly if the client waits for more bytes than the file has. */
  lemma DownloadBlocks(item: ManifestItem, w: World, crcOn: bool, base: nat)
    ensures Meets(Download(item), w, crcOn, base).Blocked? <==>
      DownloadFits(item.path, base) && item.path in w.server && |w.server[item.path].content| < item.fingerprint.size
  {
  }

  /** It leaves a surplus exactly if the file is longer, and its announced beginning passes as a whole file would. */
  lemma DownloadSurplus(item: ManifestItem, w: World, crcOn: bool, base: nat)
    ensures Meets(Download(item), w, crcOn, base).OutOfStep? <==>
      && Acceptable(Download(item), base) && item.path in w.server
      && |w.server[item.path].content| > item.fingerprint.size
      && (crcOn ==> ServerCrc(w.server[item.path].content[..item.fingerprint.size]) == item.fingerprint.crc32)
  {
    if item.path in w.server {
      WholeFile(w.server[item.path].content, item.fingerprint.size);
    }
  }

  lemma ConcludedAfterSurplus(w: World, manifest: Manifest, items: Manifest, plan: seq<SyncAction>, t: Attempt)
    requires t.result.OutOfStep? && t.done < |plan|
    ensures var o, k := Concluded(w, manifest, items, plan, Begun(plan, t)), t.done;
      && (k + 1 == |plan| ==>
            o.cached == t.progress.manifest && o.world.state == StateAfter(o.cached, Predict(items, plan)))
      && (k + 1 < |plan| ==>
            && o.world.state == w.state && o.cached == manifest
            && (plan[k + 1].DeleteRemote? ==> plan[k + 1].path !in o.world.server))
  {
  }

  lemma SurplusKeepsManifest(action: SyncAction, p: Progress, crcOn: bool, base: nat)
    requires ResultOf(action, p, crcOn, base).OutOfStep?
    ensures EffectOf(action, p, crcOn, base).manifest == p.manifest
  {
  }

  /**
   * What the server does after a surplus: if that was the last action it saves, and caches its manifest, as after a
   * success; otherwise it saves nothing, and if the next action is a remote deletion the file is already gone.
   */
  lemma AfterSurplus(w: World, manifest: Manifest, crcs: Crcs, base: nat)
    requires Keyed(manifest) && SessionFrom(w, manifest, crcs, base).attempt.result.OutOfStep?
    ensures var plan, o := PlanFor(w, manifest, crcs), SessionFrom(w, manifest, crcs, base);
      var k := o.attempt.done;
      && k < |plan|
      && (k + 1 == |plan| ==>
            && o.cached == After(plan, k, Start(w, manifest)).manifest
            && o.world.state == StateAfter(o.cached, Predict(ListClient(w.client, crcs), plan)))
      && (k + 1 < |plan| ==>
            && o.world.state == w.state && o.cached == manifest
            && (plan[k + 1].DeleteRemote? ==> plan[k + 1].path !in o.world.server))
  {
    var plan, t, start := PlanFor(w, manifest, crcs), Tried(w, manifest, crcs, base), Start(w, manifest);
    AttemptOfSession(w, manifest, crcs, base);
    TryIsPrefix(plan, start, crcs.CrcsOn?, base);
    ConcludedAfterSurplus(w, manifest, ListClient(w.client, crcs), plan, t);
    SurplusKeepsManifest(plan[t.done], After(plan, t.done, start), crcs.CrcsOn?, base);
  }

  // ---------------------------------------------------------------- sessions that are saved, path by path

  /** The client can take the announced beginning of the content. */
  predicate Takes(slot: Slot, item: ManifestItem, crcOn: bool) {
    && slot.server.Some? && item.fingerprint.size <= |slot.server.value.content|
    && (crcOn ==> ServerCrc(slot.server.value.content[..item.fingerprint.size]) == item.fingerprint.crc32)
  }

  /** What the client holds after a session that was saved: of a download, the announced beginning. */
  function ClientAfter(path: Path, action: Option<SyncAction>, slot: Slot): Option<File> {
    match action
    case Some(Download(item)) =>
      if slot.server.Some? && item.fingerprint.size <= |slot.server.value.content|
      then Some(File(slot.server.value.content[..item.fingerprint.size], item.dosTime))
      else slot.client
    case _ => PerformAt(path, action, slot).client
  }

  /** The slot of a path after a session: moved on by its action, the client's file as far as it took it. */
  predicate Ends(after: Slot, path: Path, action: Option<SyncAction>, slot: Slot, crcOn: bool) {
    && after.server == PerformAt(path, action, slot).server
    && after.item == PerformAt(path, action, slot).item
    && after.client == ClientAfter(path, action, slot)
    && (action.Some? && action.value.Download? ==> Takes(slot, action.value.item, crcOn))
  }

  lemma NoActionEnds(path: Path, slot: Slot, crcOn: bool)
    ensures Ends(slot, path, None, slot, crcOn)
  {
  }

  lemma DoneEnds(action: SyncAction, w: World, crcOn: bool, base: nat, slot: Slot)
    requires Meets(action, w, crcOn, base).Done?
    requires slot.server == Get(w.server, ActionPath(action)) && slot.client == Get(w.client, ActionPath(action))
    ensures var path := ActionPath(action);
      Ends(PerformAt(path, Some(action), slot), path, Some(action), slot, crcOn)
  {
    if action.Download? {
      WholeFile(slot.server.value.content, action.item.fingerprint.size);
    }
  }

  lemma PrefixEnds(plan: seq<SyncAction>, k: nat, w: World, manifest: Manifest, crcOn: bool, base: nat, path: Path)
    requires DistinctPaths(plan) && StopsAt(plan, k, w, crcOn, base)
    ensures Ends(SlotOf(After(plan, k, Start(w, manifest)), path), path, ActionFor(plan[..k], path),
                 SlotOf(Start(w, manifest), path), crcOn)
  {
    var start := Start(w, manifest);
    var action := ActionFor(plan[..k], path);
    PerformAllAt(plan[..k], start, path);
    NoActionEnds(path, SlotOf(start, path), crcOn);
    if action.Some? {
      var i :| 0 <= i < k && plan[..k][i] == action.value;
      assert plan[i] == action.value && Meets(plan[i], w, crcOn, base).Done?;
      DoneEnds(action.value, w, crcOn, base, SlotOf(start, path));
    }
  }

  lemma CutEnds(action: SyncAction, p: Progress, crcOn: bool, base: nat, slot: Slot)
    requires ResultOf(action, p, crcOn, base).OutOfStep? && slot == SlotOf(p, ActionPath(action))
    ensures Ends(SlotOf(EffectOf(action, p, crcOn, base), ActionPath(action)), ActionPath(action), Some(action), slot, crcOn)
  {
    WholeFile(slot.server.value.content, action.item.fingerprint.size);
  }

  lemma CutElsewhere(action: SyncAction, p: Progress, crcOn: bool, base: nat, path: Path)
    requires ResultOf(action, p, crcOn, base).OutOfStep? && path != ActionPath(action)
    ensures SlotOf(EffectOf(action, p, crcOn, base), path) == SlotOf(p, path)
  {
  }

  /** After a session that was saved, path by path. */
  lemma SavedSessionAt(w: World, manifest: Manifest, crcs: Crcs, base: nat, path: Path)
    requires Keyed(manifest)
    requires ServerSatisfied(SessionFrom(w, manifest, crcs, base).attempt, |PlanFor(w, manifest, crcs)|)
    ensures Ends(SlotOf(SessionFrom(w, manifest, crcs, base).attempt.progress, path), path,
                 ActionFor(PlanFor(w, manifest, crcs), path), SlotOf(Start(w, manifest), path), crcs.CrcsOn?)
  {
    var plan, a, crcOn := PlanFor(w, manifest, crcs), SessionFrom(w, manifest, crcs, base).attempt, crcs.CrcsOn?;
    var start := Start(w, manifest);
    ListKeyed(w.client, crcs);
    PlanExact(w.state, manifest, ListClient(w.client, crcs));
    SessionStops(w, manifest, crcs, base);
    TryIsPrefix(plan, start, crcOn, base);
    PrefixEnds(plan, a.done, w, manifest, crcOn, base, path);
    if a.done == |plan| {
      assert plan[..a.done] == plan;
    } else {
      var last, before := plan[a.done], After(plan, a.done, start);
      SplitActionFor(plan, path);
      if ActionPath(last) == path {
        PrefixLeavesPath(plan, a.done, start);
        CutEnds(last, before, crcOn, base, SlotOf(start, path));
      } else {
        CutElsewhere(last, before, crcOn, base, path);
      }
    }
  }
}
