/**
 * The three-way comparison that plans one round: build_sync_actions (server/src/main.rs).
 */
module Planner {
  import opened Wrappers
  import opened Ordering
  import opened Manifests

  datatype SyncAction =
    | Download(item: ManifestItem)
    | Upload(item: ManifestItem)
    | DeleteLocal(path: Path)
    | DeleteRemote(path: Path)
    | Conflict(path: Path, server: Option<ManifestItem>, client: Option<ManifestItem>)

  function ActionPath(action: SyncAction): Path {
    match action
    case Download(item) => item.path
    case Upload(item) => item.path
    case DeleteLocal(path) => path
    case DeleteRemote(path) => path
    case Conflict(path, _, _) => path
  }

  // ---------------------------------------------------------------- the plan, path by path

  predicate ServerChanged(previous: SyncStateEntry, server: Option<ManifestItem>) {
    !Unchanged(server, previous.server, previous.serverDosTime)
  }

  predicate ClientChanged(previous: SyncStateEntry, client: Option<ManifestItem>) {
    !Unchanged(client, previous.client, previous.clientDosTime)
  }

  /** The decision for one path. */
  function PlanPath(path: Path, previous: Option<SyncStateEntry>,
                    server: Option<ManifestItem>, client: Option<ManifestItem>): Option<SyncAction> {
    if server.Some? && client.Some? && SameItem(server.value, client.value) then None
    else
      match previous
      case None =>
        if server.None? && client.None? then None
        else if client.None? then Some(Download(server.value))
        else if server.None? then Some(Upload(client.value))
        else if SameWithoutCrcBootstrap(server.value, client.value) then None
        else Some(Conflict(path, server, client))
      case Some(entry) =>
        match (ServerChanged(entry, server), ClientChanged(entry, client))
        case (false, false) => None
        case (true, false) => Some(if server.Some? then Download(server.value) else DeleteLocal(path))
        case (false, true) => Some(if client.Some? then Upload(client.value) else DeleteRemote(path))
        case (true, true) =>
          // The first test has already removed two equal files, so only two absent ones agree here.
          if server.None? && client.None? then None else Some(Conflict(path, server, client))
  }

  function AllPaths(state: SyncState, server: Manifest, client: Manifest): set<Path> {
    state.Keys + server.Keys + client.Keys
  }

  function PlanAt(path: Path, state: SyncState, server: Manifest, client: Manifest): Option<SyncAction> {
    PlanPath(path, Get(state, path), Get(server, path), Get(client, path))
  }

  function PlanOver(keys: seq<Path>, state: SyncState, server: Manifest, client: Manifest): seq<SyncAction> {
    if keys == [] then []
    else
      var last := keys[|keys| - 1];
      var before := PlanOver(keys[..|keys| - 1], state, server, client);
      match PlanAt(last, state, server, client)
      case None => before
      case Some(action) => before + [action]
  }

  function Plan(state: SyncState, server: Manifest, client: Manifest): seq<SyncAction> {
    PlanOver(SortedKeys(AllPaths(state, server, client)), state, server, client)
  }

  // ---------------------------------------------------------------- the loop

  /** The body of the planning loop. */
  method DecidePath(path: Path, previous: Option<SyncStateEntry>,
                    serverItem: Option<ManifestItem>, clientItem: Option<ManifestItem>)
    returns (action: Option<SyncAction>)
    ensures action == PlanPath(path, previous, serverItem, clientItem)
  {
    if serverItem.Some? && clientItem.Some? && SameLiveItems(serverItem, clientItem) {
      return None;
    }
    if previous.None? {
      match (serverItem, clientItem) {
        case (Some(server), None) => return Some(Download(server));
        case (None, Some(client)) => return Some(Upload(client));
        case (Some(server), Some(client)) =>
          if !SameLiveItems(serverItem, clientItem) && !SameWithoutCrcBootstrap(server, client) {
            return Some(Conflict(path, serverItem, clientItem));
          }
          return None;
        case (None, None) => return None;
      }
    }
    var entry := previous.value;
    var serverChanged := !SameStateItem(
      FingerprintOf(serverItem), DosTimeOf(serverItem), entry.server, entry.serverDosTime);
    var clientChanged := !SameStateItem(
      FingerprintOf(clientItem), DosTimeOf(clientItem), entry.client, entry.clientDosTime);
    if !serverChanged && !clientChanged {
      return None;
    } else if serverChanged && !clientChanged {
      match serverItem {
        case Some(server) => return Some(Download(server));
        case None => return Some(DeleteLocal(path));
      }
    } else if !serverChanged && clientChanged {
      match clientItem {
        case Some(client) => return Some(Upload(client));
        case None => return Some(DeleteRemote(path));
      }
    } else {
      if SameLiveItems(serverItem, clientItem) {
        return None;
      }
      return Some(Conflict(path, serverItem, clientItem));
    }
  }

  method BuildSyncActions(state: SyncState, serverManifest: Manifest, clientManifest: Manifest)
    returns (actions: seq<SyncAction>)
    ensures actions == Plan(state, serverManifest, clientManifest)
  {
    var paths := SortedKeys(AllPaths(state, serverManifest, clientManifest));
    actions := PlanPaths(paths, state, serverManifest, clientManifest);
  }

  /** The planning loop, over the collected paths. */
  method PlanPaths(paths: seq<Path>, state: SyncState, serverManifest: Manifest, clientManifest: Manifest)
    returns (actions: seq<SyncAction>)
    ensures actions == PlanOver(paths, state, serverManifest, clientManifest)
  {
    actions := [];
    for i := 0 to |paths|
      invariant actions == PlanOver(paths[..i], state, serverManifest, clientManifest)
    {
      assert paths[..i + 1][..i] == paths[..i];
      var path := paths[i];
      var action := DecidePath(path, Get(state, path), Get(serverManifest, path), Get(clientManifest, path));
      if action.Some? {
        actions := actions + [action.value];
      }
    }
    assert paths[..|paths|] == paths;
  }

  // ---------------------------------------------------------------- what a plan contains

  predicate DistinctPaths(actions: seq<SyncAction>) {
    forall i, j :: 0 <= i < j < |actions| ==> ActionPath(actions[i]) != ActionPath(actions[j])
  }

  /** What an action carries is what the planner was shown. */
  lemma PlannedItems(path: Path, previous: Option<SyncStateEntry>,
                     server: Option<ManifestItem>, client: Option<ManifestItem>)
    ensures match PlanPath(path, previous, server, client)
      case Some(Download(item)) => server == Some(item)
      case Some(Upload(item)) => client == Some(item)
      case Some(DeleteLocal(p)) => server == None && p == path
      case Some(DeleteRemote(p)) => client == None && p == path
      case Some(Conflict(p, theirs, mine)) => theirs == server && mine == client && p == path
      case None => true
  {
  }

  // ---------------------------------------------------------------- when there is which action

  /** Two items of one revision, as far as their CRCs or, failing those, their stamps tell. */
  predicate Alike(a: ManifestItem, b: ManifestItem) {
    && a.fingerprint.size == b.fingerprint.size
    && if a.fingerprint.crcKnown && b.fingerprint.crcKnown then a.fingerprint.crc32 == b.fingerprint.crc32
       else a.dosTime == b.dosTime
  }

  /** Two items that cannot be one revision: of different size, or with different known CRCs. */
  predicate Irreconcilable(a: ManifestItem, b: ManifestItem) {
    || a.fingerprint.size != b.fingerprint.size
    || (a.fingerprint.crcKnown && b.fingerprint.crcKnown && a.fingerprint.crc32 != b.fingerprint.crc32)
  }

  /** A side is as recorded: still absent, or present with the recorded revision. */
  predicate Kept(item: Option<ManifestItem>, recorded: Option<Fingerprint>, stamp: Option<u32>) {
    match (item, recorded)
    case (None, None) => true
    case (Some(now), Some(was)) => Alike(now, ManifestItem(now.path, was, if stamp.Some? then stamp.value else 0))
    case _ => false
  }

  predicate BothAlike(server: Option<ManifestItem>, client: Option<ManifestItem>) {
    server.Some? && client.Some? && Alike(server.value, client.value)
  }

  /** A path that was never saved: a file on one side is copied, and two files are a conflict only if irreconcilable. */
  lemma DecisionWithoutEntry(path: Path, server: Option<ManifestItem>, client: Option<ManifestItem>)
    ensures PlanPath(path, None, server, client) ==
      match (server, client)
      case (None, None) => None
      case (Some(theirs), None) => Some(Download(theirs))
      case (None, Some(mine)) => Some(Upload(mine))
      case (Some(theirs), Some(mine)) => if Irreconcilable(theirs, mine) then Some(Conflict(path, server, client)) else None
  {
  }

  /**
   * A saved path: the side that is no longer as recorded overrules the other; if neither is, there is a conflict,
   * unless both files are gone or alike.
   */
  lemma DecisionWithEntry(path: Path, entry: SyncStateEntry, server: Option<ManifestItem>, client: Option<ManifestItem>)
    ensures
      var action := PlanPath(path, Some(entry), server, client);
      var serverKept := Kept(server, entry.server, entry.serverDosTime);
      var clientKept := Kept(client, entry.client, entry.clientDosTime);
      var settled := BothAlike(server, client) || (server.None? && client.None?);
      && (action == Some(Conflict(path, server, client)) <==> !serverKept && !clientKept && !settled)
      && (action == None <==>
            BothAlike(server, client) || (serverKept && clientKept) || (!serverKept && !clientKept && settled))
      && (forall item :: action == Some(Download(item)) <==>
            server == Some(item) && !serverKept && clientKept && !BothAlike(server, client))
      && (forall item :: action == Some(Upload(item)) <==>
            client == Some(item) && serverKept && !clientKept && !BothAlike(server, client))
      && (action == Some(DeleteLocal(path)) <==> server == None && !serverKept && clientKept)
      && (action == Some(DeleteRemote(path)) <==> client == None && serverKept && !clientKept)
  {
  }

  lemma PlanPathKeepsPath(path: Path, previous: Option<SyncStateEntry>,
                          server: Option<ManifestItem>, client: Option<ManifestItem>)
    requires server.Some? ==> server.value.path == path
    requires client.Some? ==> client.value.path == path
    requires PlanPath(path, previous, server, client).Some?
    ensures ActionPath(PlanPath(path, previous, server, client).value) == path
  {
  }

  /**
   * The plan holds, for every path of the three inputs, exactly the action decided for that path, and
   * no path twice.
   */
  lemma {:induction false} PlanOverExact(keys: seq<Path>, state: SyncState, server: Manifest, client: Manifest)
    requires Ascending(keys) && Keyed(server) && Keyed(client)
    ensures var actions := PlanOver(keys, state, server, client);
      && DistinctPaths(actions)
      && (forall a :: a in actions ==>
            ActionPath(a) in keys && PlanAt(ActionPath(a), state, server, client) == Some(a))
      && (forall p :: p in keys && PlanAt(p, state, server, client).Some? ==>
            PlanAt(p, state, server, client).value in actions)
  {
    if keys != [] {
      var n := |keys| - 1;
      PlanOverExact(keys[..n], state, server, client);
      assert keys == keys[..n] + [keys[n]];
      forall i | 0 <= i < n ensures keys[i] != keys[n] { AscendingDistinct(keys, i, n); }
      if PlanAt(keys[n], state, server, client).Some? {
        PlanPathKeepsPath(keys[n], Get(state, keys[n]), Get(server, keys[n]), Get(client, keys[n]));
      }
    }
  }

  /** The plan is in the order of the paths. */
  lemma {:induction false} PlanOverAscends(keys: seq<Path>, state: SyncState, server: Manifest, client: Manifest)
    requires Ascending(keys) && Keyed(server) && Keyed(client)
    ensures var actions := PlanOver(keys, state, server, client);
      forall i, j :: 0 <= i < j < |actions| ==> Less(ActionPath(actions[i]), ActionPath(actions[j]))
  {
    if keys != [] {
      var n := |keys| - 1;
      var before := PlanOver(keys[..n], state, server, client);
      PlanOverAscends(keys[..n], state, server, client);
      PlanOverExact(keys[..n], state, server, client);
      if PlanAt(keys[n], state, server, client).Some? {
        PlanPathKeepsPath(keys[n], Get(state, keys[n]), Get(server, keys[n]), Get(client, keys[n]));
        forall i | 0 <= i < |before|
          ensures Less(ActionPath(before[i]), keys[n])
        {
          assert before[i] in before && ActionPath(before[i]) in keys[..n];
        }
      }
    }
  }

  /** Of two planned paths that first differ at a character, the one with the smaller character there comes first. */
  lemma PlanIsSorted(state: SyncState, server: Manifest, client: Manifest, i: nat, j: nat, n: nat)
    requires Keyed(server) && Keyed(client)
    requires i < |Plan(state, server, client)| && j < |Plan(state, server, client)|
    requires var a, b := ActionPath(Plan(state, server, client)[i]), ActionPath(Plan(state, server, client)[j]);
      n <= |a| && n <= |b| && a[..n] == b[..n] && ((n < |a| && n < |b| && a[n] < b[n]) || n == |a| < |b|)
    ensures i < j
  {
    var actions, paths := Plan(state, server, client), AllPaths(state, server, client);
    var a, b := ActionPath(actions[i]), ActionPath(actions[j]);
    SortedKeysExact(paths);
    PlanOverPaths(paths, state, server, client);
    PlanOverAscends(SortedKeys(paths), state, server, client);
    FirstDifference(a, b, n);
    if i > j {
      LessAsymmetric(b, a);
    } else if i == j {
      LessAsymmetric(a, b);
    }
  }

  lemma PlanOverPaths(paths: set<Path>, state: SyncState, server: Manifest, client: Manifest)
    requires paths == AllPaths(state, server, client)
    ensures Plan(state, server, client) == PlanOver(SortedKeys(paths), state, server, client)
  {
  }

  lemma PlanExact(state: SyncState, server: Manifest, client: Manifest)
    requires Keyed(server) && Keyed(client)
    ensures var actions := Plan(state, server, client);
      && DistinctPaths(actions)
      && (forall a :: a in actions ==> PlanAt(ActionPath(a), state, server, client) == Some(a))
      && (forall p :: PlanAt(p, state, server, client).Some? ==>
            PlanAt(p, state, server, client).value in actions)
  {
    var paths := AllPaths(state, server, client);
    SortedKeysExact(paths);
    PlanOverPaths(paths, state, server, client);
    PlanOverExact(SortedKeys(paths), state, server, client);
    forall p | PlanAt(p, state, server, client).Some? ensures p in SortedKeys(paths) {
      PlannedPathsKnown(p, state, server, client);
    }
  }

  lemma PlannedPathsKnown(path: Path, state: SyncState, server: Manifest, client: Manifest)
    requires PlanAt(path, state, server, client).Some?
    ensures path in AllPaths(state, server, client)
  {
  }

  // ---------------------------------------------------------------- role duality

  function SwapEntry(entry: SyncStateEntry): SyncStateEntry {
    SyncStateEntry(entry.client, entry.server, entry.clientDosTime, entry.serverDosTime)
  }

  function SwapState(state: SyncState): SyncState {
    map path | path in state :: SwapEntry(state[path])
  }

  function SwapAction(action: SyncAction): SyncAction {
    match action
    case Download(item) => Upload(item)
    case Upload(item) => Download(item)
    case DeleteLocal(path) => DeleteRemote(path)
    case DeleteRemote(path) => DeleteLocal(path)
    case Conflict(path, server, client) => Conflict(path, client, server)
  }

  function SwapActions(actions: seq<SyncAction>): (swapped: seq<SyncAction>)
    ensures |swapped| == |actions|
    ensures forall i :: 0 <= i < |actions| ==> swapped[i] == SwapAction(actions[i])
  {
    seq(|actions|, i requires 0 <= i < |actions| => SwapAction(actions[i]))
  }

  lemma PlanPathDual(path: Path, previous: Option<SyncStateEntry>,
                     server: Option<ManifestItem>, client: Option<ManifestItem>)
    ensures
      var swapped := if previous.Some? then Some(SwapEntry(previous.value)) else None;
      var there, back := PlanPath(path, previous, server, client), PlanPath(path, swapped, client, server);
      back == if there.Some? then Some(SwapAction(there.value)) else None
  {
  }

  lemma {:induction false} PlanOverDual(keys: seq<Path>, state: SyncState, server: Manifest, client: Manifest)
    ensures PlanOver(keys, SwapState(state), client, server) == SwapActions(PlanOver(keys, state, server, client))
  {
    if keys != [] {
      var n := |keys| - 1;
      PlanOverDual(keys[..n], state, server, client);
      PlanPathDual(keys[n], Get(state, keys[n]), Get(server, keys[n]), Get(client, keys[n]));
    }
  }

  lemma SwapKeepsPaths(state: SyncState, server: Manifest, client: Manifest)
    ensures AllPaths(SwapState(state), client, server) == AllPaths(state, server, client)
  {
  }

  /** Neither side is privileged: exchanging the roles in all three inputs exchanges them in every action. */
  lemma RoleDuality(state: SyncState, server: Manifest, client: Manifest)
    ensures Plan(SwapState(state), client, server) == SwapActions(Plan(state, server, client))
  {
    var paths := AllPaths(state, server, client);
    SwapKeepsPaths(state, server, client);
    PlanOverPaths(paths, SwapState(state), client, server);
    PlanOverDual(SortedKeys(paths), state, server, client);
  }
}
