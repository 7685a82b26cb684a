/**
 * One synchronisation round over both disks: the action loop of handle_sync_client, the prediction of
 * the client's files and the next saved state (server/src/main.rs), with the client's half of every
 * action (client/proto.c).
 */
module Rounds {
  import opened Wrappers
  import opened Ordering
  import opened Manifests
  import opened Planner

  datatype World = World(server: Disk, client: Disk, state: SyncState)

  /** What the action loop changes: both disks and the server's manifest. */
  datatype Progress = Progress(server: Disk, client: Disk, manifest: Manifest)

  function Perform(action: SyncAction, p: Progress): Progress {
    match action
    case Download(item) =>
      // Without the file on the server's disk the session dies here and nothing moves.
      if item.path in p.server
      then p.(client := p.client[item.path := File(p.server[item.path].content, item.dosTime)])
      else p
    case Upload(item) =>
      if item.path in p.client then
        var stored := File(p.client[item.path].content, item.dosTime);
        p.(server := p.server[item.path := stored],
           manifest := p.manifest[item.path := ServerItemOf(item.path, stored)])
      else p
    case DeleteLocal(path) => p.(client := p.client - {path})
    case DeleteRemote(path) => p.(server := p.server - {path}, manifest := p.manifest - {path})
    case Conflict(_, _, _) => p
  }

  function PerformAll(actions: seq<SyncAction>, p: Progress): Progress {
    if actions == [] then p
    else Perform(actions[|actions| - 1], PerformAll(actions[..|actions| - 1], p))
  }

  function ConflictCount(actions: seq<SyncAction>): nat {
    if actions == [] then 0
    else ConflictCount(actions[..|actions| - 1]) + if actions[|actions| - 1].Conflict? then 1 else 0
  }

  /** apply_actions_to_client_manifest: what the server believes the client holds afterwards. */
  function PredictOne(action: SyncAction, client: Manifest): Manifest {
    match action
    case Download(item) => client[item.path := item]
    case Upload(item) => client[item.path := item]
    case DeleteLocal(path) => client - {path}
    case DeleteRemote(path) => client - {path}
    case Conflict(_, _, _) => client
  }

  function Predict(client: Manifest, actions: seq<SyncAction>): Manifest {
    if actions == [] then client
    else PredictOne(actions[|actions| - 1], Predict(client, actions[..|actions| - 1]))
  }

  /** The entry saved for one path, if any. */
  function EntryAfter(server: Option<ManifestItem>, client: Option<ManifestItem>): Option<SyncStateEntry> {
    if server.Some? && client.Some? &&
       (SameItem(server.value, client.value) || SameWithoutCrcBootstrap(server.value, client.value))
    then Some(SyncStateEntry(
      Some(server.value.fingerprint), Some(client.value.fingerprint),
      Some(server.value.dosTime), Some(client.value.dosTime)))
    else None
  }

  function StateAfter(server: Manifest, client: Manifest): SyncState {
    map path | path in server && EntryAfter(Get(server, path), Get(client, path)).Some? ::
      EntryAfter(Get(server, path), Get(client, path)).value
  }

  /** The plan for what the client's scan reports. */
  function PlanFor(w: World, manifest: Manifest, crcs: Crcs): seq<SyncAction> {
    Plan(w.state, manifest, ListClient(w.client, crcs))
  }

  function PlanOf(w: World, manifest: Manifest, crcOn: bool): seq<SyncAction> {
    PlanFor(w, manifest, Computed(crcOn))
  }

  function Start(w: World, manifest: Manifest): Progress {
    Progress(w.server, w.client, manifest)
  }

  /** A completed round that starts from a given server manifest and a given report. */
  function RoundFor(w: World, manifest: Manifest, crcs: Crcs): World {
    var plan := PlanFor(w, manifest, crcs);
    var end := PerformAll(plan, Start(w, manifest));
    World(end.server, end.client, StateAfter(end.manifest, Predict(ListClient(w.client, crcs), plan)))
  }

  function RoundFrom(w: World, manifest: Manifest, crcOn: bool): World {
    RoundFor(w, manifest, Computed(crcOn))
  }

  function Round(w: World, crcOn: bool): World {
    RoundFrom(w, ScanServer(w.server), crcOn)
  }

  /** The session dies after `k` of its actions: files have moved, the state has not been saved. */
  function AbortedFor(w: World, manifest: Manifest, crcs: Crcs, k: nat): World
    requires k <= |PlanFor(w, manifest, crcs)|
  {
    var end := PerformAll(PlanFor(w, manifest, crcs)[..k], Start(w, manifest));
    World(end.server, end.client, w.state)
  }

  function AbortedAfter(w: World, manifest: Manifest, crcOn: bool, k: nat): World
    requires k <= |PlanOf(w, manifest, crcOn)|
  {
    AbortedFor(w, manifest, Computed(crcOn), k)
  }

  // ---------------------------------------------------------------- the loops

  method ApplyActionsToClientManifest(clientManifest: Manifest, actions: seq<SyncAction>)
    returns (predicted: Manifest)
    ensures predicted == Predict(clientManifest, actions)
  {
    predicted := clientManifest;
    for i := 0 to |actions|
      invariant predicted == Predict(clientManifest, actions[..i])
    {
      assert actions[..i + 1][..i] == actions[..i];
      match actions[i] {
        case Download(item) => predicted := predicted[item.path := item];
        case Upload(item) => predicted := predicted[item.path := item];
        case DeleteLocal(path) => predicted := predicted - {path};
        case DeleteRemote(path) => predicted := predicted - {path};
        case Conflict(_, _, _) =>
      }
    }
    assert actions[..|actions|] == actions;
  }

  method BuildStateAfterSync(serverManifest: Manifest, clientManifest: Manifest) returns (state: SyncState)
    ensures state == StateAfter(serverManifest, clientManifest)
  {
    var paths := SortedKeys(serverManifest.Keys + clientManifest.Keys);
    SortedKeysExact(serverManifest.Keys + clientManifest.Keys);
    state := StateOver(paths, serverManifest, clientManifest);
  }

  ghost predicate StateFor(state: SyncState, paths: seq<Path>, server: Manifest, client: Manifest) {
    && (forall p :: p in state <==> p in paths && EntryAfter(Get(server, p), Get(client, p)).Some?)
    && (forall p :: p in state ==> state[p] == EntryAfter(Get(server, p), Get(client, p)).value)
  }

  /** The loop, over the collected paths. */
  method StateOver(paths: seq<Path>, serverManifest: Manifest, clientManifest: Manifest)
    returns (state: SyncState)
    requires forall p :: p in serverManifest ==> p in paths
    ensures state == StateAfter(serverManifest, clientManifest)
  {
    state := map[];
    for i := 0 to |paths|
      invariant StateFor(state, paths[..i], serverManifest, clientManifest)
    {
      var path := paths[i];
      assert paths[..i + 1] == paths[..i] + [path];
      var server, client := Get(serverManifest, path), Get(clientManifest, path);
      if (SameLiveItems(server, client) || SameWithoutCrcBootstrapOption(server, client)) && server.Some? {
        state := state[path := SyncStateEntry(
          FingerprintOf(server), FingerprintOf(client), DosTimeOf(server), DosTimeOf(client))];
      }
    }
    assert paths[..|paths|] == paths;
  }

  /** What is saved: the pairs that are not irreconcilable, each with both fingerprints and both stamps. */
  lemma SavedPairs(server: Manifest, client: Manifest, path: Path)
    ensures path in StateAfter(server, client) <==>
      path in server && path in client && !Irreconcilable(server[path], client[path])
    ensures path in StateAfter(server, client) ==>
      var entry := StateAfter(server, client)[path];
      && entry.server == Some(server[path].fingerprint) && entry.serverDosTime == Some(server[path].dosTime)
      && entry.client == Some(client[path].fingerprint) && entry.clientDosTime == Some(client[path].dosTime)
  {
  }

  /** The places of the conflicts. */
  function ConflictsIn(actions: seq<SyncAction>): set<int> {
    set i | 0 <= i < |actions| && actions[i].Conflict?
  }

  lemma {:induction false} ConflictCountIs(actions: seq<SyncAction>)
    ensures ConflictCount(actions) == |ConflictsIn(actions)|
  {
    if actions != [] {
      var n := |actions| - 1;
      ConflictCountIs(actions[..n]);
      assert ConflictsIn(actions[..n]) == ConflictsIn(actions) - {n};
      assert ConflictsIn(actions) == ConflictsIn(actions[..n]) + if actions[n].Conflict? then {n} else {};
    }
  }

  // ---------------------------------------------------------------- path by path

  datatype Slot = Slot(server: Option<File>, client: Option<File>, item: Option<ManifestItem>)

  function SlotOf(p: Progress, path: Path): Slot {
    Slot(Get(p.server, path), Get(p.client, path), Get(p.manifest, path))
  }

  function PerformAt(path: Path, action: Option<SyncAction>, slot: Slot): Slot {
    match action
    case Some(Download(item)) =>
      if slot.server.Some? then slot.(client := Some(File(slot.server.value.content, item.dosTime))) else slot
    case Some(Upload(item)) =>
      if slot.client.Some? then
        var stored := File(slot.client.value.content, item.dosTime);
        slot.(server := Some(stored), item := Some(ServerItemOf(path, stored)))
      else slot
    case Some(DeleteLocal(_)) => slot.(client := None)
    case Some(DeleteRemote(_)) => slot.(server := None, item := None)
    case Some(Conflict(_, _, _)) => slot
    case None => slot
  }

  function PredictAt(action: Option<SyncAction>, client: Option<ManifestItem>): Option<ManifestItem> {
    match action
    case Some(Download(item)) => Some(item)
    case Some(Upload(item)) => Some(item)
    case Some(DeleteLocal(_)) => None
    case Some(DeleteRemote(_)) => None
    case Some(Conflict(_, _, _)) => client
    case None => client
  }

  /** An action touches its own path and no other. */
  lemma PerformTouchesOnePath(action: SyncAction, p: Progress, path: Path)
    ensures SlotOf(Perform(action, p), path) ==
      PerformAt(path, if ActionPath(action) == path then Some(action) else None, SlotOf(p, path))
  {
  }

  /** The one action of the list for `path`, if there is one. */
  ghost function ActionFor(actions: seq<SyncAction>, path: Path): Option<SyncAction> {
    if exists a :: a in actions && ActionPath(a) == path
    then var a :| a in actions && ActionPath(a) == path; Some(a)
    else None
  }

  lemma ActionForUnique(actions: seq<SyncAction>, action: SyncAction)
    requires DistinctPaths(actions) && action in actions
    ensures ActionFor(actions, ActionPath(action)) == Some(action)
  {
    var i :| 0 <= i < |actions| && actions[i] == action;
    var other := ActionFor(actions, ActionPath(action)).value;
    var j :| 0 <= j < |actions| && actions[j] == other;
    assert i == j;
  }

  lemma {:induction false} PerformAllAt(actions: seq<SyncAction>, p: Progress, path: Path)
    requires DistinctPaths(actions)
    ensures SlotOf(PerformAll(actions, p), path) == PerformAt(path, ActionFor(actions, path), SlotOf(p, path))
  {
    if actions != [] {
      var n := |actions| - 1;
      var before, last := actions[..n], actions[n];
      PerformAllAt(before, p, path);
      PerformTouchesOnePath(last, PerformAll(before, p), path);
      SplitActionFor(actions, path);
    }
  }

  lemma SplitActionFor(actions: seq<SyncAction>, path: Path)
    requires DistinctPaths(actions) && actions != []
    ensures var n := |actions| - 1;
      ActionFor(actions, path) ==
        if ActionPath(actions[n]) == path then Some(actions[n]) else ActionFor(actions[..n], path)
    ensures ActionPath(actions[|actions| - 1]) == path ==> ActionFor(actions[..|actions| - 1], path) == None
  {
    var n := |actions| - 1;
    if ActionPath(actions[n]) == path {
      ActionForUnique(actions, actions[n]);
    } else {
      assert actions == actions[..n] + [actions[n]];
      if ActionFor(actions, path).Some? {
        var a := ActionFor(actions, path).value;
        assert a in actions[..n];
        ActionForUnique(actions[..n], a);
      } else {
        assert forall a :: a in actions[..n] ==> a in actions;
      }
    }
  }

  /** Earlier actions of a plan leave the path of a later one alone. */
  lemma PrefixLeavesPath(actions: seq<SyncAction>, k: nat, p: Progress)
    requires DistinctPaths(actions) && k < |actions|
    ensures SlotOf(PerformAll(actions[..k], p), ActionPath(actions[k])) == SlotOf(p, ActionPath(actions[k]))
  {
    PerformAllAt(actions[..k], p, ActionPath(actions[k]));
    assert ActionFor(actions[..k], ActionPath(actions[k])) == None by {
      forall a | a in actions[..k] ensures ActionPath(a) != ActionPath(actions[k]) {
        var i :| 0 <= i < k && actions[..k][i] == a;
        assert actions[i] == a;
      }
    }
  }

  lemma {:induction false} PredictedAt(client: Manifest, actions: seq<SyncAction>, path: Path)
    requires DistinctPaths(actions)
    ensures Get(Predict(client, actions), path) == PredictAt(ActionFor(actions, path), Get(client, path))
  {
    if actions != [] {
      PredictedAt(client, actions[..|actions| - 1], path);
      SplitActionFor(actions, path);
    }
  }

  /** The action a plan holds for a path is the one decided for that path. */
  lemma ActionForPlan(state: SyncState, server: Manifest, client: Manifest, path: Path)
    requires Keyed(server) && Keyed(client)
    ensures DistinctPaths(Plan(state, server, client))
    ensures ActionFor(Plan(state, server, client), path) == PlanAt(path, state, server, client)
  {
    PlanExact(state, server, client);
    var actions := Plan(state, server, client);
    var decided := PlanAt(path, state, server, client);
    if decided.Some? {
      PlanPathKeepsPath(path, Get(state, path), Get(server, path), Get(client, path));
      ActionForUnique(actions, decided.value);
    }
  }

  datatype Cell = Cell(server: Option<File>, client: Option<File>, entry: Option<SyncStateEntry>)

  function CellOf(w: World, path: Path): Cell {
    Cell(Get(w.server, path), Get(w.client, path), Get(w.state, path))
  }

  /** What the round does at one path, given what the server's manifest and the client's list show there. */
  function ActionBy(path: Path, cell: Cell, item: Option<ManifestItem>, view: Option<ManifestItem>): Option<SyncAction> {
    PlanPath(path, cell.entry, item, view)
  }

  function SlotBy(path: Path, cell: Cell, item: Option<ManifestItem>, view: Option<ManifestItem>): Slot {
    PerformAt(path, ActionBy(path, cell, item, view), Slot(cell.server, cell.client, item))
  }

  function BeliefBy(path: Path, cell: Cell, item: Option<ManifestItem>, view: Option<ManifestItem>): Option<ManifestItem> {
    PredictAt(ActionBy(path, cell, item, view), view)
  }

  function CellBy(path: Path, cell: Cell, item: Option<ManifestItem>, view: Option<ManifestItem>): Cell {
    var slot := SlotBy(path, cell, item, view);
    Cell(slot.server, slot.client, EntryAfter(slot.item, BeliefBy(path, cell, item, view)))
  }

  function ActionAt(path: Path, cell: Cell, item: Option<ManifestItem>, crcOn: bool): Option<SyncAction> {
    ActionBy(path, cell, item, ClientView(path, cell.client, crcOn))
  }

  function SlotAfter(path: Path, cell: Cell, item: Option<ManifestItem>, crcOn: bool): Slot {
    SlotBy(path, cell, item, ClientView(path, cell.client, crcOn))
  }

  function BeliefAfter(path: Path, cell: Cell, item: Option<ManifestItem>, crcOn: bool): Option<ManifestItem> {
    BeliefBy(path, cell, item, ClientView(path, cell.client, crcOn))
  }

  function CellAfter(path: Path, cell: Cell, item: Option<ManifestItem>, crcOn: bool): Cell {
    CellBy(path, cell, item, ClientView(path, cell.client, crcOn))
  }

  lemma ScansKeyed(server: Disk, client: Disk, crcOn: bool)
    ensures Keyed(ScanServer(server)) && Keyed(ScanClient(client, crcOn))
  {
  }

  lemma ListKeyed(client: Disk, crcs: Crcs)
    ensures Keyed(ListClient(client, crcs))
  {
  }

  /** A round works on every path by itself. */
  lemma RoundIsPathwise(w: World, manifest: Manifest, crcs: Crcs, path: Path)
    requires Keyed(manifest)
    ensures var view := ListView(path, Get(w.client, path), crcs);
      && CellOf(RoundFor(w, manifest, crcs), path) == CellBy(path, CellOf(w, path), Get(manifest, path), view)
      && ActionFor(PlanFor(w, manifest, crcs), path) == ActionBy(path, CellOf(w, path), Get(manifest, path), view)
  {
    var client := ListClient(w.client, crcs);
    ListKeyed(w.client, crcs);
    ListIsPathwise(w.client, crcs, path);
    ActionForPlan(w.state, manifest, client, path);
    var plan := PlanFor(w, manifest, crcs);
    PerformAllAt(plan, Start(w, manifest), path);
    PredictedAt(client, plan, path);
    var end := PerformAll(plan, Start(w, manifest));
    StatePathwise(end.manifest, Predict(client, plan), path);
  }

  lemma ScannedRoundIsPathwise(w: World, manifest: Manifest, crcOn: bool, path: Path)
    requires Keyed(manifest)
    ensures CellOf(RoundFrom(w, manifest, crcOn), path) ==
      CellAfter(path, CellOf(w, path), Get(manifest, path), crcOn)
    ensures ActionFor(PlanOf(w, manifest, crcOn), path) ==
      ActionAt(path, CellOf(w, path), Get(manifest, path), crcOn)
  {
    RoundIsPathwise(w, manifest, Computed(crcOn), path);
    TrueViewIsScanned(path, Get(w.client, path), Computed(crcOn));
  }

  lemma StatePathwise(server: Manifest, client: Manifest, path: Path)
    ensures Get(StateAfter(server, client), path) == EntryAfter(Get(server, path), Get(client, path))
  {
  }
}
