/**
 * Resuming after a session that died part way: the state was not saved, some actions have been carried out.
 */
module Resume {
  import opened Wrappers
  import opened Ordering
  import opened Crc32
  import opened Names
  import opened Manifests
  import opened Planner
  import opened Rounds
  import opened Agreement
  import opened Quiescence

  // ---------------------------------------------------------------- one path

  /** The cell after its action was carried out but nothing was saved. */
  function Carried(path: Path, cell: Cell, crcOn: bool): Cell {
    var slot := SlotAfter(path, cell, ServerView(path, cell.server), crcOn);
    Cell(slot.server, slot.client, cell.entry)
  }

  /** What carrying out each kind of action leaves behind. */
  lemma CarriedCases(path: Path, cell: Cell, crcOn: bool)
    requires Shareable(path, cell)
    ensures var action, c := Action(path, cell, crcOn), Carried(path, cell, crcOn);
      match action
      case None => c == cell
      case Some(Conflict(_, _, _)) => c == cell
      case Some(Download(_)) =>
        Reportable(path) && cell.server.Some? && |cell.server.value.content| <= MAX_FILE_SIZE
        && c == Cell(cell.server, cell.server, cell.entry)
      case Some(Upload(_)) =>
        Reportable(path) && cell.client.Some? && |cell.client.value.content| <= MAX_FILE_SIZE
        && c == Cell(cell.client, cell.client, cell.entry)
      case Some(DeleteLocal(_)) =>
        ServerView(path, cell.server).None? && cell.entry.Some? && c == Cell(cell.server, None, cell.entry)
      case Some(DeleteRemote(_)) =>
        ClientView(path, cell.client, crcOn).None? && cell.entry.Some? && c == Cell(None, cell.client, cell.entry)
  {
  }

  lemma EqualFilesNeedNothing(path: Path, file: File, entry: Option<SyncStateEntry>, crcOn: bool)
    requires Reportable(path) && |file.content| <= MAX_FILE_SIZE
    ensures ActionAt(path, Cell(Some(file), Some(file), entry), ServerView(path, Some(file)), crcOn) == None
  {
    ReportableIsListed(path);
  }

  lemma AbsentFilesNeedNothing(path: Path, cell: Cell, crcOn: bool)
    requires GoodCell(cell) && cell.entry.Some?
    requires ServerView(path, cell.server).None? && ClientView(path, cell.client, crcOn).None?
    ensures Action(path, cell, crcOn) == None
  {
  }

  /** Carried out, these actions are planned again all the same: nothing that the next scans see has changed. */
  predicate StillDue(action: SyncAction) {
    action.Conflict? || (action.Download? && !Reportable(ActionPath(action)))
  }

  predicate IsStillDue(action: Option<SyncAction>) {
    action.Some? && StillDue(action.value)
  }

  lemma ReplanAt(path: Path, cell: Cell, crcOn: bool)
    requires GoodCell(cell)
    ensures Action(path, Carried(path, cell, crcOn), crcOn) ==
      if IsStillDue(Action(path, cell, crcOn)) then Action(path, cell, crcOn) else None
  {
    if Reportable(path) {
      ReplanInSight(path, cell, crcOn);
    } else {
      ReplanOutOfSight(path, cell, crcOn);
    }
    ActionAtPath(path, cell, crcOn);
  }

  lemma ActionAtPath(path: Path, cell: Cell, crcOn: bool)
    ensures var action := Action(path, cell, crcOn); action.Some? ==> ActionPath(action.value) == path
  {
    ViewsAreKeyed(path, cell, crcOn);
    if Action(path, cell, crcOn).Some? {
      PlanPathKeepsPath(path, cell.entry, ServerView(path, cell.server), ClientView(path, cell.client, crcOn));
    }
  }

  lemma ViewsAreKeyed(path: Path, cell: Cell, crcOn: bool)
    ensures var server, client := ServerView(path, cell.server), ClientView(path, cell.client, crcOn);
      (server.Some? ==> server.value.path == path) && (client.Some? ==> client.value.path == path)
  {
  }

  lemma ReplanOutOfSight(path: Path, cell: Cell, crcOn: bool)
    requires GoodCell(cell) && !Reportable(path)
    ensures var action, again := Action(path, cell, crcOn), Action(path, Carried(path, cell, crcOn), crcOn);
      again == if action.Some? && (action.value.Conflict? || action.value.Download?) then action else None
  {
  }

  lemma ReplanInSight(path: Path, cell: Cell, crcOn: bool)
    requires GoodCell(cell) && Reportable(path)
    ensures Action(path, Carried(path, cell, crcOn), crcOn) ==
      if IsConflict(Action(path, cell, crcOn)) then Action(path, cell, crcOn) else None
  {
    CarriedCases(path, cell, crcOn);
    var c := Carried(path, cell, crcOn);
    match Action(path, cell, crcOn) {
      case None =>
      case Some(Conflict(_, _, _)) =>
      case Some(Download(_)) => EqualFilesNeedNothing(path, cell.server.value, cell.entry, crcOn);
      case Some(Upload(_)) => EqualFilesNeedNothing(path, cell.client.value, cell.entry, crcOn);
      case Some(DeleteLocal(_)) => AbsentFilesNeedNothing(path, c, crcOn);
      case Some(DeleteRemote(_)) => AbsentFilesNeedNothing(path, c, crcOn);
    }
  }

  /** With CRCs on the entry a round saves is the one a fresh scan of the resulting files justifies. */
  lemma SavedEntryIsFresh(path: Path, cell: Cell)
    requires Shareable(path, cell)
    ensures var after := Next(path, cell, true);
      after.entry == EntryAfter(ServerView(path, after.server), ClientView(path, after.client, true))
  {
    ScannedTracksDiskAt(path, cell, true);
    BeliefIsExact(path, cell);
  }

  lemma BeliefIsExact(path: Path, cell: Cell)
    requires Shareable(path, cell)
    ensures BeliefAfter(path, cell, ServerView(path, cell.server), true) == ClientView(path, Next(path, cell, true).client, true)
  {
    NextFiles(path, cell, ServerView(path, cell.server), true);
    var action := Action(path, cell, true);
    if action.Some? && action.value.Download? {
      CarriedCases(path, cell, true);
      SameItemBothWays(path, cell.server.value);
    }
  }

  lemma SameItemBothWays(path: Path, file: File)
    ensures ServerItemOf(path, file) == ClientItemOf(path, file, true)
  {
    assert ClientCrc(file.content) == ServerCrc(file.content);
  }

  lemma NothingToDo(path: Path, cell: Cell, item: Option<ManifestItem>, crcOn: bool)
    requires ActionAt(path, cell, item, crcOn).None? || IsConflict(ActionAt(path, cell, item, crcOn))
    ensures CellAfter(path, cell, item, crcOn) ==
      Cell(cell.server, cell.client, EntryAfter(item, ClientView(path, cell.client, crcOn)))
  {
  }

  lemma RedoAt(path: Path, cell: Cell, crcOn: bool)
    requires GoodCell(cell)
    ensures var again, once := Next(path, Carried(path, cell, crcOn), crcOn), Next(path, cell, crcOn);
      again.server == once.server && again.client == once.client && (crcOn ==> again.entry == once.entry)
  {
    if Reportable(path) {
      RedoInSight(path, cell, crcOn);
    } else {
      RedoOutOfSight(path, cell, crcOn);
    }
  }

  lemma RedoOutOfSight(path: Path, cell: Cell, crcOn: bool)
    requires GoodCell(cell) && !Reportable(path)
    ensures Next(path, Carried(path, cell, crcOn), crcOn) == Next(path, cell, crcOn)
    ensures CellAfter(path, Carried(path, cell, crcOn), ServerView(path, cell.server), crcOn) == Next(path, cell, crcOn)
  {
  }

  lemma RedoInSight(path: Path, cell: Cell, crcOn: bool)
    requires GoodCell(cell) && Reportable(path)
    ensures var again, once := Next(path, Carried(path, cell, crcOn), crcOn), Next(path, cell, crcOn);
      again.server == once.server && again.client == once.client && (crcOn ==> again.entry == once.entry)
  {
    ReplanInSight(path, cell, crcOn);
    var c := Carried(path, cell, crcOn);
    NothingToDo(path, c, ServerView(path, c.server), crcOn);
    if crcOn {
      SavedEntryIsFresh(path, cell);
    }
  }

  lemma StaleAction(path: Path, cell: Cell, crcOn: bool)
    requires GoodCell(cell) && Shareable(path, cell)
    ensures
      var action, item, c := Action(path, cell, crcOn), ServerView(path, cell.server), Carried(path, cell, crcOn);
      ActionAt(path, c, item, crcOn) ==
        if action.Some? && (action.value.Download? || action.value.DeleteLocal?) then None else action
  {
    CarriedCases(path, cell, crcOn);
    match Action(path, cell, crcOn) {
      case None =>
      case Some(Conflict(_, _, _)) =>
      case Some(Download(_)) => EqualFilesNeedNothing(path, cell.server.value, cell.entry, crcOn);
      case Some(Upload(_)) =>
      case Some(DeleteLocal(_)) => AbsentFilesNeedNothing(path, Carried(path, cell, crcOn), crcOn);
      case Some(DeleteRemote(_)) =>
    }
  }

  lemma RepeatUpload(path: Path, file: File, server: Option<File>, entry: Option<SyncStateEntry>,
                     item: Option<ManifestItem>, crcOn: bool)
    requires ClientSees(path, file)
    requires ActionAt(path, Cell(server, Some(file), entry), item, crcOn) == Some(Upload(ClientItemOf(path, file, crcOn)))
    ensures CellAfter(path, Cell(server, Some(file), entry), item, crcOn) ==
      Cell(Some(file), Some(file), EntryAfter(Some(ServerItemOf(path, file)), Some(ClientItemOf(path, file, crcOn))))
  {
  }

  lemma UploadItem(path: Path, cell: Cell, crcOn: bool)
    requires Action(path, cell, crcOn).Some? && Action(path, cell, crcOn).value.Upload?
    ensures cell.client.Some? && ClientSees(path, cell.client.value)
    ensures Action(path, cell, crcOn) == Some(Upload(ClientItemOf(path, cell.client.value, crcOn)))
  {
  }

  lemma RepeatDelete(path: Path, cell: Cell, item: Option<ManifestItem>, crcOn: bool)
    requires ActionAt(path, cell, item, crcOn) == Some(DeleteRemote(path))
    ensures CellAfter(path, cell, item, crcOn) == Cell(None, cell.client, None)
  {
  }

  lemma DeleteNamesPath(path: Path, cell: Cell, crcOn: bool)
    requires Action(path, cell, crcOn).Some? && Action(path, cell, crcOn).value.DeleteRemote?
    ensures Action(path, cell, crcOn) == Some(DeleteRemote(path))
    ensures Next(path, cell, crcOn).entry == None
  {
  }

  /** The same, planned from the manifest as it was before the session died. */
  lemma RedoStaleAt(path: Path, cell: Cell, crcOn: bool)
    requires GoodCell(cell)
    ensures
      var again := CellAfter(path, Carried(path, cell, crcOn), ServerView(path, cell.server), crcOn);
      var once := Next(path, cell, crcOn);
      again.server == once.server && again.client == once.client && (crcOn ==> again.entry == once.entry)
  {
    if Reportable(path) {
      RedoStaleInSight(path, cell, crcOn);
    } else {
      RedoOutOfSight(path, cell, crcOn);
    }
  }

  lemma RedoStaleInSight(path: Path, cell: Cell, crcOn: bool)
    requires GoodCell(cell) && Reportable(path)
    ensures
      var again := CellAfter(path, Carried(path, cell, crcOn), ServerView(path, cell.server), crcOn);
      var once := Next(path, cell, crcOn);
      again.server == once.server && again.client == once.client && (crcOn ==> again.entry == once.entry)
  {
    var item, c := ServerView(path, cell.server), Carried(path, cell, crcOn);
    CarriedCases(path, cell, crcOn);
    StaleAction(path, cell, crcOn);
    if crcOn {
      SavedEntryIsFresh(path, cell);
    }
    match Action(path, cell, crcOn) {
      case None => NothingToDo(path, c, item, crcOn);
      case Some(Conflict(_, _, _)) => NothingToDo(path, c, item, crcOn);
      case Some(Download(_)) => NothingToDo(path, c, item, crcOn);
      case Some(DeleteLocal(_)) => NothingToDo(path, c, item, crcOn);
      case Some(Upload(_)) =>
        ReportableIsListed(path);
        UploadItem(path, cell, crcOn);
        RepeatUpload(path, cell.client.value, c.server, cell.entry, item, crcOn);
      case Some(DeleteRemote(_)) =>
        DeleteNamesPath(path, cell, crcOn);
        RepeatDelete(path, c, item, crcOn);
    }
  }

  // ---------------------------------------------------------------- the aborted world

  predicate Done(done: seq<SyncAction>, path: Path) {
    exists a :: a in done && ActionPath(a) == path
  }

  lemma PrefixAction(actions: seq<SyncAction>, k: nat, path: Path)
    requires DistinctPaths(actions) && k <= |actions|
    ensures ActionFor(actions[..k], path) == if Done(actions[..k], path) then ActionFor(actions, path) else None
  {
    if Done(actions[..k], path) {
      var a := ActionFor(actions[..k], path).value;
      assert a in actions;
      ActionForUnique(actions, a);
    }
  }

  lemma AbortedAt(w: World, crcOn: bool, k: nat, path: Path)
    requires k <= |PlanOf(w, ScanServer(w.server), crcOn)|
    ensures
      var manifest := ScanServer(w.server);
      CellOf(AbortedAfter(w, manifest, crcOn, k), path) ==
        if Done(PlanOf(w, manifest, crcOn)[..k], path) then Carried(path, CellOf(w, path), crcOn)
        else CellOf(w, path)
  {
    var manifest := ScanServer(w.server);
    var plan := PlanOf(w, manifest, crcOn);
    ScansKeyed(w.server, w.client, crcOn);
    ActionForPlan(w.state, manifest, ScanClient(w.client, crcOn), path);
    RoundAt(w, crcOn, path);
    PrefixAction(plan, k, path);
    PerformAllAt(plan[..k], Start(w, manifest), path);
  }

  // ---------------------------------------------------------------- the new plan

  /** The actions of the list that will be planned again. */
  function DueAgain(actions: seq<SyncAction>): seq<SyncAction> {
    if actions == [] then []
    else
      var last := actions[|actions| - 1];
      DueAgain(actions[..|actions| - 1]) + if StillDue(last) then [last] else []
  }

  function Replanned(done: seq<SyncAction>, path: Path, action: Option<SyncAction>): Option<SyncAction> {
    if Done(done, path) && !IsStillDue(action) then None else action
  }

  /** A plan is what some decision says, key after key. */
  function Collect(keys: seq<Path>, decide: Path -> Option<SyncAction>): seq<SyncAction> {
    if keys == [] then []
    else
      var action := decide(keys[|keys| - 1]);
      Collect(keys[..|keys| - 1], decide) + if action.Some? then [action.value] else []
  }

  lemma {:induction false} PlanCollects(keys: seq<Path>, state: SyncState, server: Manifest, client: Manifest,
                                        decide: Path -> Option<SyncAction>)
    requires forall p :: decide(p) == PlanAt(p, state, server, client)
    ensures PlanOver(keys, state, server, client) == Collect(keys, decide)
  {
    if keys != [] {
      PlanCollects(keys[..|keys| - 1], state, server, client, decide);
    }
  }

  predicate OwnPaths(keys: seq<Path>, decide: Path -> Option<SyncAction>) {
    forall p :: p in keys && decide(p).Some? ==> ActionPath(decide(p).value) == p
  }

  lemma {:induction false} CollectedPaths(keys: seq<Path>, decide: Path -> Option<SyncAction>)
    requires OwnPaths(keys, decide)
    ensures forall a :: a in Collect(keys, decide) ==> ActionPath(a) in keys
  {
    if keys != [] {
      CollectedPaths(keys[..|keys| - 1], decide);
    }
  }

  lemma {:induction false} ReplannedOver(keys: seq<Path>, decide: Path -> Option<SyncAction>,
                                         decide': Path -> Option<SyncAction>, k: nat)
    requires Ascending(keys) && OwnPaths(keys, decide) && k <= |Collect(keys, decide)|
    requires forall p :: p in keys ==> decide'(p) == Replanned(Collect(keys, decide)[..k], p, decide(p))
    ensures
      var plan := Collect(keys, decide);
      Collect(keys, decide') == DueAgain(plan[..k]) + plan[k..]
  {
    if keys != [] {
      var n := |keys| - 1;
      var last, fewer := keys[n], keys[..n];
      var plan, before := Collect(keys, decide), Collect(fewer, decide);
      var j := if k <= |before| then k else |before|;
      LastKey(keys, decide);
      forall p | p in fewer
        ensures decide'(p) == Replanned(before[..j], p, decide(p))
      {
        DoneBefore(plan, before, k, j, last, p);
        assert p in keys;
      }
      ReplannedOver(fewer, decide, decide', j);
      assert last in keys;
      ReplannedStep(plan, before, k, j, last, decide(last), decide'(last));
    }
  }

  lemma LastKey(keys: seq<Path>, decide: Path -> Option<SyncAction>)
    requires keys != [] && Ascending(keys) && OwnPaths(keys, decide)
    ensures
      var n := |keys| - 1;
      && keys[n] !in keys[..n] && Ascending(keys[..n])
      && forall a :: a in Collect(keys[..n], decide) ==> ActionPath(a) != keys[n]
  {
    var n := |keys| - 1;
    forall i | 0 <= i < n ensures keys[i] != keys[n] { AscendingDistinct(keys, i, n); }
    CollectedPaths(keys[..n], decide);
  }

  lemma DoneBefore(plan: seq<SyncAction>, before: seq<SyncAction>, k: nat, j: nat, last: Path, p: Path)
    requires k <= |plan| && p != last
    requires plan == before || (|plan| == |before| + 1 && plan[..|before|] == before && ActionPath(plan[|before|]) == last)
    requires j == if k <= |before| then k else |before|
    ensures Done(plan[..k], p) <==> Done(before[..j], p)
  {
    if k <= |before| {
      assert plan[..k] == before[..j];
    } else {
      assert plan[..k] == before[..j] + [plan[|before|]];
    }
  }

  lemma ReplannedStep(plan: seq<SyncAction>, before: seq<SyncAction>, k: nat, j: nat, last: Path,
                      action: Option<SyncAction>, action': Option<SyncAction>)
    requires k <= |plan| && j == if k <= |before| then k else |before|
    requires plan == before + (if action.Some? then [action.value] else [])
    requires action.Some? ==> ActionPath(action.value) == last
    requires forall a :: a in before ==> ActionPath(a) != last
    requires action' == Replanned(plan[..k], last, action)
    ensures DueAgain(before[..j]) + before[j..] + (if action'.Some? then [action'.value] else []) ==
      DueAgain(plan[..k]) + plan[k..]
  {
    if k <= |before| {
      assert plan[..k] == before[..j];
      assert !Done(plan[..k], last);
      assert plan[k..] == before[j..] + (if action.Some? then [action.value] else []);
    } else {
      assert plan[..k] == plan;
      assert plan[|plan| - 1] == action.value;
      assert plan[..|plan| - 1] == before == before[..j];
      assert Done(plan, last);
    }
  }

  lemma ReplannedPlan(keys: seq<Path>, state: SyncState, server: Manifest, client: Manifest,
                      server': Manifest, client': Manifest, k: nat)
    requires Ascending(keys) && Keyed(server) && Keyed(client)
    requires k <= |PlanOver(keys, state, server, client)|
    requires forall p :: p in keys ==>
      PlanAt(p, state, server', client') ==
        Replanned(PlanOver(keys, state, server, client)[..k], p, PlanAt(p, state, server, client))
    ensures
      var plan := PlanOver(keys, state, server, client);
      PlanOver(keys, state, server', client') == DueAgain(plan[..k]) + plan[k..]
  {
    var decide := p => PlanAt(p, state, server, client);
    var decide' := p => PlanAt(p, state, server', client');
    PlanCollects(keys, state, server, client, decide);
    PlanCollects(keys, state, server', client', decide');
    forall p | p in keys && decide(p).Some?
      ensures ActionPath(decide(p).value) == p
    {
      PlanPathKeepsPath(p, Get(state, p), Get(server, p), Get(client, p));
    }
    ReplannedOver(keys, decide, decide', k);
  }

  // ---------------------------------------------------------------- the theorems

  predicate Mentioned(path: Path, cell: Cell, crcOn: bool) {
    cell.entry.Some? || ServerView(path, cell.server).Some? || ClientView(path, cell.client, crcOn).Some?
  }

  lemma ActingIsMentioned(path: Path, cell: Cell, crcOn: bool)
    requires Action(path, cell, crcOn).Some?
    ensures Mentioned(path, cell, crcOn)
  {
  }

  lemma ReportableIsMentioned(path: Path, file: File, cell: Cell, crcOn: bool)
    requires Reportable(path) && |file.content| <= MAX_FILE_SIZE && cell.server == Some(file)
    ensures Mentioned(path, cell, crcOn)
  {
    ReportableIsListed(path);
  }

  lemma SamePathsAt(path: Path, cell: Cell, crcOn: bool)
    requires GoodCell(cell)
    ensures Mentioned(path, cell, crcOn) <==> Mentioned(path, Carried(path, cell, crcOn), crcOn)
  {
    if Reportable(path) {
      SamePathsInSight(path, cell, crcOn);
    } else {
      SamePathsOutOfSight(path, cell, crcOn);
    }
  }

  lemma SamePathsOutOfSight(path: Path, cell: Cell, crcOn: bool)
    requires GoodCell(cell) && !Reportable(path)
    ensures Mentioned(path, cell, crcOn) <==> Mentioned(path, Carried(path, cell, crcOn), crcOn)
  {
  }

  lemma SamePathsInSight(path: Path, cell: Cell, crcOn: bool)
    requires GoodCell(cell) && Reportable(path)
    ensures Mentioned(path, cell, crcOn) <==> Mentioned(path, Carried(path, cell, crcOn), crcOn)
  {
    var c := Carried(path, cell, crcOn);
    CarriedCases(path, cell, crcOn);
    match Action(path, cell, crcOn) {
      case None =>
      case Some(Conflict(_, _, _)) =>
      case Some(Download(_)) =>
        ActingIsMentioned(path, cell, crcOn);
        ReportableIsMentioned(path, cell.server.value, c, crcOn);
      case Some(Upload(_)) =>
        ActingIsMentioned(path, cell, crcOn);
        ReportableIsMentioned(path, cell.client.value, c, crcOn);
      case Some(DeleteLocal(_)) =>
      case Some(DeleteRemote(_)) =>
    }
  }

  lemma SamePaths(w: World, v: World, crcOn: bool)
    requires v.state == w.state && GoodState(w.state)
    requires forall path :: CellOf(v, path) == CellOf(w, path) || CellOf(v, path) == Carried(path, CellOf(w, path), crcOn)
    ensures AllPaths(v.state, ScanServer(v.server), ScanClient(v.client, crcOn)) ==
      AllPaths(w.state, ScanServer(w.server), ScanClient(w.client, crcOn))
  {
    forall path
      ensures path in AllPaths(v.state, ScanServer(v.server), ScanClient(v.client, crcOn)) <==>
        path in AllPaths(w.state, ScanServer(w.server), ScanClient(w.client, crcOn))
    {
      ScansArePathwise(w.server, w.client, crcOn, path);
      ScansArePathwise(v.server, v.client, crcOn, path);
      SamePathsAt(path, CellOf(w, path), crcOn);
      assert CellOf(v, path) == CellOf(w, path) || CellOf(v, path) == Carried(path, CellOf(w, path), crcOn);
    }
  }

  /**
   * If a session dies after k of its actions and both sides are scanned again without edits, the new plan is
   * exactly those of the k actions that are conflicts or downloads to paths the client cannot report, followed
   * by the actions not yet carried out.
   */
  lemma ResumedPlan(w: World, crcOn: bool, k: nat)
    requires GoodState(w.state)
    requires k <= |PlanOf(w, ScanServer(w.server), crcOn)|
    ensures
      var plan := PlanOf(w, ScanServer(w.server), crcOn);
      var v := AbortedAfter(w, ScanServer(w.server), crcOn, k);
      PlanOf(v, ScanServer(v.server), crcOn) == DueAgain(plan[..k]) + plan[k..]
  {
    var manifest, client := ScanServer(w.server), ScanClient(w.client, crcOn);
    var v := AbortedAfter(w, manifest, crcOn, k);
    forall path
      ensures CellOf(v, path) == CellOf(w, path) || CellOf(v, path) == Carried(path, CellOf(w, path), crcOn)
    {
      AbortedAt(w, crcOn, k, path);
    }
    SamePaths(w, v, crcOn);
    var paths := AllPaths(w.state, manifest, client);
    PlanOverPaths(paths, w.state, manifest, client);
    PlanOverPaths(paths, v.state, ScanServer(v.server), ScanClient(v.client, crcOn));
    SortedKeysExact(paths);
    ResumedOver(w, v, crcOn, SortedKeys(paths), k);
  }

  lemma ResumedOver(w: World, v: World, crcOn: bool, keys: seq<Path>, k: nat)
    requires GoodState(w.state) && Ascending(keys)
    requires PlanOf(w, ScanServer(w.server), crcOn) ==
      PlanOver(keys, w.state, ScanServer(w.server), ScanClient(w.client, crcOn))
    requires k <= |PlanOf(w, ScanServer(w.server), crcOn)|
    requires v == AbortedAfter(w, ScanServer(w.server), crcOn, k)
    ensures
      var plan := PlanOf(w, ScanServer(w.server), crcOn);
      PlanOver(keys, v.state, ScanServer(v.server), ScanClient(v.client, crcOn)) == DueAgain(plan[..k]) + plan[k..]
  {
    var manifest, client := ScanServer(w.server), ScanClient(w.client, crcOn);
    var manifest', client' := ScanServer(v.server), ScanClient(v.client, crcOn);
    var done := PlanOf(w, manifest, crcOn)[..k];
    ScansKeyed(w.server, w.client, crcOn);
    forall p | p in keys
      ensures PlanAt(p, w.state, manifest', client') == Replanned(done, p, PlanAt(p, w.state, manifest, client))
    {
      AbortedAt(w, crcOn, k, p);
      ScansArePathwise(w.server, w.client, crcOn, p);
      ScansArePathwise(v.server, v.client, crcOn, p);
      ReplanAt(p, CellOf(w, p), crcOn);
    }
    ReplannedPlan(keys, w.state, manifest, client, manifest', client', k);
  }

  // ---------------------------------------------------------------- the resumed round

  /** What the two rounds save for a path differs exactly after a download in sight without CRCs. */
  lemma RedoEntryAt(path: Path, cell: Cell, crcOn: bool)
    requires GoodCell(cell)
    ensures var again, once := Next(path, Carried(path, cell, crcOn), crcOn), Next(path, cell, crcOn);
      again.entry == once.entry <==> crcOn || !Fetched(path, Action(path, cell, crcOn))
  {
    RedoAt(path, cell, crcOn);
    if !Reportable(path) {
      RedoOutOfSight(path, cell, crcOn);
    } else if !crcOn {
      ReplanInSight(path, cell, crcOn);
      RedoneEntry(path, cell);
    }
  }

  predicate Fetched(path: Path, action: Option<SyncAction>) {
    action.Some? && action.value.Download? && Reportable(path)
  }

  lemma RedoneEntry(path: Path, cell: Cell)
    requires GoodCell(cell) && Reportable(path)
    ensures var again, once := Next(path, Carried(path, cell, false), false), Next(path, cell, false);
      again.entry == once.entry <==> !Fetched(path, Action(path, cell, false))
  {
  }

  lemma RedoStaleEntryAt(path: Path, cell: Cell, crcOn: bool)
    requires GoodCell(cell)
    ensures var again := CellAfter(path, Carried(path, cell, crcOn), ServerView(path, cell.server), crcOn);
      again.entry == Next(path, cell, crcOn).entry <==> crcOn || !Fetched(path, Action(path, cell, crcOn))
  {
    RedoStaleAt(path, cell, crcOn);
    if !Reportable(path) {
      RedoOutOfSight(path, cell, crcOn);
    }
  }

  /** Some of these actions downloaded to a path the client can report. */
  predicate FetchesInSight(actions: seq<SyncAction>) {
    exists i :: 0 <= i < |actions| && actions[i].Download? && Reportable(actions[i].item.path)
  }

  /** A path's action is such a download, and among the actions done. */
  predicate FetchedBefore(done: seq<SyncAction>, path: Path, action: Option<SyncAction>) {
    Done(done, path) && Fetched(path, action)
  }

  lemma FetchedSomewhere(plan: seq<SyncAction>, k: nat)
    requires DistinctPaths(plan) && k <= |plan|
    ensures FetchesInSight(plan[..k]) <==> exists path :: FetchedBefore(plan[..k], path, ActionFor(plan, path))
  {
    if FetchesInSight(plan[..k]) {
      var i :| 0 <= i < |plan[..k]| && plan[..k][i].Download? && Reportable(plan[..k][i].item.path);
      assert plan[i] in plan && plan[..k][i] in plan[..k];
      ActionForUnique(plan, plan[i]);
      assert FetchedBefore(plan[..k], ActionPath(plan[i]), ActionFor(plan, ActionPath(plan[i])));
    }
    if path :| FetchedBefore(plan[..k], path, ActionFor(plan, path)) {
      PrefixAction(plan, k, path);
      var a := ActionFor(plan, path).value;
      assert a in plan[..k];
    }
  }

  /** Two worlds that agree but for the entries of the paths where something was fetched in sight. */
  lemma StatesDiffer(w: World, crcOn: bool, k: nat, resumed: World)
    requires k <= |PlanOf(w, ScanServer(w.server), crcOn)|
    requires forall path :: ResumedEntryAt(w, crcOn, k, resumed, path)
    ensures resumed.state == Round(w, crcOn).state <==>
      crcOn || !FetchesInSight(PlanOf(w, ScanServer(w.server), crcOn)[..k])
  {
    var plan := PlanOf(w, ScanServer(w.server), crcOn);
    ScansKeyed(w.server, w.client, crcOn);
    PlanExact(w.state, ScanServer(w.server), ScanClient(w.client, crcOn));
    FetchedSomewhere(plan, k);
    if crcOn || !FetchesInSight(plan[..k]) {
      forall path
        ensures Get(resumed.state, path) == Get(Round(w, crcOn).state, path)
      {
        assert ResumedEntryAt(w, crcOn, k, resumed, path);
      }
      SameLookups(resumed.state, Round(w, crcOn).state);
    } else {
      var path :| FetchedBefore(plan[..k], path, ActionFor(plan, path));
      assert ResumedEntryAt(w, crcOn, k, resumed, path);
    }
  }

  ghost predicate ResumedEntryAt(w: World, crcOn: bool, k: nat, resumed: World, path: Path)
    requires k <= |PlanOf(w, ScanServer(w.server), crcOn)|
  {
    var plan := PlanOf(w, ScanServer(w.server), crcOn);
    Get(resumed.state, path) == Get(Round(w, crcOn).state, path) <==>
      crcOn || !FetchedBefore(plan[..k], path, ActionFor(plan, path))
  }

  lemma ResumedAt(w: World, crcOn: bool, k: nat, path: Path)
    requires GoodState(w.state) && k <= |PlanOf(w, ScanServer(w.server), crcOn)|
    ensures var resumed := Round(AbortedAfter(w, ScanServer(w.server), crcOn, k), crcOn);
      && CellOf(resumed, path).server == CellOf(Round(w, crcOn), path).server
      && CellOf(resumed, path).client == CellOf(Round(w, crcOn), path).client
      && ResumedEntryAt(w, crcOn, k, resumed, path)
  {
    var v := AbortedAfter(w, ScanServer(w.server), crcOn, k);
    AbortedAt(w, crcOn, k, path);
    RoundAt(w, crcOn, path);
    RoundAt(v, crcOn, path);
    RedoAt(path, CellOf(w, path), crcOn);
    RedoEntryAt(path, CellOf(w, path), crcOn);
    EntriesOf(Round(v, crcOn), path);
    EntriesOf(Round(w, crcOn), path);
  }

  lemma EntriesOf(w: World, path: Path)
    ensures CellOf(w, path).entry == Get(w.state, path)
  {
  }

  /**
   * The resumed round leaves both disks as the uninterrupted one would have, and the saved state too, exactly if CRCs
   * are on or none of the actions carried out was a download to a path the client can report.
   */
  lemma ResumedRound(w: World, crcOn: bool, k: nat)
    requires GoodState(w.state)
    requires k <= |PlanOf(w, ScanServer(w.server), crcOn)|
    ensures
      var resumed := Round(AbortedAfter(w, ScanServer(w.server), crcOn, k), crcOn);
      && resumed.server == Round(w, crcOn).server && resumed.client == Round(w, crcOn).client
      && (resumed.state == Round(w, crcOn).state <==>
            crcOn || !FetchesInSight(PlanOf(w, ScanServer(w.server), crcOn)[..k]))
  {
    var resumed, once := Round(AbortedAfter(w, ScanServer(w.server), crcOn, k), crcOn), Round(w, crcOn);
    forall path
      ensures CellOf(resumed, path).server == CellOf(once, path).server
      ensures CellOf(resumed, path).client == CellOf(once, path).client
      ensures ResumedEntryAt(w, crcOn, k, resumed, path)
    {
      ResumedAt(w, crcOn, k, path);
    }
    SameDisks(resumed, once);
    StatesDiffer(w, crcOn, k, resumed);
  }

  /**
   * So does a round planned from the server manifest as it was cached before the session died, which is what
   * the server uses until its next scan.
   */
  lemma ResumedFromStaleManifest(w: World, crcOn: bool, k: nat)
    requires GoodState(w.state)
    requires k <= |PlanOf(w, ScanServer(w.server), crcOn)|
    ensures
      var v := AbortedAfter(w, ScanServer(w.server), crcOn, k);
      var resumed := RoundFrom(v, ScanServer(w.server), crcOn);
      && resumed.server == Round(w, crcOn).server && resumed.client == Round(w, crcOn).client
      && (resumed.state == Round(w, crcOn).state <==>
            crcOn || !FetchesInSight(PlanOf(w, ScanServer(w.server), crcOn)[..k]))
  {
    var v := AbortedAfter(w, ScanServer(w.server), crcOn, k);
    var resumed, once := RoundFrom(v, ScanServer(w.server), crcOn), Round(w, crcOn);
    forall path
      ensures CellOf(resumed, path).server == CellOf(once, path).server
      ensures CellOf(resumed, path).client == CellOf(once, path).client
      ensures ResumedEntryAt(w, crcOn, k, resumed, path)
    {
      StaleAt(w, crcOn, k, path);
    }
    SameDisks(resumed, once);
    StatesDiffer(w, crcOn, k, resumed);
  }

  lemma StaleAt(w: World, crcOn: bool, k: nat, path: Path)
    requires GoodState(w.state)
    requires k <= |PlanOf(w, ScanServer(w.server), crcOn)|
    ensures
      var resumed := RoundFrom(AbortedAfter(w, ScanServer(w.server), crcOn, k), ScanServer(w.server), crcOn);
      && CellOf(resumed, path).server == CellOf(Round(w, crcOn), path).server
      && CellOf(resumed, path).client == CellOf(Round(w, crcOn), path).client
      && ResumedEntryAt(w, crcOn, k, resumed, path)
  {
    var v := AbortedAfter(w, ScanServer(w.server), crcOn, k);
    AbortedAt(w, crcOn, k, path);
    RoundAt(w, crcOn, path);
    ScanIsServerMade(w.server);
    ScannedRoundIsPathwise(v, ScanServer(w.server), crcOn, path);
    RedoStaleAt(path, CellOf(w, path), crcOn);
    RedoStaleEntryAt(path, CellOf(w, path), crcOn);
    EntriesOf(RoundFrom(v, ScanServer(w.server), crcOn), path);
    EntriesOf(Round(w, crcOn), path);
  }
}
