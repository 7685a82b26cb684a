/**
 * What the conditions of History shut out: the edits, files and conflicts that a session passes over in silence, and
 * the files that stop every session, each with a run in which it happens.
 */
module Losses {
  import opened Wrappers
  import opened Ordering
  import opened Crc32
  import opened Names
  import opened Manifests
  import opened Planner
  import opened Rounds
  import opened Delivery
  import opened Agreement
  import opened ClientScan
  import opened History
  import opened SoloRuns
  import CrcCache

  // ---------------------------------------------------------------- edits the scan cannot tell

  /** As reported, the client's file is what was recorded: same size, and same CRC if both are known, else same stamp. */
  predicate LooksRecorded(entry: SyncStateEntry, path: Path, file: File, crcs: Crcs) {
    && entry.client.Some? && entry.client.value.size == |file.content|
    && if crcs.CrcsOn? && entry.client.value.crcKnown then ReportedCrc(crcs, path, file) == entry.client.value.crc32
       else entry.clientDosTime == Some(file.dosTime)
  }

  predicate SameAs(item: Option<ManifestItem>, path: Path, file: File, crcs: Crcs) {
    item.Some? && SameItem(item.value, ListedItem(path, file, crcs))
  }

  predicate HitsClientAt(action: Option<SyncAction>) {
    action.Some? && HitsClient(action.value)
  }

  lemma HiddenEditAt(path: Path, cell: Cell, item: Option<ManifestItem>, crcs: Crcs)
    requires GoodCell(cell) && cell.client.Some? && ClientSees(path, cell.client.value)
    ensures HitsClientAt(ActionBy(path, cell, item, ListView(path, cell.client, crcs))) <==>
      && cell.entry.Some? && LooksRecorded(cell.entry.value, path, cell.client.value, crcs)
      && ServerChanged(cell.entry.value, item) && !SameAs(item, path, cell.client.value, crcs)
  {
  }

  /**
   * A session planned from any manifest and any reported CRCs replaces or removes a file the client's scan sees if and
   * only if the file looks as recorded, whatever its bytes, and the manifest shows something else than was recorded
   * for the server and than is reported.  So an edit is lost exactly if it keeps the size and, with CRCs off or not
   * recorded, the stamp, with CRCs on the CRC that the cache answers.
   */
  lemma HiddenEditIsLost(w: World, manifest: Manifest, crcs: Crcs, path: Path)
    requires GoodState(w.state) && ServerMade(manifest)
    requires path in w.client && ClientSees(path, w.client[path])
    ensures HitsClientAt(ActionFor(PlanFor(w, manifest, crcs), path)) <==>
      && path in w.state && LooksRecorded(w.state[path], path, w.client[path], crcs)
      && ServerChanged(w.state[path], Get(manifest, path)) && !SameAs(Get(manifest, path), path, w.client[path], crcs)
  {
    RoundIsPathwise(w, manifest, crcs, path);
    HiddenEditAt(path, CellOf(w, path), Get(manifest, path), crcs);
  }

  // ---------------------------------------------------------------- a run in which both sides edit

  function Both(path: Path, file: File): SyncStateEntry {
    var item := ServerItemOf(path, file);
    SyncStateEntry(Some(item.fingerprint), Some(item.fingerprint), Some(item.dosTime), Some(item.dosTime))
  }

  lemma FirstDownload(path: Path, first: File, crcOn: bool)
    requires Reportable(path) && |first.content| <= MAX_FILE_SIZE
    ensures Next(path, Cell(Some(first), None, None), crcOn) == Cell(Some(first), Some(first), Some(Both(path, first)))
  {
    ReportableIsListed(path);
  }

  /** The server's file is downloaded; then both sides edit it, and the server scans. */
  function BothEdited(path: Path, first: File, mine: File, theirs: File, visit: Visit): Log {
    var synced := AfterSession(Opening(path, Some(first), None), visit);
    Happen(Happen(Happen(synced, ClientEdit(path, Some(mine))), ServerEdit(path, Some(theirs))), Scanned)
  }

  lemma BothEditedIsRun(path: Path, first: File, mine: File, theirs: File, visit: Visit)
    ensures var edits := [ClientEdit(path, Some(mine))] + [ServerEdit(path, Some(theirs))] + [Scanned];
      BothEdited(path, first, mine, theirs, visit) == Run([Session(visit)] + edits, map[path := first], map[])
  {
    var server, client: Disk := map[path := first], map[];
    var synced, edit := [Session(visit)], ClientEdit(path, Some(mine));
    RunSession([], visit, server, client);
    assert [] + [Session(visit)] == synced;
    RunMore(synced, edit, server, client);
    RunMore(synced + [edit], ServerEdit(path, Some(theirs)), server, client);
    RunMore(synced + [edit] + [ServerEdit(path, Some(theirs))], Scanned, server, client);
    assert synced + ([edit] + [ServerEdit(path, Some(theirs))] + [Scanned]) ==
      synced + [edit] + [ServerEdit(path, Some(theirs))] + [Scanned];
  }

  lemma Edits(log: Log, path: Path, mine: File, theirs: File)
    requires Solo(log.world, path)
    ensures var edited := Happen(Happen(log, ClientEdit(path, Some(mine))), ServerEdit(path, Some(theirs)));
      var after := Happen(edited, Scanned);
      && Solo(after.world, path) && Fresh(after) && after.cache == log.cache
      && CellOf(after.world, path) == Cell(Some(theirs), Some(mine), Get(log.world.state, path))
  {
  }

  lemma BothEditRun(path: Path, first: File, mine: File, theirs: File, visit: Visit)
    requires Reportable(path) && Roomy(path, visit.base) && |first.content| <= MAX_FILE_SIZE
    ensures var log := BothEdited(path, first, mine, theirs, visit);
      && Solo(log.world, path) && Fresh(log)
      && CellOf(log.world, path) == Cell(Some(theirs), Some(mine), Some(Both(path, first)))
      && (visit.crcOn ==> Caches(log.cache, path, first))
  {
    OneSession(path, Some(first), None, visit);
    FirstDownload(path, first, visit.crcOn);
    if visit.crcOn {
      DownloadIsCached(path, first, visit);
    }
    Edits(AfterSession(Opening(path, Some(first), None), visit), path, mine, theirs);
  }

  predicate NoConflict(actions: seq<SyncAction>) {
    forall action :: action in actions ==> !action.Conflict?
  }

  lemma LostAt(path: Path, first: File, edited: File, theirs: File, crcs: Crcs)
    requires Reportable(path) && |theirs.content| <= MAX_FILE_SIZE && |edited.content| <= MAX_FILE_SIZE
    requires |edited.content| == |first.content| && edited.dosTime == first.dosTime
    requires |theirs.content| != |first.content|
    requires crcs.CrcsOn? ==> ReportedCrc(crcs, path, edited) == ClientCrc(first.content)
    ensures var cell := Cell(Some(theirs), Some(edited), Some(Both(path, first)));
      var item, view := ServerView(path, cell.server), ListView(path, cell.client, crcs);
      && ActionBy(path, cell, item, view) == Some(Download(ServerItemOf(path, theirs)))
      && CellBy(path, cell, item, view).client == Some(theirs)
  {
    ReportableIsListed(path);
  }

  lemma EditIsLost(log: Log, path: Path, first: File, edited: File, theirs: File, visit: Visit)
    requires Solo(log.world, path) && Fresh(log) && Reportable(path) && Roomy(path, visit.base)
    requires CellOf(log.world, path) == Cell(Some(theirs), Some(edited), Some(Both(path, first)))
    requires |theirs.content| <= MAX_FILE_SIZE && |edited.content| <= MAX_FILE_SIZE
    requires |edited.content| == |first.content| && edited.dosTime == first.dosTime
    requires |theirs.content| != |first.content|
    requires visit.crcOn ==> ReportedCrc(CrcsNow(log, visit), path, edited) == ClientCrc(first.content)
    ensures var plan, after := PlanNow(log, CrcsNow(log, visit)), AfterSession(log, visit);
      && Get(log.world.client, path) == Some(edited) && NoConflict(plan)
      && Get(after.world.client, path) == Some(theirs)
  {
    LostAt(path, first, edited, theirs, CrcsNow(log, visit));
    SoloPlan(log.world, CrcsNow(log, visit), path);
    SoloSession(log, visit, path);
  }

  /**
   * A run that loses an edit: it kept size and stamp, the server's file was edited too, and no conflict is reported.
   * With CRCs off in the last session it happens always; with CRCs on whenever the cache still answers for the file.
   */
  lemma EditIsLostInRun(path: Path, first: File, edited: File, theirs: File, visit: Visit, last: Visit)
    requires Reportable(path) && Roomy(path, visit.base) && Roomy(path, last.base)
    requires |theirs.content| <= MAX_FILE_SIZE && |first.content| <= MAX_FILE_SIZE
    requires |edited.content| == |first.content| && edited.dosTime == first.dosTime
    requires |theirs.content| != |first.content|
    requires !last.crcOn || (visit.crcOn && Quick(last, path))
    ensures var log := BothEdited(path, first, edited, theirs, visit);
      var plan, after := PlanNow(log, CrcsNow(log, last)), AfterSession(log, last);
      && Get(log.world.client, path) == Some(edited) && NoConflict(plan)
      && Get(after.world.client, path) == Some(theirs)
  {
    var log := BothEdited(path, first, edited, theirs, visit);
    BothEditRun(path, first, edited, theirs, visit);
    if last.crcOn {
      assert Get(log.world.client, path) == Some(edited);
      CachedReport(log.world.client, log.cache, last, path, first);
    }
    EditIsLost(log, path, first, edited, theirs, last);
  }

  // ---------------------------------------------------------------- a conflict that is forgotten

  lemma ForgottenAt(path: Path, first: File, mine: File, theirs: File)
    requires Reportable(path) && |theirs.content| <= MAX_FILE_SIZE
    requires |mine.content| == |theirs.content| != |first.content| && mine.dosTime != theirs.dosTime
    ensures var cell := Cell(Some(theirs), Some(mine), Some(Both(path, first)));
      var after := Next(path, cell, false);
      && IsConflict(Action(path, cell, false))
      && after.server == Some(theirs) && after.client == Some(mine) && Action(path, after, false) == None
  {
    ReportableIsListed(path);
  }

  lemma ConflictForgotten(log: Log, path: Path, first: File, mine: File, theirs: File, visit: Visit)
    requires Solo(log.world, path) && Fresh(log) && Reportable(path) && Roomy(path, visit.base) && !visit.crcOn
    requires CellOf(log.world, path) == Cell(Some(theirs), Some(mine), Some(Both(path, first)))
    requires |theirs.content| <= MAX_FILE_SIZE
    requires |mine.content| == |theirs.content| != |first.content| && mine.dosTime != theirs.dosTime
    ensures var after := AfterSession(log, visit);
      && !NoConflict(PlanNow(log, CrcsOff)) && PlanNow(after, CrcsOff) == []
      && Get(after.world.server, path) == Some(theirs) && Get(after.world.client, path) == Some(mine)
  {
    ForgottenAt(path, first, mine, theirs);
    TrueSoloNext(log.world, CrcsOff, path);
    SoloPlan(log.world, CrcsOff, path);
    assert PlanNow(log, CrcsOff)[0] in PlanNow(log, CrcsOff);
    SoloSession(log, visit, path);
    var after := AfterSession(log, visit);
    TrueSoloNext(after.world, CrcsOff, path);
    SoloPlan(after.world, CrcsOff, path);
  }

  /**
   * A run that forgets a conflict: with CRCs off the two edits have the same size.  The session reports the conflict
   * and saves the pair; the next session has nothing to do, and both files are still as they were.
   */
  lemma ConflictForgottenInRun(path: Path, first: File, mine: File, theirs: File, visit: Visit, last: Visit)
    requires Reportable(path) && Roomy(path, visit.base) && Roomy(path, last.base) && !last.crcOn
    requires |theirs.content| <= MAX_FILE_SIZE && |first.content| <= MAX_FILE_SIZE
    requires |mine.content| == |theirs.content| != |first.content| && mine.dosTime != theirs.dosTime
    ensures var log := BothEdited(path, first, mine, theirs, visit);
      var after := AfterSession(log, last);
      && !NoConflict(PlanNow(log, CrcsOff)) && PlanNow(after, CrcsOff) == []
      && Get(after.world.server, path) == Some(theirs) && Get(after.world.client, path) == Some(mine)
  {
    BothEditRun(path, first, mine, theirs, visit);
    ConflictForgotten(BothEdited(path, first, mine, theirs, visit), path, first, mine, theirs, last);
  }

  // ---------------------------------------------------------------- an upload that is refused for ever

  /** The client's file is new to the server, and the cache answers for an earlier one with another CRC. */
  predicate StaleUpload(log: Log, path: Path, was: File, now: File) {
    && Solo(log.world, path) && Fresh(log) && CellOf(log.world, path) == Cell(None, Some(now), None)
    && PathFits(path) && ClientSees(path, now) && Caches(log.cache, path, was) && |was.content| == |now.content|
    && was.dosTime == now.dosTime && ClientCrc(was.content) != ClientCrc(now.content)
  }

  lemma StaleAction(log: Log, visit: Visit, path: Path, was: File, now: File)
    requires StaleUpload(log, path, was, now) && Quick(visit, path)
    ensures var crcs := CrcsNow(log, visit);
      && SoloAction(log.world, crcs, path) == Some(Upload(ListedItem(path, now, crcs)))
      && Acceptable(Upload(ListedItem(path, now, crcs)), visit.base)
      && ResultOf(Upload(ListedItem(path, now, crcs)), Start(log.world, Planned(log)), true, visit.base).Refused?
  {
    assert Get(log.world.client, path) == Some(now);
    CachedReport(log.world.client, log.cache, visit, path, was);
    assert ServerCrc(now.content) == ClientCrc(now.content);
  }

  /** The client can take the action, and yet the session fails; the next one finds everything as this one did. */
  lemma StaleUploadRefused(log: Log, visit: Visit, path: Path, was: File, now: File)
    requires StaleUpload(log, path, was, now) && Quick(visit, path)
    ensures StaleUpload(AfterSession(log, visit), path, was, now)
    ensures SessionOf(log, CrcsNow(log, visit), visit.base).attempt.result.Refused?
    ensures AllAcceptable(PlanNow(log, CrcsNow(log, visit)), visit.base)
  {
    var action := Upload(ListedItem(path, now, CrcsNow(log, visit)));
    StaleAction(log, visit, path, was, now);
    RefusedSession(log, visit, path, action);
    assert Get(log.world.client, path) == Some(now);
    CachedReport(log.world.client, log.cache, visit, path, was);
    var plan := PlanNow(log, CrcsNow(log, visit));
    assert plan[..0] == [];
  }

  function AfterSessions(log: Log, visits: seq<Visit>): Log {
    if visits == [] then log
    else AfterSession(AfterSessions(log, visits[..|visits| - 1]), visits[|visits| - 1])
  }

  /** The connection is lost after the scan; then the client edits the file, keeping size and stamp. */
  function EditedAfterScan(path: Path, was: File, now: File, visit: Visit): Log {
    Happen(AfterCut(Opening(path, None, Some(was)), visit, 0), ClientEdit(path, Some(now)))
  }

  lemma ScanRemembers(path: Path, was: File, visit: Visit)
    requires ClientSees(path, was) && Quick(visit, path)
    ensures Caches(WholeScan(map[path := was], CrcCache.EMPTY, visit).cache, path, was)
  {
    NotEmpty(path);
    assert ScanUpTo(map[path := was], CrcCache.EMPTY, visit, 0) == Scan(CrcCache.EMPTY, map[]);
  }

  lemma CutBeforeActions(log: Log, visit: Visit)
    ensures var after := AfterCut(log, visit, 0);
      && after.world == log.world && after.cached == Some(Planned(log))
      && after.cache == WholeScan(log.world.client, log.cache, visit).cache
  {
    assert PlanNow(log, CrcsNow(log, visit))[..0] == [];
    var nothing: seq<SyncAction> := [];
    assert nothing[..0] == nothing;
  }

  lemma StaleUploadArises(path: Path, was: File, now: File, visit: Visit)
    requires PathFits(path) && ClientSees(path, was) && ClientSees(path, now) && Quick(visit, path)
    requires |was.content| == |now.content| && was.dosTime == now.dosTime
    requires ClientCrc(was.content) != ClientCrc(now.content)
    ensures StaleUpload(EditedAfterScan(path, was, now, visit), path, was, now)
  {
    var start := Opening(path, None, Some(was));
    OpeningIs(path, None, Some(was));
    ScanRemembers(path, was, visit);
    CutBeforeActions(start, visit);
  }

  lemma {:induction false} StaleUploadStays(log: Log, visits: seq<Visit>, path: Path, was: File, now: File)
    requires StaleUpload(log, path, was, now) && forall i :: 0 <= i < |visits| ==> Quick(visits[i], path)
    ensures StaleUpload(AfterSessions(log, visits), path, was, now)
  {
    if visits != [] {
      var n := |visits| - 1;
      StaleUploadStays(log, visits[..n], path, was, now);
      StaleUploadRefused(AfterSessions(log, visits[..n]), visits[n], path, was, now);
    }
  }

  /**
   * A run after which, with CRCs on and the cache not rechecked, no session ever completes, though the client can take
   * every action: the server refuses the upload, whose CRC is that of an earlier file, and never gets the file.
   */
  lemma UploadRefusedForEver(path: Path, was: File, now: File, visit: Visit, visits: seq<Visit>)
    requires PathFits(path) && ClientSees(path, was) && ClientSees(path, now) && Quick(visit, path)
    requires |was.content| == |now.content| && was.dosTime == now.dosTime
    requires ClientCrc(was.content) != ClientCrc(now.content)
    requires forall i :: 0 <= i < |visits| ==> Quick(visits[i], path)
    ensures var log := AfterSessions(EditedAfterScan(path, was, now, visit), visits);
      && CellOf(log.world, path) == Cell(None, Some(now), None)
      && forall next :: Quick(next, path) ==>
           && AllAcceptable(PlanNow(log, CrcsNow(log, next)), next.base)
           && SessionOf(log, CrcsNow(log, next), next.base).attempt.result.Refused?
  {
    StaleUploadArises(path, was, now, visit);
    StaleUploadStays(EditedAfterScan(path, was, now, visit), visits, path, was, now);
    var log := AfterSessions(EditedAfterScan(path, was, now, visit), visits);
    forall next | Quick(next, path)
      ensures AllAcceptable(PlanNow(log, CrcsNow(log, next)), next.base)
      ensures SessionOf(log, CrcsNow(log, next), next.base).attempt.result.Refused?
    {
      StaleUploadRefused(log, next, path, was, now);
    }
  }

  // ---------------------------------------------------------------- files out of sight

  lemma UnseenAt(path: Path, theirs: File, own: File, crcOn: bool)
    requires !(ServerSees(path, theirs) && ClientSees(path, own))
    ensures var cell := Cell(Some(theirs), Some(own), None);
      && !IsConflict(Action(path, cell, crcOn))
      && Next(path, cell, crcOn).server == (if ClientSees(path, own) then Some(own) else Some(theirs))
      && Next(path, cell, crcOn).client == (if ServerSees(path, theirs) then Some(theirs) else Some(own))
  {
  }

  /**
   * Two unrelated files meet in the first session.  If one of the scans does not see its file, there is no conflict:
   * the file that is seen replaces the one that is not.
   */
  lemma UnseenFileOverwritten(path: Path, theirs: File, own: File, visit: Visit)
    requires Roomy(path, visit.base) && !(ServerSees(path, theirs) && ClientSees(path, own))
    ensures var start := Opening(path, Some(theirs), Some(own));
      var after := AfterSession(start, visit);
      && NoConflict(PlanNow(start, CrcsNow(start, visit)))
      && Get(after.world.server, path) == (if ClientSees(path, own) then Some(own) else Some(theirs))
      && Get(after.world.client, path) == (if ServerSees(path, theirs) then Some(theirs) else Some(own))
  {
    var start := Opening(path, Some(theirs), Some(own));
    OpeningIs(path, Some(theirs), Some(own));
    OneSession(path, Some(theirs), Some(own), visit);
    UnseenAt(path, theirs, own, visit.crcOn);
    TrueThere(start, visit, path);
    TrueSoloNext(start.world, CrcsNow(start, visit), path);
    SoloPlan(start.world, CrcsNow(start, visit), path);
  }

  // ---------------------------------------------------------------- two files both scans see

  /** The two cannot be one revision: different lengths, or, with CRCs on, different CRCs. */
  predicate Apart(theirs: File, own: File, crcOn: bool) {
    |theirs.content| != |own.content| || (crcOn && ServerCrc(theirs.content) != ServerCrc(own.content))
  }

  lemma MeetAt(path: Path, theirs: File, own: File, crcOn: bool)
    requires ServerSees(path, theirs) && ClientSees(path, own)
    ensures var cell := Cell(Some(theirs), Some(own), None);
      var item, mine := ServerItemOf(path, theirs), ClientItemOf(path, own, crcOn);
      && Action(path, cell, crcOn) ==
           (if Apart(theirs, own, crcOn) then Some(Conflict(path, Some(item), Some(mine))) else None)
      && Next(path, cell, crcOn) == Cell(Some(theirs), Some(own),
           if Apart(theirs, own, crcOn) then None
           else Some(SyncStateEntry(Some(item.fingerprint), Some(mine.fingerprint), Some(theirs.dosTime), Some(own.dosTime))))
  {
    DecisionWithoutEntry(path, Some(ServerItemOf(path, theirs)), Some(ClientItemOf(path, own, crcOn)));
  }

  /**
   * Two files that both scans see meet in the first session: both stay, and there is a conflict, reported with both
   * items, if and only if they differ in length or, with CRCs on, in CRC; otherwise nothing is planned and the pair is
   * saved, whatever the stamps.
   */
  lemma SeenFilesMeet(path: Path, theirs: File, own: File, visit: Visit)
    requires Roomy(path, visit.base) && ServerSees(path, theirs) && ClientSees(path, own)
    ensures var start := Opening(path, Some(theirs), Some(own));
      var plan, after := PlanNow(start, CrcsNow(start, visit)), AfterSession(start, visit);
      && Get(after.world.server, path) == Some(theirs) && Get(after.world.client, path) == Some(own)
      && plan == (if Apart(theirs, own, visit.crcOn)
           then [Conflict(path, Some(ServerItemOf(path, theirs)), Some(ClientItemOf(path, own, visit.crcOn)))] else [])
      && (path in after.world.state <==> !Apart(theirs, own, visit.crcOn))
  {
    var start := Opening(path, Some(theirs), Some(own));
    OpeningIs(path, Some(theirs), Some(own));
    OneSession(path, Some(theirs), Some(own), visit);
    MeetAt(path, theirs, own, visit.crcOn);
    TrueThere(start, visit, path);
    TrueSoloNext(start.world, CrcsNow(start, visit), path);
    SoloPlan(start.world, CrcsNow(start, visit), path);
    EntryOfCell(AfterSession(start, visit).world, path);
  }

  lemma EntryOfCell(w: World, path: Path)
    ensures path in w.state <==> CellOf(w, path).entry.Some?
  {
  }

  // ---------------------------------------------------------------- server files the client cannot report

  lemma SecondAt(path: Path, file: File, first: bool, second: bool)
    requires ServerSees(path, file)
    ensures var after := Next(path, Cell(Some(file), None, None), first);
      && after.server == Some(file) && after.client == Some(file)
      && (Action(path, after, second).Some? <==> !Reportable(path))
      && (Action(path, after, second).Some? ==> Action(path, after, second).value.DeleteRemote?)
  {
  }

  /** The second session has nothing to do, or deletes the file on the server before the client hears of it. */
  lemma SecondSession(log: Log, path: Path, file: File, first: bool, visit: Visit)
    requires Solo(log.world, path) && Fresh(log) && Remembers(log) && Distinguishing(log.stood)
    requires ServerSees(path, file) && CellOf(log.world, path) == Next(path, Cell(Some(file), None, None), first)
    ensures path in AfterSession(log, visit).world.server <==> Reportable(path)
  {
    var crcs := CrcsNow(log, visit);
    SecondAt(path, file, first, visit.crcOn);
    TrueThere(log, visit, path);
    TrueSoloNext(log.world, crcs, path);
    SoloPlan(log.world, crcs, path);
    ListedWorld(log.world, Planned(log), crcs, visit.base, SoloAction(log.world, crcs, path));
    SessionServer(log, visit);
    DeletesOrNot(SoloAction(log.world, crcs, path), path, Start(log.world, Planned(log)), visit.crcOn, visit.base);
  }

  lemma SessionServer(log: Log, visit: Visit)
    ensures AfterSession(log, visit).world.server == SessionOf(log, CrcsNow(log, visit), visit.base).world.server
  {
  }

  lemma DeletesOrNot(action: Option<SyncAction>, path: Path, p: Progress, crcOn: bool, base: nat)
    requires path in p.server
    requires action.Some? ==> action.value.DeleteRemote? && ActionPath(action.value) == path
    ensures action.Some? ==> path !in EffectOf(action.value, p, crcOn, base).server
  {
  }

  predicate Fetchable(path: Path, file: File, base: nat) {
    Acceptable(Download(ServerItemOf(path, file)), base)
  }

  lemma FetchableIsRoomy(path: Path, file: File, base: nat)
    ensures Fetchable(path, file, base) <==> Roomy(path, base)
  {
  }

  lemma OnlyDownloads(log: Log, visit: Visit, path: Path, file: File)
    requires Solo(log.world, path) && CellOf(log.world, path) == Cell(Some(file), None, None)
    ensures SoloAction(log.world, CrcsNow(log, visit), path) ==
      if ServerSees(path, file) then Some(Download(ServerItemOf(path, file))) else None
  {
  }

  /** The file is not deleted; if it is refused nothing is saved, and the next session finds the same. */
  lemma LoneFileStays(log: Log, visit: Visit, path: Path, file: File)
    requires Solo(log.world, path) && Fresh(log) && CellOf(log.world, path) == Cell(Some(file), None, None)
    ensures var after := AfterSession(log, visit);
      && path in after.world.server
      && (!ServerSees(path, file) || !Fetchable(path, file, visit.base) ==>
            Solo(after.world, path) && Fresh(after) && CellOf(after.world, path) == Cell(Some(file), None, None))
  {
    var crcs := CrcsNow(log, visit);
    OnlyDownloads(log, visit, path, file);
    SoloPlan(log.world, crcs, path);
    ListedWorld(log.world, Planned(log), crcs, visit.base, SoloAction(log.world, crcs, path));
    assert path in log.world.server && log.world.server[path] == file && log.world.client == map[];
    if !ServerSees(path, file) {
      UnseenStays(log, visit, path, file);
    } else if !Fetchable(path, file, visit.base) {
      WholeFile(file.content, |file.content|);
      RefusedSession(log, visit, path, Download(ServerItemOf(path, file)));
    }
  }

  /**
   * A file that only the server has, in a run of two sessions and no edit: afterwards it is still there if and only if
   * the client can report its path, or the server's scan does not see it, or the first download is refused, for want
   * of room in the client's buffers or because the file bears the temporary name.
   */
  lemma UnreportableFileIsDestroyed(path: Path, file: File, first: Visit, second: Visit)
    ensures var log := AfterSession(AfterSession(Opening(path, Some(file), None), first), second);
      path in log.world.server <==>
        Reportable(path) || !ServerSees(path, file) || !Fetchable(path, file, first.base)
  {
    var start := Opening(path, Some(file), None);
    OpeningIs(path, Some(file), None);
    var middle := AfterSession(start, first);
    FetchableIsRoomy(path, file, first.base);
    if ServerSees(path, file) && Fetchable(path, file, first.base) {
      OneSession(path, Some(file), None, first);
      SessionRemembers(start, first);
      OnlyThisStood(start, first, path);
      SecondSession(middle, path, file, first.crcOn, second);
    } else {
      LoneFileStays(start, first, path, file);
      LoneFileStays(middle, second, path, file);
    }
  }

  lemma OnlyThisStood(start: Log, visit: Visit, path: Path)
    requires start.stood == {} && Solo(AfterSession(start, visit).world, path)
    ensures Distinguishing(AfterSession(start, visit).stood)
  {
  }

  lemma UnseenStays(log: Log, visit: Visit, path: Path, file: File)
    requires Solo(log.world, path) && Fresh(log) && CellOf(log.world, path) == Cell(Some(file), None, None)
    requires !ServerSees(path, file) && PlanNow(log, CrcsNow(log, visit)) == []
    ensures var after := AfterSession(log, visit);
      Solo(after.world, path) && Fresh(after) && CellOf(after.world, path) == Cell(Some(file), None, None)
  {
    assert log.world.server == map[path := file] && ScanServer(log.world.server) == map[];
    NothingToDo(log, visit);
  }

  lemma NothingToDo(log: Log, visit: Visit)
    requires Fresh(log) && PlanNow(log, CrcsNow(log, visit)) == []
    ensures var after := AfterSession(log, visit);
      && after.world.server == log.world.server && after.world.client == log.world.client && Fresh(after)
      && after.world.state == StateAfter(Planned(log), ListClient(log.world.client, CrcsNow(log, visit)))
  {
  }

  // ---------------------------------------------------------------- paths and files for these runs

  lemma OneLetterPath() returns (path: Path)
    ensures path == "A" && Reportable(path) && Roomy(path, 1)
  {
    path := "A";
    SplitNoSeparator(path, '/');
    assert ShortNameAt(path, true, 1);
    assert Upper(path) == path;
  }

  /** The client's own settings: listed by the server, never reported by the client. */
  lemma ReservedPath() returns (path: Path)
    ensures path == "W16SYNC.INI" && ServerLists(path) && !Reportable(path) && Roomy(path, 1)
  {
    path := "W16SYNC.INI";
    SplitNoSeparator(path, '/');
    SettingsName(path);
    assert RESERVED[2] == path;
    ReservedIsHidden(path);
    SmallIsRoomy(path);
  }

  lemma SettingsName(path: Path)
    requires path == "W16SYNC.INI"
    ensures UpperShort(path, true) && |path| == 11
  {
    assert ShortNameAt(path, true, 7);
    assert Upper(path) == path;
  }

  lemma ReservedIsHidden(path: Path)
    requires path in RESERVED && Split(path, '/') == [path] && UpperShort(path, true)
    ensures ServerLists(path) && !Reportable(path)
  {
  }

  lemma SmallIsRoomy(path: Path)
    requires |path| == 11 && Split(path, '/') == [path]
    ensures Roomy(path, 1)
  {
  }

  /** A server file above the scans' size limit is replaced by an unrelated client file. */
  lemma OversizedFileOverwritten(visit: Visit) returns (path: Path, theirs: File, own: File)
    requires visit.base == 1
    ensures theirs.content != own.content && !ServerSees(path, theirs)
    ensures var start := Opening(path, Some(theirs), Some(own));
      NoConflict(PlanNow(start, CrcsNow(start, visit))) && Get(AfterSession(start, visit).world.server, path) == Some(own)
  {
    path := OneLetterPath();
    theirs, own := File(seq(MAX_FILE_SIZE + 1, _ => 0), 0), File([], 0);
    UnseenFileOverwritten(path, theirs, own, visit);
  }

  /** A client file behind a reserved name is replaced by the server's. */
  lemma HiddenClientFileOverwritten(visit: Visit, theirs: File, own: File) returns (path: Path)
    requires |theirs.content| <= MAX_FILE_SIZE && visit.base == 1
    ensures path == "W16SYNC.INI"
    ensures var start := Opening(path, Some(theirs), Some(own));
      && NoConflict(PlanNow(start, CrcsNow(start, visit)))
      && Get(AfterSession(start, visit).world.client, path) == Some(theirs)
  {
    path := ReservedPath();
    UnseenFileOverwritten(path, theirs, own, visit);
  }
}
