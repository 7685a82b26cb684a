/**
 * What a completed round guarantees, and where repeated rounds without edits come to rest.
 */
module Agreement {
  import opened Wrappers
  import opened Ordering
  import opened Names
  import opened Manifests
  import opened Planner
  import opened Rounds

  // ---------------------------------------------------------------- the saved state

  /**
   * Every saved entry has both sides, a known server CRC and equal sizes, and equal CRCs whenever the
   * client's was known too.
   */
  predicate GoodEntry(entry: SyncStateEntry) {
    && entry.server.Some? && entry.client.Some?
    && entry.serverDosTime.Some? && entry.clientDosTime.Some?
    && entry.server.value.crcKnown
    && entry.server.value.size == entry.client.value.size
    && (entry.client.value.crcKnown ==> entry.server.value.crc32 == entry.client.value.crc32)
  }

  predicate GoodState(state: SyncState) {
    forall path :: path in state ==> GoodEntry(state[path])
  }

  predicate ServerMade(manifest: Manifest) {
    Keyed(manifest) && forall path :: path in manifest ==> manifest[path].fingerprint.crcKnown
  }

  lemma {:induction false} PerformAllServerMade(actions: seq<SyncAction>, p: Progress)
    requires ServerMade(p.manifest)
    ensures ServerMade(PerformAll(actions, p).manifest)
  {
    if actions != [] {
      PerformAllServerMade(actions[..|actions| - 1], p);
    }
  }

  lemma SavedEntryGood(server: Option<ManifestItem>, client: Option<ManifestItem>)
    requires server.Some? ==> server.value.fingerprint.crcKnown
    requires EntryAfter(server, client).Some?
    ensures GoodEntry(EntryAfter(server, client).value)
  {
  }

  /** Whatever the state was before, the one saved at the end of a round is good. */
  lemma RoundSavesGoodState(w: World, manifest: Manifest, crcs: Crcs)
    requires ServerMade(manifest)
    ensures GoodState(RoundFor(w, manifest, crcs).state)
  {
    var plan := PlanFor(w, manifest, crcs);
    var server := PerformAll(plan, Start(w, manifest)).manifest;
    var client := Predict(ListClient(w.client, crcs), plan);
    PerformAllServerMade(plan, Start(w, manifest));
    forall path | path in StateAfter(server, client) ensures GoodEntry(StateAfter(server, client)[path]) {
      SavedEntryGood(Get(server, path), Get(client, path));
    }
  }

  lemma ScanIsServerMade(disk: Disk)
    ensures ServerMade(ScanServer(disk))
  {
  }

  // ---------------------------------------------------------------- one path, one round

  function Next(path: Path, cell: Cell, crcOn: bool): Cell {
    CellAfter(path, cell, ServerView(path, cell.server), crcOn)
  }

  function Action(path: Path, cell: Cell, crcOn: bool): Option<SyncAction> {
    ActionAt(path, cell, ServerView(path, cell.server), crcOn)
  }

  predicate GoodCell(cell: Cell) {
    cell.entry.Some? ==> GoodEntry(cell.entry.value)
  }

  lemma RoundAt(w: World, crcOn: bool, path: Path)
    ensures CellOf(Round(w, crcOn), path) == Next(path, CellOf(w, path), crcOn)
    ensures ActionFor(PlanOf(w, ScanServer(w.server), crcOn), path) == Action(path, CellOf(w, path), crcOn)
    ensures Get(ScanServer(w.server), path) == ServerView(path, Get(w.server, path))
  {
    ScanIsServerMade(w.server);
    ScannedRoundIsPathwise(w, ScanServer(w.server), crcOn, path);
    ScansArePathwise(w.server, w.client, crcOn, path);
  }

  /** The scan that reports these CRCs reports a file at the path truly. */
  predicate TrueAt(disk: Disk, crcs: Crcs, path: Path) {
    path in disk && ClientSees(path, disk[path]) ==> ReportsTruly(crcs, path, disk[path])
  }

  /** A round planned from a fresh scan of the server and a report that is true at the path. */
  lemma TrueRoundAt(w: World, crcs: Crcs, path: Path)
    requires TrueAt(w.client, crcs, path)
    ensures var crcOn, manifest := crcs.CrcsOn?, ScanServer(w.server);
      && CellOf(RoundFor(w, manifest, crcs), path) == Next(path, CellOf(w, path), crcOn)
      && ActionFor(PlanFor(w, manifest, crcs), path) == Action(path, CellOf(w, path), crcOn)
      && Get(manifest, path) == ServerView(path, Get(w.server, path))
      && Get(ListClient(w.client, crcs), path) == ClientView(path, Get(w.client, path), crcOn)
  {
    ScanIsServerMade(w.server);
    RoundIsPathwise(w, ScanServer(w.server), crcs, path);
    ScansArePathwise(w.server, w.client, crcs.CrcsOn?, path);
    ListIsPathwise(w.client, crcs, path);
    TrueViewIsScanned(path, Get(w.client, path), crcs);
  }

  // ---------------------------------------------------------------- the server's own belief

  lemma ManifestTracksDiskAt(path: Path, cell: Cell, crcs: Crcs)
    ensures var slot := SlotBy(path, cell, ServerView(path, cell.server), ListView(path, cell.client, crcs));
      slot.item == ServerView(path, slot.server)
  {
    if Reportable(path) {
      ReportableIsListed(path);
    }
  }

  lemma ScannedTracksDiskAt(path: Path, cell: Cell, crcOn: bool)
    ensures var slot := SlotAfter(path, cell, ServerView(path, cell.server), crcOn);
      slot.item == ServerView(path, slot.server)
  {
    ManifestTracksDiskAt(path, cell, Computed(crcOn));
    TrueViewIsScanned(path, cell.client, Computed(crcOn));
  }

  /** After the action loop the server's manifest is what scanning its disk afresh would give. */
  lemma ManifestTracksDisk(w: World, crcs: Crcs)
    ensures var manifest := ScanServer(w.server);
      var end := PerformAll(PlanFor(w, manifest, crcs), Start(w, manifest));
      end.manifest == ScanServer(end.server)
  {
    var manifest := ScanServer(w.server);
    var plan := PlanFor(w, manifest, crcs);
    var end := PerformAll(plan, Start(w, manifest));
    ScanIsServerMade(w.server);
    forall path
      ensures Get(end.manifest, path) == Get(ScanServer(end.server), path)
    {
      ListKeyed(w.client, crcs);
      ActionForPlan(w.state, manifest, ListClient(w.client, crcs), path);
      PerformAllAt(plan, Start(w, manifest), path);
      ListIsPathwise(w.client, crcs, path);
      ScansArePathwise(w.server, w.client, true, path);
      ManifestTracksDiskAt(path, CellOf(w, path), crcs);
      ScansArePathwise(end.server, end.client, true, path);
    }
    SameLookups(end.manifest, ScanServer(end.server));
  }

  // ---------------------------------------------------------------- belief and reality

  /** What the server believes agrees with a rescan of the path. */
  predicate BeliefHolds(path: Path, cell: Cell, crcOn: bool, rescanCrcOn: bool) {
    var item := ServerView(path, cell.server);
    SameLiveItems(ClientView(path, SlotAfter(path, cell, item, crcOn).client, rescanCrcOn),
                  BeliefAfter(path, cell, item, crcOn))
  }

  lemma QuietBelief(path: Path, cell: Cell, crcOn: bool, rescanCrcOn: bool)
    requires Action(path, cell, crcOn).None? || IsConflict(Action(path, cell, crcOn))
    ensures BeliefHolds(path, cell, crcOn, rescanCrcOn)
  {
  }

  lemma MovedBelief(path: Path, cell: Cell, crcOn: bool, rescanCrcOn: bool)
    requires Action(path, cell, crcOn).Some? && !Action(path, cell, crcOn).value.Download?
    requires !IsConflict(Action(path, cell, crcOn))
    ensures BeliefHolds(path, cell, crcOn, rescanCrcOn)
  {
  }

  lemma DownloadBelief(path: Path, cell: Cell, crcOn: bool, rescanCrcOn: bool)
    requires Action(path, cell, crcOn).Some? && Action(path, cell, crcOn).value.Download?
    ensures BeliefHolds(path, cell, crcOn, rescanCrcOn) <==> Reportable(path)
  {
  }

  lemma BeliefMatchesAt(path: Path, cell: Cell, crcOn: bool, rescanCrcOn: bool)
    ensures BeliefHolds(path, cell, crcOn, rescanCrcOn)
      <==> Reportable(path) || !(Action(path, cell, crcOn).Some? && Action(path, cell, crcOn).value.Download?)
  {
    if Action(path, cell, crcOn).None? || IsConflict(Action(path, cell, crcOn)) {
      QuietBelief(path, cell, crcOn, rescanCrcOn);
    } else if Action(path, cell, crcOn).value.Download? {
      DownloadBelief(path, cell, crcOn, rescanCrcOn);
    } else {
      MovedBelief(path, cell, crcOn, rescanCrcOn);
    }
  }

  /**
   * The manifest the server predicts for the client agrees with a rescan of the client's disk, with CRCs on
   * or off in either scan: at every path the client can report, and at any other path exactly if nothing was
   * downloaded there.  Both scans report the path truly.
   */
  lemma BeliefMatchesReality(w: World, crcs: Crcs, rescan: Crcs, path: Path)
    requires TrueAt(w.client, crcs, path)
    requires TrueAt(RoundFor(w, ScanServer(w.server), crcs).client, rescan, path)
    ensures
      var plan := PlanFor(w, ScanServer(w.server), crcs);
      var believed := Predict(ListClient(w.client, crcs), plan);
      var rescanned := ListClient(RoundFor(w, ScanServer(w.server), crcs).client, rescan);
      SameLiveItems(Get(rescanned, path), Get(believed, path))
      <==> Reportable(path) || !(ActionFor(plan, path).Some? && ActionFor(plan, path).value.Download?)
  {
    var manifest := ScanServer(w.server);
    var plan, after := PlanFor(w, manifest, crcs), RoundFor(w, manifest, crcs);
    TrueRoundAt(w, crcs, path);
    TrueRoundAt(after, rescan, path);
    ScansKeyed(w.server, w.client, true);
    ListKeyed(w.client, crcs);
    ActionForPlan(w.state, manifest, ListClient(w.client, crcs), path);
    PredictedAt(ListClient(w.client, crcs), plan, path);
    BeliefMatchesAt(path, CellOf(w, path), crcs.CrcsOn?, rescan.CrcsOn?);
  }

  // ---------------------------------------------------------------- one-round agreement

  predicate Agree(server: Option<ManifestItem>, client: Option<ManifestItem>) {
    SameLiveItems(server, client) || SameWithoutCrcBootstrapOption(server, client)
  }

  predicate IsConflict(action: Option<SyncAction>) {
    action.Some? && action.value.Conflict?
  }

  /**
   * A pair recorded while the client's CRC was unknown, untouched since, whose CRCs are now both known and
   * turn out different.
   */
  predicate Latent(path: Path, cell: Cell, crcOn: bool) {
    var server, client := ServerView(path, cell.server), ClientView(path, cell.client, crcOn);
    && cell.entry.Some? && cell.entry.value.client.Some? && !cell.entry.value.client.value.crcKnown && crcOn
    && server.Some? && client.Some? && !SameItem(server.value, client.value)
    && !ServerChanged(cell.entry.value, server) && !ClientChanged(cell.entry.value, client)
  }

  /** Two files that are both there and equally long: without CRCs they count as a pair. */
  predicate EquallyLong(path: Path, cell: Cell) {
    && ServerView(path, cell.server).Some? && ClientView(path, cell.client, false).Some?
    && |cell.server.value.content| == |cell.client.value.content|
  }

  /** A conflict that leaves the sides apart. */
  predicate Parted(path: Path, cell: Cell, crcOn: bool) {
    IsConflict(Action(path, cell, crcOn)) && (crcOn || !EquallyLong(path, cell))
  }

  predicate AgreedAt(path: Path, cell: Cell, crcOn: bool) {
    Agree(ServerView(path, cell.server), ClientView(path, cell.client, crcOn))
  }

  lemma AgreementAt(path: Path, cell: Cell, crcOn: bool)
    requires GoodCell(cell) && Reportable(path)
    ensures AgreedAt(path, Next(path, cell, crcOn), crcOn) <==>
      !Parted(path, cell, crcOn) && !Latent(path, cell, crcOn)
  {
    ReportableIsListed(path);
    if IsConflict(Action(path, cell, crcOn)) {
      ConflictKeepsFiles(path, cell, crcOn);
    } else {
      AgreedUnlessLatent(path, cell, crcOn);
    }
  }

  lemma ConflictKeepsFiles(path: Path, cell: Cell, crcOn: bool)
    requires IsConflict(Action(path, cell, crcOn))
    ensures Next(path, cell, crcOn).server == cell.server && Next(path, cell, crcOn).client == cell.client
    ensures AgreedAt(path, cell, crcOn) <==> !Parted(path, cell, crcOn)
    ensures !Latent(path, cell, crcOn)
  {
  }

  lemma AgreedUnlessLatent(path: Path, cell: Cell, crcOn: bool)
    requires GoodCell(cell) && Reportable(path) && !IsConflict(Action(path, cell, crcOn))
    ensures AgreedAt(path, Next(path, cell, crcOn), crcOn) <==> !Latent(path, cell, crcOn)
  {
    if Action(path, cell, crcOn).None? {
      QuietAgreement(path, cell, crcOn);
    } else {
      MovedAgreement(path, cell, crcOn);
    }
  }

  lemma QuietAgreement(path: Path, cell: Cell, crcOn: bool)
    requires GoodCell(cell) && Action(path, cell, crcOn) == None
    ensures Next(path, cell, crcOn).server == cell.server && Next(path, cell, crcOn).client == cell.client
    ensures AgreedAt(path, cell, crcOn) <==> !Latent(path, cell, crcOn)
  {
  }

  /** An action leaves the same revision on both sides, or no file that a scan shows. */
  lemma MovedAgreement(path: Path, cell: Cell, crcOn: bool)
    requires Reportable(path) && Action(path, cell, crcOn).Some? && !IsConflict(Action(path, cell, crcOn))
    ensures AgreedAt(path, Next(path, cell, crcOn), crcOn) && !Latent(path, cell, crcOn)
  {
    ReportableIsListed(path);
  }

  /** A latent divergence leaves the state, and the next round reports it. */
  lemma LatentSurfaces(path: Path, cell: Cell, crcOn: bool)
    requires Latent(path, cell, crcOn)
    ensures var after := Next(path, cell, crcOn);
      Action(path, cell, crcOn) == None && after.entry == None && IsConflict(Action(path, after, crcOn))
  {
  }

  /** A conflict is reported again by the next round exactly if both files are there and can be told apart. */
  lemma ConflictStays(path: Path, cell: Cell, crcOn: bool)
    requires IsConflict(Action(path, cell, crcOn))
    ensures IsConflict(Action(path, Next(path, cell, crcOn), crcOn)) <==>
      && ServerView(path, cell.server).Some? && ClientView(path, cell.client, crcOn).Some?
      && (crcOn || !EquallyLong(path, cell))
  {
  }

  /**
   * After a completed round both sides agree at a reportable path - absent on both, the same revision, or equal
   * in size with a CRC unknown - if and only if the path had neither a conflict that parts the sides nor a latent
   * divergence.  The latter leaves the state and is the next round's conflict.  Both scans report the path truly.
   */
  lemma OneRoundAgreement(w: World, crcs: Crcs, next: Crcs, path: Path)
    requires GoodState(w.state) && Reportable(path) && crcs.CrcsOn? == next.CrcsOn?
    requires TrueAt(w.client, crcs, path) && TrueAt(RoundFor(w, ScanServer(w.server), crcs).client, next, path)
    ensures
      var after := RoundFor(w, ScanServer(w.server), crcs);
      var action := ActionFor(PlanFor(w, ScanServer(w.server), crcs), path);
      var server, client := Get(ScanServer(w.server), path), Get(ListClient(w.client, crcs), path);
      var agreed := Agree(Get(ScanServer(after.server), path), Get(ListClient(after.client, next), path));
      var latent := Latent(path, CellOf(w, path), crcs.CrcsOn?);
      && (agreed <==> !latent && !(IsConflict(action) && (crcs.CrcsOn? || !SameLength(server, client))))
      && (latent ==>
            && path !in after.state
            && IsConflict(ActionFor(PlanFor(after, ScanServer(after.server), next), path)))
  {
    var after, crcOn := RoundFor(w, ScanServer(w.server), crcs), crcs.CrcsOn?;
    TrueRoundAt(w, crcs, path);
    TrueRoundAt(after, next, path);
    AgreementAt(path, CellOf(w, path), crcOn);
    LengthsAreViews(path, CellOf(w, path), crcOn);
    if Latent(path, CellOf(w, path), crcOn) {
      LatentSurfaces(path, CellOf(w, path), crcOn);
    }
  }

  predicate SameLength(server: Option<ManifestItem>, client: Option<ManifestItem>) {
    server.Some? && client.Some? && server.value.fingerprint.size == client.value.fingerprint.size
  }

  lemma LengthsAreViews(path: Path, cell: Cell, crcOn: bool)
    ensures EquallyLong(path, cell) <==> SameLength(ServerView(path, cell.server), ClientView(path, cell.client, crcOn))
  {
  }

  /**
   * A conflict is reported again by the next round, no edit between, if and only if both scans show the file and,
   * with CRCs off, the two differ in size.  Otherwise it is forgotten: one side's file is moved, or the pair is
   * recorded as it stands.  Both scans report the path truly.
   */
  lemma ConflictReportedAgain(w: World, crcs: Crcs, next: Crcs, path: Path)
    requires crcs.CrcsOn? == next.CrcsOn?
    requires TrueAt(w.client, crcs, path) && TrueAt(RoundFor(w, ScanServer(w.server), crcs).client, next, path)
    requires IsConflict(ActionFor(PlanFor(w, ScanServer(w.server), crcs), path))
    ensures
      var after := RoundFor(w, ScanServer(w.server), crcs);
      var server, client := Get(ScanServer(w.server), path), Get(ListClient(w.client, crcs), path);
      IsConflict(ActionFor(PlanFor(after, ScanServer(after.server), next), path)) <==>
        server.Some? && client.Some? && (crcs.CrcsOn? || !SameLength(server, client))
  {
    TrueRoundAt(w, crcs, path);
    TrueRoundAt(RoundFor(w, ScanServer(w.server), crcs), next, path);
    ConflictStays(path, CellOf(w, path), crcs.CrcsOn?);
    LengthsAreViews(path, CellOf(w, path), crcs.CrcsOn?);
  }
}
