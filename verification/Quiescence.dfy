/**
 * Rounds repeated without edits: where they come to rest, and the one family of files they destroy.
 */
module Quiescence {
  import opened Wrappers
  import opened Ordering
  import opened Names
  import opened Manifests
  import opened Planner
  import opened Rounds
  import opened Agreement

  // ---------------------------------------------------------------- one path

  /** The saved entry is exactly what the files as scanned justify, up to the client's CRC being known. */
  predicate Settled(path: Path, cell: Cell, crcOn: bool) {
    var server, client := ServerView(path, cell.server), ClientView(path, cell.client, crcOn);
    match cell.entry
    case None => EntryAfter(server, client).None?
    case Some(entry) =>
      && EntryAfter(server, client).Some?
      && !ServerChanged(entry, server) && !ClientChanged(entry, client)
  }

  /** Neither side alone holds the file: nothing is left to move. */
  predicate AtRest(path: Path, cell: Cell, crcOn: bool) {
    ServerView(path, cell.server).Some? <==> ClientView(path, cell.client, crcOn).Some?
  }

  predicate StandingConflict(path: Path, cell: Cell, crcOn: bool) {
    var server, client := ServerView(path, cell.server), ClientView(path, cell.client, crcOn);
    server.Some? && client.Some? && !Agree(server, client)
  }

  /** Not listed by the server unless the client could report it. */
  predicate Shareable(path: Path, cell: Cell) {
    ServerView(path, cell.server).Some? ==> Reportable(path)
  }

  lemma SettledBySaving(path: Path, cell: Cell, belief: Option<ManifestItem>, crcOn: bool)
    requires cell.entry == EntryAfter(ServerView(path, cell.server), belief)
    requires SameLiveItems(ClientView(path, cell.client, crcOn), belief)
    requires belief == ServerView(path, cell.server) || belief == ClientView(path, cell.client, crcOn)
    ensures Settled(path, cell, crcOn)
  {
  }

  lemma BeliefIsSeen(path: Path, cell: Cell, crcOn: bool)
    requires Shareable(path, cell)
    ensures var after, belief := Next(path, cell, crcOn), BeliefAfter(path, cell, ServerView(path, cell.server), crcOn);
      belief == ServerView(path, after.server) || belief == ClientView(path, after.client, crcOn)
  {
    var item := ServerView(path, cell.server);
    NextFiles(path, cell, item, crcOn);
  }

  /** The files and the prediction after each kind of action. */
  lemma NextFiles(path: Path, cell: Cell, item: Option<ManifestItem>, crcOn: bool)
    requires item == ServerView(path, cell.server)
    ensures var slot, belief := SlotAfter(path, cell, item, crcOn), BeliefAfter(path, cell, item, crcOn);
      match Action(path, cell, crcOn)
      case Some(Download(_)) => slot.server == cell.server && belief == item
      case Some(DeleteLocal(_)) => slot.client == None && belief == None
      case _ => slot.client == cell.client && belief == ClientView(path, cell.client, crcOn)
  {
    var action := Action(path, cell, crcOn);
    PlannedItems(path, cell.entry, item, ClientView(path, cell.client, crcOn));
    FilesAfterAction(path, action, Slot(cell.server, cell.client, item), ClientView(path, cell.client, crcOn));
  }

  lemma FilesAfterAction(path: Path, action: Option<SyncAction>, slot: Slot, client: Option<ManifestItem>)
    requires match action
      case Some(Download(x)) => slot.item == Some(x)
      case Some(Upload(x)) => client == Some(x)
      case Some(DeleteRemote(_)) => client == None
      case _ => true
    ensures var after, belief := PerformAt(path, action, slot), PredictAt(action, client);
      match action
      case Some(Download(_)) => after.server == slot.server && belief == slot.item
      case Some(DeleteLocal(_)) => after.client == None && belief == None
      case _ => after.client == slot.client && belief == client
  {
  }

  lemma RoundStaysShareable(path: Path, cell: Cell, crcOn: bool)
    requires Shareable(path, cell)
    ensures Shareable(path, Next(path, cell, crcOn))
  {
  }

  lemma RoundSettles(path: Path, cell: Cell, crcOn: bool)
    requires Shareable(path, cell)
    ensures Settled(path, Next(path, cell, crcOn), crcOn) && Shareable(path, Next(path, cell, crcOn))
  {
    ScannedTracksDiskAt(path, cell, crcOn);
    BeliefMatchesAt(path, cell, crcOn, crcOn);
    BeliefIsSeen(path, cell, crcOn);
    RoundStaysShareable(path, cell, crcOn);
    if Action(path, cell, crcOn).Some? && Action(path, cell, crcOn).value.Download? {
      DownloadIsReportable(path, cell, crcOn);
    }
    SettledBySaving(
      path, Next(path, cell, crcOn), BeliefAfter(path, cell, ServerView(path, cell.server), crcOn), crcOn);
  }

  lemma DownloadIsReportable(path: Path, cell: Cell, crcOn: bool)
    requires Shareable(path, cell) && Action(path, cell, crcOn).Some? && Action(path, cell, crcOn).value.Download?
    ensures Reportable(path)
  {
  }

  lemma SettledActions(path: Path, cell: Cell, crcOn: bool)
    requires Settled(path, cell, crcOn)
    ensures cell.entry.Some? ==> Action(path, cell, crcOn) == None
    ensures AtRest(path, cell, crcOn) ==>
      && (Action(path, cell, crcOn).Some? <==> StandingConflict(path, cell, crcOn))
      && (Action(path, cell, crcOn).Some? ==> IsConflict(Action(path, cell, crcOn)))
  {
  }

  lemma SettledComesToRest(path: Path, cell: Cell, crcOn: bool)
    requires Settled(path, cell, crcOn) && Shareable(path, cell)
    ensures AtRest(path, Next(path, cell, crcOn), crcOn)
  {
    if Reportable(path) {
      ReportableIsListed(path);
    }
  }

  lemma RestKeepsFiles(path: Path, cell: Cell, crcOn: bool)
    requires Settled(path, cell, crcOn) && AtRest(path, cell, crcOn)
    ensures Next(path, cell, crcOn).server == cell.server && Next(path, cell, crcOn).client == cell.client
    ensures Next(path, cell, crcOn).entry ==
      EntryAfter(ServerView(path, cell.server), ClientView(path, cell.client, crcOn))
  {
    SettledActions(path, cell, crcOn);
  }

  /** The first round sends a file down to a path the client cannot report. */
  predicate SentOutOfSight(path: Path, action: Option<SyncAction>) {
    !Reportable(path) && action.Some? && action.value.Download?
  }

  /**
   * An action of the second round needs a conflict, a latent divergence or a download out of the client's sight
   * in the first.
   */
  lemma SecondActionExplained(path: Path, cell: Cell, crcOn: bool)
    requires GoodCell(cell)
    ensures Action(path, Next(path, cell, crcOn), crcOn).Some? ==>
      || IsConflict(Action(path, cell, crcOn))
      || Latent(path, cell, crcOn)
      || SentOutOfSight(path, Action(path, cell, crcOn))
  {
    if !Reportable(path) {
      SecondOfUnreportable(path, cell, crcOn);
    } else {
      AgreementAt(path, cell, crcOn);
      RoundSettles(path, cell, crcOn);
      if AgreedAt(path, Next(path, cell, crcOn), crcOn) {
        AgreedIsQuiet(path, Next(path, cell, crcOn), crcOn);
      }
    }
  }

  lemma AgreedIsQuiet(path: Path, cell: Cell, crcOn: bool)
    requires Settled(path, cell, crcOn)
    requires AgreedAt(path, cell, crcOn)
    ensures Action(path, cell, crcOn).None?
  {
  }

  lemma SecondOfUnreportable(path: Path, cell: Cell, crcOn: bool)
    requires GoodCell(cell) && !Reportable(path)
    ensures Action(path, Next(path, cell, crcOn), crcOn).Some? ==>
      IsConflict(Action(path, cell, crcOn)) || SentOutOfSight(path, Action(path, cell, crcOn))
  {
  }

  /** Out of the client's sight a round leaves one of three cells, and the next one moves on to the last. */
  predicate OutOfSight(path: Path, cell: Cell) {
    && !Reportable(path)
    && (cell.entry.Some? ==>
          && ServerView(path, cell.server).Some?
          && !ServerChanged(cell.entry.value, ServerView(path, cell.server))
          && cell.entry.value.client.Some?)
  }

  lemma RoundKeepsOutOfSight(path: Path, cell: Cell, crcOn: bool)
    requires !Reportable(path)
    ensures OutOfSight(path, Next(path, cell, crcOn))
  {
  }

  lemma EntryMeansGone(path: Path, cell: Cell, crcOn: bool)
    requires OutOfSight(path, cell) && cell.entry.Some?
    ensures Next(path, cell, crcOn) == Cell(None, cell.client, None)
  {
  }

  lemma NoEntryMeansEntry(path: Path, cell: Cell, crcOn: bool)
    requires OutOfSight(path, cell) && cell.entry.None?
    ensures if ServerView(path, cell.server).Some? then Next(path, cell, crcOn).entry.Some?
      else Next(path, cell, crcOn) == cell
  {
  }

  lemma UnreportableSettles(path: Path, cell: Cell, crcOn: bool)
    requires !Reportable(path)
    ensures var c3 := Next(path, Next(path, Next(path, cell, crcOn), crcOn), crcOn);
      Settled(path, c3, crcOn) && AtRest(path, c3, crcOn) && Next(path, c3, crcOn) == c3
  {
    var c1 := Next(path, cell, crcOn);
    var c2 := Next(path, c1, crcOn);
    var c3 := Next(path, c2, crcOn);
    RoundKeepsOutOfSight(path, cell, crcOn);
    RoundKeepsOutOfSight(path, c1, crcOn);
    RoundKeepsOutOfSight(path, c2, crcOn);
    UnseenEnd(path, c1, c2, c3, crcOn);
    NoEntryMeansEntry(path, c3, crcOn);
  }

  lemma UnseenEnd(path: Path, c1: Cell, c2: Cell, c3: Cell, crcOn: bool)
    requires OutOfSight(path, c1) && OutOfSight(path, c2) && OutOfSight(path, c3)
    requires c2 == Next(path, c1, crcOn) && c3 == Next(path, c2, crcOn)
    ensures c3.entry.None? && ServerView(path, c3.server).None?
  {
    if c1.entry.Some? {
      EntryMeansGone(path, c1, crcOn);
      NoEntryMeansEntry(path, c2, crcOn);
    } else {
      NoEntryMeansEntry(path, c1, crcOn);
      if c2.entry.Some? {
        EntryMeansGone(path, c2, crcOn);
      } else {
        NoEntryMeansEntry(path, c2, crcOn);
      }
    }
  }

  lemma QuietCell(path: Path, cell: Cell, crcOn: bool)
    ensures var c1 := Next(path, cell, crcOn);
      var c2 := Next(path, c1, crcOn);
      var c3 := Next(path, c2, crcOn);
      && Settled(path, c3, crcOn) && AtRest(path, c3, crcOn)
      && Next(path, c3, crcOn) == c3
      && (Shareable(path, cell) ==>
            Settled(path, c2, crcOn) && AtRest(path, c2, crcOn) && c3.server == c2.server && c3.client == c2.client)
  {
    if Shareable(path, cell) {
      QuietShareable(path, cell, crcOn);
    } else {
      UnreportableSettles(path, cell, crcOn);
    }
  }

  lemma QuietShareable(path: Path, cell: Cell, crcOn: bool)
    requires Shareable(path, cell)
    ensures var c1 := Next(path, cell, crcOn);
      var c2 := Next(path, c1, crcOn);
      var c3 := Next(path, c2, crcOn);
      && Settled(path, c2, crcOn) && AtRest(path, c2, crcOn)
      && Settled(path, c3, crcOn) && AtRest(path, c3, crcOn)
      && c3.server == c2.server && c3.client == c2.client
      && Next(path, c3, crcOn) == c3
  {
    var c1 := Next(path, cell, crcOn);
    var c2 := Next(path, c1, crcOn);
    var c3 := Next(path, c2, crcOn);
    RoundSettles(path, cell, crcOn);
    SettledComesToRest(path, c1, crcOn);
    RoundSettles(path, c1, crcOn);
    RestKeepsFiles(path, c2, crcOn);
    RoundSettles(path, c2, crcOn);
    RestKeepsFiles(path, c3, crcOn);
  }

  function NextWith(path: Path, crcOn: bool): Cell -> Cell {
    cell => Next(path, cell, crcOn)
  }

  /** The cell after n rounds. */
  function NextN(n: nat, path: Path, cell: Cell, crcOn: bool): Cell {
    Iterate(NextWith(path, crcOn), n, cell)
  }

  /** From the third round on a cell is the same for ever; a shareable one is at rest after the second. */
  lemma CellAfterRounds(path: Path, cell: Cell, crcOn: bool) returns (c2: Cell, c3: Cell)
    ensures Settled(path, c3, crcOn) && AtRest(path, c3, crcOn)
    ensures Shareable(path, cell) ==>
      Settled(path, c2, crcOn) && AtRest(path, c2, crcOn) && c3.server == c2.server && c3.client == c2.client
    ensures forall n: nat :: n >= 2 ==> NextN(n, path, cell, crcOn) == if n == 2 then c2 else c3
  {
    c2 := Next(path, Next(path, cell, crcOn), crcOn);
    c3 := Next(path, c2, crcOn);
    QuietCell(path, cell, crcOn);
    forall n: nat | n >= 2 ensures NextN(n, path, cell, crcOn) == if n == 2 then c2 else c3 {
      CellIs(n, path, cell, c2, c3, crcOn);
    }
  }

  lemma CellIs(n: nat, path: Path, cell: Cell, c2: Cell, c3: Cell, crcOn: bool)
    requires n >= 2
    requires c2 == Next(path, Next(path, cell, crcOn), crcOn) && c3 == Next(path, c2, crcOn)
    requires Next(path, c3, crcOn) == c3
    ensures NextN(n, path, cell, crcOn) == if n == 2 then c2 else c3
  {
    FirstCells(path, cell, crcOn);
    if n >= 3 {
      CellStays(n, path, cell, crcOn);
    }
  }

  lemma FirstCells(path: Path, cell: Cell, crcOn: bool)
    ensures NextN(2, path, cell, crcOn) == Next(path, Next(path, cell, crcOn), crcOn)
    ensures NextN(3, path, cell, crcOn) == Next(path, NextN(2, path, cell, crcOn), crcOn)
  {
    FirstIterates(NextWith(path, crcOn), cell);
  }

  lemma CellStays(n: nat, path: Path, cell: Cell, crcOn: bool)
    requires n >= 3 && Next(path, NextN(3, path, cell, crcOn), crcOn) == NextN(3, path, cell, crcOn)
    ensures NextN(n, path, cell, crcOn) == NextN(3, path, cell, crcOn)
  {
    StaysAfter(NextWith(path, crcOn), 3, n, cell);
  }

  // ---------------------------------------------------------------- the whole world

  function RoundWith(crcOn: bool): World -> World {
    w => Round(w, crcOn)
  }

  /** The world after n rounds. */
  function Repeat(n: nat, w: World, crcOn: bool): World {
    Iterate(RoundWith(crcOn), n, w)
  }

  predicate AllShareable(w: World) {
    forall path :: path in ScanServer(w.server) ==> Reportable(path)
  }

  lemma ShareableAt(w: World, path: Path)
    requires AllShareable(w)
    ensures Shareable(path, CellOf(w, path))
  {
    ScansArePathwise(w.server, w.client, true, path);
  }

  function CellAtPath(path: Path): World -> Cell {
    w => CellOf(w, path)
  }

  lemma RepeatAt(n: nat, w: World, crcOn: bool, path: Path)
    ensures CellOf(Repeat(n, w, crcOn), path) == NextN(n, path, CellOf(w, path), crcOn)
  {
    RoundCommutes(crcOn, path);
    IterateCommutes(RoundWith(crcOn), NextWith(path, crcOn), CellAtPath(path), n, w);
  }

  lemma RoundCommutes(crcOn: bool, path: Path)
    ensures forall w :: CellAtPath(path)(RoundWith(crcOn)(w)) == NextWith(path, crcOn)(CellAtPath(path)(w))
  {
    forall w ensures CellAtPath(path)(RoundWith(crcOn)(w)) == NextWith(path, crcOn)(CellAtPath(path)(w)) {
      RoundAt(w, crcOn, path);
    }
  }

  lemma SameWorld(v: World, w: World)
    requires forall path :: CellOf(v, path) == CellOf(w, path)
    ensures v == w
  {
    SameDisks(v, w);
    forall path ensures Get(v.state, path) == Get(w.state, path) {
      assert CellOf(v, path) == CellOf(w, path);
    }
    SameLookups(v.state, w.state);
  }

  lemma SameDisks(v: World, w: World)
    requires forall path ::
      CellOf(v, path).server == CellOf(w, path).server && CellOf(v, path).client == CellOf(w, path).client
    ensures v.server == w.server && v.client == w.client
  {
    forall path
      ensures Get(v.server, path) == Get(w.server, path)
      ensures Get(v.client, path) == Get(w.client, path)
    {
      assert CellOf(v, path).server == CellOf(w, path).server && CellOf(v, path).client == CellOf(w, path).client;
    }
    SameLookups(v.server, w.server);
    SameLookups(v.client, w.client);
  }

  ghost function RoundActionFor(w: World, crcOn: bool, path: Path): Option<SyncAction> {
    ActionFor(PlanOf(w, ScanServer(w.server), crcOn), path)
  }

  /**
   * Without edits the second round acts only where the first one reported a conflict, met a latent divergence or
   * sent a file out of the client's sight.
   */
  lemma SecondRoundExplained(w: World, crcOn: bool, path: Path)
    requires GoodState(w.state)
    ensures RoundActionFor(Round(w, crcOn), crcOn, path).Some? ==>
      || IsConflict(RoundActionFor(w, crcOn, path))
      || Latent(path, CellOf(w, path), crcOn)
      || SentOutOfSight(path, RoundActionFor(w, crcOn, path))
  {
    RoundAt(w, crcOn, path);
    RoundAt(Round(w, crcOn), crcOn, path);
    SecondActionExplained(path, CellOf(w, path), crcOn);
  }

  lemma StandingAction(w: World, crcOn: bool, path: Path)
    requires Settled(path, CellOf(w, path), crcOn) && AtRest(path, CellOf(w, path), crcOn)
    ensures RoundActionFor(w, crcOn, path).Some? <==> StandingConflict(path, CellOf(w, path), crcOn)
    ensures RoundActionFor(w, crcOn, path).Some? ==> IsConflict(RoundActionFor(w, crcOn, path))
  {
    RoundAt(w, crcOn, path);
    SettledActions(path, CellOf(w, path), crcOn);
  }

  /**
   * After three rounds without edits the plan is exactly the conflicts between two present files that differ;
   * after two, if the server lists nothing out of the client's sight.
   */
  lemma StandingPlan(w: World, crcOn: bool, n: nat, path: Path)
    requires n >= 2
    ensures n >= 3 || AllShareable(w) ==>
      var v := Repeat(n, w, crcOn);
      && (RoundActionFor(v, crcOn, path).Some? <==> StandingConflict(path, CellOf(v, path), crcOn))
      && (RoundActionFor(v, crcOn, path).Some? ==> IsConflict(RoundActionFor(v, crcOn, path)))
  {
    if n >= 3 || AllShareable(w) {
      RepeatAt(n, w, crcOn, path);
      var c2, c3 := CellAfterRounds(path, CellOf(w, path), crcOn);
      if n == 2 {
        ShareableAt(w, path);
      }
      StandingAction(Repeat(n, w, crcOn), crcOn, path);
    }
  }

  /** Without edits nothing changes any more after the third round, whatever the world ... */
  lemma QuiescentFixpoint(w: World, crcOn: bool, m: nat, n: nat)
    requires m >= 3 && n >= 3
    ensures Repeat(n, w, crcOn) == Repeat(m, w, crcOn)
  {
    forall p
      ensures CellOf(Repeat(n, w, crcOn), p) == CellOf(Repeat(m, w, crcOn), p)
    {
      RepeatAt(m, w, crcOn, p);
      RepeatAt(n, w, crcOn, p);
      var c2, c3 := CellAfterRounds(p, CellOf(w, p), crcOn);
    }
    SameWorld(Repeat(n, w, crcOn), Repeat(m, w, crcOn));
  }

  /** ... and no file moves after the second, if the server lists nothing out of the client's sight. */
  lemma FilesAtRest(w: World, crcOn: bool, m: nat, n: nat)
    requires m >= 2 && n >= 2
    ensures (m >= 3 && n >= 3) || AllShareable(w) ==>
      && Repeat(n, w, crcOn).server == Repeat(m, w, crcOn).server
      && Repeat(n, w, crcOn).client == Repeat(m, w, crcOn).client
  {
    if m >= 3 && n >= 3 {
      QuiescentFixpoint(w, crcOn, m, n);
    } else if AllShareable(w) {
      FilesStay(w, crcOn, m, n);
    }
  }

  lemma FilesStay(w: World, crcOn: bool, m: nat, n: nat)
    requires AllShareable(w) && m >= 2 && n >= 2
    ensures Repeat(n, w, crcOn).server == Repeat(m, w, crcOn).server
    ensures Repeat(n, w, crcOn).client == Repeat(m, w, crcOn).client
  {
    var vm, vn := Repeat(m, w, crcOn), Repeat(n, w, crcOn);
    forall p
      ensures CellOf(vn, p).server == CellOf(vm, p).server && CellOf(vn, p).client == CellOf(vm, p).client
    {
      ShareableAt(w, p);
      RepeatAt(m, w, crcOn, p);
      RepeatAt(n, w, crcOn, p);
      var c2, c3 := CellAfterRounds(p, CellOf(w, p), crcOn);
    }
    SameDisks(vn, vm);
  }

  // ---------------------------------------------------------------- paths only the server can list

  /**
   * A file under a path the client cannot report - a directory with an extension, or a reserved file name -
   * is sent down by the first completed round and deleted from the server by the second, with no edit anywhere.
   */
  lemma TwoRoundsDestroy(w: World, crcOn: bool, path: Path)
    requires path in ScanServer(w.server) && path !in w.state
    ensures path in Repeat(2, w, crcOn).server <==> Reportable(path)
  {
    RepeatAt(2, w, crcOn, path);
    ScansArePathwise(w.server, w.client, crcOn, path);
    UnreportableCell(path, CellOf(w, path), crcOn);
  }

  lemma UnreportableCell(path: Path, cell: Cell, crcOn: bool)
    requires ServerView(path, cell.server).Some? && cell.entry == None
    ensures NextN(2, path, cell, crcOn).server.Some? <==> Reportable(path)
  {
    var c1 := Next(path, cell, crcOn);
    FirstCells(path, cell, crcOn);
    FirstRoundKeeps(path, cell, c1, crcOn);
    SecondRoundDecides(path, c1, crcOn);
  }

  lemma FirstRoundKeeps(path: Path, cell: Cell, c1: Cell, crcOn: bool)
    requires ServerView(path, cell.server).Some? && cell.entry == None && c1 == Next(path, cell, crcOn)
    ensures c1.server.Some?
    ensures Reportable(path) ==> Settled(path, c1, crcOn)
    ensures !Reportable(path) ==>
      && c1.server == cell.server && c1.entry.Some?
      && !ServerChanged(c1.entry.value, ServerView(path, c1.server))
      && c1.entry.value.client.Some?
  {
    if Reportable(path) {
      RoundSettles(path, cell, crcOn);
    }
  }

  lemma SecondRoundDecides(path: Path, c1: Cell, crcOn: bool)
    requires c1.server.Some?
    requires Reportable(path) ==> Settled(path, c1, crcOn)
    requires !Reportable(path) ==>
      && c1.entry.Some?
      && !ServerChanged(c1.entry.value, ServerView(path, c1.server))
      && c1.entry.value.client.Some?
    ensures Next(path, c1, crcOn).server.Some? <==> Reportable(path)
  {
    if Reportable(path) && c1.entry.Some? {
      SettledActions(path, c1, crcOn);
    }
  }
}
