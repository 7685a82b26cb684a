/**
 * Every step of either automaton leads from phase to phase; so every interleaving does.
 */
module LockstepProof {
  import opened Wrappers
  import opened Ordering
  import opened Crc32
  import opened Names
  import opened Manifests
  import opened Planner
  import opened Rounds
  import opened Delivery
  import opened Session
  import opened Lockstep

  // ---------------------------------------------------------------- facts about the fixed data

  lemma OrderFacts(u: Setup, i: nat)
    requires Proper(u) && i < |u.order|
    ensures u.order[i] in u.items
    ensures u.items[u.order[i]].path == u.order[i]
    ensures u.items[u.order[i]].fingerprint.size <= MAX_FILE_SIZE
    ensures NormalizeProtocolPath(u.order[i]) == Success(u.order[i])
  {
    SortedKeysExact(u.items.Keys);
    assert u.order[i] in u.order;
    ReportableIsListed(u.order[i]);
    NormalizeKeepsListed(u.order[i]);
  }

  lemma OrderIsKnown(u: Setup)
    requires Proper(u)
    ensures forall j :: 0 <= j < |u.order| ==> u.order[j] in u.items
    ensures forall p :: p in u.items ==> p in u.order
  {
    SortedKeysExact(u.items.Keys);
    forall j | 0 <= j < |u.order| ensures u.order[j] in u.items { OrderFacts(u, j); }
  }

  lemma MovedStep(u: Setup, i: nat)
    requires Proper(u) && i < |u.plan|
    ensures StepGood(u, i)
  {
    assert u.plan[..i + 1][..i] == u.plan[..i];
  }

  lemma AcceptedStep(u: Setup, i: nat)
    requires i < |u.plan| && AllPass(u, Prefix(u, i)) && Passes(u, u.plan[i])
    ensures AllPass(u, Prefix(u, i + 1))
  {
    assert Prefix(u, i + 1) == Prefix(u, i) + [u.plan[i]];
  }

  lemma WholePlan(u: Setup)
    ensures Prefix(u, |u.plan|) == u.plan
  {
  }

  lemma ActionFacts(u: Setup, i: nat)
    requires Proper(u) && i < |u.plan|
    ensures SlotOf(Moved(u, i), ActionPath(u.plan[i])) == SlotOf(Start(u.world, u.manifest), ActionPath(u.plan[i]))
    ensures PlanAt(ActionPath(u.plan[i]), u.world.state, u.manifest, u.items) == Some(u.plan[i])
  {
    ListKeyed(u.world.client, u.crcs);
    PlanExact(u.world.state, u.manifest, u.items);
    PrefixLeavesPath(u.plan, i, Start(u.world, u.manifest));
    assert Moved(u, i) == PerformAll(u.plan[..i], Start(u.world, u.manifest));
  }

  /** A planned download finds its file, as its manifest item shows it, on the server's disk. */
  lemma DownloadFacts(u: Setup, i: nat)
    requires Proper(u) && i < |u.plan| && u.plan[i].Download?
    ensures var item := u.plan[i].item;
      && item.path in Moved(u, i).server && ContentMatches(u.world.server, item, u.crcs.CrcsOn?)
      && Moved(u, i).server[item.path] == u.world.server[item.path]
  {
    var path := ActionPath(u.plan[i]);
    ActionFacts(u, i);
    assert Held(u.plan[i], u.world, u.crcs.CrcsOn?);
    assert Get(Moved(u, i).server, path) == Get(u.world.server, path);
  }

  /** A planned upload finds its file, unchanged, on the client's disk and in its list. */
  lemma UploadFacts(u: Setup, i: nat)
    requires Proper(u) && i < |u.plan| && u.plan[i].Upload?
    ensures var item := u.plan[i].item;
      && item.path in u.world.client && item.path in Moved(u, i).client
      && Moved(u, i).client[item.path] == u.world.client[item.path]
      && item == ListedItem(item.path, u.world.client[item.path], u.crcs)
      && item.path in u.items && u.items[item.path] == item
      && NormalizeProtocolPath(item.path) == Success(item.path)
  {
    var path := ActionPath(u.plan[i]);
    ActionFacts(u, i);
    PlannedItems(path, Get(u.world.state, path), Get(u.manifest, path), Get(u.items, path));
    ListIsPathwise(u.world.client, u.crcs, path);
    assert Get(Moved(u, i).client, path) == Get(u.world.client, path);
    ReportableIsListed(path);
    NormalizeKeepsListed(path);
  }

  // ---------------------------------------------------------------- what the steps rely on

  predicate LineGood(u: Setup, j: nat)
    requires j < |u.order|
  {
    var path := u.order[j];
    && path in u.items && u.items[path].path == path
    && u.items[path].fingerprint.size <= MAX_FILE_SIZE
    && NormalizeProtocolPath(path) == Success(path)
  }

  predicate ActionGood(u: Setup, i: nat)
    requires i < |u.plan|
  {
    match u.plan[i]
    case Download(item) =>
      && item.path in Moved(u, i).server && ContentMatches(u.world.server, item, u.crcs.CrcsOn?)
      && Moved(u, i).server[item.path] == u.world.server[item.path]
    case Upload(item) =>
      && item.path in u.world.client && item.path in Moved(u, i).client
      && Moved(u, i).client[item.path] == u.world.client[item.path]
      && item == ListedItem(item.path, u.world.client[item.path], u.crcs)
      && item.path in u.items && u.items[item.path] == item
      && NormalizeProtocolPath(item.path) == Success(item.path)
    case _ => true
  }

  /** One more action performed, one more conflict counted if it is one. */
  predicate StepGood(u: Setup, i: nat)
    requires i < |u.plan|
  {
    && Moved(u, i + 1) == Perform(u.plan[i], Moved(u, i))
    && Conflicts(u, i + 1) == Conflicts(u, i) + if u.plan[i].Conflict? then 1 else 0
  }

  predicate Sound(u: Setup) {
    && (forall j :: 0 <= j < |u.order| ==> LineGood(u, j))
    && (forall p :: p in u.items ==> p in u.order)
    && (forall i :: 0 <= i < |u.plan| ==> ActionGood(u, i))
    && (forall i :: 0 <= i < |u.plan| ==> StepGood(u, i))
    && Moved(u, 0) == Start(u.world, u.manifest)
    && Conflicts(u, 0) == 0
  }

  predicate PlanGood(u: Setup) {
    u.plan == Plan(u.world.state, u.manifest, u.items)
  }

  predicate SavedGood(u: Setup) {
    u.saved == StateAfter(Moved(u, |u.plan|).manifest, Predict(u.items, u.plan))
  }

  lemma ActionIsGood(u: Setup, i: nat)
    requires Proper(u) && i < |u.plan|
    ensures ActionGood(u, i)
  {
    if u.plan[i].Download? {
      DownloadFacts(u, i);
    } else if u.plan[i].Upload? {
      UploadFacts(u, i);
    }
  }

  lemma StartsAtRest(u: Setup)
    requires Proper(u)
    ensures Moved(u, 0) == Start(u.world, u.manifest) && Conflicts(u, 0) == 0
  {
    assert u.plan[..0] == [];
  }

  lemma ProperIsSound(u: Setup)
    requires Proper(u)
    ensures Sound(u)
  {
    forall j | 0 <= j < |u.order| ensures LineGood(u, j) { OrderFacts(u, j); }
    OrderIsKnown(u);
    forall i | 0 <= i < |u.plan| ensures ActionGood(u, i) { ActionIsGood(u, i); }
    forall i | 0 <= i < |u.plan| ensures StepGood(u, i) { MovedStep(u, i); }
    StartsAtRest(u);
  }

  // ---------------------------------------------------------------- reading the client's list

  lemma ScriptFront(u: Setup, from: nat, to: nat)
    requires from < to
    ensures Script(u, from, to) != []
    ensures Script(u, from, to)[0] == Line(u, from)
    ensures Script(u, from, to)[1..] == Script(u, from + 1, to)
  {
  }

  lemma ScriptBack(u: Setup, from: nat, to: nat)
    requires from <= to
    ensures Script(u, from, to + 1) == Script(u, from, to) + [Line(u, to)]
  {
  }

  lemma ReceivedOne(u: Setup, read: nat)
    requires 1 <= read <= |u.order| && LineGood(u, read - 1)
    ensures Line(u, read) == ItemLine(u.items[u.order[read - 1]])
    ensures ReceivedAfter(u, read + 1) == ReceivedAfter(u, read)[u.order[read - 1] := u.items[u.order[read - 1]]]
  {
    assert u.order[..read] == u.order[..read - 1] + [u.order[read - 1]];
  }

  lemma ReceivedAll(u: Setup)
    requires Sound(u)
    ensures ReceivedAfter(u, |u.order| + 1) == u.items
  {
    assert u.order[..|u.order|] == u.order;
  }

  lemma ReadItem(u: Setup, read: nat, s: System)
    requires 1 <= read <= |u.order| && LineGood(u, read - 1) && s.server.received == ReceivedAfter(u, read)
    ensures ServerReadsItem(s, u.items[u.order[read - 1]]) ==
      s.(server := s.server.(received := ReceivedAfter(u, read + 1)))
  {
    ReceivedOne(u, read);
    var item := u.items[u.order[read - 1]];
    assert item.(path := item.path) == item;
  }

  lemma ReadLine(u: Setup, read: nat, pc: ClientPc, rest: Channel)
    requires 1 <= read <= |u.order| && LineGood(u, read - 1)
    ensures ServerRead(Before(u, ReadingItems, ReceivedAfter(u, read), pc, rest, []), Line(u, read)) ==
      Before(u, ReadingItems, ReceivedAfter(u, read + 1), pc, rest, [])
  {
    ReceivedOne(u, read);
    ReadItem(u, read, Before(u, ReadingItems, ReceivedAfter(u, read), pc, rest, []));
  }

  lemma ContinueReading(u: Setup, read: nat, sent: nat)
    requires Sound(u) && 1 <= read < sent && read <= |u.order|
    ensures var s := Before(u, ReadingItems, ReceivedAfter(u, read), SendingPc(u, sent), Script(u, read, sent), []);
      ServerEnabled(s) &&
      ServerStep(s) ==
        Before(u, ReadingItems, ReceivedAfter(u, read + 1), SendingPc(u, sent), Script(u, read + 1, sent), [])
  {
    ScriptFront(u, read, sent);
    assert LineGood(u, read - 1);
    ReadLine(u, read, SendingPc(u, sent), Script(u, read + 1, sent));
  }

  /** The list is complete: the server plans. */
  lemma ReadEnd(u: Setup, s: System)
    requires Sound(u) && PlanGood(u) && s == Before(u, ReadingItems, u.items, Looping, [ManifestEnd], [])
    ensures ServerStep(s) == AtState(u, 0, false)
  {
    assert s.toServer[1..] == [];
  }

  lemma StopReading(u: Setup)
    requires Sound(u) && PlanGood(u)
    ensures var n := |u.order| + 2;
      var s := Before(u, ReadingItems, ReceivedAfter(u, n - 1), SendingPc(u, n), Script(u, n - 1, n), []);
      ServerEnabled(s) && ServerStep(s) == AtState(u, 0, false)
  {
    var n := |u.order| + 2;
    ScriptFront(u, n - 1, n);
    assert Script(u, n - 1, n) == [Line(u, n - 1)] + Script(u, n, n);
    assert Script(u, n, n) == [];
    assert Line(u, n - 1) == ManifestEnd;
    ReceivedAll(u);
    ReadEnd(u, Before(u, ReadingItems, u.items, Looping, [ManifestEnd], []));
  }

  lemma StartReading(u: Setup, pc: ServerPc, sent: nat)
    requires sent > 0 && (pc == AwaitFirst || pc == AwaitManifest)
    ensures var s := Before(u, pc, map[], SendingPc(u, sent), Script(u, 0, sent), []);
      ServerEnabled(s) &&
      ServerStep(s) == Before(u, ReadingItems, ReceivedAfter(u, 1), SendingPc(u, sent), Script(u, 1, sent), [])
  {
    ScriptFront(u, 0, sent);
    assert ReceivedAfter(u, 1) == map[];
  }

  predicate ServerFollows(u: Setup, phase: Phase) {
    var s := StateOf(u, phase);
    ServerEnabled(s) && ServerStep(s) == StateOf(u, ServerNext(u, phase))
  }

  lemma ServerGreets(u: Setup, phase: Phase)
    requires phase == Fresh || phase == Checking || phase == CheckSeen
    ensures ServerFollows(u, phase)
  {
  }

  lemma ServerMeets(u: Setup, sent: nat)
    ensures ServerFollows(u, Introduced(sent))
  {
    assert ([Hello] + Script(u, 0, sent))[1..] == Script(u, 0, sent);
  }

  lemma ServerStartsReading(u: Setup, phase: Phase, sent: nat)
    requires sent > 0 && (phase == Expected(sent) || phase == Awaited(sent))
    ensures ServerFollows(u, phase)
  {
    StartReading(u, if phase.Expected? then AwaitFirst else AwaitManifest, sent);
  }

  lemma ServerReads(u: Setup, read: nat, sent: nat)
    requires Sound(u) && 1 <= read < sent && read <= |u.order|
    ensures ServerFollows(u, Reading(read, sent))
  {
    ContinueReading(u, read, sent);
  }

  lemma ServerPlans(u: Setup, read: nat, sent: nat)
    requires Sound(u) && PlanGood(u) && read == |u.order| + 1 && sent == |u.order| + 2
    ensures ServerFollows(u, Reading(read, sent))
  {
    StopReading(u);
  }

  // ---------------------------------------------------------------- the server in the action loop

  lemma Ask(u: Setup, next: nat, lag: bool)
    requires next < |u.plan| && StepGood(u, next)
    ensures ServerStep(AtState(u, next, lag)) == AskedState(u, next, lag)
  {
  }

  lemma Finish(u: Setup, lag: bool)
    requires SavedGood(u)
    ensures ServerStep(AtState(u, |u.plan|, lag)) == FinalState(u, ReadyPc(lag), Pending(lag) + [DoneOf(u)])
  {
  }

  lemma ServeFile(u: Setup, next: nat)
    requires next < |u.plan| && u.plan[next].Download? && ActionGood(u, next) && StepGood(u, next)
    ensures ServerStep(ReadyState(u, next)) == FileSentState(u, next)
  {
    var s := ReadyState(u, next);
    assert s.toServer[1..] == [];
    assert ServerRead(s.(toServer := []), Ready) == ServerSendsFile(s.(toServer := []), u.plan[next].item);
  }

  lemma TakePut(u: Setup, next: nat)
    requires next < |u.plan| && u.plan[next].Upload? && ActionGood(u, next) && StepGood(u, next)
    ensures ServerStep(PutState(u, next)) == PutReadState(u, next)
  {
    var s, item := PutState(u, next), u.plan[next].item;
    var rest: Channel := [Data(ContentOn(u.world.client, item.path))];
    assert s.toServer[1..] == rest;
    assert ServerRead(s.(toServer := rest), PutOf(item, u.crcs.CrcsOn?)) ==
      ServerReadsPut(s.(toServer := rest), PutOf(item, u.crcs.CrcsOn?), item);
  }

  lemma UploadMoved(u: Setup, next: nat)
    requires next < |u.plan| && u.plan[next].Upload? && ActionGood(u, next) && StepGood(u, next)
    ensures
      var item := u.plan[next].item;
      var stored := File(ContentOn(u.world.client, item.path), item.dosTime);
      && Moved(u, next + 1).server == Moved(u, next).server[item.path := stored]
      && Moved(u, next + 1).manifest == Moved(u, next).manifest[item.path := ServerItemOf(item.path, stored)]
      && Moved(u, next + 1).client == Moved(u, next).client
  {
  }

  lemma UploadChecks(u: Setup, next: nat)
    requires next < |u.plan| && u.plan[next].Upload? && ActionGood(u, next) && StepGood(u, next)
    ensures
      var item, content, crcOn := u.plan[next].item, ContentOn(u.world.client, u.plan[next].item.path), u.crcs.CrcsOn?;
      && |content| == item.fingerprint.size
      && (Held(u.plan[next], u.world, crcOn) <==> (crcOn ==> ServerCrc(content) == item.fingerprint.crc32))
  {
  }

  lemma TakeData(u: Setup, next: nat)
    requires next < |u.plan| && u.plan[next].Upload? && ActionGood(u, next) && StepGood(u, next)
    ensures ServerStep(PutReadState(u, next)) ==
      if Held(u.plan[next], u.world, u.crcs.CrcsOn?) then AtState(u, next + 1, true) else RejectedState(u, next)
  {
    var s, item := PutReadState(u, next), u.plan[next].item;
    var stored := File(ContentOn(u.world.client, item.path), item.dosTime);
    UploadMoved(u, next);
    UploadChecks(u, next);
    assert s.toServer[1..] == [];
    assert ServerRead(s.(toServer := []), Data(stored.content)) ==
      if Held(u.plan[next], u.world, u.crcs.CrcsOn?) then ServerStores(s.(toServer := []), item.path, stored)
      else ServerFails(s.(toServer := []));
  }

  lemma TakeOk(u: Setup, next: nat)
    ensures ServerStep(AnsweredState(u, next)) == AtState(u, next + 1, false)
  {
    var s := AnsweredState(u, next);
    assert s.toServer[1..] == [];
  }

  lemma ServerStartsAction(u: Setup, i: nat, lag: bool)
    requires i < |u.plan| && StepGood(u, i)
    ensures ServerFollows(u, At(i, lag))
  {
    Ask(u, i, lag);
  }

  lemma ServerFinishes(u: Setup, lag: bool)
    requires SavedGood(u)
    ensures ServerFollows(u, At(|u.plan|, lag))
  {
    Finish(u, lag);
  }

  lemma ServerServesFile(u: Setup, i: nat)
    requires i < |u.plan| && u.plan[i].Download? && ActionGood(u, i) && StepGood(u, i)
    ensures ServerFollows(u, DownloadReady(i))
  {
    ServeFile(u, i);
  }

  lemma PutStates(u: Setup, i: nat)
    requires i < |u.plan| && u.plan[i].Upload?
    ensures StateOf(u, PutSent(i)) == PutState(u, i) && ServerEnabled(PutState(u, i))
    ensures StateOf(u, PutRead(i)) == PutReadState(u, i) && ServerEnabled(PutReadState(u, i))
    ensures StateOf(u, ServerNext(u, PutRead(i))) ==
      if Held(u.plan[i], u.world, u.crcs.CrcsOn?) then AtState(u, i + 1, true) else RejectedState(u, i)
  {
  }

  lemma ServerTakesPut(u: Setup, i: nat)
    requires i < |u.plan| && u.plan[i].Upload? && ActionGood(u, i) && StepGood(u, i)
    ensures ServerFollows(u, PutSent(i))
  {
    PutStates(u, i);
    TakePut(u, i);
  }

  lemma ServerTakesData(u: Setup, i: nat)
    requires i < |u.plan| && u.plan[i].Upload? && ActionGood(u, i) && StepGood(u, i)
    ensures ServerFollows(u, PutRead(i))
  {
    PutStates(u, i);
    TakeData(u, i);
  }

  lemma ServerTakesOk(u: Setup, i: nat)
    ensures ServerFollows(u, Answered(i))
  {
    TakeOk(u, i);
  }

  predicate InActionLoop(phase: Phase) {
    phase.At? || phase.DownloadReady? || phase.PutSent? || phase.PutRead? || phase.Answered?
  }

  lemma ServerListens(u: Setup, phase: Phase)
    requires Sound(u) && PlanGood(u) && Valid(u, phase) && ServerTurn(phase)
    requires !InActionLoop(phase)
    ensures ServerFollows(u, phase)
  {
    match phase {
      case Introduced(sent) => ServerMeets(u, sent);
      case Expected(sent) => ServerStartsReading(u, phase, sent);
      case Awaited(sent) => ServerStartsReading(u, phase, sent);
      case Reading(read, sent) => if read <= |u.order| { ServerReads(u, read, sent); } else { ServerPlans(u, read, sent); }
      case _ => ServerGreets(u, phase);
    }
  }

  lemma ServerActs(u: Setup, phase: Phase)
    requires Sound(u) && SavedGood(u) && Valid(u, phase)
    requires InActionLoop(phase)
    ensures ServerFollows(u, phase)
  {
    match phase {
      case At(i, lag) => if i == |u.plan| { ServerFinishes(u, lag); } else { assert StepGood(u, i); ServerStartsAction(u, i, lag); }
      case DownloadReady(i) => assert ActionGood(u, i) && StepGood(u, i); ServerServesFile(u, i);
      case PutSent(i) => assert ActionGood(u, i) && StepGood(u, i); ServerTakesPut(u, i);
      case PutRead(i) => assert ActionGood(u, i) && StepGood(u, i); ServerTakesData(u, i);
      case Answered(i) => ServerTakesOk(u, i);
    }
  }

  /** When it is the server's turn, its step leads to the next phase. */
  lemma ServerMoves(u: Setup, phase: Phase)
    requires Sound(u) && PlanGood(u) && SavedGood(u) && Valid(u, phase) && ServerTurn(phase)
    ensures ServerFollows(u, phase)
  {
    if InActionLoop(phase) {
      ServerActs(u, phase);
    } else {
      ServerListens(u, phase);
    }
  }

  // ---------------------------------------------------------------- the client

  lemma ClientKnowsOrder(u: Setup, pc: ClientPc, disk: Disk)
    requires Sound(u)
    ensures OrderKnown(ClientAt(u, pc, disk))
  {
    forall j | 0 <= j < |u.order| ensures u.order[j] in u.items { assert LineGood(u, j); }
  }

  lemma LineIsListing(u: Setup, c: Client, i: nat)
    requires Sound(u) && i <= |u.order| + 1 && c.order == u.order && c.items == u.items && OrderKnown(c)
    ensures Session.Listing(c, i) == Line(u, i)
  {
  }

  lemma SendLine(u: Setup, pc: ServerPc, received: Manifest, sent: nat, queue: Channel)
    requires Sound(u) && sent < |u.order| + 2
    ensures OrderKnown(ClientAt(u, Sending(sent), u.world.client))
    ensures ClientStep(Before(u, pc, received, SendingPc(u, sent), queue, [])) ==
      Before(u, pc, received, SendingPc(u, sent + 1), queue + [Line(u, sent)], [])
  {
    ClientKnowsOrder(u, Sending(sent), u.world.client);
    LineIsListing(u, ClientAt(u, Sending(sent), u.world.client), sent);
  }

  predicate ClientFollows(u: Setup, phase: Phase) {
    var s := StateOf(u, phase);
    ClientEnabled(s) && OrderKnown(s.client) && ClientStep(s) == StateOf(u, ClientNext(u, phase))
  }

  lemma ClientSendsFirst(u: Setup, phase: Phase)
    requires Sound(u) && (phase.Introduced? || phase.Expected? || phase.Awaited?) && phase.sent < |u.order| + 2
    ensures ClientFollows(u, phase)
  {
    var sent := phase.sent;
    ScriptBack(u, 0, sent);
    match phase {
      case Introduced(_) =>
        SendLine(u, AwaitHello, map[], sent, [Hello] + Script(u, 0, sent));
        assert [Hello] + Script(u, 0, sent + 1) == ([Hello] + Script(u, 0, sent)) + [Line(u, sent)];
      case Expected(_) => SendLine(u, AwaitFirst, map[], sent, Script(u, 0, sent));
      case Awaited(_) => SendLine(u, AwaitManifest, map[], sent, Script(u, 0, sent));
    }
  }

  lemma ClientSendsOn(u: Setup, read: nat, sent: nat)
    requires Sound(u) && read <= sent < |u.order| + 2
    ensures ClientFollows(u, Reading(read, sent))
  {
    ScriptBack(u, read, sent);
    SendLine(u, ReadingItems, ReceivedAfter(u, read), sent, Script(u, read, sent));
  }

  lemma ClientGreets(u: Setup, phase: Phase)
    requires Sound(u) && (phase == Greeted || phase == Checked)
    ensures ClientFollows(u, phase)
  {
    ClientKnowsOrder(u, StateOf(u, phase).client.pc, u.world.client);
    assert Script(u, 0, 0) == [];
  }

  // One action, once the pending OK has been read: the client's reply to each request.

  lemma ReadPendingOk(s: System, rest: Channel)
    requires s.client.pc == AwaitUploadOk && s.toClient == [Ok] + rest && OrderKnown(s.client)
    ensures ClientStep(s) == s.(client := s.client.(pc := Looping), toClient := rest)
  {
    assert s.toClient[1..] == rest;
    assert s.toServer + [] == s.toServer;
  }

  lemma AcceptDownload(u: Setup, i: nat)
    requires i < |u.plan| && u.plan[i].Download? && OrderKnown(AskedState(u, i, false).client)
    ensures ClientStep(AskedState(u, i, false)) ==
      if Fits(u.plan[i], u.base) then ReadyState(u, i) else StuckEarlyState(u, i)
  {
    var s := AskedState(u, i, false);
    assert s.toClient == [Asking(u.plan[i])];
    assert s.toClient[1..] == [];
    assert ClientStep(s) == ClientObeys(s.(toClient := []), Asking(u.plan[i]));
  }

  lemma ReadHeader(u: Setup, i: nat)
    requires OrderKnown(FileSentState(u, i).client)
    ensures ClientStep(FileSentState(u, i)) == HeaderReadState(u, i)
  {
    var s := FileSentState(u, i);
    assert s.toClient[1..] == [Data(ContentOn(u.world.server, ItemNo(u, i).path))];
    assert s.toServer + [] == s.toServer;
  }

  lemma DownloadMoved(u: Setup, i: nat)
    requires i < |u.plan| && u.plan[i].Download? && ActionGood(u, i) && StepGood(u, i)
    ensures
      var item := u.plan[i].item;
      && Moved(u, i + 1).server == Moved(u, i).server && Moved(u, i + 1).manifest == Moved(u, i).manifest
      && Moved(u, i + 1).client ==
           Moved(u, i).client[item.path := File(ContentOn(u.world.server, item.path), item.dosTime)]
  {
  }

  lemma DownloadChecks(u: Setup, i: nat)
    requires i < |u.plan| && u.plan[i].Download? && ActionGood(u, i) && StepGood(u, i)
    ensures
      var item, content := u.plan[i].item, ContentOn(u.world.server, u.plan[i].item.path);
      |content| == item.fingerprint.size && (u.crcs.CrcsOn? ==> ClientCrc(content) == item.fingerprint.crc32)
  {
  }

  lemma StoreDownload(u: Setup, i: nat)
    requires i < |u.plan| && u.plan[i].Download? && ActionGood(u, i) && StepGood(u, i) && OrderKnown(HeaderReadState(u, i).client)
    ensures ClientStep(HeaderReadState(u, i)) ==
      if IsTempName(u.plan[i].item.path) then StuckLateState(u, i) else AnsweredState(u, i)
  {
    var s, item := HeaderReadState(u, i), u.plan[i].item;
    var content := ContentOn(u.world.server, item.path);
    DownloadMoved(u, i);
    DownloadChecks(u, i);
    assert s.toClient[1..] == [];
    assert ClientStep(s) ==
      ClientStores(s.(toClient := []), item.path, File(content, item.dosTime), item.fingerprint.crc32);
  }

  lemma AnswerUpload(u: Setup, i: nat)
    requires i < |u.plan| && u.plan[i].Upload? && ActionGood(u, i) && StepGood(u, i) && OrderKnown(AskedState(u, i, false).client)
    ensures ClientStep(AskedState(u, i, false)) ==
      if Fits(u.plan[i], u.base) then PutState(u, i) else StuckEarlyState(u, i)
  {
    var s := AskedState(u, i, false);
    assert s.toClient == [Asking(u.plan[i])];
    assert s.toClient[1..] == [];
    assert ClientStep(s) == ClientObeys(s.(toClient := []), Asking(u.plan[i]));
  }

  lemma AnswerSimple(u: Setup, i: nat)
    requires i < |u.plan| && IsSimple(u.plan[i]) && StepGood(u, i) && OrderKnown(AskedState(u, i, false).client)
    ensures ClientStep(AskedState(u, i, false)) ==
      if Fits(u.plan[i], u.base) then AnsweredState(u, i) else StuckEarlyState(u, i)
  {
    var s := AskedState(u, i, false);
    assert s.toClient == [Asking(u.plan[i])];
    assert s.toClient[1..] == [];
    assert ClientStep(s) == ClientObeys(s.(toClient := []), Asking(u.plan[i]));
  }

  lemma ReadDone(u: Setup)
    requires OrderKnown(FinalState(u, Looping, [DoneOf(u)]).client)
    ensures ClientStep(FinalState(u, Looping, [DoneOf(u)])) ==
      FinalState(u, Closed(|u.plan|, Conflicts(u, |u.plan|)), [])
  {
    var s := FinalState(u, Looping, [DoneOf(u)]);
    assert s.toClient[1..] == [];
    assert s.toServer + [] == s.toServer;
  }

  predicate Lagging(phase: Phase) {
    match phase
    case At(_, lag) => lag
    case DownloadAsked(_, lag) => lag
    case UploadAsked(_, lag) => lag
    case SimpleAsked(_, lag) => lag
    case Closing(lag) => lag
    case _ => false
  }

  lemma PendingSplits(rest: Channel)
    ensures Pending(true) + rest == [Ok] + rest && Pending(false) + rest == rest
  {
  }

  lemma CatchUpState(u: Setup, phase: Phase) returns (rest: Channel)
    requires Lagging(phase)
    ensures StateOf(u, phase).client.pc == AwaitUploadOk && StateOf(u, phase).toClient == [Ok] + rest
    ensures StateOf(u, ClientNext(u, phase)) ==
      StateOf(u, phase).(client := StateOf(u, phase).client.(pc := Looping), toClient := rest)
  {
    rest := match phase
      case At(_, _) => []
      case Closing(_) => [DoneOf(u)]
      case _ => [Asking(ActionNo(u, NextOf(phase)))];
    PendingSplits(rest);
  }

  lemma ClientCatchesUp(u: Setup, phase: Phase)
    requires Sound(u) && Lagging(phase)
    ensures ClientFollows(u, phase)
  {
    var s := StateOf(u, phase);
    ClientKnowsOrder(u, s.client.pc, s.client.disk);
    var rest := CatchUpState(u, phase);
    ReadPendingOk(s, rest);
  }

  lemma ClientTakesDownload(u: Setup, i: nat)
    requires Sound(u) && i < |u.plan| && u.plan[i].Download?
    ensures ClientFollows(u, DownloadAsked(i, false))
  {
    ClientKnowsOrder(u, Looping, AskedState(u, i, false).client.disk);
    AcceptDownload(u, i);
  }

  lemma ClientTakesHeader(u: Setup, i: nat)
    requires Sound(u)
    ensures ClientFollows(u, FileSent(i))
  {
    ClientKnowsOrder(u, FileSentState(u, i).client.pc, FileSentState(u, i).client.disk);
    ReadHeader(u, i);
  }

  lemma FileStates(u: Setup, i: nat)
    requires i < |u.plan| && u.plan[i].Download?
    ensures StateOf(u, HeaderRead(i)) == HeaderReadState(u, i) && ClientEnabled(HeaderReadState(u, i))
    ensures StateOf(u, ClientNext(u, HeaderRead(i))) ==
      if IsTempName(u.plan[i].item.path) then StuckLateState(u, i) else AnsweredState(u, i)
  {
  }

  lemma ClientTakesFile(u: Setup, i: nat)
    requires Sound(u) && i < |u.plan| && u.plan[i].Download? && ActionGood(u, i) && StepGood(u, i)
    ensures ClientFollows(u, HeaderRead(i))
  {
    ClientKnowsOrder(u, HeaderReadState(u, i).client.pc, HeaderReadState(u, i).client.disk);
    FileStates(u, i);
    StoreDownload(u, i);
  }

  lemma UploadStates(u: Setup, i: nat)
    requires i < |u.plan| && u.plan[i].Upload?
    ensures StateOf(u, UploadAsked(i, false)) == AskedState(u, i, false)
    ensures StateOf(u, ClientNext(u, UploadAsked(i, false))) ==
      if Fits(u.plan[i], u.base) then PutState(u, i) else StuckEarlyState(u, i)
  {
  }

  lemma ClientPuts(u: Setup, i: nat)
    requires Sound(u) && i < |u.plan| && u.plan[i].Upload? && ActionGood(u, i) && StepGood(u, i)
    ensures ClientFollows(u, UploadAsked(i, false))
  {
    ClientKnowsOrder(u, Looping, AskedState(u, i, false).client.disk);
    UploadStates(u, i);
    AnswerUpload(u, i);
  }

  lemma ClientObeysSimple(u: Setup, i: nat)
    requires Sound(u) && i < |u.plan| && IsSimple(u.plan[i]) && StepGood(u, i)
    ensures ClientFollows(u, SimpleAsked(i, false))
  {
    ClientKnowsOrder(u, Looping, AskedState(u, i, false).client.disk);
    AnswerSimple(u, i);
  }

  lemma ClientCloses(u: Setup)
    requires Sound(u)
    ensures ClientFollows(u, Closing(false))
  {
    ClientKnowsOrder(u, Looping, FinalState(u, Looping, [DoneOf(u)]).client.disk);
    PendingSplits([DoneOf(u)]);
    ReadDone(u);
  }

  lemma ClientActs(u: Setup, phase: Phase)
    requires Sound(u) && Valid(u, phase) && !Lagging(phase)
    requires phase.DownloadAsked? || phase.FileSent? || phase.HeaderRead? || phase.UploadAsked? || phase.SimpleAsked?
      || phase.Closing?
    ensures ClientFollows(u, phase)
  {
    match phase {
      case DownloadAsked(i, _) => ClientTakesDownload(u, i);
      case FileSent(i) => ClientTakesHeader(u, i);
      case HeaderRead(i) => assert ActionGood(u, i) && StepGood(u, i); ClientTakesFile(u, i);
      case UploadAsked(i, _) => assert ActionGood(u, i) && StepGood(u, i); ClientPuts(u, i);
      case SimpleAsked(i, _) => assert StepGood(u, i); ClientObeysSimple(u, i);
      case Closing(_) => ClientCloses(u);
    }
  }

  /** When it is the client's turn, its step leads to the next phase. */
  lemma ClientMoves(u: Setup, phase: Phase)
    requires Sound(u) && Valid(u, phase) && ClientTurn(u, phase)
    ensures ClientFollows(u, phase)
  {
    if Lagging(phase) {
      ClientCatchesUp(u, phase);
    } else if phase.Greeted? || phase.Checked? {
      ClientGreets(u, phase);
    } else if phase.Introduced? || phase.Expected? || phase.Awaited? {
      ClientSendsFirst(u, phase);
    } else if phase.Reading? {
      ClientSendsOn(u, phase.read, phase.sent);
    } else {
      ClientActs(u, phase);
    }
  }

  // ---------------------------------------------------------------- phases only move forward

  lemma ServerTurns(u: Setup, phase: Phase)
    requires Valid(u, phase)
    ensures ServerEnabled(StateOf(u, phase)) ==> ServerTurn(phase)
  {
  }

  lemma ClientTurns(u: Setup, phase: Phase)
    requires Valid(u, phase)
    ensures ClientEnabled(StateOf(u, phase)) ==> ClientTurn(u, phase)
  {
  }

  lemma ServerAdvances(u: Setup, phase: Phase)
    requires Valid(u, phase) && ServerTurn(phase)
    ensures Valid(u, ServerNext(u, phase)) && Rank(u, ServerNext(u, phase)) < Rank(u, phase)
  {
    if phase.Answered? || (phase.PutRead? && Held(u.plan[phase.next], u.world, u.crcs.CrcsOn?)) {
      AcceptedStep(u, phase.next);
    } else if phase.At? {
      WholePlan(u);
    } else if phase.Reading? {
      assert Prefix(u, 0) == [];
    }
  }

  lemma ClientAdvances(u: Setup, phase: Phase)
    requires Sound(u) && Valid(u, phase) && ClientTurn(u, phase)
    ensures Valid(u, ClientNext(u, phase)) && Rank(u, ClientNext(u, phase)) < Rank(u, phase)
  {
    if phase.HeaderRead? {
      assert ActionGood(u, phase.next);
    }
  }
}
