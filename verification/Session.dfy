/**
 * The session protocol as two automata over two FIFO channels: handle_sync_client (server/src/main.rs)
 * against proto_sync_directory (client/proto.c).  One step is one read or one uninterrupted burst of
 * writes of one side; steps of the two sides interleave arbitrarily.
 */
module Session {
  import opened Wrappers
  import opened Ordering
  import opened Crc32
  import opened Names
  import opened Manifests
  import opened Planner
  import opened Rounds
  import opened Delivery

  datatype Message =
    | Hello | UpdateCheck | Update
    | ManifestStart | ItemLine(item: ManifestItem) | ManifestEnd
    | ActDownload(path: Path, size: nat, crc: Word, dos: u32)
    | ActUpload(path: Path, size: nat, crc: Word, crcKnown: bool)
    | ActDeleteLocal(path: Path)
    | ActDeleteRemote(path: Path)
    | ActConflict(path: Path)
    | Ready
    | FileHeader(size: nat, crc: Word, dos: u32)
    | Put(path: Path, size: nat, crc: Word, dos: u32, crcKnown: bool)
    | Data(bytes: Bytes)
    | Ok
    | Done(actions: nat, conflicts: nat)

  type Channel = seq<Message>

  // ---------------------------------------------------------------- the two machines

  datatype ServerPc =
    | Greeting | AwaitHello | AwaitFirst | AwaitManifest | ReadingItems
    | Acting | AwaitReady | AwaitFileOk | AwaitPut | AwaitData(size: nat, crc: Word, dos: u32, crcKnown: bool) | AwaitOk
    | Finished | ServerFailed

  datatype Server = Server(
    pc: ServerPc, disk: Disk, state: SyncState, manifest: Manifest,
    received: Manifest, plan: seq<SyncAction>, next: nat, conflicts: nat)

  datatype ClientPc =
    | AwaitServerHello | AwaitUpdate | Sending(sent: nat) | Looping
    | AwaitFile(path: Path, size: nat, crc: Word, dos: u32)
    | AwaitFileData(path: Path, size: nat, crc: Word, dos: u32)
    | AwaitUploadOk
    | Closed(actions: nat, conflicts: nat) | ClientFailed

  /**
   * `order` holds the scanned paths as sorted for sending; `checks`: the server's version supports UPDATECHECK;
   * `base`: the length of the root directory with its separator.
   */
  datatype Client = Client(
    pc: ClientPc, disk: Disk, items: Manifest, order: seq<Path>, crcOn: bool, checks: bool, base: nat)

  datatype System = System(server: Server, client: Client, toServer: Channel, toClient: Channel)

  // ---------------------------------------------------------------- server steps

  predicate ServerEnabled(s: System) {
    match s.server.pc
    case Greeting => true
    case Acting => true
    case Finished => false
    case ServerFailed => false
    case _ => s.toServer != []
  }

  function Reply(s: System, server: Server, messages: Channel): System {
    s.(server := server, toClient := s.toClient + messages)
  }

  function ServerStep(s: System): System
    requires ServerEnabled(s)
  {
    match s.server.pc
    case Greeting => Reply(s, s.server.(pc := AwaitHello), [Hello])
    case Acting => ServerAct(s)
    case _ =>
      var message := s.toServer[0];
      ServerRead(s.(toServer := s.toServer[1..]), message)
  }

  function ServerFails(s: System): System {
    s.(server := s.server.(pc := ServerFailed))
  }

  /** Starts the next action, or finishes: saves the state and says DONE. */
  function ServerAct(s: System): System {
    var v := s.server;
    if v.next >= |v.plan| then
      var state := StateAfter(v.manifest, Predict(v.received, v.plan));
      Reply(s, v.(pc := Finished, state := state), [Message.Done(|v.plan|, v.conflicts)])
    else
      match v.plan[v.next]
      case Download(item) =>
        Reply(s, v.(pc := AwaitReady),
          [ActDownload(item.path, item.fingerprint.size, item.fingerprint.crc32, item.dosTime)])
      case Upload(item) =>
        Reply(s, v.(pc := AwaitPut),
          [ActUpload(item.path, item.fingerprint.size, item.fingerprint.crc32, item.fingerprint.crcKnown)])
      case DeleteLocal(path) => Reply(s, v.(pc := AwaitOk), [ActDeleteLocal(path)])
      case DeleteRemote(path) =>
        Reply(s, v.(pc := AwaitOk, disk := v.disk - {path}, manifest := v.manifest - {path}), [ActDeleteRemote(path)])
      case Conflict(path, _, _) =>
        Reply(s, v.(pc := AwaitOk, conflicts := v.conflicts + 1), [ActConflict(path)])
  }

  function ServerRead(s: System, message: Message): System {
    var v := s.server;
    match v.pc
    case AwaitHello =>
      if message.Hello? then s.(server := v.(pc := AwaitFirst)) else ServerFails(s)
    case AwaitFirst =>
      if message.UpdateCheck? then Reply(s, v.(pc := AwaitManifest), [Update])
      else if message.ManifestStart? then s.(server := v.(pc := ReadingItems))
      else ServerFails(s)
    case AwaitManifest =>
      if message.ManifestStart? then s.(server := v.(pc := ReadingItems)) else ServerFails(s)
    case ReadingItems =>
      if message.ManifestEnd? then
        s.(server := v.(pc := Acting, plan := Plan(v.state, v.manifest, v.received)))
      else if message.ItemLine? then ServerReadsItem(s, message.item)
      else ServerFails(s)
    case AwaitReady =>
      if message.Ready? && v.next < |v.plan| && v.plan[v.next].Download? then ServerSendsFile(s, v.plan[v.next].item)
      else ServerFails(s)
    case AwaitPut =>
      if message.Put? && v.next < |v.plan| && v.plan[v.next].Upload? then ServerReadsPut(s, message, v.plan[v.next].item)
      else ServerFails(s)
    case AwaitData(size, crc, dos, crcKnown) =>
      if message.Data? && |message.bytes| == size && v.next < |v.plan| && v.plan[v.next].Upload?
         && (crcKnown ==> ServerCrc(message.bytes) == crc)
      then ServerStores(s, v.plan[v.next].item.path, File(message.bytes, dos))
      else ServerFails(s)
    case AwaitFileOk => ServerReadsOk(s, message)
    case AwaitOk => ServerReadsOk(s, message)
    case _ => ServerFails(s)
  }

  function ServerReadsOk(s: System, message: Message): System {
    if message.Ok? then s.(server := s.server.(pc := Acting, next := s.server.next + 1)) else ServerFails(s)
  }

  function ServerReadsItem(s: System, item: ManifestItem): System {
    match NormalizeProtocolPath(item.path)
    case Failure(_) => ServerFails(s)
    case Success(path) =>
      if item.fingerprint.size > MAX_FILE_SIZE then s
      else s.(server := s.server.(received := s.server.received[path := item.(path := path)]))
  }

  function ServerSendsFile(s: System, item: ManifestItem): System {
    if item.path in s.server.disk then
      Reply(s, s.server.(pc := AwaitFileOk),
        [FileHeader(item.fingerprint.size, item.fingerprint.crc32, item.dosTime), Data(s.server.disk[item.path].content)])
    else ServerFails(s)
  }

  function ServerReadsPut(s: System, put: Message, requested: ManifestItem): System
    requires put.Put?
  {
    if NormalizeProtocolPath(put.path) == Success(requested.path)
       && put.size == requested.fingerprint.size
       && put.crcKnown == requested.fingerprint.crcKnown
       && (put.crcKnown ==> put.crc == requested.fingerprint.crc32)
    then s.(server := s.server.(pc := AwaitData(put.size, put.crc, put.dos, put.crcKnown)))
    else ServerFails(s)
  }

  function ServerStores(s: System, path: Path, stored: File): System {
    var v := s.server;
    Reply(s, v.(pc := Acting, next := v.next + 1, disk := v.disk[path := stored],
                manifest := v.manifest[path := ServerItemOf(path, stored)]), [Ok])
  }

  // ---------------------------------------------------------------- client steps

  predicate ClientEnabled(s: System) {
    match s.client.pc
    case Sending(_) => true
    case Closed(_, _) => false
    case ClientFailed => false
    case _ => s.toClient != []
  }

  function Send(s: System, pc: ClientPc, messages: Channel): System {
    s.(client := s.client.(pc := pc), toServer := s.toServer + messages)
  }

  function ClientFails(s: System): System {
    s.(client := s.client.(pc := ClientFailed))
  }

  function Listing(c: Client, i: nat): Message
    requires i <= |c.order| + 1
    requires forall j :: 0 <= j < |c.order| ==> c.order[j] in c.items
  {
    if i == 0 then ManifestStart
    else if i <= |c.order| then ItemLine(c.items[c.order[i - 1]])
    else ManifestEnd
  }

  predicate OrderKnown(c: Client) {
    forall j :: 0 <= j < |c.order| ==> c.order[j] in c.items
  }

  function ClientStep(s: System): System
    requires ClientEnabled(s) && OrderKnown(s.client)
  {
    match s.client.pc
    case Sending(sent) =>
      if sent > |s.client.order| + 1 then ClientFails(s)
      else Send(s, if sent == |s.client.order| + 1 then Looping else Sending(sent + 1), [Listing(s.client, sent)])
    case _ =>
      var message := s.toClient[0];
      ClientRead(s.(toClient := s.toClient[1..]), message)
  }

  function ClientRead(s: System, message: Message): System {
    match s.client.pc
    case AwaitServerHello =>
      if !message.Hello? then ClientFails(s)
      else if s.client.checks then Send(s, AwaitUpdate, [Hello, UpdateCheck])
      else Send(s, Sending(0), [Hello])
    case AwaitUpdate =>
      if message.Update? then Send(s, Sending(0), []) else ClientFails(s)
    case Looping => ClientObeys(s, message)
    case AwaitFile(path, size, crc, dos) =>
      if message.FileHeader? then Send(s, AwaitFileData(path, size, crc, dos), []) else ClientFails(s)
    case AwaitFileData(path, size, crc, dos) =>
      if message.Data? && |message.bytes| == size then ClientStores(s, path, File(message.bytes, dos), crc)
      else ClientFails(s)
    case AwaitUploadOk =>
      if message.Ok? then Send(s, Looping, []) else ClientFails(s)
    case _ => ClientFails(s)
  }

  function ClientObeys(s: System, message: Message): System {
    match message
    case Done(actions, conflicts) => Send(s, Closed(actions, conflicts), [])
    case ActDownload(path, size, crc, dos) =>
      if DownloadFits(path, s.client.base) then
        var t := Send(s, AwaitFile(path, size, crc, dos), [Ready]);
        t.(client := t.client.(disk := Cleared(t.client.disk, path)))
      else ClientFails(s)
    case ActUpload(path, _, _, _) =>
      if PathFits(path) && path in s.client.items && path in s.client.disk then
        var item := s.client.items[path];
        Send(s, AwaitUploadOk,
          [Put(item.path, item.fingerprint.size, item.fingerprint.crc32, item.dosTime, s.client.crcOn),
           Data(s.client.disk[path].content)])
      else ClientFails(s)
    case ActDeleteLocal(path) =>
      if DeleteFits(path, s.client.base) then
        var t := Send(s, Looping, [Ok]);
        t.(client := t.client.(disk := t.client.disk - {path}))
      else ClientFails(s)
    case ActDeleteRemote(path) => if PathFits(path) then Send(s, Looping, [Ok]) else ClientFails(s)
    case ActConflict(path) => if PathFits(path) then Send(s, Looping, [Ok]) else ClientFails(s)
    case _ => ClientFails(s)
  }

  /**
   * The content has gone to the temporary file and, with CRCs on, is checked there; then the target is deleted
   * and the temporary file renamed.  If the target itself bears the temporary name, that deletes the only copy.
   */
  function ClientStores(s: System, path: Path, file: File, crc: Word): System {
    if s.client.crcOn && ClientCrc(file.content) != crc then ClientFails(s)
    else if IsTempName(path) then ClientFails(s)
    else
      var t := Send(s, Looping, [Ok]);
      t.(client := t.client.(disk := t.client.disk[path := file]))
  }

  // ---------------------------------------------------------------- what each side accepts

  /** The PUT repeats what the action asked for. */
  predicate PutMatches(put: Message, requested: ManifestItem) {
    && put.Put? && NormalizeProtocolPath(put.path) == Success(requested.path)
    && put.size == requested.fingerprint.size && put.crcKnown == requested.fingerprint.crcKnown
    && (put.crcKnown ==> put.crc == requested.fingerprint.crc32)
  }

  /** The message the server can go on with; everything else ends the session. */
  predicate ServerTakes(v: Server, message: Message) {
    match v.pc
    case AwaitHello => message.Hello?
    case AwaitFirst => message.UpdateCheck? || message.ManifestStart?
    case AwaitManifest => message.ManifestStart?
    case ReadingItems =>
      message.ManifestEnd? || (message.ItemLine? && NormalizeProtocolPath(message.item.path).Success?)
    case AwaitReady =>
      message.Ready? && v.next < |v.plan| && v.plan[v.next].Download? && v.plan[v.next].item.path in v.disk
    case AwaitPut => v.next < |v.plan| && v.plan[v.next].Upload? && PutMatches(message, v.plan[v.next].item)
    case AwaitData(size, crc, _, known) =>
      && message.Data? && |message.bytes| == size && v.next < |v.plan| && v.plan[v.next].Upload?
      && (known ==> ServerCrc(message.bytes) == crc)
    case AwaitFileOk => message.Ok?
    case AwaitOk => message.Ok?
    case _ => false
  }

  lemma ServerTakesExactly(s: System, message: Message)
    requires !s.server.pc.ServerFailed?
    ensures ServerRead(s, message).server.pc.ServerFailed? <==> !ServerTakes(s.server, message)
    ensures !ServerTakes(s.server, message) ==> ServerRead(s, message) == s.(server := s.server.(pc := ServerFailed))
  {
    if s.server.pc.ReadingItems? && message.ItemLine? {
      ItemIsListed(s, message.item);
    }
  }

  /** An item is listed under its normalised path, unless it is larger than 2 GiB; then it is passed over. */
  lemma ItemIsListed(s: System, item: ManifestItem)
    ensures match NormalizeProtocolPath(item.path)
      case Failure(_) => ServerReadsItem(s, item).server.pc.ServerFailed?
      case Success(path) =>
        var t := ServerReadsItem(s, item);
        && t.server.pc == s.server.pc
        && (item.fingerprint.size > 0x8000_0000 ==> t == s)
        && (item.fingerprint.size <= 0x8000_0000 ==>
              t.server.received == s.server.received[path := ManifestItem(path, item.fingerprint, item.dosTime)])
  {
  }

  /** The orders the client can take, as far as its buffers and its list go. */
  predicate ClientTakesOrder(c: Client, message: Message) {
    match message
    case Done(_, _) => true
    case ActDownload(path, _, _, _) => DownloadFits(path, c.base)
    case ActUpload(path, _, _, _) => PathFits(path) && path in c.items && path in c.disk
    case ActDeleteLocal(path) => DeleteFits(path, c.base)
    case ActDeleteRemote(path) => PathFits(path)
    case ActConflict(path) => PathFits(path)
    case _ => false
  }

  predicate ClientTakes(c: Client, message: Message) {
    match c.pc
    case AwaitServerHello => message.Hello?
    case AwaitUpdate => message.Update?
    case Looping => ClientTakesOrder(c, message)
    case AwaitFile(_, _, _, _) => message.FileHeader?
    case AwaitFileData(path, size, crc, _) =>
      && message.Data? && |message.bytes| == size && !IsTempName(path)
      && (c.crcOn ==> ClientCrc(message.bytes) == crc)
    case AwaitUploadOk => message.Ok?
    case _ => false
  }

  lemma ClientTakesExactly(s: System, message: Message)
    requires !s.client.pc.ClientFailed?
    ensures ClientRead(s, message).client.pc.ClientFailed? <==> !ClientTakes(s.client, message)
    ensures !ClientTakes(s.client, message) ==> ClientRead(s, message) == s.(client := s.client.(pc := ClientFailed))
  {
  }

  // ---------------------------------------------------------------- runs

  datatype Side = ServerSide | ClientSide

  predicate Enabled(s: System, side: Side) {
    if side.ServerSide? then ServerEnabled(s) else ClientEnabled(s) && OrderKnown(s.client)
  }

  /** One scheduled step; a side that cannot move leaves the system as it is. */
  function Step(s: System, side: Side): System {
    if !Enabled(s, side) then s
    else if side.ServerSide? then ServerStep(s)
    else ClientStep(s)
  }

  function Exec(schedule: seq<Side>, s: System): System {
    if schedule == [] then s
    else Step(Exec(schedule[..|schedule| - 1], s), schedule[|schedule| - 1])
  }

  /** The steps of the schedule that moved something. */
  function StepsTaken(schedule: seq<Side>, s: System): nat {
    if schedule == [] then 0
    else
      var before, side := schedule[..|schedule| - 1], schedule[|schedule| - 1];
      StepsTaken(before, s) + if Enabled(Exec(before, s), side) then 1 else 0
  }

  predicate NobodyCanMove(s: System) {
    !Enabled(s, ServerSide) && !Enabled(s, ClientSide)
  }

  function Initial(w: World, manifest: Manifest, crcs: Crcs, checks: bool, base: nat): System {
    var items := ListClient(w.client, crcs);
    System(
      Server(Greeting, w.server, w.state, manifest, map[], [], 0, 0),
      Client(AwaitServerHello, w.client, items, SortedKeys(items.Keys), crcs.CrcsOn?, checks, base),
      [], [])
  }
}
