/**
 * The two session automata stay in lockstep: every state any interleaving can reach is one of the phases
 * listed here, and the files moved are exactly a prefix of the plan.
 */
module Lockstep {
  import opened Wrappers
  import opened Ordering
  import opened Crc32
  import opened Manifests
  import opened Planner
  import opened Rounds
  import opened Delivery
  import opened Session

  /**
   * The fixed data of one session: both manifests, the order of sending, the plan; both disks and the server's
   * manifest after each number of actions, the conflicts among them, and the state saved at the end.  Proper
   * says what these are.
   */
  datatype Setup = Setup(
    world: World, crcs: Crcs, checks: bool, base: nat,
    manifest: Manifest, items: Manifest, order: seq<Path>, plan: seq<SyncAction>,
    moved: seq<Progress>, counts: seq<nat>, saved: SyncState)

  /** `lag`: the client has not yet read the OK of the upload before. */
  datatype Phase =
    | Fresh | Greeted | Checking | CheckSeen | Checked
    | Introduced(sent: nat) | Expected(sent: nat) | Awaited(sent: nat) | Reading(read: nat, sent: nat)
    | At(next: nat, lag: bool)
    | DownloadAsked(next: nat, lag: bool) | DownloadReady(next: nat) | FileSent(next: nat) | HeaderRead(next: nat)
    | UploadAsked(next: nat, lag: bool) | PutSent(next: nat) | PutRead(next: nat)
    | SimpleAsked(next: nat, lag: bool)
    | Answered(next: nat)
    | Closing(lag: bool) | Over
    | StuckEarly(next: nat) | StuckLate(next: nat) | Rejected(next: nat)

  // ---------------------------------------------------------------- fixed data of a session

  predicate Proper(u: Setup) {
    && Keyed(u.manifest)
    && u.items == ListClient(u.world.client, u.crcs)
    && u.order == SortedKeys(u.items.Keys)
    && u.plan == Plan(u.world.state, u.manifest, u.items)
    && DownloadsHeld(u.plan, u.world, u.crcs.CrcsOn?)
    && |u.moved| == |u.counts| == |u.plan| + 1
    && (forall i :: 0 <= i <= |u.plan| ==> u.moved[i] == PerformAll(u.plan[..i], Start(u.world, u.manifest)))
    && (forall i :: 0 <= i <= |u.plan| ==> u.counts[i] == ConflictCount(u.plan[..i]))
    && u.saved == StateAfter(u.moved[|u.plan|].manifest, Predict(u.items, u.plan))
  }

  /** The server still holds the planned downloads as its manifest shows them; it does if that is a fresh scan. */
  predicate DownloadsHeld(plan: seq<SyncAction>, w: World, crcOn: bool) {
    forall i :: 0 <= i < |plan| && plan[i].Download? ==> Held(plan[i], w, crcOn)
  }

  predicate Workable(w: World, manifest: Manifest, crcs: Crcs) {
    Keyed(manifest) && DownloadsHeld(PlanFor(w, manifest, crcs), w, crcs.CrcsOn?)
  }

  function SetupFor(world: World, manifest: Manifest, crcs: Crcs, checks: bool, base: nat): (u: Setup)
    requires Workable(world, manifest, crcs)
    ensures Proper(u)
  {
    var items := ListClient(world.client, crcs);
    var plan := Plan(world.state, manifest, items);
    var moved := seq(|plan| + 1, i requires 0 <= i <= |plan| => PerformAll(plan[..i], Start(world, manifest)));
    var counts := seq(|plan| + 1, i requires 0 <= i <= |plan| => ConflictCount(plan[..i]));
    Setup(world, crcs, checks, base, manifest, items, SortedKeys(items.Keys), plan, moved, counts,
          StateAfter(moved[|plan|].manifest, Predict(items, plan)))
  }

  function Prefix(u: Setup, n: nat): seq<SyncAction> {
    if n <= |u.plan| then u.plan[..n] else u.plan
  }

  /** Both disks and the server's manifest after the first n actions. */
  function Moved(u: Setup, n: nat): Progress {
    if n < |u.moved| then u.moved[n] else Progress(map[], map[], map[])
  }

  function Conflicts(u: Setup, n: nat): nat {
    if n < |u.counts| then u.counts[n] else 0
  }

  const NO_ITEM := ManifestItem("", Fingerprint(0, 0, false), 0)

  function ActionNo(u: Setup, i: nat): SyncAction {
    if i < |u.plan| then u.plan[i] else Conflict("", None, None)
  }

  function ItemNo(u: Setup, i: nat): ManifestItem {
    match ActionNo(u, i)
    case Download(item) => item
    case Upload(item) => item
    case _ => NO_ITEM
  }

  predicate IsSimple(action: SyncAction) {
    action.DeleteLocal? || action.DeleteRemote? || action.Conflict?
  }

  // ---------------------------------------------------------------- phases

  function NextOf(phase: Phase): nat {
    match phase
    case At(next, _) => next
    case DownloadAsked(next, _) => next
    case DownloadReady(next) => next
    case FileSent(next) => next
    case HeaderRead(next) => next
    case UploadAsked(next, _) => next
    case PutSent(next) => next
    case PutRead(next) => next
    case SimpleAsked(next, _) => next
    case Answered(next) => next
    case StuckEarly(next) => next
    case StuckLate(next) => next
    case Rejected(next) => next
    case _ => 0
  }

  /** The client can take the action, and the side that sends its file holds it as listed. */
  predicate Passes(u: Setup, action: SyncAction) {
    Acceptable(action, u.base) && Held(action, u.world, u.crcs.CrcsOn?)
  }

  predicate AllPass(u: Setup, actions: seq<SyncAction>) {
    forall i :: 0 <= i < |actions| ==> Passes(u, actions[i])
  }

  predicate Valid(u: Setup, phase: Phase) {
    var n := |u.order| + 2;
    match phase
    case Fresh => true
    case Greeted => true
    case Checking => u.checks
    case CheckSeen => u.checks
    case Checked => u.checks
    case Introduced(sent) => !u.checks && sent <= n
    case Expected(sent) => !u.checks && sent <= n
    case Awaited(sent) => u.checks && sent <= n
    case Reading(read, sent) => 1 <= read <= sent <= n && read < n
    case At(next, _) => next <= |u.plan| && AllPass(u, Prefix(u, next))
    case Closing(_) => AllPass(u, u.plan)
    case Over => AllPass(u, u.plan)
    case _ =>
      && NextOf(phase) < |u.plan| && AllPass(u, Prefix(u, NextOf(phase)))
      && Belongs(u, phase, ActionNo(u, NextOf(phase)))
  }

  /** The phase belongs to an action of this kind. */
  predicate Belongs(u: Setup, phase: Phase, action: SyncAction) {
    match phase
    case DownloadAsked(_, _) => action.Download?
    case DownloadReady(_) => action.Download? && Fits(action, u.base)
    case FileSent(_) => action.Download? && Fits(action, u.base)
    case HeaderRead(_) => action.Download? && Fits(action, u.base)
    case UploadAsked(_, _) => action.Upload?
    case PutSent(_) => action.Upload? && Acceptable(action, u.base)
    case PutRead(_) => action.Upload? && Acceptable(action, u.base)
    case SimpleAsked(_, _) => IsSimple(action)
    case Answered(_) => !action.Upload? && Passes(u, action)
    case StuckEarly(_) => !Fits(action, u.base)
    case StuckLate(_) => OnTempName(action) && Fits(action, u.base)
    case Rejected(_) => action.Upload? && Acceptable(action, u.base) && !Held(action, u.world, u.crcs.CrcsOn?)
    case _ => true
  }

  // ---------------------------------------------------------------- the state of a phase

  function ClientAt(u: Setup, pc: ClientPc, disk: Disk): Client {
    Client(pc, disk, u.items, u.order, u.crcs.CrcsOn?, u.checks, u.base)
  }

  function Line(u: Setup, i: nat): Message {
    if i == 0 then ManifestStart
    else if i <= |u.order| && u.order[i - 1] in u.items then ItemLine(u.items[u.order[i - 1]])
    else ManifestEnd
  }

  /** The client's lines number `from` up to but not including `to`. */
  function Script(u: Setup, from: nat, to: nat): Channel {
    if from <= to then seq(to - from, i requires 0 <= i < to - from => Line(u, from + i)) else []
  }

  function SendingPc(u: Setup, sent: nat): ClientPc {
    if sent == |u.order| + 2 then Looping else Sending(sent)
  }

  function ReceivedAfter(u: Setup, read: nat): Manifest {
    map path | path in u.items && 1 <= read <= |u.order| + 1 && path in u.order[..read - 1] :: u.items[path]
  }

  function Before(u: Setup, serverPc: ServerPc, received: Manifest, clientPc: ClientPc,
                  toServer: Channel, toClient: Channel): System {
    System(
      Server(serverPc, u.world.server, u.world.state, u.manifest, received, [], 0, 0),
      ClientAt(u, clientPc, u.world.client), toServer, toClient)
  }

  /** `serverDone` and `clientDone`: how many actions have taken effect on each side's files. */
  function During(u: Setup, serverPc: ServerPc, next: nat, serverDone: nat, conflicts: nat, clientPc: ClientPc,
                  clientDone: nat, toServer: Channel, toClient: Channel): System {
    System(
      Server(serverPc, Moved(u, serverDone).server, u.world.state, Moved(u, serverDone).manifest,
             u.items, u.plan, next, conflicts),
      ClientAt(u, clientPc, Moved(u, clientDone).client), toServer, toClient)
  }

  function ReadyPc(lag: bool): ClientPc { if lag then AwaitUploadOk else Looping }

  function Pending(lag: bool): Channel { if lag then [Ok] else [] }

  function Asking(action: SyncAction): Message {
    match action
    case Download(item) => ActDownload(item.path, item.fingerprint.size, item.fingerprint.crc32, item.dosTime)
    case Upload(item) => ActUpload(item.path, item.fingerprint.size, item.fingerprint.crc32, item.fingerprint.crcKnown)
    case DeleteLocal(path) => ActDeleteLocal(path)
    case DeleteRemote(path) => ActDeleteRemote(path)
    case Conflict(path, _, _) => ActConflict(path)
  }

  function WaitPc(action: SyncAction): ServerPc {
    match action
    case Download(_) => AwaitReady
    case Upload(_) => AwaitPut
    case _ => AwaitOk
  }

  /** A remote deletion takes effect before the client hears of it. */
  function AskedDone(action: SyncAction, next: nat): nat {
    if action.DeleteRemote? then next + 1 else next
  }

  function ContentOn(disk: Disk, path: Path): Bytes {
    if path in disk then disk[path].content else []
  }

  function HeaderOf(item: ManifestItem): Message {
    FileHeader(item.fingerprint.size, item.fingerprint.crc32, item.dosTime)
  }

  function PutOf(item: ManifestItem, crcOn: bool): Message {
    Put(item.path, item.fingerprint.size, item.fingerprint.crc32, item.dosTime, crcOn)
  }

  function AtState(u: Setup, next: nat, lag: bool): System {
    During(u, Acting, next, next, Conflicts(u, next), ReadyPc(lag), next, [], Pending(lag))
  }

  function AskedState(u: Setup, next: nat, lag: bool): System {
    var action := ActionNo(u, next);
    During(u, WaitPc(action), next, AskedDone(action, next), Conflicts(u, next + 1), ReadyPc(lag), next,
      [], Pending(lag) + [Asking(action)])
  }

  /** While a download is under way the client's temporary file is gone. */
  function Fetching(u: Setup, serverPc: ServerPc, next: nat, clientPc: ClientPc, toServer: Channel, toClient: Channel): System {
    var s := During(u, serverPc, next, next, Conflicts(u, next + 1), clientPc, next, toServer, toClient);
    s.(client := s.client.(disk := Cleared(s.client.disk, ItemNo(u, next).path)))
  }

  function ReadyState(u: Setup, next: nat): System {
    var item := ItemNo(u, next);
    Fetching(u, AwaitReady, next,
      AwaitFile(item.path, item.fingerprint.size, item.fingerprint.crc32, item.dosTime), [Ready], [])
  }

  function FileSentState(u: Setup, next: nat): System {
    var item := ItemNo(u, next);
    Fetching(u, AwaitFileOk, next,
      AwaitFile(item.path, item.fingerprint.size, item.fingerprint.crc32, item.dosTime), [],
      [HeaderOf(item), Data(ContentOn(u.world.server, item.path))])
  }

  function HeaderReadState(u: Setup, next: nat): System {
    var item := ItemNo(u, next);
    Fetching(u, AwaitFileOk, next,
      AwaitFileData(item.path, item.fingerprint.size, item.fingerprint.crc32, item.dosTime), [],
      [Data(ContentOn(u.world.server, item.path))])
  }

  function PutState(u: Setup, next: nat): System {
    var item := ItemNo(u, next);
    During(u, AwaitPut, next, next, Conflicts(u, next + 1), AwaitUploadOk, next,
      [PutOf(item, u.crcs.CrcsOn?), Data(ContentOn(u.world.client, item.path))], [])
  }

  function PutReadState(u: Setup, next: nat): System {
    var item := ItemNo(u, next);
    During(u, AwaitData(item.fingerprint.size, item.fingerprint.crc32, item.dosTime, u.crcs.CrcsOn?), next, next,
      Conflicts(u, next + 1), AwaitUploadOk, next, [Data(ContentOn(u.world.client, item.path))], [])
  }

  function AnsweredState(u: Setup, next: nat): System {
    During(u, if ActionNo(u, next).Download? then AwaitFileOk else AwaitOk, next, next + 1, Conflicts(u, next + 1),
      Looping, next + 1, [Ok], [])
  }

  function FinalState(u: Setup, clientPc: ClientPc, toClient: Channel): System {
    var n := |u.plan|;
    var s := During(u, Finished, n, n, Conflicts(u, n), clientPc, n, [], toClient);
    s.(server := s.server.(state := u.saved))
  }

  function DoneOf(u: Setup): Message {
    Message.Done(|u.plan|, Conflicts(u, |u.plan|))
  }

  function StuckEarlyState(u: Setup, next: nat): System {
    var action := ActionNo(u, next);
    During(u, WaitPc(action), next, AskedDone(action, next), Conflicts(u, next + 1), ClientFailed, next, [], [])
  }

  function StuckLateState(u: Setup, next: nat): System {
    Fetching(u, AwaitFileOk, next, ClientFailed, [], [])
  }

  /** The server has read an upload whose CRC is not the one reported. */
  function RejectedState(u: Setup, next: nat): System {
    During(u, ServerFailed, next, next, Conflicts(u, next + 1), AwaitUploadOk, next, [], [])
  }

  function StateOf(u: Setup, phase: Phase): System {
    match phase
    case Fresh => Before(u, Greeting, map[], AwaitServerHello, [], [])
    case Greeted => Before(u, AwaitHello, map[], AwaitServerHello, [], [Hello])
    case Checking => Before(u, AwaitHello, map[], AwaitUpdate, [Hello, UpdateCheck], [])
    case CheckSeen => Before(u, AwaitFirst, map[], AwaitUpdate, [UpdateCheck], [])
    case Checked => Before(u, AwaitManifest, map[], AwaitUpdate, [], [Update])
    case Introduced(sent) => Before(u, AwaitHello, map[], SendingPc(u, sent), [Hello] + Script(u, 0, sent), [])
    case Expected(sent) => Before(u, AwaitFirst, map[], SendingPc(u, sent), Script(u, 0, sent), [])
    case Awaited(sent) => Before(u, AwaitManifest, map[], SendingPc(u, sent), Script(u, 0, sent), [])
    case Reading(read, sent) =>
      Before(u, ReadingItems, ReceivedAfter(u, read), SendingPc(u, sent), Script(u, read, sent), [])
    case At(next, lag) => AtState(u, next, lag)
    case DownloadAsked(next, lag) => AskedState(u, next, lag)
    case UploadAsked(next, lag) => AskedState(u, next, lag)
    case SimpleAsked(next, lag) => AskedState(u, next, lag)
    case DownloadReady(next) => ReadyState(u, next)
    case FileSent(next) => FileSentState(u, next)
    case HeaderRead(next) => HeaderReadState(u, next)
    case PutSent(next) => PutState(u, next)
    case PutRead(next) => PutReadState(u, next)
    case Answered(next) => AnsweredState(u, next)
    case Closing(lag) => FinalState(u, ReadyPc(lag), Pending(lag) + [DoneOf(u)])
    case Over => FinalState(u, Closed(|u.plan|, Conflicts(u, |u.plan|)), [])
    case StuckEarly(next) => StuckEarlyState(u, next)
    case StuckLate(next) => StuckLateState(u, next)
    case Rejected(next) => RejectedState(u, next)
  }

  // ---------------------------------------------------------------- progress

  /** Every step lowers this, so sessions are finite. */
  function Rank(u: Setup, phase: Phase): int {
    var n := |u.order| + 2;
    var base := 10 * |u.plan| + 20 + 2 * n;
    var left := 10 * (|u.plan| - NextOf(phase));
    match phase
    case Fresh => base + 9
    case Greeted => base + 8
    case Checking => base + 6
    case CheckSeen => base + 5
    case Checked => base + 4
    case Introduced(sent) => base + 3 - sent
    case Expected(sent) => base + 2 - sent
    case Awaited(sent) => base + 2 - sent
    case Reading(read, sent) => base - sent - read
    case At(_, lag) => left + 10 + if lag then 1 else 0
    case DownloadAsked(_, lag) => left + 8 + if lag then 1 else 0
    case UploadAsked(_, lag) => left + 8 + if lag then 1 else 0
    case SimpleAsked(_, lag) => left + 8 + if lag then 1 else 0
    case DownloadReady(_) => left + 7
    case FileSent(_) => left + 6
    case HeaderRead(_) => left + 5
    case PutSent(_) => left + 7
    case PutRead(_) => left + 6
    case Answered(_) => left + 4
    case Closing(lag) => 8 + if lag then 1 else 0
    case _ => 0
  }

  // ---------------------------------------------------------------- where a step leads

  function ServerNext(u: Setup, phase: Phase): Phase {
    match phase
    case Fresh => Greeted
    case Checking => CheckSeen
    case CheckSeen => Checked
    case Introduced(sent) => Expected(sent)
    case Expected(sent) => Reading(1, sent)
    case Awaited(sent) => Reading(1, sent)
    case Reading(read, sent) => if read <= |u.order| then Reading(read + 1, sent) else At(0, false)
    case At(i, lag) =>
      if i >= |u.plan| then Closing(lag)
      else if u.plan[i].Download? then DownloadAsked(i, lag)
      else if u.plan[i].Upload? then UploadAsked(i, lag)
      else SimpleAsked(i, lag)
    case DownloadReady(i) => FileSent(i)
    case PutSent(i) => PutRead(i)
    case PutRead(i) => if Held(ActionNo(u, i), u.world, u.crcs.CrcsOn?) then At(i + 1, true) else Rejected(i)
    case Answered(i) => At(i + 1, false)
    case _ => phase
  }

  function Judged(action: SyncAction, base: nat, accepted: Phase, i: nat): Phase {
    if Fits(action, base) then accepted else StuckEarly(i)
  }

  function ClientNext(u: Setup, phase: Phase): Phase {
    match phase
    case Greeted => if u.checks then Checking else Introduced(0)
    case Checked => Awaited(0)
    case Introduced(sent) => Introduced(sent + 1)
    case Expected(sent) => Expected(sent + 1)
    case Awaited(sent) => Awaited(sent + 1)
    case Reading(read, sent) => Reading(read, sent + 1)
    case At(i, _) => At(i, false)
    case DownloadAsked(i, lag) => if lag then DownloadAsked(i, false) else Judged(ActionNo(u, i), u.base, DownloadReady(i), i)
    case FileSent(i) => HeaderRead(i)
    case HeaderRead(i) => if IsTempName(ItemNo(u, i).path) then StuckLate(i) else Answered(i)
    case UploadAsked(i, lag) => if lag then UploadAsked(i, false) else Judged(ActionNo(u, i), u.base, PutSent(i), i)
    case SimpleAsked(i, lag) => if lag then SimpleAsked(i, false) else Judged(ActionNo(u, i), u.base, Answered(i), i)
    case Closing(lag) => if lag then Closing(false) else Over
    case _ => phase
  }

  predicate ServerTurn(phase: Phase) {
    match phase
    case Fresh => true
    case Checking => true
    case CheckSeen => true
    case Introduced(_) => true
    case Expected(sent) => sent > 0
    case Awaited(sent) => sent > 0
    case Reading(read, sent) => read < sent
    case At(_, _) => true
    case DownloadReady(_) => true
    case PutSent(_) => true
    case PutRead(_) => true
    case Answered(_) => true
    case _ => false
  }

  predicate ClientTurn(u: Setup, phase: Phase) {
    match phase
    case Greeted => true
    case Checked => true
    case Introduced(sent) => sent < |u.order| + 2
    case Expected(sent) => sent < |u.order| + 2
    case Awaited(sent) => sent < |u.order| + 2
    case Reading(_, sent) => sent < |u.order| + 2
    case At(_, lag) => lag
    case DownloadAsked(_, _) => true
    case FileSent(_) => true
    case HeaderRead(_) => true
    case UploadAsked(_, _) => true
    case SimpleAsked(_, _) => true
    case Closing(_) => true
    case _ => false
  }

  lemma RankNonNegative(u: Setup, phase: Phase)
    requires Valid(u, phase)
    ensures Rank(u, phase) >= 0
  {
  }
}
