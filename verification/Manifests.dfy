/**
 * Fingerprints, manifests, the saved state and the comparisons between them
 * (server/src/main.rs), and what each side's scan makes of its files.
 */
module Manifests {
  import opened Wrappers
  import opened Ordering
  import opened Crc32
  import opened Names

  /** Larger files are ignored by both scans. */
  const MAX_FILE_SIZE: nat := 2 * 1024 * 1024 * 1024

  datatype Fingerprint = Fingerprint(size: nat, crc32: Word, crcKnown: bool)

  datatype ManifestItem = ManifestItem(path: Path, fingerprint: Fingerprint, dosTime: u32)

  datatype SyncStateEntry = SyncStateEntry(
    server: Option<Fingerprint>,
    client: Option<Fingerprint>,
    serverDosTime: Option<u32>,
    clientDosTime: Option<u32>)

  type Manifest = map<Path, ManifestItem>
  type SyncState = map<Path, SyncStateEntry>

  // ---------------------------------------------------------------- comparisons

  predicate SameRevision(left: Fingerprint, leftDos: u32, right: Fingerprint, rightDos: u32) {
    if left.size != right.size then false
    else if left.crcKnown && right.crcKnown then left.crc32 == right.crc32
    else leftDos == rightDos
  }

  predicate SameItem(left: ManifestItem, right: ManifestItem) {
    SameRevision(left.fingerprint, left.dosTime, right.fingerprint, right.dosTime)
  }

  predicate SameLiveItems(left: Option<ManifestItem>, right: Option<ManifestItem>) {
    match (left, right)
    case (Some(l), Some(r)) => SameItem(l, r)
    case (None, None) => true
    case _ => false
  }

  function DosOr0(dos: Option<u32>): u32 {
    if dos.Some? then dos.value else 0
  }

  predicate SameStateItem(currentFp: Option<Fingerprint>, currentDos: Option<u32>,
                          previousFp: Option<Fingerprint>, previousDos: Option<u32>) {
    match (currentFp, previousFp)
    case (None, None) => true
    case (Some(current), Some(previous)) =>
      SameRevision(current, DosOr0(currentDos), previous, DosOr0(previousDos))
    case _ => false
  }

  predicate SameWithoutCrcBootstrap(left: ManifestItem, right: ManifestItem) {
    && left.fingerprint.size == right.fingerprint.size
    && (!left.fingerprint.crcKnown || !right.fingerprint.crcKnown)
  }

  predicate SameWithoutCrcBootstrapOption(left: Option<ManifestItem>, right: Option<ManifestItem>) {
    left.Some? && right.Some? && SameWithoutCrcBootstrap(left.value, right.value)
  }

  function FingerprintOf(item: Option<ManifestItem>): Option<Fingerprint> {
    if item.Some? then Some(item.value.fingerprint) else None
  }

  function DosTimeOf(item: Option<ManifestItem>): Option<u32> {
    if item.Some? then Some(item.value.dosTime) else None
  }

  /** The item still is the revision the saved state recorded for its side. */
  predicate Unchanged(item: Option<ManifestItem>, recorded: Option<Fingerprint>, recordedDos: Option<u32>) {
    SameStateItem(FingerprintOf(item), DosTimeOf(item), recorded, recordedDos)
  }

  /** Mixing known and unknown CRCs breaks transitivity, so no argument may chain two comparisons blindly. */
  lemma SameRevisionNotTransitive()
    ensures exists a: Fingerprint, b: Fingerprint, c: Fingerprint, d: u32 ::
      SameRevision(a, d, b, d) && SameRevision(b, d, c, d) && !SameRevision(a, d, c, d)
  {
    var a := Fingerprint(1, 7, true);
    var b := Fingerprint(1, 0, false);
    var c := Fingerprint(1, 8, true);
    var d: u32 := 5;
    assert SameRevision(a, d, b, d) && SameRevision(b, d, c, d) && !SameRevision(a, d, c, d);
  }

  /** Two equal comparisons in a row always make the outer pair equal, for fingerprints with these CRCs known. */
  ghost predicate AlwaysChains(known: bool, middleKnown: bool, otherKnown: bool) {
    forall a: Fingerprint, ad: u32, b: Fingerprint, bd: u32, c: Fingerprint, cd: u32 ::
      a.crcKnown == known && b.crcKnown == middleKnown && c.crcKnown == otherKnown
      && SameRevision(a, ad, b, bd) && SameRevision(b, bd, c, cd)
      ==> SameRevision(a, ad, c, cd)
  }

  /** With the middle CRC known the outer ones must both be known or both unknown, otherwise not both be known. */
  predicate Chainable(known: bool, middleKnown: bool, otherKnown: bool) {
    if middleKnown then known == otherKnown else !(known && otherKnown)
  }

  lemma SameRevisionChains(known: bool, middleKnown: bool, otherKnown: bool)
    ensures AlwaysChains(known, middleKnown, otherKnown) <==> Chainable(known, middleKnown, otherKnown)
  {
    if !Chainable(known, middleKnown, otherKnown) {
      var far: u32 := if middleKnown then 6 else 5;
      var bd: u32 := if known then far else 5;
      var a, b := Fingerprint(1, 7, known), Fingerprint(1, 7, middleKnown);
      var c := Fingerprint(1, if middleKnown then 7 else 8, otherKnown);
      assert SameRevision(a, 5, b, bd) && SameRevision(b, bd, c, far) && !SameRevision(a, 5, c, far);
    }
  }

  // ---------------------------------------------------------------- files and scans

  datatype File = File(content: Bytes, dosTime: u32)

  type Disk = map<Path, File>

  function ServerItemOf(path: Path, file: File): ManifestItem {
    ManifestItem(path, Fingerprint(|file.content|, ServerCrc(file.content), true), file.dosTime)
  }

  function ClientItemOf(path: Path, file: File, crcOn: bool): ManifestItem {
    ManifestItem(path, Fingerprint(|file.content|, if crcOn then ClientCrc(file.content) else 0, crcOn), file.dosTime)
  }

  /** The CRCs a scan reports: off, or read from the file except where the client's cache has an answer. */
  datatype Crcs = CrcsOff | CrcsOn(cached: map<Path, Word>)

  /** No answer comes from the cache. */
  function Computed(crcOn: bool): Crcs {
    if crcOn then CrcsOn(map[]) else CrcsOff
  }

  function ReportedCrc(crcs: Crcs, path: Path, file: File): Word {
    match crcs
    case CrcsOff => 0
    case CrcsOn(cached) => if path in cached then cached[path] else ClientCrc(file.content)
  }

  /** The CRC reported for the file, if one is reported, is its own. */
  predicate ReportsTruly(crcs: Crcs, path: Path, file: File) {
    crcs.CrcsOn? ==> ReportedCrc(crcs, path, file) == ClientCrc(file.content)
  }

  function ListedItem(path: Path, file: File, crcs: Crcs): ManifestItem {
    ManifestItem(path, Fingerprint(|file.content|, ReportedCrc(crcs, path, file), crcs.CrcsOn?), file.dosTime)
  }

  predicate ServerSees(path: Path, file: File) {
    ServerLists(path) && |file.content| <= MAX_FILE_SIZE
  }

  predicate ClientSees(path: Path, file: File) {
    Reportable(path) && |file.content| <= MAX_FILE_SIZE
  }

  function ScanServer(disk: Disk): Manifest {
    map path | path in disk && ServerSees(path, disk[path]) :: ServerItemOf(path, disk[path])
  }

  function ListClient(disk: Disk, crcs: Crcs): Manifest {
    map path | path in disk && ClientSees(path, disk[path]) :: ListedItem(path, disk[path], crcs)
  }

  /** A scan that reports the files' own CRCs. */
  function ScanClient(disk: Disk, crcOn: bool): Manifest {
    ListClient(disk, Computed(crcOn))
  }

  function ServerView(path: Path, file: Option<File>): Option<ManifestItem> {
    if file.Some? && ServerSees(path, file.value) then Some(ServerItemOf(path, file.value)) else None
  }

  function ClientView(path: Path, file: Option<File>, crcOn: bool): Option<ManifestItem> {
    if file.Some? && ClientSees(path, file.value) then Some(ClientItemOf(path, file.value, crcOn)) else None
  }

  function ListView(path: Path, file: Option<File>, crcs: Crcs): Option<ManifestItem> {
    if file.Some? && ClientSees(path, file.value) then Some(ListedItem(path, file.value, crcs)) else None
  }

  lemma ListIsPathwise(disk: Disk, crcs: Crcs, path: Path)
    ensures Get(ListClient(disk, crcs), path) == ListView(path, Get(disk, path), crcs)
  {
  }

  /** Where the CRC is true the list shows what a scan without cache would show. */
  lemma TrueViewIsScanned(path: Path, file: Option<File>, crcs: Crcs)
    ensures ListView(path, file, crcs) == ClientView(path, file, crcs.CrcsOn?) <==>
      (file.Some? && ClientSees(path, file.value) ==> ReportsTruly(crcs, path, file.value))
  {
  }

  lemma ScansArePathwise(server: Disk, client: Disk, crcOn: bool, path: Path)
    ensures Get(ScanServer(server), path) == ServerView(path, Get(server, path))
    ensures Get(ScanClient(client, crcOn), path) == ClientView(path, Get(client, path), crcOn)
  {
  }

  /** Every item sits under its own path. */
  predicate Keyed(m: Manifest) {
    forall path :: path in m ==> m[path].path == path
  }
}
