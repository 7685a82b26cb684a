/**
 * The session's text messages, printed by one side and parsed by the other (client/proto.c, server/src/main.rs).
 * The messages of the session model are these lines: everything a step reads is what the sender meant.
 */
module Wire {
  import opened Wrappers
  import opened Ordering
  import opened Crc32
  import opened Names
  import opened Manifests
  import opened Planner
  import opened Numerals
  import opened HexText
  import opened Lines
  import Delivery
  import Session
  import Lockstep

  const U64: nat := 0x1_0000_0000_0000_0000
  const PATH_HEX_CAPACITY: nat := 288
  const LINE_CAPACITY: nat := 512

  // ---------------------------------------------------------------- printing

  function Flag(b: bool): string {
    if b then "1" else "0"
  }

  function PathField(path: Path): Field
    requires ByteText(path)
  {
    Field("path", Hex(path))
  }

  function CrcText(crc: Word): string {
    Hex8(crc as nat)
  }

  /** The fields of ITEM and PUT. */
  function ItemFields(item: ManifestItem): seq<Field>
    requires ByteText(item.path)
  {
    [PathField(item.path), Field("size", Dec(item.fingerprint.size)), Field("crc", CrcText(item.fingerprint.crc32)),
     Field("dos", Hex8(item.dosTime)), Field("crc_known", Flag(item.fingerprint.crcKnown))]
  }

  function PrintItem(item: ManifestItem): string
    requires ByteText(item.path)
  {
    LineOf("ITEM", ItemFields(item))
  }

  function KindText(action: SyncAction): string {
    match action
    case Download(_) => "download"
    case Upload(_) => "upload"
    case DeleteLocal(_) => "delete_local"
    case DeleteRemote(_) => "delete_remote"
    case Conflict(_, _, _) => "conflict"
  }

  /** The fields of ACTION: a download announces size, CRC and stamp, an upload what the server expects. */
  function ActionFields(action: SyncAction): seq<Field>
    requires ByteText(ActionPath(action))
  {
    var kind, path := Field("kind", KindText(action)), PathField(ActionPath(action));
    match action
    case Download(item) =>
      [kind, path, Field("size", Dec(item.fingerprint.size)), Field("crc", CrcText(item.fingerprint.crc32)),
       Field("dos", Hex8(item.dosTime)), Field("crc_known", "1")]
    case Upload(item) =>
      [kind, path, Field("size", Dec(item.fingerprint.size)), Field("crc", CrcText(item.fingerprint.crc32)),
       Field("crc_known", Flag(item.fingerprint.crcKnown))]
    case _ => [kind, path]
  }

  function PrintAction(action: SyncAction): string
    requires ByteText(ActionPath(action))
  {
    LineOf("ACTION", ActionFields(action))
  }

  function PrintDone(actions: nat, conflicts: nat): string {
    LineOf("DONE", [Field("actions", Dec(actions)), Field("conflicts", Dec(conflicts))])
  }

  // ---------------------------------------------------------------- the server reads

  function Required(values: map<string, string>, key: string): Result<string> {
    if key in values then Success(values[key]) else Failure("missing")
  }

  function Parse(text: string, base: nat, bound: nat): (r: Result<nat>)
    ensures r.Success? ==> r.value < bound
  {
    match ParseUnsigned(text, base, bound)
    case Some(n) => Success(n)
    case None => Failure("invalid")
  }

  function ParseU64(values: map<string, string>, key: string): Result<nat> {
    var text :- Required(values, key);
    Parse(text, 10, U64)
  }

  function ParseU32Hex(values: map<string, string>, key: string): (r: Result<nat>)
    ensures r.Success? ==> r.value < WORD
  {
    var text :- Required(values, key);
    Parse(text, 16, WORD)
  }

  function ParseU32HexOrDefault(values: map<string, string>, default: nat, key: string): (r: Result<nat>)
    requires default < WORD
    ensures r.Success? ==> r.value < WORD
  {
    if key in values then Parse(values[key], 16, WORD) else Success(default)
  }

  function ParseBoolFlag(values: map<string, string>, default: bool, key: string): Result<bool> {
    if key !in values then Success(default)
    else if values[key] == "1" then Success(true)
    else if values[key] == "0" then Success(false)
    else Failure("invalid")
  }

  /** Bytes from 128 on are refused here; as UTF-8 they would be refused as no 8.3 name a step later. */
  function DecodeHexToString(text: string): Result<string> {
    match UnHex(text)
    case None => Failure("invalid hex")
    case Some(bytes) =>
      if forall i :: 0 <= i < |bytes| ==> IsAscii(bytes[i]) then Success(bytes) else Failure("not a path")
  }

  function ToWord(n: nat): Word
    requires n < WORD
  {
    n as Word
  }

  function Crc(values: map<string, string>, known: bool): (r: Result<nat>)
    ensures r.Success? ==> r.value < WORD
  {
    if known then ParseU32Hex(values, "crc") else ParseU32HexOrDefault(values, 0, "crc")
  }

  function ReadPath(values: map<string, string>): Result<Path> {
    var pathHex :- Required(values, "path");
    var text :- DecodeHexToString(pathHex);
    NormalizeProtocolPath(text)
  }

  /** What read_manifest and receive_upload read out of the fields. */
  function ReadMeta(values: map<string, string>): Result<ManifestItem> {
    var path :- ReadPath(values);
    var size :- ParseU64(values, "size");
    var known :- ParseBoolFlag(values, true, "crc_known");
    var crc :- Crc(values, known);
    var dos :- ParseU32Hex(values, "dos");
    Success(ManifestItem(path, Fingerprint(size, ToWord(crc), known), dos))
  }

  function ServerReads(line: string, expected: string): Result<ManifestItem> {
    var (command, values) := Parsed(line);
    if command != expected then Failure("unexpected command") else ReadMeta(values)
  }

  /** The items that were read, as long as none failed: a later item of the same path replaces an earlier one. */
  function Gather(read: seq<Result<ManifestItem>>): Result<Manifest> {
    if read == [] then Success(map[])
    else
      var items :- Gather(read[..|read| - 1]);
      var item :- read[|read| - 1];
      Success(if item.fingerprint.size > MAX_FILE_SIZE then items else items[item.path := item])
  }

  function ItemsOf(lines: seq<string>): seq<Result<ManifestItem>> {
    seq(|lines|, i requires 0 <= i < |lines| => ServerReads(lines[i], "ITEM"))
  }

  /** The items of a manifest without its END. */
  function ReadItems(lines: seq<string>): Result<Manifest> {
    Gather(ItemsOf(lines))
  }

  predicate IsEnd(line: string) {
    Words(line, IsWhitespace) == ["END"]
  }

  function EndAt(lines: seq<string>): (n: nat)
    ensures n <= |lines| && (forall i :: 0 <= i < n ==> !IsEnd(lines[i])) && (n < |lines| ==> IsEnd(lines[n]))
  {
    if lines == [] || IsEnd(lines[0]) then 0 else 1 + EndAt(lines[1..])
  }

  lemma {:induction false} EndAtIs(lines: seq<string>, n: nat)
    requires n <= |lines| && (forall i :: 0 <= i < n ==> !IsEnd(lines[i])) && (n < |lines| ==> IsEnd(lines[n]))
    ensures EndAt(lines) == n
  {
    if n > 0 {
      EndAtIs(lines[1..], n - 1);
    }
  }

  lemma {:induction false} FailureStays(read: seq<Result<ManifestItem>>, k: nat)
    requires k <= |read| && Gather(read[..k]).Failure?
    ensures Gather(read).Failure?
  {
    if k < |read| {
      var fewer := read[..|read| - 1];
      assert fewer[..k] == read[..k];
      FailureStays(fewer, k);
    } else {
      assert read[..k] == read;
    }
  }

  /** read_manifest over the lines received: it needs END, and every line before it in order. */
  method ReadManifest(lines: seq<string>) returns (manifest: Result<Manifest>)
    ensures var n := EndAt(lines);
      if n < |lines| && ReadItems(lines[..n]).Success? then manifest == ReadItems(lines[..n]) else manifest.Failure?
  {
    var items: Manifest := map[];
    ghost var end := EndAt(lines);
    ghost var read := ItemsOf(lines[..end]);
    var next := 0;
    while true
      invariant next <= end
      invariant Gather(read[..next]) == Success(items)
      decreases |lines| - next
    {
      if next == |lines| {
        return Failure("connection lost");
      }
      var line := lines[next];
      if IsEnd(line) {
        EndAtIs(lines, next);
        assert read[..next] == read;
        return Success(items);
      }
      var item := ServerReads(line, "ITEM");
      assert item == read[next] && read[..next + 1][..next] == read[..next];
      if item.Failure? {
        FailureStays(read, next + 1);
        return Failure(item.error);
      }
      if item.value.fingerprint.size <= MAX_FILE_SIZE {
        items := items[item.value.path := item.value];
      }
      next := next + 1;
    }
  }

  // ---------------------------------------------------------------- the client reads

  datatype Order =
    | GetFile(path: Path, size: nat, crc: Word, dos: u32)
    | SendFile(path: Path)
    | DropFile(path: Path)
    | ServerDropped(path: Path)
    | Noted(path: Path)
    | AllDone(actions: int, conflicts: int)

  const NUMBER_CAPACITY: nat := 32

  function ExtractUlong(line: string, key: string, base: nat, default: nat): (n: nat)
    requires default < WORD
    ensures n < WORD
  {
    var text := Extracted(line, key, NUMBER_CAPACITY);
    if text.None? then default else Strtoul(text.value, base).0
  }

  /** A cast to the 16-bit int of the client's platform. */
  function ToInt16(n: nat): int {
    var low := n % 0x1_0000;
    if low < 0x8000 then low else low - 0x1_0000
  }

  function ExtractPath(line: string): Result<Path> {
    var hex := Extracted(line, "path", PATH_HEX_CAPACITY);
    if hex.None? then Failure("path missing in action")
    else
      var path := UnHex(hex.value);
      if path.Some? && |path.value| < PATH_CAPACITY then Success(path.value) else Failure("path missing in action")
  }

  function ReadOrder(line: string, path: Path, kind: string): Result<Order> {
    if kind == "download" then
      Success(GetFile(
        path, ExtractUlong(line, "size", 10, 0), ToWord(ExtractUlong(line, "crc", 16, 0)), ExtractUlong(line, "dos", 16, 0)))
    else if kind == "upload" then Success(SendFile(path))
    else if kind == "delete_local" then Success(DropFile(path))
    else if kind == "delete_remote" then Success(ServerDropped(path))
    else if kind == "conflict" then Success(Noted(path))
    else Failure("unknown action kind")
  }

  function ReadDone(line: string, actions: nat, conflicts: nat): Order
    requires actions < WORD && conflicts < WORD
  {
    AllDone(
      ToInt16(ExtractUlong(line, "actions", 10, actions)),
      ToInt16(ExtractUlong(line, "conflicts", 10, conflicts)))
  }

  function CommandOf(line: string): string {
    Cut(line[..WordLimit(line, 0)], 16)
  }

  /** One turn of the loop in proto_sync_directory, up to carrying the order out. */
  function ClientReads(line: string, actions: nat, conflicts: nat): Result<Order>
    requires actions < WORD && conflicts < WORD
  {
    if CommandOf(line) == "DONE" then Success(ReadDone(line, actions, conflicts))
    else if CommandOf(line) != "ACTION" then Failure("unexpected reply")
    else
      var path :- ExtractPath(line);
      var kind := Extracted(line, "kind", 16);
      if kind == None then Failure("action kind missing") else ReadOrder(line, path, kind.value)
  }

  // ---------------------------------------------------------------- the lines as they stand

  lemma JoinCons(first: string, rest: seq<string>)
    requires rest != []
    ensures Join([first] + rest, ' ') == first + [' '] + Join(rest, ' ')
  {
    assert ([first] + rest)[1..] == rest;
  }

  /** The rest of a line: each field behind a blank. */
  function Fields(fields: seq<Field>): string {
    if fields == [] then "" else " " + fields[0].key + "=" + fields[0].value + Fields(fields[1..])
  }

  lemma {:induction false} FieldsFollow(first: string, fields: seq<Field>)
    ensures LineOf(first, fields) == first + Fields(fields)
    decreases |fields|
  {
    var words := LineWords(first, fields);
    if fields == [] {
      assert words == [first] && first + "" == first;
    } else {
      var f, rest := fields[0], fields[1..];
      FieldsFollow(FieldText(f), rest);
      assert words == [first] + LineWords(FieldText(f), rest);
      JoinCons(first, LineWords(FieldText(f), rest));
      Spelled(first, f, Fields(rest));
    }
  }

  lemma Spelled(first: string, f: Field, rest: string)
    ensures first + [' '] + (f.key + "=" + f.value + rest) == first + (" " + f.key + "=" + f.value + rest)
  {
  }

  /** ITEM and PUT: which fields, in which order, and how each is written. */
  lemma ItemLine(item: ManifestItem, command: string)
    requires ByteText(item.path)
    ensures LineOf(command, ItemFields(item)) == command + Fields(
      [Field("path", Hex(item.path)), Field("size", Dec(item.fingerprint.size)),
       Field("crc", Hex8(item.fingerprint.crc32 as nat)), Field("dos", Hex8(item.dosTime)),
       Field("crc_known", if item.fingerprint.crcKnown then "1" else "0")])
  {
    FieldsFollow(command, ItemFields(item));
  }

  lemma DownloadLine(item: ManifestItem)
    requires ByteText(item.path)
    ensures PrintAction(Download(item)) == "ACTION" + Fields(
      [Field("kind", "download"), Field("path", Hex(item.path)), Field("size", Dec(item.fingerprint.size)),
       Field("crc", Hex8(item.fingerprint.crc32 as nat)), Field("dos", Hex8(item.dosTime)), Field("crc_known", "1")])
  {
    FieldsFollow("ACTION", ActionFields(Download(item)));
  }

  lemma UploadLine(item: ManifestItem)
    requires ByteText(item.path)
    ensures PrintAction(Upload(item)) == "ACTION" + Fields(
      [Field("kind", "upload"), Field("path", Hex(item.path)), Field("size", Dec(item.fingerprint.size)),
       Field("crc", Hex8(item.fingerprint.crc32 as nat)),
       Field("crc_known", if item.fingerprint.crcKnown then "1" else "0")])
  {
    FieldsFollow("ACTION", ActionFields(Upload(item)));
  }

  lemma SimpleLine(action: SyncAction)
    requires ByteText(ActionPath(action)) && !action.Download? && !action.Upload?
    ensures PrintAction(action) == "ACTION" + Fields(
      [Field("kind", if action.DeleteLocal? then "delete_local" else if action.DeleteRemote? then "delete_remote" else "conflict"),
       Field("path", Hex(ActionPath(action)))])
  {
    FieldsFollow("ACTION", ActionFields(action));
  }

  lemma DoneLine(actions: nat, conflicts: nat)
    ensures PrintDone(actions, conflicts) ==
      "DONE" + Fields([Field("actions", Dec(actions)), Field("conflicts", Dec(conflicts))])
  {
    FieldsFollow("DONE", [Field("actions", Dec(actions)), Field("conflicts", Dec(conflicts))]);
  }

  // ---------------------------------------------------------------- what the server accepts

  /** The field is there and a number that the parser accepts. */
  predicate Numeric(values: map<string, string>, key: string, base: nat, bound: nat) {
    key in values && ParseUnsigned(values[key], base, bound).Some?
  }

  predicate PathGiven(values: map<string, string>) {
    && "path" in values && UnHex(values["path"]).Some?
    && (forall i :: 0 <= i < |UnHex(values["path"]).value| ==> (UnHex(values["path"]).value[i] as int) < 128)
    && NormalizeProtocolPath(UnHex(values["path"]).value).Success?
  }

  /** Only an explicit 0 says that the CRC is not known. */
  predicate CrcKnownIn(values: map<string, string>) {
    "crc_known" !in values || values["crc_known"] != "0"
  }

  /**
   * An item is accepted exactly if its path decodes and normalises, size and stamp are numbers of 64 and 32 bits,
   * crc_known is 0, 1 or missing, which counts as 1, and the CRC is a number of 32 bits, or missing where it is not known.
   */
  lemma MetaReads(values: map<string, string>)
    ensures ReadMeta(values).Success? <==>
      && PathGiven(values) && Numeric(values, "size", 10, 0x1_0000_0000_0000_0000) && Numeric(values, "dos", 16, 0x1_0000_0000)
      && FlagGiven(values) && CrcGiven(values)
    ensures ReadMeta(values).Success? ==>
      var item := ReadMeta(values).value;
      && Success(item.path) == NormalizeProtocolPath(UnHex(values["path"]).value)
      && Some(item.fingerprint.size) == ParseUnsigned(values["size"], 10, U64)
      && Some(item.dosTime) == ParseUnsigned(values["dos"], 16, WORD)
      && (item.fingerprint.crcKnown <==> CrcKnownIn(values))
      && item.fingerprint.crc32 == ToWord(if "crc" in values then ParseUnsigned(values["crc"], 16, WORD).value else 0)
  {
    PathReads(values);
    NumbersRead(values);
    CrcReads(values);
    if ReadPath(values).Success? {
      AssembledReads(values, ReadPath(values).value);
    }
  }

  predicate FlagGiven(values: map<string, string>) {
    "crc_known" in values ==> values["crc_known"] == "0" || values["crc_known"] == "1"
  }

  predicate CrcGiven(values: map<string, string>) {
    Numeric(values, "crc", 16, WORD) || ("crc" !in values && !CrcKnownIn(values))
  }

  lemma PathReads(values: map<string, string>)
    ensures ReadPath(values).Success? <==> PathGiven(values)
    ensures PathGiven(values) ==> ReadPath(values) == NormalizeProtocolPath(UnHex(values["path"]).value)
  {
  }

  lemma NumbersRead(values: map<string, string>)
    ensures ParseU64(values, "size").Success? <==> Numeric(values, "size", 10, U64)
    ensures ParseU64(values, "size").Success? ==>
      Some(ParseU64(values, "size").value) == ParseUnsigned(values["size"], 10, U64)
    ensures ParseU32Hex(values, "dos").Success? <==> Numeric(values, "dos", 16, WORD)
    ensures ParseU32Hex(values, "dos").Success? ==>
      Some(ParseU32Hex(values, "dos").value) == ParseUnsigned(values["dos"], 16, WORD)
  {
  }

  lemma CrcReads(values: map<string, string>)
    ensures ParseBoolFlag(values, true, "crc_known").Success? <==> FlagGiven(values)
    ensures FlagGiven(values) ==>
      var known := ParseBoolFlag(values, true, "crc_known").value;
      && (known <==> CrcKnownIn(values)) && (Crc(values, known).Success? <==> CrcGiven(values))
      && (CrcGiven(values) ==>
            Crc(values, known).value == if "crc" in values then ParseUnsigned(values["crc"], 16, WORD).value else 0)
  {
  }

  lemma AssembledReads(values: map<string, string>, path: Path)
    requires ReadPath(values) == Success(path)
    ensures ReadMeta(values).Success? <==>
      && ParseU64(values, "size").Success? && ParseBoolFlag(values, true, "crc_known").Success?
      && Crc(values, ParseBoolFlag(values, true, "crc_known").value).Success? && ParseU32Hex(values, "dos").Success?
    ensures ReadMeta(values).Success? ==>
      var known := ParseBoolFlag(values, true, "crc_known").value;
      ReadMeta(values).value ==
        ManifestItem(path, Fingerprint(ParseU64(values, "size").value, ToWord(Crc(values, known).value), known),
                     ParseU32Hex(values, "dos").value)
  {
  }

  /** Of several items of one path the last that is not oversized counts. */
  lemma {:induction false} LastItemWins(read: seq<Result<ManifestItem>>, i: nat)
    requires Gather(read).Success? && i < |read| && read[i].Success? && read[i].value.fingerprint.size <= 0x8000_0000
    requires forall j :: i < j < |read| && read[j].Success? ==>
      read[j].value.path != read[i].value.path || read[j].value.fingerprint.size > 0x8000_0000
    ensures Get(Gather(read).value, read[i].value.path) == Some(read[i].value)
  {
    var n := |read| - 1;
    if i < n {
      LastItemWins(read[..n], i);
    }
  }

  /** And oversized items are never listed. */
  lemma {:induction false} NoOversizedItem(read: seq<Result<ManifestItem>>, path: Path)
    requires Gather(read).Success? && path in Gather(read).value
    ensures exists i :: 0 <= i < |read| && IsListed(read[i], Gather(read).value[path], path)
  {
    var n := |read| - 1;
    var items := Gather(read[..n]).value;
    if !(read[n].value.path == path && read[n].value.fingerprint.size <= 0x8000_0000) {
      NoOversizedItem(read[..n], path);
      var i :| 0 <= i < n && IsListed(read[..n][i], items[path], path);
      assert IsListed(read[i], Gather(read).value[path], path);
    } else {
      assert IsListed(read[n], Gather(read).value[path], path);
    }
  }

  predicate IsListed(read: Result<ManifestItem>, item: ManifestItem, path: Path) {
    read == Success(item) && item.path == path && item.fingerprint.size <= 0x8000_0000
  }

  // ---------------------------------------------------------------- what is printed is clean

  predicate AsciiText(s: string) {
    forall i :: 0 <= i < |s| ==> IsAscii(s[i]) && s[i] != '\0'
  }

  lemma {:induction false} JoinIsAscii(parts: seq<string>, sep: char)
    requires |parts| >= 1 && IsAscii(sep) && sep != '\0'
    requires forall i :: 0 <= i < |parts| ==> AsciiText(parts[i])
    ensures AsciiText(Join(parts, sep))
    ensures parts[0] != [] ==> Join(parts, sep) != []
  {
    if |parts| > 1 {
      JoinIsAscii(parts[1..], sep);
    }
  }

  lemma ListedIsText(path: Path)
    requires ServerLists(path)
    ensures AsciiText(path) && CText(path) && path != []
  {
    var parts := Split(path, '/');
    forall i | 0 <= i < |parts|
      ensures AsciiText(parts[i]) && parts[i] != []
    {
      assert UpperShort(parts[i], true);
      var base: nat :| base <= 8 && ShortNameAt(parts[i], true, base);
      ShortNameIsAscii(parts[i], true, base);
    }
    JoinIsAscii(parts, '/');
    JoinSplit(path, '/');
  }

  lemma DigitsArePlain(s: string)
    requires AllDigits(s, 16)
    ensures Plain(s)
  {
    forall i | 0 <= i < |s|
      ensures '!' <= s[i] <= '~'
    {
      assert IsDigit(s[i], 16);
    }
  }

  lemma DecimalsAreHex(s: string)
    requires AllDigits(s, 10)
    ensures AllDigits(s, 16)
  {
    forall i | 0 <= i < |s|
      ensures IsDigit(s[i], 16)
    {
      assert IsDigit(s[i], 10);
    }
  }

  lemma NumbersArePlain(n: nat)
    ensures Plain(Dec(n)) && Plain(Hex8(n))
  {
    DecimalsAreHex(Dec(n));
    DigitsArePlain(Dec(n));
    DigitsArePlain(Hex8(n));
  }

  lemma PathIsPlain(path: Path)
    requires ByteText(path)
    ensures Plain(Hex(path)) && CleanField(PathField(path))
  {
    HexIsDigits(path);
    DigitsArePlain(Hex(path));
  }

  lemma AddClean(command: string, fields: seq<Field>, f: Field)
    requires CleanLine(command, fields) && CleanField(f)
    requires forall i :: 0 <= i < |fields| ==> fields[i].key != f.key
    ensures CleanLine(command, fields + [f])
  {
  }

  lemma AddTwoClean(command: string, fields: seq<Field>, f: Field, g: Field)
    requires CleanLine(command, fields) && CleanField(f) && CleanField(g) && f.key != g.key
    requires forall i :: 0 <= i < |fields| ==> fields[i].key != f.key && fields[i].key != g.key
    ensures CleanLine(command, fields + [f, g])
  {
    AddClean(command, fields, f);
    AddClean(command, fields + [f], g);
    assert fields + [f] + [g] == fields + [f, g];
  }

  lemma ItemFieldsClean(command: string, path: string, size: string, crc: string, dos: string, known: string)
    requires command == "ITEM" || command == "PUT"
    requires Plain(path) && Plain(size) && Plain(crc) && Plain(dos) && Plain(known)
    ensures CleanLine(command,
      [Field("path", path), Field("size", size), Field("crc", crc), Field("dos", dos), Field("crc_known", known)])
  {
    var first := [Field("path", path), Field("size", size), Field("crc", crc)];
    assert CleanLine(command, first);
    AddTwoClean(command, first, Field("dos", dos), Field("crc_known", known));
  }

  lemma ItemIsClean(item: ManifestItem, command: string)
    requires ByteText(item.path) && (command == "ITEM" || command == "PUT")
    ensures CleanLine(command, ItemFields(item))
  {
    PathIsPlain(item.path);
    NumbersArePlain(item.fingerprint.size);
    NumbersArePlain(item.fingerprint.crc32 as nat);
    NumbersArePlain(item.dosTime);
    ItemFieldsClean(
      command, Hex(item.path), Dec(item.fingerprint.size), CrcText(item.fingerprint.crc32), Hex8(item.dosTime),
      Flag(item.fingerprint.crcKnown));
  }

  lemma ActionFieldsClean(kind: string, path: string, size: string, crc: string)
    requires Plain(kind) && Plain(path) && Plain(size) && Plain(crc)
    ensures CleanLine("ACTION", [Field("kind", kind), Field("path", path)])
    ensures CleanLine("ACTION", [Field("kind", kind), Field("path", path), Field("size", size), Field("crc", crc)])
  {
    var first := [Field("kind", kind), Field("path", path)];
    assert CleanLine("ACTION", first);
    AddTwoClean("ACTION", first, Field("size", size), Field("crc", crc));
  }

  lemma DownloadFieldsClean(kind: string, path: string, size: string, crc: string, dos: string, known: string)
    requires Plain(kind) && Plain(path) && Plain(size) && Plain(crc) && Plain(dos) && Plain(known)
    ensures CleanLine("ACTION",
      [Field("kind", kind), Field("path", path), Field("size", size), Field("crc", crc), Field("dos", dos),
       Field("crc_known", known)])
  {
    ActionFieldsClean(kind, path, size, crc);
    AddTwoClean(
      "ACTION", [Field("kind", kind), Field("path", path), Field("size", size), Field("crc", crc)],
      Field("dos", dos), Field("crc_known", known));
  }

  lemma UploadFieldsClean(kind: string, path: string, size: string, crc: string, known: string)
    requires Plain(kind) && Plain(path) && Plain(size) && Plain(crc) && Plain(known)
    ensures CleanLine("ACTION",
      [Field("kind", kind), Field("path", path), Field("size", size), Field("crc", crc), Field("crc_known", known)])
  {
    ActionFieldsClean(kind, path, size, crc);
    AddClean(
      "ACTION", [Field("kind", kind), Field("path", path), Field("size", size), Field("crc", crc)],
      Field("crc_known", known));
  }

  lemma KindIsPlain(action: SyncAction)
    ensures Plain(KindText(action)) && 0 < |KindText(action)| < 16
  {
  }

  lemma DownloadIsClean(item: ManifestItem)
    requires ByteText(item.path)
    ensures CleanLine("ACTION", ActionFields(Download(item)))
  {
    PathIsPlain(item.path);
    NumbersArePlain(item.fingerprint.size);
    NumbersArePlain(item.fingerprint.crc32 as nat);
    NumbersArePlain(item.dosTime);
    DownloadFieldsClean(
      "download", Hex(item.path), Dec(item.fingerprint.size), CrcText(item.fingerprint.crc32), Hex8(item.dosTime), "1");
  }

  lemma UploadIsClean(item: ManifestItem)
    requires ByteText(item.path)
    ensures CleanLine("ACTION", ActionFields(Upload(item)))
  {
    PathIsPlain(item.path);
    NumbersArePlain(item.fingerprint.size);
    NumbersArePlain(item.fingerprint.crc32 as nat);
    UploadFieldsClean(
      "upload", Hex(item.path), Dec(item.fingerprint.size), CrcText(item.fingerprint.crc32),
      Flag(item.fingerprint.crcKnown));
  }

  lemma ActionIsClean(action: SyncAction)
    requires ByteText(ActionPath(action))
    ensures CleanLine("ACTION", ActionFields(action))
  {
    match action
    case Download(item) => DownloadIsClean(item);
    case Upload(item) => UploadIsClean(item);
    case _ =>
      PathIsPlain(ActionPath(action));
      KindIsPlain(action);
      ActionFieldsClean(KindText(action), Hex(ActionPath(action)), [], []);
  }

  // ---------------------------------------------------------------- client to server

  lemma WordTwice(word: Word)
    ensures word as nat < WORD && ToWord(word as nat) == word
  {
  }

  /** Whichever of the two commands carries it, the server reads the item that the client printed. */
  lemma ItemCrosses(item: ManifestItem, command: string)
    requires ServerLists(item.path) && item.fingerprint.size < U64
    requires command == "ITEM" || command == "PUT"
    ensures ByteText(item.path)
    ensures ServerReads(LineOf(command, ItemFields(item)), command) == Success(item)
  {
    ListedIsText(item.path);
    var fields := ItemFields(item);
    ItemIsClean(item, command);
    ServerReadsFields(command, fields);
    var values := Parsed(LineOf(command, fields)).1;
    assert Get(values, fields[0].key) == Some(fields[0].value);
    assert Get(values, fields[1].key) == Some(fields[1].value);
    assert Get(values, fields[2].key) == Some(fields[2].value);
    assert Get(values, fields[3].key) == Some(fields[3].value);
    assert Get(values, fields[4].key) == Some(fields[4].value);
    MetaReadBack(values, item);
  }

  lemma MetaReadBack(values: map<string, string>, item: ManifestItem)
    requires ServerLists(item.path) && ByteText(item.path) && item.fingerprint.size < U64
    requires Get(values, "path") == Some(Hex(item.path))
    requires Get(values, "size") == Some(Dec(item.fingerprint.size))
    requires Get(values, "crc") == Some(CrcText(item.fingerprint.crc32))
    requires Get(values, "dos") == Some(Hex8(item.dosTime))
    requires Get(values, "crc_known") == Some(Flag(item.fingerprint.crcKnown))
    ensures ReadMeta(values) == Success(item)
  {
    PathReadBack(values, item.path);
    DecCrosses(item.fingerprint.size, U64);
    WordTwice(item.fingerprint.crc32);
    HexCrosses(item.fingerprint.crc32 as nat);
    HexCrosses(item.dosTime);
    MetaAssembles(values, item, item.fingerprint.crc32 as nat);
  }

  lemma MetaAssembles(values: map<string, string>, item: ManifestItem, crc: nat)
    requires ReadPath(values) == Success(item.path)
    requires ParseU64(values, "size") == Success(item.fingerprint.size)
    requires ParseBoolFlag(values, true, "crc_known") == Success(item.fingerprint.crcKnown)
    requires Crc(values, item.fingerprint.crcKnown) == Success(crc)
    requires ParseU32Hex(values, "dos") == Success(item.dosTime)
    requires crc < WORD && ToWord(crc) == item.fingerprint.crc32
    ensures ReadMeta(values) == Success(item)
  {
  }

  lemma PathReadBack(values: map<string, string>, path: Path)
    requires ServerLists(path) && ByteText(path) && Get(values, "path") == Some(Hex(path))
    ensures ReadPath(values) == Success(path)
  {
    ListedIsText(path);
    HexRoundTrip(path);
    NormalizeKeepsListed(path);
    assert DecodeHexToString(Hex(path)) == Success(path);
  }

  predicate Sendable(items: Manifest) {
    forall path :: path in items ==>
      items[path].path == path && ServerLists(path) && ByteText(path) && items[path].fingerprint.size <= MAX_FILE_SIZE
  }

  predicate Lists(order: seq<Path>, items: Manifest) {
    forall i :: 0 <= i < |order| ==> order[i] in items
  }

  function PrintItems(items: Manifest, order: seq<Path>): seq<string>
    requires Sendable(items) && Lists(order, items)
  {
    seq(|order|, i requires 0 <= i < |order| => PrintItem(items[order[i]]))
  }

  function Restrict(items: Manifest, order: seq<Path>): Manifest {
    map path | path in items && path in order :: items[path]
  }

  lemma RestrictSnoc(items: Manifest, order: seq<Path>, path: Path)
    requires path in items
    ensures Restrict(items, order + [path]) == Restrict(items, order)[path := items[path]]
  {
  }

  predicate ReadsAs(read: seq<Result<ManifestItem>>, items: Manifest, order: seq<Path>) {
    && |read| == |order|
    && forall i :: 0 <= i < |order| ==> order[i] in items && read[i] == Success(items[order[i]])
  }

  predicate Storable(items: Manifest) {
    forall path :: path in items ==> items[path].path == path && items[path].fingerprint.size <= MAX_FILE_SIZE
  }

  lemma {:induction false} ItemsGathered(items: Manifest, order: seq<Path>, read: seq<Result<ManifestItem>>)
    requires Storable(items) && ReadsAs(read, items, order)
    ensures Gather(read) == Success(Restrict(items, order))
  {
    if order == [] {
      assert Restrict(items, order) == map[];
    } else {
      var n := |order| - 1;
      ItemsGathered(items, order[..n], read[..n]);
      RestrictSnoc(items, order[..n], order[n]);
      assert order == order[..n] + [order[n]];
    }
  }

  lemma PrintedReadsAs(items: Manifest, order: seq<Path>)
    requires Sendable(items) && Lists(order, items)
    ensures ReadsAs(ItemsOf(PrintItems(items, order)), items, order)
  {
    var lines := PrintItems(items, order);
    forall i | 0 <= i < |lines|
      ensures ServerReads(lines[i], "ITEM") == Success(items[order[i]])
    {
      ItemCrosses(items[order[i]], "ITEM");
    }
  }

  lemma ItemIsNotEnd(item: ManifestItem)
    requires ByteText(item.path)
    ensures !IsEnd(PrintItem(item))
  {
    ItemIsClean(item, "ITEM");
    LineSplits("ITEM", ItemFields(item), IsWhitespace);
  }

  lemma ScanIsSendable(disk: Disk, crcs: Crcs)
    ensures Sendable(ListClient(disk, crcs))
  {
    forall path | path in ListClient(disk, crcs)
      ensures ServerLists(path) && ByteText(path)
    {
      ReportableIsListed(path);
      ListedIsText(path);
    }
  }

  lemma EndFollowsItems(items: Manifest, order: seq<Path>)
    requires Sendable(items) && Lists(order, items)
    ensures EndAt(PrintItems(items, order) + ["END"]) == |order|
  {
    var lines := PrintItems(items, order) + ["END"];
    forall i | 0 <= i < |order|
      ensures !IsEnd(lines[i])
    {
      ItemIsNotEnd(items[order[i]]);
    }
    OnlyWord("END", IsWhitespace);
    EndAtIs(lines, |order|);
  }

  lemma ItemsReadBack(items: Manifest, order: seq<Path>)
    requires Sendable(items) && forall path :: path in order <==> path in items
    ensures Lists(order, items) && ReadItems(PrintItems(items, order)) == Success(items)
  {
    assert Lists(order, items);
    PrintedReadsAs(items, order);
    AllGathered(items, order, ItemsOf(PrintItems(items, order)));
  }

  lemma AllGathered(items: Manifest, order: seq<Path>, read: seq<Result<ManifestItem>>)
    requires Storable(items) && ReadsAs(read, items, order) && forall path :: path in order <==> path in items
    ensures Gather(read) == Success(items)
  {
    ItemsGathered(items, order, read);
    assert Restrict(items, order) == items;
  }

  /** The server's read_manifest rebuilds the client's scan from its ITEM lines, in whatever order they come. */
  lemma ManifestCrosses(disk: Disk, crcs: Crcs, order: seq<Path>)
    requires forall path :: path in order <==> path in ListClient(disk, crcs)
    ensures Sendable(ListClient(disk, crcs)) && Lists(order, ListClient(disk, crcs))
    ensures EndAt(PrintItems(ListClient(disk, crcs), order) + ["END"]) == |order|
    ensures ReadItems(PrintItems(ListClient(disk, crcs), order)) == Success(ListClient(disk, crcs))
  {
    var items := ListClient(disk, crcs);
    ScanIsSendable(disk, crcs);
    ItemsReadBack(items, order);
    EndFollowsItems(items, order);
  }

  // ---------------------------------------------------------------- server to client

  /** The order a message of the session model stands for. */
  function Meant(message: Session.Message): Option<Order> {
    match message
    case ActDownload(path, size, crc, dos) => Some(GetFile(path, size, crc, dos))
    case ActUpload(path, _, _, _) => Some(SendFile(path))
    case ActDeleteLocal(path) => Some(DropFile(path))
    case ActDeleteRemote(path) => Some(ServerDropped(path))
    case ActConflict(path) => Some(Noted(path))
    case Done(actions, conflicts) => Some(AllDone(actions, conflicts))
    case _ => None
  }

  lemma CommandFirst(command: string, fields: seq<Field>)
    requires CleanLine(command, fields)
    ensures var line := LineOf(command, fields); line[..WordLimit(line, 0)] == command
  {
    var line := LineOf(command, fields);
    LineSplits(command, fields, IsBlank);
    assert line[0] == command[0];
    SkipWord(line);
    assert line[0..] == line;
  }

  /** A value that fits its buffer arrives whole. */
  lemma FieldArrives(command: string, fields: seq<Field>, i: nat, capacity: nat)
    requires CleanLine(command, fields) && i < |fields|
    requires 0 < |fields[i].value| < capacity
    ensures Extracted(LineOf(command, fields), fields[i].key, capacity) == Some(fields[i].value)
  {
    ClientReadsField(command, fields, i);
  }

  lemma DecFits(n: nat)
    requires n < U64
    ensures |Dec(n)| <= 20
    ensures n < WORD ==> |Dec(n)| <= 10
  {
    assert Power(10, 5) == 100000;
    assert Power(10, 10) == 100000 * 100000 by { assert Power(10, 8) == 100000000; }
    assert Power(10, 15) == Power(10, 10) * 100000 by { assert Power(10, 13) == Power(10, 10) * 1000; }
    assert Power(10, 20) == Power(10, 15) * 100000 by { assert Power(10, 18) == Power(10, 15) * 1000; }
    DecLength(n, 20);
    if n < WORD {
      DecLength(n, 10);
    }
  }

  lemma NumberArrives(command: string, fields: seq<Field>, i: nat, n: nat, base: nat, default: nat)
    requires CleanLine(command, fields) && i < |fields| && n < U64 && default < WORD
    requires (base == 10 && fields[i].value == Dec(n)) || (base == 16 && fields[i].value == Hex8(n) && n < WORD)
    ensures ExtractUlong(LineOf(command, fields), fields[i].key, base, default) == if n < WORD then n else WORD - 1
  {
    DecFits(n);
    FieldArrives(command, fields, i, NUMBER_CAPACITY);
    if base == 10 {
      DecCrosses(n, U64);
    } else {
      HexCrosses(n);
    }
  }

  /** The client recovers exactly the paths that fit its buffer; a longer one is refused, never cut. */
  lemma PathArrives(command: string, fields: seq<Field>, i: nat, path: Path)
    requires CleanLine(command, fields) && i < |fields| && CText(path) && path != []
    requires fields[i] == PathField(path)
    ensures ExtractPath(LineOf(command, fields)) ==
      if Delivery.PathFits(path) then Success(path) else Failure("path missing in action")
  {
    var line := LineOf(command, fields);
    ClientReadsField(command, fields, i);
    HexRoundTrip(path);
    if Delivery.PathFits(path) {
      FieldArrives(command, fields, i, PATH_HEX_CAPACITY);
    } else {
      assert |Cut(Hex(path), PATH_HEX_CAPACITY)| == 287;
    }
  }

  lemma OrderArrives(action: SyncAction)
    requires ByteText(ActionPath(action)) && (action.Download? ==> action.item.fingerprint.size < WORD)
    ensures Meant(Lockstep.Asking(action)).Some?
    ensures ReadOrder(PrintAction(action), ActionPath(action), KindText(action))
      == Success(Meant(Lockstep.Asking(action)).value)
  {
    if action.Download? {
      DownloadArrives(action.item);
    }
  }

  lemma DownloadArrives(item: ManifestItem)
    requires ByteText(item.path) && item.fingerprint.size < WORD
    ensures var line := PrintAction(Download(item));
      && ExtractUlong(line, "size", 10, 0) == item.fingerprint.size
      && ExtractUlong(line, "crc", 16, 0) == item.fingerprint.crc32 as nat
      && ToWord(ExtractUlong(line, "crc", 16, 0)) == item.fingerprint.crc32
      && ExtractUlong(line, "dos", 16, 0) == item.dosTime
  {
    var fields := ActionFields(Download(item));
    ActionIsClean(Download(item));
    WordTwice(item.fingerprint.crc32);
    NumberArrives("ACTION", fields, 2, item.fingerprint.size, 10, 0);
    NumberArrives("ACTION", fields, 3, item.fingerprint.crc32 as nat, 16, 0);
    NumberArrives("ACTION", fields, 4, item.dosTime, 16, 0);
  }

  /** The client carries out the order the server sent, if and only if the path fits. */
  lemma ActionCrosses(action: SyncAction, actions: nat, conflicts: nat)
    requires ServerLists(ActionPath(action)) && actions < WORD && conflicts < WORD
    requires action.Download? ==> action.item.fingerprint.size < WORD
    ensures ByteText(ActionPath(action))
    ensures Meant(Lockstep.Asking(action)).Some?
    ensures ClientReads(PrintAction(action), actions, conflicts) ==
      if Delivery.PathFits(ActionPath(action)) then Success(Meant(Lockstep.Asking(action)).value)
      else Failure("path missing in action")
  {
    var path := ActionPath(action);
    ListedIsText(path);
    var fields, line := ActionFields(action), PrintAction(action);
    ActionIsClean(action);
    OrderArrives(action);
    KindIsPlain(action);
    CommandFirst("ACTION", fields);
    assert CommandOf(line) == "ACTION";
    PathArrives("ACTION", fields, 1, path);
    FieldArrives("ACTION", fields, 0, 16);
    assert Extracted(line, "kind", 16) == Some(KindText(action));
  }

  lemma IntIsExact(n: nat)
    ensures ToInt16(if n < WORD then n else WORD - 1) == n <==> n < 0x8000
  {
  }

  /** The final counts arrive exactly when they fit the client's 16-bit int. */
  lemma DoneCrosses(actions: nat, conflicts: nat, ownActions: nat, ownConflicts: nat)
    requires actions < U64 && conflicts < U64 && ownActions < WORD && ownConflicts < WORD
    ensures ClientReads(PrintDone(actions, conflicts), ownActions, ownConflicts) == Success(AllDone(actions, conflicts))
      <==> actions < 0x8000 && conflicts < 0x8000
  {
    var fields := [Field("actions", Dec(actions)), Field("conflicts", Dec(conflicts))];
    DoneIsClean(Dec(actions), Dec(conflicts), actions, conflicts);
    CommandFirst("DONE", fields);
    assert CommandOf(PrintDone(actions, conflicts)) == "DONE";
    NumberArrives("DONE", fields, 0, actions, 10, ownActions);
    NumberArrives("DONE", fields, 1, conflicts, 10, ownConflicts);
    IntIsExact(actions);
    IntIsExact(conflicts);
  }

  lemma DoneIsClean(first: string, second: string, actions: nat, conflicts: nat)
    requires first == Dec(actions) && second == Dec(conflicts)
    ensures CleanLine("DONE", [Field("actions", first), Field("conflicts", second)])
  {
    NumbersArePlain(actions);
    NumbersArePlain(conflicts);
  }

  // ---------------------------------------------------------------- buffers

  lemma {:induction false} JoinBounded(words: seq<string>, sep: char, most: nat)
    requires |words| >= 1 && forall i :: 0 <= i < |words| ==> |words[i]| <= most
    ensures |Join(words, sep)| < |words| * (most + 1)
  {
    if |words| > 1 {
      JoinBounded(words[1..], sep, most);
      assert |words| * (most + 1) == (|words| - 1) * (most + 1) + most + 1;
    }
  }

  lemma ShortFields(fields: seq<Field>)
    requires fields != [] && |fields| <= 4
    requires forall i :: 0 <= i < |fields| ==> |fields[i].key| + |fields[i].value| <= 17
    ensures |Join(seq(|fields|, i requires 0 <= i < |fields| => FieldText(fields[i])), ' ')| < 76
  {
    var words := seq(|fields|, i requires 0 <= i < |fields| => FieldText(fields[i]));
    JoinBounded(words, ' ', 18);
  }

  lemma TextsFrom(command: string, fields: seq<Field>, n: nat)
    requires n <= |fields|
    ensures var rest := fields[n..];
      LineWords(command, fields)[n + 1..] == seq(|rest|, i requires 0 <= i < |rest| => FieldText(rest[i]))
  {
  }

  /** ITEM and PUT lines fit the client's 512 characters, terminator included. */
  lemma ItemLineFits(item: ManifestItem, command: string)
    requires ByteText(item.path) && Delivery.PathFits(item.path) && item.fingerprint.size < WORD
    requires |command| <= 4
    ensures |LineOf(command, ItemFields(item))| <= 511 < LINE_CAPACITY
  {
    var fields := ItemFields(item);
    var words := LineWords(command, fields);
    DecFits(item.fingerprint.size);
    ShortFields(fields[1..]);
    TextsFrom(command, fields, 1);
    var tail, rest := words[1..], words[2..];
    assert tail[1..] == rest && |tail[0]| == |FieldText(fields[0])| <= 291;
    assert |Join(tail, ' ')| == |tail[0]| + 1 + |Join(rest, ' ')|;
    assert |Join(words, ' ')| == |command| + 1 + |Join(tail, ' ')|;
  }

  lemma ActionFieldsShort(action: SyncAction)
    requires ByteText(ActionPath(action)) && Delivery.PathFits(ActionPath(action))
    requires action.Download? || action.Upload? ==> action.item.fingerprint.size < WORD
    ensures var fields := ActionFields(action);
      && 2 <= |fields| <= 6 && |FieldText(fields[0])| <= 20 && |FieldText(fields[1])| <= 291
      && forall i :: 2 <= i < |fields| ==> |fields[i].key| + |fields[i].value| <= 17
  {
    if action.Download? || action.Upload? {
      DecFits(action.item.fingerprint.size);
    }
  }

  /** And an action line for a path that fits does too, so proto_read_line can take it whole. */
  lemma ActionLineFits(action: SyncAction)
    requires ByteText(ActionPath(action)) && Delivery.PathFits(ActionPath(action))
    requires action.Download? || action.Upload? ==> action.item.fingerprint.size < WORD
    ensures |PrintAction(action)| <= 511 < LINE_CAPACITY
  {
    ActionFieldsShort(action);
    LineShort("ACTION", ActionFields(action));
  }

  lemma LineShort(command: string, fields: seq<Field>)
    requires |command| <= 6 && 2 <= |fields| <= 6 && |FieldText(fields[0])| <= 20 && |FieldText(fields[1])| <= 291
    requires forall i :: 2 <= i < |fields| ==> |fields[i].key| + |fields[i].value| <= 17
    ensures |LineOf(command, fields)| <= 511 < LINE_CAPACITY
  {
    var words := LineWords(command, fields);
    var middle, tail, rest := words[1..], words[2..], words[3..];
    assert middle[1..] == tail && tail[1..] == rest;
    assert |Join(middle, ' ')| == |middle[0]| + 1 + |Join(tail, ' ')|;
    assert |Join(words, ' ')| == |command| + 1 + |Join(middle, ' ')|;
    if |fields| > 2 {
      ShortFields(fields[2..]);
      TextsFrom(command, fields, 2);
      assert |Join(tail, ' ')| == |tail[0]| + 1 + |Join(rest, ' ')|;
    }
  }
}
