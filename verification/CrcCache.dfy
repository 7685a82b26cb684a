/**
 * The client's CRC cache (client/proto.c): an array of at most 128 entries, updated in place, shifted down when
 * an entry leaves, and losing its oldest entry when full.  It is proved to be a map whose entries remember when
 * they were inserted, and the CRCs reported from it are compared with those of the files.
 */
module CrcCache {
  import opened Wrappers
  import opened Ordering
  import opened Crc32
  import opened Names
  import opened Manifests

  const MAX_FILES: nat := 128
  const RECHECK_MS: nat := 300000

  /** What a path buffer can hold: both callers, the scan and the download, pass one. */
  type PathText = path: Path | |path| < PATH_CAPACITY witness ""

  // ---------------------------------------------------------------- the bounded map

  datatype Known = Known(size: nat, crc: Word, stamp: u32, checkedTick: u32)

  /** born numbers the insertions: an update keeps the number of the entry it changes. */
  datatype Entry = Entry(known: Known, born: nat)

  datatype Cache = Cache(entries: map<Path, Entry>, next: nat)

  const EMPTY: Cache := Cache(map[], 0)

  /** GetTickCount differences are taken modulo 2^32. */
  function TicksSince(checkedTick: u32, now: u32): u32 {
    (now - checkedTick) % 0x1_0000_0000
  }

  function Lookup(cache: Cache, path: Path, size: nat, stamp: u32, now: u32, recheck: bool): Option<Word> {
    if path !in cache.entries then None
    else
      var known := cache.entries[path].known;
      if known.size != size || known.stamp != stamp then None
      else if recheck && TicksSince(known.checkedTick, now) >= RECHECK_MS then None
      else Some(known.crc)
  }

  /** All entries but the first inserted. */
  function Younger(entries: map<Path, Entry>): map<Path, Entry> {
    map path | path in entries && exists other :: other in entries && entries[other].born < entries[path].born
      :: entries[path]
  }

  function Remember(cache: Cache, path: Path, known: Known): Cache {
    if path == "" then cache
    else if path in cache.entries then
      cache.(entries := cache.entries[path := Entry(known, cache.entries[path].born)])
    else
      var room := if |cache.entries| >= MAX_FILES then Younger(cache.entries) else cache.entries;
      Cache(room[path := Entry(known, cache.next)], cache.next + 1)
  }

  function Forget(cache: Cache, path: Path): Cache {
    if path == "" then cache else cache.(entries := cache.entries - {path})
  }

  // ---------------------------------------------------------------- the array

  datatype CacheItem = CacheItem(path: Path, known: Known)

  const BLANK: CacheItem := CacheItem("", Known(0, 0, 0, 0))

  ghost predicate Has(items: seq<CacheItem>, path: Path) {
    exists i :: 0 <= i < |items| && items[i].path == path
  }

  predicate Matches(item: CacheItem, cache: Cache) {
    && item.path != ""
    && item.path in cache.entries
    && cache.entries[item.path].known == item.known
    && cache.entries[item.path].born < cache.next
  }

  predicate Older(left: CacheItem, right: CacheItem, cache: Cache) {
    && left.path in cache.entries
    && right.path in cache.entries
    && cache.entries[left.path].born < cache.entries[right.path].born
  }

  /** The items in use are the entries of the map, oldest first. */
  ghost predicate Holds(items: seq<CacheItem>, cache: Cache) {
    && |items| == |cache.entries|
    && (forall i :: 0 <= i < |items| ==> Matches(items[i], cache))
    && (forall i, j :: 0 <= i < j < |items| ==> Older(items[i], items[j], cache))
    && (forall path {:trigger Has(items, path)} :: path in cache.entries ==> Has(items, path))
  }

  lemma DifferentPlaces(items: seq<CacheItem>, cache: Cache, i: nat, j: nat)
    requires Holds(items, cache) && i < |items| && j < |items|
    ensures items[i].path == items[j].path ==> i == j
  {
    assert i < j ==> Older(items[i], items[j], cache);
    assert j < i ==> Older(items[j], items[i], cache);
  }

  lemma UpdateHolds(items: seq<CacheItem>, cache: Cache, i: nat, known: Known)
    requires Holds(items, cache) && i < |items|
    ensures Holds(items[i := CacheItem(items[i].path, known)], Remember(cache, items[i].path, known))
  {
    var path := items[i].path;
    assert Matches(items[i], cache);
    var after := Remember(cache, path, known);
    var changed := items[i := CacheItem(path, known)];
    assert after.entries.Keys == cache.entries.Keys;
    assert |after.entries| == |cache.entries|;
    forall j | 0 <= j < |items|
      ensures Matches(changed[j], after)
    {
      assert Matches(items[j], cache);
      DifferentPlaces(items, cache, i, j);
    }
    forall j, k | 0 <= j < k < |items|
      ensures Older(changed[j], changed[k], after)
    {
      assert Older(items[j], items[k], cache);
    }
    forall p | p in after.entries
      ensures Has(changed, p)
    {
      assert Has(items, p);
      var j :| 0 <= j < |items| && items[j].path == p;
      assert changed[j].path == p;
    }
  }

  lemma AppendHolds(items: seq<CacheItem>, cache: Cache, path: Path, known: Known)
    requires Holds(items, cache) && path !in cache.entries && path != ""
    ensures Holds(items + [CacheItem(path, known)], Cache(cache.entries[path := Entry(known, cache.next)], cache.next + 1))
  {
    var after := Cache(cache.entries[path := Entry(known, cache.next)], cache.next + 1);
    var longer := items + [CacheItem(path, known)];
    assert after.entries.Keys == cache.entries.Keys + {path};
    assert |after.entries.Keys| == |cache.entries.Keys| + 1;
    forall j | 0 <= j < |longer|
      ensures Matches(longer[j], after)
    {
      if j < |items| {
        assert Matches(items[j], cache);
      }
    }
    forall j, k | 0 <= j < k < |longer|
      ensures Older(longer[j], longer[k], after)
    {
      assert Matches(items[j], cache);
      if k < |items| {
        assert Older(items[j], items[k], cache);
      }
    }
    forall p | p in after.entries
      ensures Has(longer, p)
    {
      if p == path {
        assert longer[|items|].path == p;
      } else {
        assert Has(items, p);
        var j :| 0 <= j < |items| && items[j].path == p;
        assert longer[j].path == p;
      }
    }
  }

  function Without<T>(items: seq<T>, i: nat): (rest: seq<T>)
    requires i < |items|
    ensures |rest| == |items| - 1
    ensures forall j :: 0 <= j < |rest| ==> rest[j] == items[if j < i then j else j + 1]
  {
    items[..i] + items[i + 1..]
  }

  lemma RemoveHolds(items: seq<CacheItem>, cache: Cache, i: nat)
    requires Holds(items, cache) && i < |items|
    ensures Holds(Without(items, i), Forget(cache, items[i].path))
  {
    var path := items[i].path;
    assert Matches(items[i], cache);
    var after := Forget(cache, path);
    var rest := Without(items, i);
    assert after.entries.Keys == cache.entries.Keys - {path};
    assert |after.entries.Keys| == |cache.entries.Keys| - 1;
    forall j | 0 <= j < |rest|
      ensures Matches(rest[j], after)
    {
      var was := if j < i then j else j + 1;
      assert rest[j] == items[was] && Matches(items[was], cache);
      DifferentPlaces(items, cache, i, was);
    }
    forall j, k | 0 <= j < k < |rest|
      ensures Older(rest[j], rest[k], after)
    {
      var wasJ, wasK := if j < i then j else j + 1, if k < i then k else k + 1;
      assert Older(items[wasJ], items[wasK], cache);
      assert Matches(rest[j], after) && Matches(rest[k], after);
    }
    forall p | p in after.entries
      ensures Has(rest, p)
    {
      assert Has(items, p);
      var j :| 0 <= j < |items| && items[j].path == p;
      assert rest[if j < i then j else j - 1].path == p;
    }
  }

  /** The entry that makes room is the first item, and only that one. */
  lemma OldestIsFirst(items: seq<CacheItem>, cache: Cache)
    requires Holds(items, cache) && items != []
    ensures Younger(cache.entries) == Forget(cache, items[0].path).entries
  {
    var first := items[0].path;
    assert Matches(items[0], cache);
    forall p | p in cache.entries
      ensures p == first || cache.entries[first].born < cache.entries[p].born
    {
      assert Has(items, p);
      var i :| 0 <= i < |items| && items[i].path == p;
      assert i == 0 || Older(items[0], items[i], cache);
    }
  }

  class CrcCacheArray {
    var items: array?<CacheItem>
    var count: nat
    ghost var cache: Cache

    ghost predicate Valid()
      reads this, items
    {
      && (items == null ==> count == 0)
      && (items != null ==> items.Length == MAX_FILES && count <= MAX_FILES)
      && Holds(Used(), cache)
    }

    ghost function Used(): seq<CacheItem>
      reads this, items
    {
      if items == null || count > items.Length then [] else items[..count]
    }

    constructor ()
      ensures Valid() && items == null && cache == EMPTY
    {
      items := null;
      count := 0;
      cache := EMPTY;
    }

    /** Where a path is, or count. */
    method IndexOf(path: Path) returns (index: nat)
      requires Valid()
      ensures index <= count && (index < count <==> path in cache.entries)
      ensures index < count ==> items != null && items[index].path == path
    {
      index := 0;
      while index < count
        invariant index <= count
        invariant forall i :: 0 <= i < index ==> Used()[i].path != path
      {
        if items[index].path == path {
          assert Used()[index].path == path;
          return;
        }
        index := index + 1;
      }
      assert path in cache.entries ==> Has(Used(), path);
    }

    /** proto_lookup_cached_crc. */
    method LookupCachedCrc(path: Path, size: nat, stamp: u32, now: u32, recheck: bool) returns (found: Option<Word>)
      requires Valid()
      ensures found == Lookup(cache, path, size, stamp, now, recheck)
    {
      var index := IndexOf(path);
      if index == count {
        return None;
      }
      var item := items[index];
      assert item == Used()[index];
      if item.known.size != size || item.known.stamp != stamp {
        return None;
      }
      if recheck && TicksSince(item.known.checkedTick, now) >= RECHECK_MS {
        return None;
      }
      return Some(item.known.crc);
    }

    /** memmove of everything after index, one place down. */
    method ShiftDown(index: nat)
      requires Valid() && index < count
      modifies this, items
      ensures items == old(items) && Valid()
      ensures cache == Forget(old(cache), old(Used()[index].path))
      ensures count == old(count) - 1
    {
      ghost var was := Used();
      RemoveHolds(was, cache, index);
      forall i | index <= i < count - 1 {
        items[i] := items[i + 1];
      }
      cache := Forget(cache, was[index].path);
      count := count - 1;
      assert Used() == Without(was, index);
    }

    /** proto_remember_cached_crc. */
    method RememberCachedCrc(path: PathText, known: Known)
      requires Valid()
      modifies this, items
      ensures Valid() && cache == Remember(old(cache), path, known)
      ensures items == old(items) || fresh(items)
    {
      if path == "" {
        return;
      }
      var index := IndexOf(path);
      ghost var was := Used();
      if index < count {
        UpdateHolds(was, cache, index, known);
        items[index] := CacheItem(path, known);
        cache := Remember(cache, path, known);
        assert Used() == was[index := CacheItem(path, known)];
        return;
      }
      Insert(path, known);
    }

    /** A path not yet cached: the array is allocated on first use and drops its first item when full. */
    method Insert(path: Path, known: Known)
      requires Valid() && path != "" && path !in cache.entries
      modifies this, items
      ensures Valid() && cache == Remember(old(cache), path, known)
      ensures items == old(items) || fresh(items)
    {
      if items == null {
        ghost var was := Used();
        items := new CacheItem[MAX_FILES](_ => BLANK);
        assert Used() == was;
      }
      if count >= MAX_FILES {
        OldestIsFirst(Used(), cache);
        assert Matches(Used()[0], cache);
        ShiftDown(0);
      }
      Append(path, known);
    }

    method Append(path: Path, known: Known)
      requires Valid() && items != null && count < MAX_FILES && path != "" && path !in cache.entries
      modifies this, items
      ensures Valid() && items == old(items)
      ensures cache == Cache(old(cache).entries[path := Entry(known, old(cache).next)], old(cache).next + 1)
    {
      ghost var kept := Used();
      AppendHolds(kept, cache, path, known);
      items[count] := CacheItem(path, known);
      count := count + 1;
      cache := Cache(cache.entries[path := Entry(known, cache.next)], cache.next + 1);
      assert Used() == kept + [CacheItem(path, known)];
    }

    /** proto_forget_cached_crc. */
    method ForgetCachedCrc(path: Path)
      requires Valid()
      modifies this, items
      ensures Valid() && cache == Forget(old(cache), path) && items == old(items)
    {
      var index := IndexOf(path);
      if path == "" || index == count {
        assert cache.entries - {path} == cache.entries;
        return;
      }
      assert Used()[index].path == path;
      ShiftDown(index);
    }

    /** The CRC proto_add_file_item gives a listed file, read in pieces if the cache has no answer. */
    method CrcOfItem(path: PathText, chunks: seq<Bytes>, stamp: u32, look: Look) returns (crc: Word)
      requires Valid()
      modifies this, items
      ensures Valid()
      ensures crc == Reported(old(cache), path, File(Flatten(chunks), stamp), look)
      ensures cache == AfterItem(old(cache), path, File(Flatten(chunks), stamp), look)
    {
      var size := |Flatten(chunks)|;
      if look.crcOff {
        ForgetCachedCrc(path);
        return 0;
      }
      var found := LookupCachedCrc(path, size, stamp, look.tick, look.recheck);
      if found.Some? {
        return found.value;
      }
      crc := ProtoFileCrc32(chunks);
      assert ClientCrc(Flatten(chunks)) == ServerCrc(Flatten(chunks));
      RememberCachedCrc(path, Known(size, crc, stamp, look.hashedTick));
    }
  }

  // ---------------------------------------------------------------- what the scan reports

  /** The settings and the clock while one file is listed: at the lookup, and after hashing. */
  datatype Look = Look(crcOff: bool, recheck: bool, tick: u32, hashedTick: u32)

  function KnownOf(file: File, tick: u32): Known {
    Known(|file.content|, ClientCrc(file.content), file.dosTime, tick)
  }

  function FoundFor(cache: Cache, path: Path, file: File, look: Look): Option<Word> {
    Lookup(cache, path, |file.content|, file.dosTime, look.tick, look.recheck)
  }

  function Reported(cache: Cache, path: Path, file: File, look: Look): Word {
    if look.crcOff then 0
    else if FoundFor(cache, path, file, look).Some? then FoundFor(cache, path, file, look).value
    else ClientCrc(file.content)
  }

  function AfterItem(cache: Cache, path: Path, file: File, look: Look): Cache {
    if look.crcOff then Forget(cache, path)
    else if FoundFor(cache, path, file, look).Some? then cache
    else Remember(cache, path, KnownOf(file, look.hashedTick))
  }

  // ---------------------------------------------------------------- runs

  datatype Event =
    | Edited(path: Path, after: Option<File>)
    | Listed(path: Path, look: Look)
    /** A download whose stamp the file system stored as written. */
    | Downloaded(path: Path, file: File, written: u32, look: Look)
    | DeletedLocal(path: Path)

  datatype Client = Client(files: Disk, cache: Cache)

  type Log = seq<Event>

  function Happen(client: Client, event: Event): Client {
    var Client(files, cache) := client;
    match event
    case Edited(path, Some(file)) => Client(files[path := file], cache)
    case Edited(path, None) => Client(files - {path}, cache)
    case Listed(path, look) =>
      if path in files then Client(files, AfterItem(cache, path, files[path], look)) else client
    case Downloaded(path, file, written, look) =>
      Client(
        files[path := file.(dosTime := written)],
        if look.crcOff then Forget(cache, path) else Remember(cache, path, KnownOf(file, look.hashedTick)))
    case DeletedLocal(path) => Client(files - {path}, Forget(cache, path))
  }

  function Run(log: Log): Client {
    if log == [] then Client(map[], EMPTY) else Happen(Run(log[..|log| - 1]), log[|log| - 1])
  }

  /** The files an event puts at a path: a download announces one stamp and may store another. */
  function Placed(event: Event, path: Path): set<File> {
    match event
    case Edited(p, Some(file)) => if p == path then {file} else {}
    case Downloaded(p, file, written, _) => if p == path then {file, file.(dosTime := written)} else {}
    case _ => {}
  }

  function EverAt(log: Log, path: Path): set<File> {
    if log == [] then {} else EverAt(log[..|log| - 1], path) + Placed(log[|log| - 1], path)
  }

  // ---------------------------------------------------------------- the bound

  ghost predicate Fits(cache: Cache) {
    exists items: seq<CacheItem> :: |items| <= MAX_FILES && Holds(items, cache)
  }

  lemma ForgetFits(cache: Cache, path: Path)
    requires Fits(cache)
    ensures Fits(Forget(cache, path))
  {
    var items: seq<CacheItem> :| |items| <= MAX_FILES && Holds(items, cache);
    if path in cache.entries {
      assert Has(items, path);
      var i :| 0 <= i < |items| && items[i].path == path;
      RemoveHolds(items, cache, i);
      assert Holds(Without(items, i), Forget(cache, path));
    } else {
      assert cache.entries - {path} == cache.entries;
    }
  }

  lemma RememberFits(cache: Cache, path: Path, known: Known)
    requires Fits(cache)
    ensures Fits(Remember(cache, path, known))
  {
    var items: seq<CacheItem> :| |items| <= MAX_FILES && Holds(items, cache);
    if path in cache.entries {
      assert Has(items, path);
      var i :| 0 <= i < |items| && items[i].path == path;
      UpdateHolds(items, cache, i, known);
    } else if path != "" && |items| < MAX_FILES {
      AppendHolds(items, cache, path, known);
      assert |items + [CacheItem(path, known)]| <= MAX_FILES;
    } else if path != "" {
      assert Matches(items[0], cache);
      OldestIsFirst(items, cache);
      RemoveHolds(items, cache, 0);
      var rest := Without(items, 0);
      AppendHolds(rest, Forget(cache, items[0].path), path, known);
      assert |rest + [CacheItem(path, known)]| <= MAX_FILES;
    }
  }

  lemma HappenFits(client: Client, event: Event)
    requires Fits(client.cache)
    ensures Fits(Happen(client, event).cache)
  {
    match event
    case Edited(_, _) =>
      assert Happen(client, event).cache == client.cache;
    case Listed(path, look) =>
      ForgetFits(client.cache, path);
      if path in client.files {
        RememberFits(client.cache, path, KnownOf(client.files[path], look.hashedTick));
      }
    case Downloaded(path, file, _, look) =>
      ForgetFits(client.cache, path);
      RememberFits(client.cache, path, KnownOf(file, look.hashedTick));
    case DeletedLocal(path) =>
      ForgetFits(client.cache, path);
  }

  /** After any run the cache is an array of at most 128 items with distinct paths, oldest first. */
  lemma {:induction false} CacheStaysBounded(log: Log)
    ensures Fits(Run(log).cache)
    ensures |Run(log).cache.entries| <= MAX_FILES
  {
    if log == [] {
      var items: seq<CacheItem> := [];
      assert Holds(items, EMPTY);
    } else {
      CacheStaysBounded(log[..|log| - 1]);
      HappenFits(Run(log[..|log| - 1]), log[|log| - 1]);
    }
  }

  // ---------------------------------------------------------------- when the cache answers, and what it keeps

  /** An entry answers for a file of its size and stamp; with rechecking on, only for 300 seconds of a 32-bit clock. */
  lemma AnswersExactly(cache: Cache, path: Path, file: File, look: Look)
    ensures FoundFor(cache, path, file, look).Some? <==>
      && path in cache.entries
      && cache.entries[path].known.size == |file.content| && cache.entries[path].known.stamp == file.dosTime
      && (look.recheck ==> (look.tick - cache.entries[path].known.checkedTick) % 0x1_0000_0000 < 300_000)
    ensures FoundFor(cache, path, file, look).Some? ==>
      FoundFor(cache, path, file, look) == Some(cache.entries[path].known.crc)
  {
  }

  /** An entry checked at least that long ago is not believed: the file is hashed again. */
  lemma OldEntryIsRehashed(cache: Cache, path: Path, file: File, look: Look)
    requires !look.crcOff && look.recheck && path in cache.entries
    requires (look.tick - cache.entries[path].known.checkedTick) % 0x1_0000_0000 >= 300_000
    ensures Reported(cache, path, file, look) == ClientCrc(file.content)
    ensures path != "" ==> AfterItem(cache, path, file, look).entries[path].known == KnownOf(file, look.hashedTick)
  {
  }

  /** Remembering sets the entry, and costs another one its place only if 128 are there and the path is new. */
  lemma RememberSets(cache: Cache, path: Path, known: Known)
    requires path != ""
    ensures var after := Remember(cache, path, known).entries;
      && path in after && after[path].known == known
      && (path in cache.entries || |cache.entries| < 128 ==> after.Keys == cache.entries.Keys + {path})
      && (forall other :: other in after && other != path ==> other in cache.entries && after[other] == cache.entries[other])
  {
  }

  /** Where CRCs are off a listed or downloaded file leaves the cache, and so does a deleted one in any case. */
  lemma ForgottenAfter(client: Client, event: Event)
    requires event.Listed? || event.Downloaded? ==> event.look.crcOff
    requires event.Listed? ==> event.path in client.files
    requires !event.Edited? && event.path != ""
    ensures Happen(client, event).cache.entries == client.cache.entries - {event.path}
  {
  }

  /** With CRCs on a download is remembered as it was announced. */
  lemma DownloadRemembered(client: Client, path: Path, file: File, written: u32, look: Look)
    requires path != "" && !look.crcOff
    ensures var after := Happen(client, Downloaded(path, file, written, look)).cache.entries;
      && path in after && after[path].known == Known(|file.content|, ClientCrc(file.content), file.dosTime, look.hashedTick)
  {
  }

  // ---------------------------------------------------------------- truth

  predicate LooksLike(known: Known, file: File) {
    known.size == |file.content| && known.stamp == file.dosTime && known.crc == ClientCrc(file.content)
  }

  /** Every cached CRC was that of a file once at its path, and every file on disk was put there. */
  ghost predicate Recalls(client: Client, past: Path -> set<File>) {
    && (forall path :: path in client.files ==> client.files[path] in past(path))
    && (forall path :: path in client.cache.entries ==>
         exists file :: file in past(path) && LooksLike(client.cache.entries[path].known, file))
  }

  lemma RememberKeeps(cache: Cache, path: Path, known: Known, p: Path)
    requires p in Remember(cache, path, known).entries
    ensures p != path ==> p in cache.entries && Remember(cache, path, known).entries[p].known == cache.entries[p].known
    ensures p == path ==> Remember(cache, path, known).entries[p].known == known || path == ""
    ensures p == path && path == "" ==> p in cache.entries && Remember(cache, path, known) == cache
  {
  }

  lemma {:induction false} RunRecalls(log: Log)
    ensures Recalls(Run(log), path => EverAt(log, path))
  {
    if log != [] {
      var before := log[..|log| - 1];
      var event := log[|log| - 1];
      var client, next := Run(before), Run(log);
      RunRecalls(before);
      forall p | p in next.cache.entries
        ensures exists file :: file in EverAt(log, p) && LooksLike(next.cache.entries[p].known, file)
      {
        CachedFileRecalled(client, event, p, q => EverAt(before, q));
      }
    }
  }

  lemma CachedFileRecalled(client: Client, event: Event, p: Path, past: Path -> set<File>)
    requires Recalls(client, past) && p in Happen(client, event).cache.entries
    ensures exists file :: file in past(p) + Placed(event, p) && LooksLike(Happen(client, event).cache.entries[p].known, file)
  {
    var known := Happen(client, event).cache.entries[p].known;
    if p in client.cache.entries && client.cache.entries[p].known == known {
      var file :| file in past(p) && LooksLike(known, file);
      assert file in past(p) + Placed(event, p);
    } else {
      match event
      case Edited(_, _) =>
      case DeletedLocal(_) =>
      case Listed(path, look) =>
        var file := client.files[path];
        RememberKeeps(client.cache, path, KnownOf(file, look.hashedTick), p);
        assert file in past(p) + Placed(event, p) && LooksLike(known, file);
      case Downloaded(path, file, _, look) =>
        RememberKeeps(client.cache, path, KnownOf(file, look.hashedTick), p);
        assert file in past(p) + Placed(event, p) && LooksLike(known, file);
    }
  }

  /** Size and stamp tell these files' CRCs apart. */
  predicate Distinguishing(files: set<File>) {
    forall f, g :: f in files && g in files && |f.content| == |g.content| && f.dosTime == g.dosTime ==>
      ClientCrc(f.content) == ClientCrc(g.content)
  }

  ghost predicate AlwaysTrue(files: set<File>) {
    forall log: Log, path: Path, look: Look ::
      EverAt(log, path) <= files && path in Run(log).files && !look.crcOff ==>
      Reported(Run(log).cache, path, Run(log).files[path], look) == ClientCrc(Run(log).files[path].content)
  }

  /** A path whose size and stamp have always told its contents apart is reported truly, whatever else happened. */
  lemma ReportIsTrue(log: Log, path: Path, look: Look)
    requires path in Run(log).files && !look.crcOff
    requires Distinguishing(EverAt(log, path))
    ensures Reported(Run(log).cache, path, Run(log).files[path], look) == ClientCrc(Run(log).files[path].content)
  {
    RunRecalls(log);
    var client := Run(log);
    if path in client.cache.entries {
      var file :| file in EverAt(log, path) && LooksLike(client.cache.entries[path].known, file);
      assert client.files[path] in EverAt(log, path);
    }
  }

  // ---------------------------------------------------------------- rechecking

  /** What this event of the run hashed, or took as announced, is what the entry holds. */
  predicate CheckedBy(log: Log, i: nat, path: Path, known: Known) {
    && i < |log|
    && match log[i]
       case Listed(p, look) =>
         p == path && path in Run(log[..i]).files && known == KnownOf(Run(log[..i]).files[path], look.hashedTick)
       case Downloaded(p, file, _, look) => p == path && known == KnownOf(file, look.hashedTick)
       case _ => false
  }

  ghost predicate Checked(log: Log, path: Path, known: Known) {
    exists i: nat :: CheckedBy(log, i, path, known)
  }

  lemma CheckedLater(log: Log, event: Event, path: Path, known: Known)
    requires Checked(log, path, known)
    ensures Checked(log + [event], path, known)
  {
    var i: nat :| CheckedBy(log, i, path, known);
    assert (log + [event])[..i] == log[..i] && (log + [event])[i] == log[i];
    assert CheckedBy(log + [event], i, path, known);
  }

  lemma CheckedNow(before: Log, event: Event, path: Path)
    requires path in Run(before + [event]).cache.entries
    requires path in Run(before).cache.entries ==>
      Run(before + [event]).cache.entries[path].known != Run(before).cache.entries[path].known
    ensures Checked(before + [event], path, Run(before + [event]).cache.entries[path].known)
  {
    var log, client := before + [event], Run(before);
    var known := Run(log).cache.entries[path].known;
    OneMore(before, event, path);
    assert log[..|before|] == before && log[|before|] == event;
    match event
    case Edited(_, _) =>
    case DeletedLocal(_) =>
    case Listed(p, look) =>
      RememberKeeps(client.cache, p, KnownOf(client.files[p], look.hashedTick), path);
      assert CheckedBy(log, |before|, path, known);
    case Downloaded(p, file, _, look) =>
      RememberKeeps(client.cache, p, KnownOf(file, look.hashedTick), path);
      assert CheckedBy(log, |before|, path, known);
  }

  /** Every entry was checked by some event of the run, at the tick it holds. */
  lemma {:induction false} EntriesAreChecked(log: Log, path: Path)
    requires path in Run(log).cache.entries
    ensures Checked(log, path, Run(log).cache.entries[path].known)
  {
    assert log != [];
    var before, event := log[..|log| - 1], log[|log| - 1];
    assert log == before + [event];
    var known := Run(log).cache.entries[path].known;
    if path in Run(before).cache.entries && Run(before).cache.entries[path].known == known {
      EntriesAreChecked(before, path);
      CheckedLater(before, event, path, known);
    } else {
      CheckedNow(before, event, path);
    }
  }

  ghost predicate RecentlyChecked(log: Log, path: Path, file: File, crc: Word, now: u32) {
    exists i: nat, known: Known :: CheckedBy(log, i, path, known)
      && known.size == |file.content| && known.stamp == file.dosTime && known.crc == crc
      && (now - known.checkedTick) % 0x1_0000_0000 < 300_000
  }

  /**
   * With rechecking on, whatever has happened, a report is the file's own CRC, or that of a file of the same size and
   * stamp which an event of the run hashed or downloaded at the path within the last 300 seconds of the clock.
   */
  lemma RecheckedReportIsRecent(log: Log, path: Path, look: Look)
    requires path in Run(log).files && !look.crcOff && look.recheck
    ensures var file := Run(log).files[path];
      var crc := Reported(Run(log).cache, path, file, look);
      crc == ClientCrc(file.content) || RecentlyChecked(log, path, file, crc, look.tick)
  {
    var file, cache := Run(log).files[path], Run(log).cache;
    AnswersExactly(cache, path, file, look);
    if FoundFor(cache, path, file, look).Some? {
      EntriesAreChecked(log, path);
      var known := cache.entries[path].known;
      var i: nat :| CheckedBy(log, i, path, known);
      assert RecentlyChecked(log, path, file, known.crc, look.tick);
    }
  }

  // ---------------------------------------------------------------- files that cannot be told apart

  const SOME_PATH: Path := "A"
  const QUICK: Look := Look(false, true, 0, 0)

  lemma OneMore(log: Log, event: Event, path: Path)
    ensures Run(log + [event]) == Happen(Run(log), event)
    ensures EverAt(log + [event], path) == EverAt(log, path) + Placed(event, path)
  {
    assert (log + [event])[..|log|] == log;
  }

  function Hashed(f: File): Log {
    [Edited(SOME_PATH, Some(f))] + [Listed(SOME_PATH, QUICK)]
  }

  lemma AfterHashed(f: File)
    ensures Run(Hashed(f)).files == map[SOME_PATH := f]
    ensures SOME_PATH in Run(Hashed(f)).cache.entries
    ensures Run(Hashed(f)).cache.entries[SOME_PATH].known == KnownOf(f, 0)
    ensures EverAt(Hashed(f), SOME_PATH) == {f}
  {
    assert [] + [Edited(SOME_PATH, Some(f))] == [Edited(SOME_PATH, Some(f))];
    OneMore([], Edited(SOME_PATH, Some(f)), SOME_PATH);
    OneMore([Edited(SOME_PATH, Some(f))], Listed(SOME_PATH, QUICK), SOME_PATH);
  }

  function Between(f: File, between: Option<File>): Log {
    if between.None? then Hashed(f) else Hashed(f) + [Edited(SOME_PATH, between)]
  }

  function Swapped(f: File, between: Option<File>, g: File): Log {
    Between(f, between) + [Edited(SOME_PATH, Some(g))]
  }

  lemma AfterBetween(f: File, between: Option<File>)
    ensures var client := Run(Between(f, between));
      && client.files.Keys == {SOME_PATH}
      && SOME_PATH in client.cache.entries
      && client.cache.entries[SOME_PATH].known == KnownOf(f, 0)
    ensures EverAt(Between(f, between), SOME_PATH) == {f} + if between.Some? then {between.value} else {}
  {
    AfterHashed(f);
    OneMore(Hashed(f), Edited(SOME_PATH, between), SOME_PATH);
  }

  /** f was hashed; a g that looks like it is reported under f's CRC, also when another edit came between. */
  lemma StaleReport(f: File, between: Option<File>, g: File)
    requires |f.content| == |g.content| && f.dosTime == g.dosTime
    ensures var log := Swapped(f, between, g);
      && Run(log).files == map[SOME_PATH := g]
      && Reported(Run(log).cache, SOME_PATH, g, QUICK) == ClientCrc(f.content)
      && EverAt(log, SOME_PATH) == {f, g} + if between.Some? then {between.value} else {}
  {
    AfterBetween(f, between);
    OneMore(Between(f, between), Edited(SOME_PATH, Some(g)), SOME_PATH);
  }

  /** No run over these files is ever reported wrongly exactly when size and stamp tell their CRCs apart. */
  lemma AlwaysTrueIffDistinguishing(files: set<File>)
    ensures AlwaysTrue(files) <==> Distinguishing(files)
  {
    if Distinguishing(files) {
      forall log: Log, path: Path, look: Look |
        EverAt(log, path) <= files && path in Run(log).files && !look.crcOff
        ensures Reported(Run(log).cache, path, Run(log).files[path], look) == ClientCrc(Run(log).files[path].content)
      {
        ReportIsTrue(log, path, look);
      }
    }
    if AlwaysTrue(files) {
      forall f, g | f in files && g in files && |f.content| == |g.content| && f.dosTime == g.dosTime
        ensures ClientCrc(f.content) == ClientCrc(g.content)
      {
        StaleReport(f, None, g);
        var log := Swapped(f, None, g);
        assert EverAt(log, SOME_PATH) <= files && SOME_PATH in Run(log).files;
      }
    }
  }

  /** Each edit changes the size or the stamp of the file it replaces. */
  predicate EditsShow(log: Log) {
    forall i :: 0 <= i < |log| ==> EditShows(Run(log[..i]).files, log[i])
  }

  predicate EditShows(files: Disk, event: Event) {
    event.Edited? && event.after.Some? && event.path in files ==>
      var was, now := files[event.path], event.after.value;
      |was.content| != |now.content| || was.dosTime != now.dosTime
  }

  /** Edits that each show are not enough: two of them between scans can restore the size and the stamp. */
  lemma TwoShowingEditsHideAChange() returns (log: Log)
    ensures EditsShow(log) && Run(log).files.Keys == {SOME_PATH}
    ensures Reported(Run(log).cache, SOME_PATH, Run(log).files[SOME_PATH], QUICK)
      != ClientCrc(Run(log).files[SOME_PATH].content)
  {
    var f, x, g := File([0], 0), File([0, 0], 0), File([1], 0);
    log := Swapped(f, Some(x), g);
    StaleReport(f, Some(x), g);
    BurstDetected([0], [1], 0);
    EditsOfSwapShow(f, x, g);
  }

  lemma EditsOfSwapShow(f: File, x: File, g: File)
    requires |f.content| != |x.content| && |x.content| != |g.content|
    ensures EditsShow(Swapped(f, Some(x), g))
  {
    var log := Swapped(f, Some(x), g);
    var hashed, middle := Hashed(f), Between(f, Some(x));
    AfterHashed(f);
    OneMore(hashed, Edited(SOME_PATH, Some(x)), SOME_PATH);
    assert log[..2] == hashed && log[..3] == middle;
    assert log[0] == Edited(SOME_PATH, Some(f)) && Run(log[..0]).files == map[];
    forall i | 0 <= i < |log|
      ensures EditShows(Run(log[..i]).files, log[i])
    {
      assert i == 0 || i == 1 || i == 2 || i == 3;
    }
  }
}
