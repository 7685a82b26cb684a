/**
 * The client's local paths (client/proto.c): a protocol path behind the root directory, and the temporary file
 * beside it, both in buffers of 144 characters.
 */
module LocalPaths {
  import opened Wrappers
  import opened Ordering
  import opened Names
  import opened HexText

  /** PROTO_LOCAL_PATH_CAPACITY. */
  const CAPACITY: nat := 144

  predicate IsSep(c: char) { c == '\\' || c == '/' }

  /** With a separator at the end, unless there is one or nothing. */
  function Ended(s: string): string {
    if s == [] || IsSep(s[|s| - 1]) then s else s + ['\\']
  }

  function Trimmed(s: string): string {
    if s != [] && s[|s| - 1] == '\\' then s[..|s| - 1] else s
  }

  /** What stands before the path. */
  function Base(root: string): string {
    Ended(Trimmed(Ended(root)))
  }

  function ToLocal(path: Path): (local: string)
    ensures |local| == |path|
  {
    seq(|path|, i requires 0 <= i < |path| => if path[i] == '/' then '\\' else path[i])
  }

  function LocalPath(root: string, path: Path): Option<string> {
    if |Ended(root)| >= CAPACITY then None
    else if path == [] then Some(Trimmed(Ended(root)))
    else if |Base(root)| + |path| >= CAPACITY then None
    else Some(Base(root) + ToLocal(path))
  }

  /** Where the file name starts. */
  function NameStart(local: string): (n: nat)
    ensures n <= |local|
    ensures forall i :: n <= i < |local| ==> !IsSep(local[i])
    ensures n > 0 ==> IsSep(local[n - 1])
  {
    if local == [] || IsSep(local[|local| - 1]) then |local| else NameStart(local[..|local| - 1])
  }

  function TempPath(local: string): Option<string> {
    if local == [] then None
    else if NameStart(local) + |TEMP_NAME| < CAPACITY then Some(local[..NameStart(local)] + TEMP_NAME)
    else None
  }

  // ---------------------------------------------------------------- the buffers

  /** proto_append_text behind the first `length` characters of the buffer. */
  method AppendText(target: array<char>, length: nat, source: string) returns (ok: bool)
    requires CText(source) && length < target.Length
    modifies target
    ensures ok <==> length + |source| < target.Length
    ensures ok ==> Carries(target, old(target[..length]) + source)
  {
    for i := 0 to |source|
      invariant length + i < target.Length
      invariant target[..length + i] == old(target[..length]) + source[..i]
    {
      if length + i + 1 >= target.Length {
        return false;
      }
      target[length + i] := source[i];
    }
    target[length + |source|] := '\0';
    assert source[..|source|] == source;
    assert target[..length + |source|] == old(target[..length]) + source;
    return true;
  }

  /** proto_local_join with an empty right side. */
  method ProtoLocalJoin(target: array<char>, root: string) returns (ok: bool)
    requires CText(root) && target.Length > 0
    modifies target
    ensures ok <==> |Ended(root)| < target.Length
    ensures ok ==> Carries(target, Ended(root))
  {
    target[0] := '\0';
    ok := AppendText(target, 0, root);
    if !ok {
      return;
    }
    assert [] + root == root;
    if root != [] && !IsSep(target[|root| - 1]) {
      ok := AppendText(target, |root|, ['\\']);
    }
  }

  /** Drops a backslash at the end, then makes sure that a separator is there. */
  method EndBase(target: array<char>, root: string) returns (ok: bool, length: nat)
    requires target.Length == CAPACITY && Carries(target, Ended(root))
    modifies target
    ensures ok <==> |Base(root)| < CAPACITY
    ensures ok ==> length == |Base(root)| && target[..length] == Base(root)
  {
    length := |Ended(root)|;
    assert target[..length] == Ended(root);
    if length > 0 && target[length - 1] == '\\' {
      length := length - 1;
      target[length] := '\0';
    }
    assert target[..length] == Trimmed(Ended(root));
    if length > 0 && !IsSep(target[length - 1]) {
      if length + 1 >= target.Length {
        return false, length;
      }
      target[length] := '\\';
      length := length + 1;
    }
    return true, length;
  }

  method TrimInPlace(target: array<char>, root: string)
    requires Carries(target, Ended(root))
    modifies target
    ensures Carries(target, Trimmed(Ended(root)))
  {
    var length := |Ended(root)|;
    assert target[..length] == Ended(root);
    if length > 0 && target[length - 1] == '\\' {
      target[length - 1] := '\0';
    }
  }

  /** Appends the path, its slashes turned round. */
  method AppendPath(target: array<char>, start: nat, path: Path) returns (ok: bool)
    requires target.Length == CAPACITY && start < CAPACITY
    modifies target
    ensures ok <==> start + |path| < CAPACITY
    ensures ok ==> Carries(target, old(target[..start]) + ToLocal(path))
  {
    var length := start;
    var local := ToLocal(path);
    for index := 0 to |path|
      invariant length == start + index < CAPACITY
      invariant target[..length] == old(target[..start]) + local[..index]
    {
      if length + 1 >= target.Length {
        return false;
      }
      target[length] := if path[index] == '/' then '\\' else path[index];
      length := length + 1;
    }
    target[length] := '\0';
    assert local[..|path|] == local;
    assert target[..length] == old(target[..start]) + local;
    return true;
  }

  /** proto_protocol_to_local. */
  method ProtoProtocolToLocal(target: array<char>, root: string, path: Path) returns (ok: bool)
    requires CText(root) && target.Length == CAPACITY
    modifies target
    ensures ok <==> LocalPath(root, path).Some?
    ensures ok ==> Carries(target, LocalPath(root, path).value)
  {
    ok := ProtoLocalJoin(target, root);
    if !ok {
      return;
    }
    if path == [] {
      TrimInPlace(target, root);
      return true;
    }
    var length;
    ok, length := EndBase(target, root);
    if !ok {
      return;
    }
    ok := AppendPath(target, length, path);
  }

  /** proto_build_temp_path. */
  method ProtoBuildTempPath(target: array<char>, local: string) returns (ok: bool)
    requires CText(local) && |local| < CAPACITY && target.Length == CAPACITY
    modifies target
    ensures ok <==> TempPath(local).Some?
    ensures ok ==> Carries(target, TempPath(local).value)
  {
    if local == [] {
      return false;
    }
    CopyText(target, local);
    var index := FindNameStart(local);
    ghost var directory := local[..index];
    assert target[..index] == directory by {
      assert target[..|local|][..index] == target[..index];
    }
    ok := AppendText(target, index, TEMP_NAME);
  }

  method CopyText(target: array<char>, source: string)
    requires CText(source) && |source| < target.Length
    modifies target
    ensures Carries(target, source)
  {
    var ok := AppendText(target, 0, source);
    assert [] + source == source;
  }

  method FindNameStart(local: string) returns (index: nat)
    ensures index == NameStart(local)
  {
    index := |local|;
    while index > 0 && !IsSep(local[index - 1])
      invariant index <= |local|
      invariant forall i :: index <= i < |local| ==> !IsSep(local[i])
    {
      index := index - 1;
    }
    NameStartIs(local, index);
  }

  // ---------------------------------------------------------------- which paths fit

  // ---------------------------------------------------------------- what a local path is

  lemma {:induction false} TurnedSplit(path: Path)
    requires '\\' !in path
    ensures Split(ToLocal(path), '\\') == Split(path, '/')
  {
    if path != [] {
      assert ToLocal(path)[1..] == ToLocal(path[1..]);
      TurnedSplit(path[1..]);
    }
  }

  /** No slash is left, and between the backslashes stand the path's components. */
  lemma LocalComponents(path: Path)
    requires ServerLists(path)
    ensures '/' !in ToLocal(path) && Split(ToLocal(path), '\\') == Split(path, '/')
  {
    var parts := Split(path, '/');
    forall i | 0 <= i < |parts|
      ensures '\\' !in parts[i]
    {
      assert UpperShort(parts[i], true);
      var base: nat :| base <= 8 && ShortNameAt(parts[i], true, base);
      forall j | 0 <= j < |parts[i]|
        ensures parts[i][j] != '\\'
      {
        FatAlphabet(parts[i][j]);
      }
    }
    NotInJoin(parts);
    JoinSplit(path, '/');
    TurnedSplit(path);
  }

  lemma {:induction false} NotInJoin(parts: seq<string>)
    requires |parts| >= 1 && forall i :: 0 <= i < |parts| ==> '\\' !in parts[i]
    ensures '\\' !in Join(parts, '/')
  {
    if |parts| > 1 {
      NotInJoin(parts[1..]);
    }
  }

  /** The root does not end in a backslash with nothing, or another separator, before it. */
  predicate PlainRoot(root: string) {
    root != [] && root[|root| - 1] == '\\' ==> |root| > 1 && root[|root| - 2] != '\\' && root[|root| - 2] != '/'
  }

  /**
   * The path stands behind the root and one separator, which the root may bring along, without a root by itself - if
   * and only if the root is plain.  Otherwise the root loses its last backslash: behind the root directory of a drive
   * that is named by a backslash alone the path becomes relative.
   */
  lemma LocalPathIs(root: string, path: Path)
    requires path != [] && LocalPath(root, path).Some?
    ensures
      var behind := if root == [] || root[|root| - 1] == '\\' || root[|root| - 1] == '/' then root else root + ['\\'];
      LocalPath(root, path).value == (if PlainRoot(root) then behind else root[..|root| - 1]) + ToLocal(path)
  {
  }

  predicate LocalFits(base: nat, path: Path) { base + |path| < CAPACITY }

  predicate TempFits(base: nat, path: Path) { base + |path| - |FileName(path)| + |TEMP_NAME| < CAPACITY }

  lemma LocalPathFits(root: string, path: Path)
    requires path != []
    ensures LocalPath(root, path).Some? <==> LocalFits(|Base(root)|, path)
    ensures LocalPath(root, path).Some? <==> |Base(root)| + |path| <= 143
  {
  }

  lemma {:induction false} NameStartIs(local: string, n: nat)
    requires n <= |local| && (forall i :: n <= i < |local| ==> !IsSep(local[i])) && (n > 0 ==> IsSep(local[n - 1]))
    ensures NameStart(local) == n
  {
    if n < |local| {
      NameStartIs(local[..|local| - 1], n);
    }
  }

  lemma DirectoryOf(path: Path) returns (directory: Path)
    ensures path == directory + FileName(path)
    ensures directory == [] || directory[|directory| - 1] == '/'
  {
    JoinSplit(path, '/');
    directory := JoinEndsWithLast(Split(path, '/'));
  }

  /** A listed path is a directory part, empty or ending in a slash, and its file name. */
  lemma DirectoryAndName(path: Path) returns (directory: Path)
    requires ServerLists(path)
    ensures path == directory + FileName(path)
    ensures directory == [] || directory[|directory| - 1] == '/'
    ensures FileName(path) != [] && forall i :: 0 <= i < |FileName(path)| ==> !IsSep(FileName(path)[i])
  {
    directory := DirectoryOf(path);
    NameIsShort(path);
    NameHasNoSep(FileName(path));
  }

  lemma NameIsShort(path: Path)
    requires ServerLists(path)
    ensures ShortName(FileName(path), true)
  {
    var parts := Split(path, '/');
    assert UpperShort(parts[|parts| - 1], true);
  }

  lemma {:induction false} JoinEndsWithLast(parts: seq<string>) returns (directory: string)
    requires |parts| >= 1
    ensures Join(parts, '/') == directory + parts[|parts| - 1]
    ensures directory == [] || directory[|directory| - 1] == '/'
  {
    if |parts| == 1 {
      directory := [];
    } else {
      var rest := JoinEndsWithLast(parts[1..]);
      directory := parts[0] + ['/'] + rest;
    }
  }

  lemma NameHasNoSep(name: string)
    requires ShortName(name, true)
    ensures name != [] && forall i :: 0 <= i < |name| ==> !IsSep(name[i])
  {
    var base: nat :| base <= 8 && ShortNameAt(name, true, base);
    forall i | 0 <= i < |name|
      ensures !IsSep(name[i])
    {
      if i != base {
        assert IsFatChar(UpperChar(name[i]));
      }
    }
  }

  lemma BaseEnds(root: string)
    ensures Base(root) == [] || IsSep(Base(root)[|Base(root)| - 1])
  {
  }

  lemma TurnedName(directory: Path, name: string)
    requires forall i :: 0 <= i < |name| ==> !IsSep(name[i])
    requires directory == [] || directory[|directory| - 1] == '/'
    ensures ToLocal(directory + name) == ToLocal(directory) + name
    ensures directory != [] ==> IsSep(ToLocal(directory)[|directory| - 1])
  {
    assert forall i :: 0 <= i < |name| ==> (directory + name)[|directory| + i] == name[i];
  }

  lemma NameBehind(prefix: string, name: string)
    requires forall i :: 0 <= i < |name| ==> !IsSep(name[i])
    requires prefix == [] || IsSep(prefix[|prefix| - 1])
    ensures NameStart(prefix + name) == |prefix|
  {
    var local := prefix + name;
    assert forall i :: |prefix| <= i < |local| ==> local[i] == name[i - |prefix|];
    NameStartIs(local, |prefix|);
  }

  lemma TempPathOf(base: string, path: Path, local: string) returns (n: nat)
    requires ServerLists(path) && local == base + ToLocal(path)
    requires base == [] || IsSep(base[|base| - 1])
    ensures n == NameStart(local) == |base| + |path| - |FileName(path)|
    ensures local[n..] == FileName(path)
  {
    var directory := DirectoryAndName(path);
    var prefix, name := base + ToLocal(directory), FileName(path);
    TurnedName(directory, name);
    assert local == prefix + name;
    NameBehind(prefix, name);
    n := |prefix|;
  }

  /** The temporary file's path fits exactly if the directory leaves room for its name ... */
  lemma TempPathFits(root: string, path: Path)
    requires ServerLists(path) && path != [] && LocalPath(root, path).Some?
    ensures TempPath(LocalPath(root, path).value).Some? <==> TempFits(|Base(root)|, path)
    ensures TempPath(LocalPath(root, path).value).Some? <==> |Base(root)| + |path| - |FileName(path)| <= 135
  {
    BaseEnds(root);
    var n := TempPathOf(Base(root), path, LocalPath(root, path).value);
  }

  /** ... and it is the download's own target exactly if the file bears that name. */
  lemma TempIsTarget(root: string, path: Path)
    requires ServerLists(path) && path != [] && LocalPath(root, path).Some?
    requires TempPath(LocalPath(root, path).value).Some?
    ensures var local := LocalPath(root, path).value;
      TempPath(local).value == local <==> FileName(path) == TEMP_NAME
  {
    BaseEnds(root);
    var local := LocalPath(root, path).value;
    var n := TempPathOf(Base(root), path, local);
    assert local == local[..n] + local[n..];
    if TempPath(local).value == local {
      assert (local[..n] + TEMP_NAME)[n..] == TEMP_NAME;
    }
  }

  /** It stands in the target's directory. */
  lemma TempPathIs(root: string, path: Path)
    requires ServerLists(path) && path != [] && LocalPath(root, path).Some?
    requires TempPath(LocalPath(root, path).value).Some?
    ensures var local := LocalPath(root, path).value;
      |FileName(path)| <= |local| && TempPath(local).value == local[..|local| - |FileName(path)|] + "SYNC.$$$"
  {
    BaseEnds(root);
    var local := LocalPath(root, path).value;
    var n := TempPathOf(Base(root), path, local);
    assert |local| - |FileName(path)| == n;
  }
}
