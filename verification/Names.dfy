/**
 * 8.3 names and protocol paths.
 *
 * A name is the sequence of its bytes, one character each.  The server's check
 * (server/src/main.rs) splits at dots; the client's (client/proto.c) walks a 16-byte copy in place.
 * Both are compared with one declarative notion of a short name.
 */
module Names {
  import opened Wrappers
  import opened Ordering

  // ---------------------------------------------------------------- characters

  predicate IsFatChar(c: char) {
    'A' <= c <= 'Z' || '0' <= c <= '9' || c in "$%'-_@~`!(){}^#&"
  }

  /** What no short name may hold among the printing characters of ASCII. */
  const FORBIDDEN := "\"*+,./:;<=>?[\\]|"

  /** The alphabet by its complement; small letters are read as capitals. */
  lemma FatAlphabet(c: char)
    ensures IsFatChar(c) <==> '!' <= c <= '~' && !('a' <= c <= 'z') && c !in FORBIDDEN
    ensures IsFatChar(UpperChar(c)) <==> '!' <= c <= '~' && c !in FORBIDDEN
  {
  }

  predicate IsAscii(c: char) { (c as int) < 128 }

  function UpperChar(c: char): char {
    if 'a' <= c <= 'z' then (c as int - 'a' as int + 'A' as int) as char else c
  }

  function Upper(s: string): (u: string)
    ensures |u| == |s|
    ensures forall i :: 0 <= i < |s| ==> u[i] == UpperChar(s[i])
  {
    seq(|s|, i requires 0 <= i < |s| => UpperChar(s[i]))
  }

  // ---------------------------------------------------------------- what a short name is

  predicate FatChars(s: string, from: nat, to: nat)
    requires to <= |s|
  {
    forall i :: from <= i < to ==> IsFatChar(UpperChar(s[i]))
  }

  /** One to eight characters, then nothing or (where allowed) a dot and one to three more. */
  predicate ShortNameAt(name: string, extension: bool, base: nat) {
    && 1 <= base <= 8 && base <= |name|
    && FatChars(name, 0, base)
    && (base == |name| ||
        (extension && name[base] == '.' && 1 <= |name| - base - 1 <= 3 && FatChars(name, base + 1, |name|)))
  }

  predicate ShortName(name: string, extension: bool) {
    exists base: nat :: base <= 8 && ShortNameAt(name, extension, base)
  }

  // ---------------------------------------------------------------- splitting

  function Split(s: string, sep: char): (parts: seq<string>)
    ensures |parts| >= 1
  {
    if s == [] then [[]]
    else
      var rest := Split(s[1..], sep);
      if s[0] == sep then [[]] + rest else [[s[0]] + rest[0]] + rest[1..]
  }

  function Join(parts: seq<string>, sep: char): string
    requires |parts| >= 1
  {
    if |parts| == 1 then parts[0] else parts[0] + [sep] + Join(parts[1..], sep)
  }

  lemma {:induction false} SplitClean(s: string, sep: char)
    ensures forall i :: 0 <= i < |Split(s, sep)| ==> sep !in Split(s, sep)[i]
  {
    if s != [] {
      SplitClean(s[1..], sep);
    }
  }

  lemma {:induction false} JoinSplit(s: string, sep: char)
    ensures Join(Split(s, sep), sep) == s
  {
    if s != [] {
      JoinSplit(s[1..], sep);
      var rest := Split(s[1..], sep);
      if s[0] == sep {
        assert ([[]] + rest)[1..] == rest;
      } else {
        var parts := [[s[0]] + rest[0]] + rest[1..];
        assert parts[1..] == rest[1..];
        assert s == [s[0]] + s[1..];
        if |rest| > 1 {
          assert [s[0]] + (rest[0] + [sep] + Join(rest[1..], sep)) == ([s[0]] + rest[0]) + [sep] + Join(rest[1..], sep);
        }
      }
    }
  }

  lemma {:induction false} SplitNoSeparator(s: string, sep: char)
    requires sep !in s
    ensures Split(s, sep) == [s]
  {
    if s != [] {
      SplitNoSeparator(s[1..], sep);
      assert s == [s[0]] + s[1..];
    }
  }

  lemma {:induction false} SplitAt(left: string, sep: char, right: string)
    requires sep !in left
    ensures Split(left + [sep] + right, sep) == [left] + Split(right, sep)
  {
    var s := left + [sep] + right;
    if left == [] {
      assert s[1..] == right;
    } else {
      SplitAt(left[1..], sep, right);
      assert s[1..] == left[1..] + [sep] + right;
      assert left == [left[0]] + left[1..];
    }
  }

  lemma {:induction false} SplitJoin(parts: seq<string>, sep: char)
    requires |parts| >= 1
    requires forall i :: 0 <= i < |parts| ==> sep !in parts[i]
    ensures Split(Join(parts, sep), sep) == parts
  {
    if |parts| == 1 {
      SplitNoSeparator(parts[0], sep);
      assert parts == [parts[0]];
    } else {
      SplitJoin(parts[1..], sep);
      SplitAt(parts[0], sep, Join(parts[1..], sep));
      assert parts == [parts[0]] + parts[1..];
    }
  }

  // ---------------------------------------------------------------- the server's check

  predicate IsValidFatComponent(name: string, isFile: bool) {
    if name == [] || !(forall i :: 0 <= i < |name| ==> IsAscii(name[i])) || name == "." || name == ".." then false
    else
      var upper := Upper(name);
      var parts := Split(upper, '.');
      if |parts| > 2 then false
      else
        var base := parts[0];
        if |base| == 0 || |base| > 8 then false
        else if |parts| == 2 && (|parts[1]| == 0 || |parts[1]| > 3) then false
        else if |parts| == 2 && !(forall i :: 0 <= i < |parts[1]| ==> IsFatChar(parts[1][i])) then false
        else if |parts| == 1 && !isFile && '.' in upper then false
        else forall i :: 0 <= i < |base| ==> IsFatChar(base[i])
  }

  lemma UpperDot(name: string, i: nat)
    requires i < |name|
    ensures Upper(name)[i] == '.' <==> name[i] == '.'
  {
  }

  lemma FatCharIsAscii(c: char)
    requires IsFatChar(UpperChar(c))
    ensures IsAscii(c) && c != '.' && c != '/' && c != '\0'
  {
  }

  lemma ShortNameIsAscii(name: string, extension: bool, base: nat)
    requires ShortNameAt(name, extension, base)
    ensures forall i :: 0 <= i < |name| ==> IsAscii(name[i]) && name[i] != '\0'
    ensures name[0] != '.'
  {
    FatCharIsAscii(name[0]);
    forall i | 0 <= i < |name| ensures IsAscii(name[i]) && name[i] != '\0' {
      if i != base {
        FatCharIsAscii(name[i]);
      }
    }
  }

  lemma ShortNameSplits(name: string, base: nat)
    requires ShortNameAt(name, true, base)
    ensures Split(Upper(name), '.') ==
      if base == |name| then [Upper(name)] else [Upper(name)[..base], Upper(name)[base + 1..]]
  {
    var upper := Upper(name);
    assert forall i :: 0 <= i < base ==> upper[i] != '.' by {
      forall i | 0 <= i < base ensures upper[i] != '.' {
        FatCharIsAscii(name[i]);
      }
    }
    if base == |name| {
      SplitNoSeparator(upper, '.');
    } else {
      var ext := upper[base + 1..];
      assert forall i :: 0 <= i < |ext| ==> ext[i] != '.' by {
        forall i | 0 <= i < |ext| ensures ext[i] != '.' {
          FatCharIsAscii(name[base + 1 + i]);
        }
      }
      SplitNoSeparator(ext, '.');
      SplitAt(upper[..base], '.', ext);
      assert upper == upper[..base] + ['.'] + ext;
    }
  }

  lemma ShortNameAccepted(name: string, isFile: bool, base: nat)
    requires ShortNameAt(name, true, base)
    ensures IsValidFatComponent(name, isFile)
  {
    ShortNameSplits(name, base);
    ShortNameIsAscii(name, true, base);
  }

  lemma PartsAreRanges(name: string, base: string, ext: string)
    requires Upper(name) == base + ['.'] + ext
    ensures |name| == |base| + 1 + |ext| && name[|base|] == '.'
    ensures (forall i :: 0 <= i < |base| ==> IsFatChar(base[i])) ==> FatChars(name, 0, |base|)
    ensures (forall i :: 0 <= i < |ext| ==> IsFatChar(ext[i])) ==> FatChars(name, |base| + 1, |name|)
  {
    var upper := Upper(name);
    UpperDot(name, |base|);
    assert forall i :: 0 <= i < |base| ==> upper[i] == base[i];
    assert forall i :: |base| + 1 <= i < |name| ==> upper[i] == ext[i - |base| - 1];
  }

  lemma AcceptedIsShort(name: string, isFile: bool)
    requires IsValidFatComponent(name, isFile)
    ensures ShortName(name, true)
  {
    var upper := Upper(name);
    var parts := Split(upper, '.');
    JoinSplit(upper, '.');
    if |parts| == 2 {
      assert parts[1..] == [parts[1]];
      PartsAreRanges(name, parts[0], parts[1]);
    } else {
      assert upper == parts[0];
    }
    assert ShortNameAt(name, true, |parts[0]|);
  }

  /**
   * The server accepts exactly the short names, and lets a directory have an extension just as a file may:
   * its directory clause never fires.
   */
  lemma ServerNames(name: string, isFile: bool)
    ensures IsValidFatComponent(name, isFile) <==> ShortName(name, true)
  {
    if ShortName(name, true) {
      var base: nat :| base <= 8 && ShortNameAt(name, true, base);
      ShortNameAccepted(name, isFile, base);
    }
    if IsValidFatComponent(name, isFile) {
      AcceptedIsShort(name, isFile);
    }
  }

  // ---------------------------------------------------------------- the client's check

  /** proto_copy_text followed by the upper-casing loop: the first fifteen characters, then a terminator. */
  method CopyUpper(name: string, upper: array<char>) returns (length: nat, ascii: bool)
    requires upper.Length == 16 && '\0' !in name
    modifies upper
    ensures length == if |name| < 15 then |name| else 15
    ensures ascii <==> forall i :: 0 <= i < length ==> IsAscii(name[i])
    ensures ascii ==> forall i :: 0 <= i < length ==> upper[i] == UpperChar(name[i]) && upper[i] != '\0'
    ensures upper[length] == '\0'
  {
    length := 0;
    while length + 1 < upper.Length && length < |name|
      invariant length <= 15 && length <= |name|
      invariant forall i :: 0 <= i < length ==> upper[i] == name[i]
    {
      upper[length] := name[length];
      length := length + 1;
    }
    upper[length] := '\0';
    ascii := true;
    var index := 0;
    while upper[index] != '\0'
      invariant index <= length
      invariant upper[length] == '\0'
      invariant forall i :: 0 <= i < index ==> IsAscii(name[i]) && upper[i] == UpperChar(name[i]) && upper[i] != '\0'
      invariant forall i :: index <= i < length ==> upper[i] == name[i]
      decreases length - index
    {
      if upper[index] as int >= 128 {
        ascii := false;
        assert !IsAscii(name[index]);
        return;
      }
      if 'a' <= upper[index] <= 'z' {
        upper[index] := (upper[index] as int - 'a' as int + 'A' as int) as char;
      }
      index := index + 1;
    }
  }

  /** Scans the upper-cased copy of name[from..to]: are all its characters legal? */
  method AllFat(upper: array<char>, from: nat, to: nat, ghost name: string) returns (ok: bool)
    requires from <= to < upper.Length && to <= |name|
    requires forall i :: from <= i < to ==> upper[i] == UpperChar(name[i])
    ensures ok <==> FatChars(name, from, to)
  {
    for index := from to to
      invariant forall i :: from <= i < index ==> IsFatChar(UpperChar(name[i]))
    {
      if !IsFatChar(upper[index]) {
        return false;
      }
    }
    return true;
  }

  /** The index of the first dot of upper[from..length], or `length`. */
  method FindDot(upper: array<char>, from: nat, length: nat) returns (dot: nat)
    requires length < upper.Length
    ensures from <= length ==> from <= dot <= length
    ensures from > length ==> dot == length
    ensures forall i :: from <= i < dot ==> upper[i] != '.'
    ensures dot < length ==> upper[dot] == '.'
  {
    var index := from;
    while index < length
      invariant forall i :: from <= i < index && i < length ==> upper[i] != '.'
      invariant from <= length ==> from <= index <= length
    {
      if upper[index] == '.' {
        return index;
      }
      index := index + 1;
    }
    return length;
  }

  /** The name has one candidate split: before its first dot.  Judges it. */
  lemma OnlySplit(name: string, isFile: bool, upper: seq<char>, length: nat, dot: nat)
    requires '\0' !in name
    requires length == (if |name| < 15 then |name| else 15) && length <= |upper|
    requires forall i :: 0 <= i < length ==> upper[i] == UpperChar(name[i])
    requires dot <= length
    requires forall i :: 0 <= i < dot ==> upper[i] != '.'
    requires dot < length ==> upper[dot] == '.'
    ensures ShortName(name, isFile) <==> ShortNameAt(name, isFile, dot)
  {
    if ShortName(name, isFile) {
      var b: nat :| b <= 8 && ShortNameAt(name, isFile, b);
      BaseEndsAtDot(name, isFile, b, dot, upper, length);
    }
  }

  method ProtoIsValidComponent(name: string, isFile: bool) returns (ok: bool)
    requires '\0' !in name
    ensures ok <==> ShortName(name, isFile)
  {
    if ShortName(name, isFile) {
      ghost var b: nat :| b <= 8 && ShortNameAt(name, isFile, b);
      ShortNameIsAscii(name, isFile, b);
    }
    if name == "" || name == "." || name == ".." {
      return false;
    }
    var upper := new char[16];
    var length, ascii := CopyUpper(name, upper);
    if !ascii {
      return false;
    }
    var dotIndex := FindDot(upper, 0, length);
    OnlySplit(name, isFile, upper[..], length, dotIndex);
    if !isFile {
      if dotIndex != length {
        return false;
      }
    } else {
      var second := FindDot(upper, dotIndex + 1, length);
      if second != length {
        if ShortNameAt(name, isFile, dotIndex) { NoSecondDot(name, dotIndex, second); }
        return false;
      }
    }
    if dotIndex == 0 || dotIndex > 8 {
      return false;
    }
    var baseOk := AllFat(upper, 0, dotIndex, name);
    if !baseOk {
      return false;
    }
    if upper[dotIndex] == '.' {
      var extLength := length - dotIndex - 1;
      if extLength == 0 || extLength > 3 {
        return false;
      }
      assert length == |name|;
      var extOk := AllFat(upper, dotIndex + 1, length, name);
      if !extOk {
        return false;
      }
    }
    return true;
  }

  lemma BaseEndsAtDot(name: string, extension: bool, b: nat, base: nat, upper: seq<char>, length: nat)
    requires ShortNameAt(name, extension, b)
    requires length == (if |name| < 15 then |name| else 15) && length <= |upper|
    requires forall i :: 0 <= i < length ==> upper[i] == UpperChar(name[i])
    requires base <= length
    requires forall i :: 0 <= i < base ==> upper[i] != '.'
    requires base < length ==> upper[base] == '.'
    ensures b == base
  {
    if base < b {
      FatCharIsAscii(name[base]);
    }
  }

  lemma NoSecondDot(name: string, base: nat, index: nat)
    requires ShortNameAt(name, true, base) && base < index < |name|
    ensures name[index] != '.'
  {
    FatCharIsAscii(name[index]);
  }

  /** File names: both programs accept the same ones, although the client only looks at 15 characters. */
  method SameFileNames(name: string) returns (client: bool)
    requires '\0' !in name
    ensures client == IsValidFatComponent(name, true)
  {
    ServerNames(name, true);
    client := ProtoIsValidComponent(name, true);
  }

  // ---------------------------------------------------------------- protocol paths

  /** PROTO_PATH_CAPACITY: the client's buffers for protocol paths. */
  const PATH_CAPACITY: nat := 144

  const RESERVED: seq<string> := ["SYNC.$$$", "W16SYNC.LOG", "W16SYNC.INI", "W16NEW.EXE", "W16UPD.INI"]

  const TEMP_NAME := "SYNC.$$$"

  function NormalizeComponents(parts: seq<string>): Result<seq<string>> {
    if parts == [] then Success([])
    else if parts[0] == [] then Failure("doubled separator")
    else if !IsValidFatComponent(parts[0], true) then Failure("not an 8.3 name")
    else After([Upper(parts[0])], NormalizeComponents(parts[1..]))
  }

  function After(done: seq<string>, rest: Result<seq<string>>): Result<seq<string>> {
    match rest
    case Failure(e) => Failure(e)
    case Success(more) => Success(done + more)
  }

  function NormalizeProtocolPath(path: Path): Result<Path> {
    if path == [] then Failure("empty path")
    else
      match NormalizeComponents(Split(path, '/'))
      case Failure(e) => Failure(e)
      case Success(parts) => if parts == [] then Failure("empty path") else Success(Join(parts, '/'))
  }

  lemma AfterNothing(rest: Result<seq<string>>)
    ensures After([], rest) == rest
  {
    if rest.Success? {
      assert [] + rest.value == rest.value;
    }
  }

  lemma NormalizeOne(done: seq<string>, parts: seq<string>)
    requires parts != []
    ensures var all, first := After(done, NormalizeComponents(parts)), parts[0];
      all ==
        if first == [] then Failure("doubled separator")
        else if !IsValidFatComponent(first, true) then Failure("not an 8.3 name")
        else After(done + [Upper(first)], NormalizeComponents(parts[1..]))
  {
    AfterTwice(done, [Upper(parts[0])], NormalizeComponents(parts[1..]));
  }

  lemma AfterTwice(done: seq<string>, next: seq<string>, rest: Result<seq<string>>)
    ensures After(done, After(next, rest)) == After(done + next, rest)
  {
    if rest.Success? {
      assert done + (next + rest.value) == (done + next) + rest.value;
    }
  }

  /** normalize_protocol_path. */
  method NormalizePath(path: Path) returns (normalized: Result<Path>)
    ensures normalized == NormalizeProtocolPath(path)
  {
    if path == [] {
      return Failure("empty path");
    }
    var parts := Split(path, '/');
    var components: seq<string> := [];
    AfterNothing(NormalizeComponents(parts));
    assert parts[0..] == parts;
    for i := 0 to |parts|
      invariant NormalizeComponents(parts) == After(components, NormalizeComponents(parts[i..]))
      invariant |components| == i
    {
      var raw := parts[i];
      NormalizeOne(components, parts[i..]);
      assert parts[i..][1..] == parts[i + 1..];
      if raw == [] {
        return Failure("doubled separator");
      }
      if !IsValidFatComponent(raw, true) {
        return Failure("not an 8.3 name");
      }
      components := components + [Upper(raw)];
    }
    assert parts[|parts|..] == [] && components + [] == components;
    return Success(Join(components, '/'));
  }

  predicate UpperShort(component: string, extension: bool) {
    ShortName(component, extension) && Upper(component) == component
  }

  /** Paths the server's scan lists: every component short, upper case; directories may carry an extension. */
  predicate ServerLists(path: Path) {
    forall i :: 0 <= i < |Split(path, '/')| ==> UpperShort(Split(path, '/')[i], true)
  }

  /** Paths the client's scan can report: directories without extension, and no reserved file name. */
  predicate Reportable(path: Path) {
    var parts := Split(path, '/');
    && (forall i :: 0 <= i < |parts| - 1 ==> UpperShort(parts[i], false))
    && UpperShort(parts[|parts| - 1], true)
    && parts[|parts| - 1] !in RESERVED
  }

  function FileName(path: Path): string {
    var parts := Split(path, '/');
    parts[|parts| - 1]
  }

  /** Everything the client can report is a path the server lists too. */
  lemma ReportableIsListed(path: Path)
    requires Reportable(path)
    ensures ServerLists(path)
  {
    var parts := Split(path, '/');
    forall i | 0 <= i < |parts| - 1 ensures UpperShort(parts[i], true) {
      var base: nat :| base <= 8 && ShortNameAt(parts[i], false, base);
      assert ShortNameAt(parts[i], true, base);
    }
  }

  lemma {:induction false} ListedComponentsKept(parts: seq<string>)
    requires forall i :: 0 <= i < |parts| ==> UpperShort(parts[i], true)
    ensures NormalizeComponents(parts) == Success(parts)
  {
    if parts != [] {
      ListedComponentsKept(parts[1..]);
      ServerNames(parts[0], true);
      assert parts == [parts[0]] + parts[1..];
    }
  }

  /** Normalising leaves every listed path (so every path the client emits) as it is. */
  lemma NormalizeKeepsListed(path: Path)
    requires ServerLists(path)
    ensures NormalizeProtocolPath(path) == Success(path)
  {
    var parts := Split(path, '/');
    assert UpperShort(parts[0], true);
    var base: nat :| base <= 8 && ShortNameAt(parts[0], true, base);
    assert parts[0] != [];
    ListedComponentsKept(parts);
    JoinSplit(path, '/');
  }

  lemma UpperTwice(name: string)
    ensures Upper(Upper(name)) == Upper(name)
  {
  }

  lemma UpperStaysShort(name: string, extension: bool)
    requires ShortName(name, extension)
    ensures UpperShort(Upper(name), extension)
  {
    var base: nat :| base <= 8 && ShortNameAt(name, extension, base);
    var upper := Upper(name);
    assert forall c :: UpperChar(UpperChar(c)) == UpperChar(c);
    assert ShortNameAt(upper, extension, base);
    UpperTwice(name);
  }

  lemma ShortNameHasNoSlash(name: string)
    requires ShortName(name, true)
    ensures '/' !in name
  {
    var base: nat :| base <= 8 && ShortNameAt(name, true, base);
    forall i | 0 <= i < |name| ensures name[i] != '/' {
      if i != base {
        FatCharIsAscii(name[i]);
      }
    }
  }

  lemma {:induction false} NormalizedComponentsListed(parts: seq<string>)
    requires NormalizeComponents(parts).Success?
    ensures var out := NormalizeComponents(parts).value;
      |out| == |parts| && forall i :: 0 <= i < |out| ==> UpperShort(out[i], true) && '/' !in out[i]
  {
    if parts != [] {
      NormalizedComponentsListed(parts[1..]);
      ServerNames(parts[0], true);
      UpperStaysShort(parts[0], true);
      ShortNameHasNoSlash(Upper(parts[0]));
    }
  }

  /** Whatever normalising accepts becomes a listed path, so doing it again changes nothing. */
  lemma NormalizeIdempotent(path: Path)
    requires NormalizeProtocolPath(path).Success?
    ensures ServerLists(NormalizeProtocolPath(path).value)
    ensures NormalizeProtocolPath(NormalizeProtocolPath(path).value) == NormalizeProtocolPath(path)
  {
    var parts := NormalizeComponents(Split(path, '/')).value;
    NormalizedComponentsListed(Split(path, '/'));
    SplitJoin(parts, '/');
    NormalizeKeepsListed(NormalizeProtocolPath(path).value);
  }

  // ---------------------------------------------------------------- exactly which paths are accepted

  predicate Legal(s: string) {
    forall i :: 0 <= i < |s| ==> '!' <= s[i] <= '~' && s[i] !in FORBIDDEN
  }

  /** One to eight legal characters, and possibly a dot and one to three more. */
  predicate EightThree(component: string) {
    || (1 <= |component| <= 8 && Legal(component))
    || (exists dot: nat :: dot <= 8 && SplitByDot(component, dot))
  }

  predicate SplitByDot(component: string, dot: nat) {
    && 1 <= dot < |component| && component[dot] == '.' && Legal(component[..dot])
    && 1 <= |component[dot + 1..]| <= 3 && Legal(component[dot + 1..])
  }

  lemma LegalIsFat(s: string, from: nat, to: nat)
    requires from <= to <= |s|
    ensures FatChars(s, from, to) <==> Legal(s[from..to])
  {
    forall i | 0 <= i < |s|
      ensures IsFatChar(UpperChar(s[i])) <==> '!' <= s[i] <= '~' && s[i] !in FORBIDDEN
    {
      FatAlphabet(s[i]);
    }
    assert forall i :: from <= i < to ==> s[from..to][i - from] == s[i];
    assert forall i :: 0 <= i < to - from ==> s[from..to][i] == s[from + i];
  }

  lemma ShortNameAtIs(name: string, base: nat)
    requires base <= |name|
    ensures ShortNameAt(name, true, base) <==>
      1 <= base <= 8 && ((base == |name| && Legal(name)) || SplitByDot(name, base))
  {
    LegalIsFat(name, 0, base);
    assert name[0..base] == name[..base];
    assert base == |name| ==> name[..base] == name;
    if base < |name| {
      LegalIsFat(name, base + 1, |name|);
      assert name[base + 1..|name|] == name[base + 1..];
    }
  }

  lemma EightThreeIsShort(name: string)
    ensures EightThree(name) <==> ShortName(name, true)
  {
    if ShortName(name, true) {
      var base: nat :| base <= 8 && ShortNameAt(name, true, base);
      ShortNameAtIs(name, base);
    }
    if 1 <= |name| <= 8 && Legal(name) {
      ShortNameAtIs(name, |name|);
      assert ShortNameAt(name, true, |name|);
    } else if EightThree(name) {
      var dot: nat :| dot <= 8 && SplitByDot(name, dot);
      ShortNameAtIs(name, dot);
      assert ShortNameAt(name, true, dot);
    }
  }

  predicate AllEightThree(parts: seq<string>) {
    forall i :: 0 <= i < |parts| ==> EightThree(parts[i])
  }

  function AllUpper(parts: seq<string>): (upper: seq<string>)
    ensures |upper| == |parts|
  {
    if parts == [] then [] else [Upper(parts[0])] + AllUpper(parts[1..])
  }

  lemma {:induction false} ComponentsAccepted(parts: seq<string>)
    ensures NormalizeComponents(parts).Success? <==> AllEightThree(parts)
    ensures AllEightThree(parts) ==> NormalizeComponents(parts) == Success(AllUpper(parts))
  {
    if parts != [] {
      ComponentsAccepted(parts[1..]);
      ServerNames(parts[0], true);
      EightThreeIsShort(parts[0]);
      FirstAndRest(parts);
    }
  }

  lemma FirstAndRest(parts: seq<string>)
    requires parts != []
    ensures AllEightThree(parts) <==> EightThree(parts[0]) && AllEightThree(parts[1..])
  {
    assert parts == [parts[0]] + parts[1..];
    assert forall i :: 1 <= i < |parts| ==> parts[i] == parts[1..][i - 1];
  }

  lemma {:induction false} JoinUpper(parts: seq<string>)
    requires |parts| >= 1
    ensures Join(AllUpper(parts), '/') == Upper(Join(parts, '/'))
  {
    if |parts| == 1 {
      assert AllUpper(parts) == [Upper(parts[0])];
    } else {
      JoinUpper(parts[1..]);
      var upper := AllUpper(parts);
      assert upper[1..] == AllUpper(parts[1..]);
      assert UpperChar('/') == '/';
    }
  }

  /**
   * A path is accepted if and only if it is not empty and each of its components, separated by single slashes, is an
   * 8.3 name in either case; it is then turned into capitals and otherwise left as it is.
   */
  lemma NormalizesExactly(path: Path)
    ensures NormalizeProtocolPath(path).Success? <==> path != "" && AllEightThree(Split(path, '/'))
    ensures NormalizeProtocolPath(path).Success? ==> NormalizeProtocolPath(path).value == Upper(path)
  {
    var parts := Split(path, '/');
    ComponentsAccepted(parts);
    JoinUpper(parts);
    JoinSplit(path, '/');
  }

  /** The names the client's scan leaves out. */
  lemma ReservedNames(name: string)
    ensures name in RESERVED <==>
      || name == "SYNC.$$$" || name == "W16SYNC.LOG" || name == "W16SYNC.INI" || name == "W16NEW.EXE"
      || name == "W16UPD.INI"
  {
  }
}
