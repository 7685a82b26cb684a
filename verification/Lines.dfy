/**
 * key=value lines: the server splits a line into words and fills a map, the last value winning; the client walks
 * the line for the first word that starts with the key.  On every line either side prints they read the same.
 */
module Lines {
  import opened Wrappers
  import opened Names
  import opened HexText

  // ---------------------------------------------------------------- words

  /** char::is_whitespace. */
  predicate IsWhitespace(c: char) {
    var n := c as int;
    || 9 <= n <= 13 || n == 32 || n == 0x85 || n == 0xA0 || n == 0x1680 || 0x2000 <= n <= 0x200A
    || n == 0x2028 || n == 0x2029 || n == 0x202F || n == 0x205F || n == 0x3000
  }

  predicate IsBlank(c: char) { c == ' ' }

  function WordEnd(s: string, sep: char -> bool): (n: nat)
    ensures n <= |s| && (forall i :: 0 <= i < n ==> !sep(s[i])) && (n < |s| ==> sep(s[n]))
  {
    if s == [] || sep(s[0]) then 0 else 1 + WordEnd(s[1..], sep)
  }

  function Words(s: string, sep: char -> bool): seq<string> {
    if s == [] then []
    else if sep(s[0]) then Words(s[1..], sep)
    else
      var n := WordEnd(s, sep);
      [s[..n]] + Words(s[n..], sep)
  }

  predicate CleanWord(w: string, sep: char -> bool) {
    w != [] && forall i :: 0 <= i < |w| ==> !sep(w[i])
  }

  lemma {:induction false} WordEndIs(s: string, sep: char -> bool, n: nat)
    requires n <= |s| && (forall i :: 0 <= i < n ==> !sep(s[i])) && (n < |s| ==> sep(s[n]))
    ensures WordEnd(s, sep) == n
  {
    if n > 0 {
      WordEndIs(s[1..], sep, n - 1);
    }
  }

  lemma FirstWord(w: string, rest: string, sep: char -> bool)
    requires CleanWord(w, sep) && (rest == [] || sep(rest[0]))
    ensures Words(w + rest, sep) == [w] + Words(rest, sep)
  {
    var s := w + rest;
    assert forall i :: 0 <= i < |w| ==> s[i] == w[i];
    WordEndIs(s, sep, |w|);
    assert s[..|w|] == w && s[|w|..] == rest;
  }

  lemma NextWord(w: string, rest: string, sep: char -> bool)
    requires CleanWord(w, sep) && sep(' ')
    ensures Words(w + [' '] + rest, sep) == [w] + Words(rest, sep)
  {
    FirstWord(w, [' '] + rest, sep);
    assert ([' '] + rest)[1..] == rest;
    assert w + [' '] + rest == w + ([' '] + rest);
  }

  lemma OnlyWord(w: string, sep: char -> bool)
    requires CleanWord(w, sep)
    ensures Words(w, sep) == [w]
  {
    FirstWord(w, [], sep);
    assert w + [] == w;
  }

  predicate CleanWords(words: seq<string>, sep: char -> bool) {
    forall i :: 0 <= i < |words| ==> CleanWord(words[i], sep)
  }

  /** Words joined by single blanks are found again. */
  lemma {:induction false} WordsOfJoin(words: seq<string>, sep: char -> bool)
    requires words != [] && sep(' ') && CleanWords(words, sep)
    ensures Words(Join(words, ' '), sep) == words
  {
    assert CleanWord(words[0], sep);
    if |words| == 1 {
      OnlyWord(words[0], sep);
    } else {
      var rest := words[1..];
      WordsOfJoin(rest, sep);
      NextWord(words[0], Join(rest, ' '), sep);
      assert words == [words[0]] + rest;
    }
  }

  // ---------------------------------------------------------------- the server's parser

  /** The place of the first equals sign, or the length. */
  function EqualsAt(part: string): (n: nat)
    ensures n <= |part| && '=' !in part[..n] && (n < |part| ==> part[n] == '=')
  {
    if part == [] || part[0] == '=' then 0 else 1 + EqualsAt(part[1..])
  }

  function Insert(values: map<string, string>, part: string): map<string, string> {
    var n := EqualsAt(part);
    if n < |part| then values[part[..n] := part[n + 1..]] else values
  }

  function ValuesOf(parts: seq<string>): map<string, string> {
    if parts == [] then map[] else Insert(ValuesOf(parts[..|parts| - 1]), parts[|parts| - 1])
  }

  function Command(words: seq<string>): string {
    if words == [] then "" else words[0]
  }

  function Parsed(line: string): (string, map<string, string>) {
    var words := Words(line, IsWhitespace);
    (Command(words), if words == [] then map[] else ValuesOf(words[1..]))
  }

  /** parse_line. */
  method ParseLine(line: string) returns (command: string, values: map<string, string>)
    ensures (command, values) == Parsed(line)
  {
    var parts := Words(line, IsWhitespace);
    command := "";
    values := map[];
    if parts == [] {
      return;
    }
    command := parts[0];
    parts := parts[1..];
    for i := 0 to |parts|
      invariant values == ValuesOf(parts[..i])
    {
      values := Insert(values, parts[i]);
      assert parts[..i + 1][..i] == parts[..i];
    }
    assert parts[..|parts|] == parts;
  }

  /** The twenty-five characters of white space; within ASCII the blank and the five controls from tab on. */
  lemma WhitespaceIs(c: char)
    ensures IsWhitespace(c) <==> (c as int) in {
      9, 10, 11, 12, 13, 32, 133, 160, 5760, 8192, 8193, 8194, 8195, 8196, 8197, 8198, 8199, 8200, 8201, 8202,
      8232, 8233, 8239, 8287, 12288}
  {
  }

  /** The word is key=value with this key. */
  predicate Sets(part: string, key: string, value: string) {
    part == key + "=" + value && '=' !in key
  }

  lemma InsertIs(values: map<string, string>, part: string, key: string, value: string)
    requires Sets(part, key, value)
    ensures Insert(values, part) == values[key := value]
  {
    assert part[..|key|] == key && part[|key| + 1..] == value;
    EqualsIs(part, |key|);
  }

  lemma {:induction false} EqualsIs(part: string, n: nat)
    requires n < |part| && part[n] == '=' && '=' !in part[..n]
    ensures EqualsAt(part) == n
  {
    if n > 0 {
      assert part[0] == part[..n][0];
      assert part[1..][..n - 1] == part[..n][1..];
      EqualsIs(part[1..], n - 1);
    }
  }

  lemma InsertNothing(values: map<string, string>, part: string)
    requires '=' !in part
    ensures Insert(values, part) == values
  {
  }

  /** Of several words with one key the last decides, and a word without an equals sign sets nothing. */
  lemma {:induction false} LastValueWins(parts: seq<string>, i: nat, key: string, value: string)
    requires i < |parts| && Sets(parts[i], key, value)
    requires forall j :: i < j < |parts| ==> !HasKeyAt(parts[j], key)
    ensures Get(ValuesOf(parts), key) == Some(value)
  {
    var n := |parts| - 1;
    if i == n {
      InsertIs(ValuesOf(parts[..n]), parts[n], key, value);
    } else {
      LastValueWins(parts[..n], i, key, value);
      assert !HasKeyAt(parts[n], key);
    }
  }

  predicate HasKeyAt(part: string, key: string) {
    EqualsAt(part) < |part| && part[..EqualsAt(part)] == key
  }

  lemma {:induction false} NothingElseIsSet(parts: seq<string>, key: string)
    requires forall j :: 0 <= j < |parts| ==> !HasKeyAt(parts[j], key)
    ensures key !in ValuesOf(parts)
  {
    if parts != [] {
      NothingElseIsSet(parts[..|parts| - 1], key);
      assert !HasKeyAt(parts[|parts| - 1], key);
    }
  }

  lemma HasKeyAtIs(part: string, key: string)
    requires '=' !in key
    ensures HasKeyAt(part, key) <==> |key| < |part| && part[..|key|] == key && part[|key|] == '='
  {
    if |key| < |part| && part[..|key|] == key && part[|key|] == '=' {
      EqualsIs(part, |key|);
    }
  }

  // ---------------------------------------------------------------- the client's parser

  predicate HasKey(word: string, key: string) {
    |key| < |word| && word[..|key|] == key && word[|key|] == '='
  }

  function Param(words: seq<string>, key: string): Option<string> {
    if words == [] then None
    else if HasKey(words[0], key) then Some(words[0][|key| + 1..])
    else Param(words[1..], key)
  }

  function Cut(text: string, capacity: nat): string {
    if |text| < capacity || capacity == 0 then text else text[..capacity - 1]
  }

  /** What lands in a buffer of this capacity; an empty value counts as missing. */
  function Extracted(line: string, key: string, capacity: nat): Option<string> {
    var found := Param(Words(line, IsBlank), key);
    if found.Some? && Cut(found.value, capacity) != "" then Some(Cut(found.value, capacity)) else None
  }

  predicate KeyText(key: string) {
    key != [] && '=' !in key && ' ' !in key
  }

  lemma SkipWord(s: string)
    requires s != [] && !IsBlank(s[0])
    ensures var n := WordEnd(s, IsBlank); n > 0 && Words(s, IsBlank) == [s[..n]] + Words(s[n..], IsBlank)
  {
  }

  /** Comparing at the cursor, or the word at the cursor, is the same for a key without blanks. */
  lemma KeyWithinWord(s: string, key: string)
    requires KeyText(key) && s != [] && !IsBlank(s[0])
    ensures HasKey(s, key) <==> HasKey(s[..WordEnd(s, IsBlank)], key)
  {
    var n := WordEnd(s, IsBlank);
    if HasKey(s, key) {
      assert forall i :: 0 <= i < |key| ==> s[..|key|][i] == key[i] && key[i] in key;
      assert forall i :: 0 <= i <= |key| ==> !IsBlank(s[i]);
      assert n > |key|;
    }
    if n > |key| {
      assert s[..n][..|key|] == s[..|key|];
    }
  }

  /** What is found from a place in the line on. */
  function FoundFrom(line: string, cursor: nat, key: string): Option<string>
    requires cursor <= |line|
  {
    Param(Words(line[cursor..], IsBlank), key)
  }

  lemma FoundAfterBlank(line: string, cursor: nat, key: string)
    requires cursor < |line| && line[cursor] == ' '
    ensures FoundFrom(line, cursor, key) == FoundFrom(line, cursor + 1, key)
  {
    assert line[cursor..][1..] == line[cursor + 1..];
  }

  function WordLimit(line: string, cursor: nat): (end: nat)
    requires cursor <= |line|
    ensures cursor <= end <= |line|
  {
    cursor + WordEnd(line[cursor..], IsBlank)
  }

  /** A word either has the key, or is passed over. */
  lemma FoundAtWord(line: string, cursor: nat, key: string)
    requires KeyText(key) && cursor < |line| && line[cursor] != ' '
    ensures var end := WordLimit(line, cursor);
      && cursor < end
      && (end < |line| ==> line[end] == ' ')
      && ' ' !in line[cursor..end]
      && (HasKey(line[cursor..], key) ==>
           cursor + |key| < end && FoundFrom(line, cursor, key) == Some(line[cursor + |key| + 1..end]))
      && (!HasKey(line[cursor..], key) ==> FoundFrom(line, cursor, key) == FoundFrom(line, end, key))
  {
    var s, end := line[cursor..], WordLimit(line, cursor);
    var n := end - cursor;
    SkipWord(s);
    KeyWithinWord(s, key);
    assert s[n..] == line[end..] && s[..n] == line[cursor..end];
    assert end < |line| ==> line[end] == s[n];
    if HasKey(s, key) {
      assert s[..n][|key| + 1..] == line[cursor + |key| + 1..end];
    }
  }

  /** proto_extract_param. */
  method ProtoExtractParam(line: string, key: string, value: array<char>) returns (found: bool)
    requires CText(line) && KeyText(key)
    modifies value
    ensures found == (value.Length > 0 && Extracted(line, key, value.Length).Some?)
    ensures found ==> Carries(value, Extracted(line, key, value.Length).value)
    ensures !found && value.Length > 0 ==> Carries(value, "")
  {
    if value.Length == 0 {
      return false;
    }
    value[0] := '\0';
    assert line[0..] == line;
    var start := FindValue(line, key);
    if start.None? {
      return false;
    }
    found := CopyValue(line, start.value, WordLimit(line, start.value), value);
  }

  /** Where the value starts in the first word that has the key. */
  method FindValue(line: string, key: string) returns (start: Option<nat>)
    requires KeyText(key)
    ensures start.None? <==> FoundFrom(line, 0, key).None?
    ensures start.Some? ==>
      && start.value <= |line|
      && FoundFrom(line, 0, key) == Some(line[start.value..WordLimit(line, start.value)])
  {
    var cursor := 0;
    while cursor < |line|
      invariant cursor <= |line|
      invariant FoundFrom(line, 0, key) == FoundFrom(line, cursor, key)
    {
      while cursor < |line| && line[cursor] == ' '
        invariant cursor <= |line|
        invariant FoundFrom(line, 0, key) == FoundFrom(line, cursor, key)
      {
        FoundAfterBlank(line, cursor, key);
        cursor := cursor + 1;
      }
      if cursor == |line| {
        break;
      }
      FoundAtWord(line, cursor, key);
      if HasKey(line[cursor..], key) {
        LimitWithinWord(line, cursor, cursor + |key| + 1);
        return Some(cursor + |key| + 1);
      }
      cursor := SkipToBlank(line, cursor);
    }
    start := None;
  }

  lemma LimitWithinWord(line: string, cursor: nat, inside: nat)
    requires cursor <= |line| && cursor <= inside <= WordLimit(line, cursor)
    ensures WordLimit(line, inside) == WordLimit(line, cursor)
  {
    var s, end := line[cursor..], WordLimit(line, cursor);
    assert forall i :: 0 <= i < end - inside ==> line[inside..][i] == s[inside - cursor + i];
    assert end < |line| ==> line[inside..][end - inside] == s[end - cursor];
    WordEndIs(line[inside..], IsBlank, end - inside);
  }

  method SkipToBlank(line: string, start: nat) returns (cursor: nat)
    requires start <= |line|
    ensures cursor == WordLimit(line, start)
  {
    cursor := start;
    while cursor < |line| && line[cursor] != ' '
      invariant start <= cursor <= |line|
      invariant ' ' !in line[start..cursor]
    {
      cursor := cursor + 1;
    }
    var rest := line[start..];
    assert forall i :: 0 <= i < cursor - start ==> rest[i] == line[start..cursor][i];
    WordEndIs(rest, IsBlank, cursor - start);
  }

  /** Copies up to the next blank or until the buffer is full. */
  method CopyValue(line: string, from: nat, ghost to: nat, value: array<char>) returns (found: bool)
    requires from <= |line| && to == WordLimit(line, from) && CText(line) && value.Length > 0
    modifies value
    ensures Carries(value, Cut(line[from..to], value.Length))
    ensures found == (Cut(line[from..to], value.Length) != "")
  {
    var index := 0;
    assert forall i :: from <= i < to ==> line[i] == line[from..][i - from];
    assert to < |line| ==> line[to] == line[from..][to - from];
    while index + 1 < value.Length && from + index < |line| && line[from + index] != ' '
      invariant index < value.Length && from + index <= to
      invariant forall i :: 0 <= i < index ==> value[i] == line[from + i]
    {
      value[index] := line[from + index];
      index := index + 1;
    }
    value[index] := '\0';
    assert value[..index] == Cut(line[from..to], value.Length);
    found := value[0] != '\0';
  }

  /** proto_line_kind: the text before the first blank, cut to fit. */
  method ProtoLineKind(line: string, kind: array<char>)
    requires CText(line) && kind.Length > 0
    modifies kind
    ensures Carries(kind, Cut(line[..WordLimit(line, 0)], kind.Length))
  {
    var _ := CopyValue(line, 0, WordLimit(line, 0), kind);
    assert line[0..WordLimit(line, 0)] == line[..WordLimit(line, 0)];
  }

  // ---------------------------------------------------------------- printed lines

  datatype Field = Field(key: string, value: string)

  function FieldText(f: Field): string {
    f.key + "=" + f.value
  }

  function LineWords(command: string, fields: seq<Field>): seq<string> {
    [command] + seq(|fields|, i requires 0 <= i < |fields| => FieldText(fields[i]))
  }

  /** What format! and sprintf print: a command and its fields, single blanks between them. */
  function LineOf(command: string, fields: seq<Field>): string {
    Join(LineWords(command, fields), ' ')
  }

  predicate Plain(s: string) {
    forall i :: 0 <= i < |s| ==> '!' <= s[i] <= '~'
  }

  predicate CleanField(f: Field) {
    Plain(f.key) && Plain(f.value) && f.key != [] && '=' !in f.key
  }

  predicate CleanLine(command: string, fields: seq<Field>) {
    && command != [] && Plain(command) && '=' !in command
    && (forall i :: 0 <= i < |fields| ==> CleanField(fields[i]))
    && (forall i, j :: 0 <= i < j < |fields| ==> fields[i].key != fields[j].key)
  }

  predicate Separates(sep: char -> bool) {
    sep(' ') && forall c :: '!' <= c <= '~' ==> !sep(c)
  }

  lemma LineSplits(command: string, fields: seq<Field>, sep: char -> bool)
    requires CleanLine(command, fields) && Separates(sep)
    ensures Words(LineOf(command, fields), sep) == LineWords(command, fields)
  {
    var words := LineWords(command, fields);
    forall i | 0 <= i < |words|
      ensures CleanWord(words[i], sep)
    {
      if i > 0 {
        var f := fields[i - 1];
        assert CleanField(f) && words[i] == FieldText(f);
      }
    }
    WordsOfJoin(words, sep);
  }

  lemma FieldInserts(values: map<string, string>, f: Field)
    requires CleanField(f)
    ensures Insert(values, FieldText(f)) == values[f.key := f.value]
  {
    var part := FieldText(f);
    assert part[..|f.key|] == f.key && part[|f.key| + 1..] == f.value;
    EqualsIs(part, |f.key|);
  }

  predicate HasField(fields: seq<Field>, key: string) {
    exists i :: 0 <= i < |fields| && fields[i].key == key
  }

  /** The map holds these fields and nothing else. */
  predicate FieldsIn(values: map<string, string>, fields: seq<Field>) {
    && (forall i :: 0 <= i < |fields| ==> Get(values, fields[i].key) == Some(fields[i].value))
    && (forall key {:trigger HasField(fields, key)} :: key in values.Keys ==> HasField(fields, key))
  }

  lemma FieldsInSnoc(values: map<string, string>, fewer: seq<Field>, f: Field)
    requires FieldsIn(values, fewer)
    requires forall i :: 0 <= i < |fewer| ==> fewer[i].key != f.key
    ensures FieldsIn(values[f.key := f.value], fewer + [f])
  {
    var fields, more := fewer + [f], values[f.key := f.value];
    forall i | 0 <= i < |fields|
      ensures Get(more, fields[i].key) == Some(fields[i].value)
    {
      assert i < |fewer| ==> fields[i] == fewer[i] && Get(values, fewer[i].key) == Some(fewer[i].value);
    }
    assert HasField(fields, f.key) by { assert fields[|fewer|] == f; }
    forall key | key in more.Keys
      ensures HasField(fields, key)
    {
      assert key != f.key ==> HasField(fewer, key);
      assert forall i :: 0 <= i < |fewer| ==> fields[i] == fewer[i];
    }
  }

  lemma {:induction false} FieldsFill(texts: seq<string>, fields: seq<Field>)
    requires |texts| == |fields|
    requires forall i :: 0 <= i < |fields| ==> CleanField(fields[i]) && texts[i] == FieldText(fields[i])
    requires forall i, j :: 0 <= i < j < |fields| ==> fields[i].key != fields[j].key
    ensures FieldsIn(ValuesOf(texts), fields)
  {
    if fields != [] {
      var n := |fields| - 1;
      FieldsFill(texts[..n], fields[..n]);
      assert CleanField(fields[n]) && texts[n] == FieldText(fields[n]);
      FieldInserts(ValuesOf(texts[..n]), fields[n]);
      FieldsInSnoc(ValuesOf(texts[..n]), fields[..n], fields[n]);
      assert fields[..n] + [fields[n]] == fields;
    }
  }

  /** The server reads exactly the command and the fields that were printed. */
  lemma ServerReadsFields(command: string, fields: seq<Field>)
    requires CleanLine(command, fields)
    ensures Parsed(LineOf(command, fields)).0 == command
    ensures FieldsIn(Parsed(LineOf(command, fields)).1, fields)
  {
    LineSplits(command, fields, IsWhitespace);
    FieldsFill(LineWords(command, fields)[1..], fields);
  }

  lemma FieldHasKey(f: Field, key: string)
    requires CleanField(f) && '=' !in key
    ensures HasKey(FieldText(f), key) <==> f.key == key
  {
    var text := FieldText(f);
    assert text[..|f.key|] == f.key && text[|f.key|] == '=';
    assert |key| < |f.key| ==> f.key[|key|] in f.key;
    assert |key| > |f.key| ==> key[|f.key|] in key;
  }

  lemma {:induction false} ParamOfField(fields: seq<Field>, texts: seq<string>, i: nat)
    requires |texts| == |fields| && i < |fields|
    requires forall j :: 0 <= j < |fields| ==> CleanField(fields[j]) && texts[j] == FieldText(fields[j])
    requires forall j :: 0 <= j < i ==> fields[j].key != fields[i].key
    ensures Param(texts, fields[i].key) == Some(fields[i].value)
  {
    var f := fields[i];
    assert CleanField(fields[0]) && CleanField(f);
    FieldHasKey(fields[0], f.key);
    if i == 0 {
      assert texts[0][|f.key| + 1..] == f.value;
    } else {
      ParamOfField(fields[1..], texts[1..], i - 1);
    }
  }

  /** The client finds the same values, whatever the order of the fields and whatever keys share a beginning. */
  lemma ClientReadsField(command: string, fields: seq<Field>, i: nat)
    requires CleanLine(command, fields) && i < |fields|
    ensures Param(Words(LineOf(command, fields), IsBlank), fields[i].key) == Some(fields[i].value)
  {
    LineSplits(command, fields, IsBlank);
    var words := LineWords(command, fields);
    assert words[1..] == seq(|fields|, j requires 0 <= j < |fields| => FieldText(fields[j]));
    ParamOfField(fields, words[1..], i);
  }
}
