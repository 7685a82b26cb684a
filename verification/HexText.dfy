/** Paths as hex text: both encoders and both decoders, the client's writing into NUL-terminated buffers. */
module HexText {
  import opened Wrappers
  import opened Numerals

  predicate ByteText(s: string) {
    forall i :: 0 <= i < |s| ==> (s[i] as int) < 256
  }

  function HexChar(s: string, i: nat): char
    requires ByteText(s) && i < 2 * |s|
  {
    if i % 2 == 0 then HexDigit(s[i / 2] as nat / 16) else HexDigit(s[i / 2] as nat % 16)
  }

  /** Two upper-case digits a byte, high half first. */
  function Hex(s: string): string
    requires ByteText(s)
  {
    seq(2 * |s|, i requires 0 <= i < 2 * |s| => HexChar(s, i))
  }

  function PairValue(high: char, low: char): char
    requires IsDigit(high, 16) && IsDigit(low, 16)
  {
    (HexValue(high).value * 16 + HexValue(low).value) as char
  }

  function UnHex(t: string): Option<string> {
    if |t| % 2 == 0 && AllDigits(t, 16)
    then Some(seq(|t| / 2, k requires 0 <= k < |t| / 2 => PairValue(t[2 * k], t[2 * k + 1])))
    else None
  }

  /** Every byte is two capital digits, the high half first; either case is read back. */
  lemma HexIs(s: string, k: nat)
    requires ByteText(s) && k < |s|
    ensures |Hex(s)| == 2 * |s|
    ensures Hex(s)[2 * k] == CAPITALS[s[k] as nat / 16] && Hex(s)[2 * k + 1] == CAPITALS[s[k] as nat % 16]
  {
    PairAt(s, k);
    HexTable('0', s[k] as nat / 16);
    HexTable('0', s[k] as nat % 16);
  }

  lemma HexIsDigits(s: string)
    requires ByteText(s)
    ensures AllDigits(Hex(s), 16)
  {
  }

  lemma PairOfByte(c: char, high: char, low: char)
    requires (c as int) < 256
    requires high == HexDigit(c as nat / 16) && low == HexDigit(c as nat % 16)
    ensures PairValue(high, low) == c
  {
  }

  lemma PairAt(s: string, k: nat)
    requires ByteText(s) && k < |s|
    ensures HexChar(s, 2 * k) == HexDigit(s[k] as nat / 16) && HexChar(s, 2 * k + 1) == HexDigit(s[k] as nat % 16)
  {
    assert (2 * k + 1) / 2 == k;
  }

  lemma DecodedAt(s: string, t: string, k: nat)
    requires ByteText(s) && t == Hex(s) && AllDigits(t, 16) && k < |s|
    ensures UnHex(t).Some? && |UnHex(t).value| == |s| && UnHex(t).value[k] == s[k]
  {
    PairAt(s, k);
    PairOfByte(s[k], t[2 * k], t[2 * k + 1]);
  }

  /** Decoding undoes encoding. */
  lemma HexRoundTrip(s: string)
    requires ByteText(s)
    ensures UnHex(Hex(s)) == Some(s)
  {
    HexIsDigits(s);
    var decoded := UnHex(Hex(s)).value;
    assert |decoded| == |s|;
    forall k | 0 <= k < |s|
      ensures decoded[k] == s[k]
    {
      DecodedAt(s, Hex(s), k);
    }
    assert decoded == s;
  }

  // ---------------------------------------------------------------- C buffers

  predicate CText(s: string) {
    ByteText(s) && '\0' !in s
  }

  /** The buffer holds this text and its terminator. */
  predicate Carries(buffer: array<char>, text: string)
    reads buffer
  {
    |text| < buffer.Length && buffer[..|text|] == text && buffer[|text|] == '\0'
  }

  /** proto_encode_hex: it asks for one character more than the text needs. */
  method ProtoEncodeHex(source: string, target: array<char>) returns (ok: bool)
    requires CText(source)
    modifies target
    ensures ok <==> (if source == [] then target.Length > 0 else 2 * |source| + 2 <= target.Length)
    ensures ok ==> Carries(target, Hex(source))
  {
    if target.Length == 0 {
      return false;
    }
    var n := 0;
    for k := 0 to |source|
      invariant n == 2 * k && n < target.Length
      invariant k > 0 ==> n + 2 <= target.Length
      invariant forall i :: 0 <= i < n ==> target[i] == HexChar(source, i)
    {
      if n + 3 >= target.Length {
        return false;
      }
      var current := source[k] as nat;
      assert HexChar(source, n) == HexDigit(current / 16) && HexChar(source, n + 1) == HexDigit(current % 16);
      target[n] := HexDigit(current / 16 % 16);
      target[n + 1] := HexDigit(current % 16);
      n := n + 2;
    }
    target[n] := '\0';
    ok := true;
  }

  /** proto_decode_hex: the same texts as the server, as long as the result and its terminator fit. */
  method ProtoDecodeHex(source: string, target: array<char>) returns (ok: bool)
    requires CText(source)
    modifies target
    ensures ok <==> UnHex(source).Some? && |source| / 2 < target.Length
    ensures ok ==> Carries(target, UnHex(source).value)
  {
    if target.Length == 0 || |source| % 2 != 0 {
      return false;
    }
    var n := 0;
    while 2 * n < |source|
      invariant n < target.Length && 2 * n <= |source|
      invariant AllDigits(source[..2 * n], 16)
      invariant forall k :: 0 <= k < n ==>
        IsDigit(source[2 * k], 16) && IsDigit(source[2 * k + 1], 16) &&
        target[k] == PairValue(source[2 * k], source[2 * k + 1])
    {
      if n + 1 >= target.Length {
        return false;
      }
      var high, low := HexValue(source[2 * n]), HexValue(source[2 * n + 1]);
      if high.None? || low.None? {
        return false;
      }
      target[n] := (high.value * 16 + low.value) as char;
      n := n + 1;
    }
    assert source[..2 * n] == source;
    target[n] := '\0';
    ok := true;
  }

  /** encode_hex. */
  method EncodeHex(data: string) returns (out: string)
    requires ByteText(data)
    ensures out == Hex(data)
  {
    out := [];
    for k := 0 to |data|
      invariant |out| == 2 * k
      invariant forall i :: 0 <= i < 2 * k ==> out[i] == HexChar(data, i)
    {
      var byte := data[k] as nat;
      assert HexChar(data, 2 * k) == HexDigit(byte / 16) && HexChar(data, 2 * k + 1) == HexDigit(byte % 16);
      out := out + [HexDigit(byte / 16)];
      out := out + [HexDigit(byte % 16)];
    }
  }

  /** decode_hex. */
  method DecodeHex(text: string) returns (out: Option<string>)
    ensures out == UnHex(text)
  {
    if |text| % 2 != 0 {
      return None;
    }
    var bytes := [];
    var index := 0;
    while index < |text|
      invariant index <= |text| && index % 2 == 0 && |bytes| == index / 2
      invariant AllDigits(text[..index], 16)
      invariant forall k :: 0 <= k < index / 2 ==>
        IsDigit(text[2 * k], 16) && IsDigit(text[2 * k + 1], 16) &&
        bytes[k] == PairValue(text[2 * k], text[2 * k + 1])
    {
      var left, right := HexValue(text[index]), HexValue(text[index + 1]);
      if left.None? || right.None? {
        return None;
      }
      bytes := bytes + [(left.value * 16 + right.value) as char];
      index := index + 2;
    }
    assert text[..index] == text;
    assert UnHex(text).value == bytes;
    out := Some(bytes);
  }
}
