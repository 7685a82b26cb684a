/**
 * The CRC-32 both sides compute over file contents.
 *
 * The server (server/src/main.rs) shifts the whole register eight times per byte; the client
 * (client/proto.c) works on the low byte alone and folds it back.  Both are compared with the
 * table-driven form printed in section 8 of RFC 1952, and with each other, over every byte
 * sequence and every way of cutting a file into read buffers.
 */
module Crc32 {
  type Word = bv32
  type Bytes = seq<bv8>

  const BYTE_BITS: nat := 8

  const INITIAL: Word := 0xFFFF_FFFF

  const POLYNOMIAL: Word := 0xEDB8_8320

  function Xor(left: Word, right: Word): Word { left ^ right }

  function Right(value: Word): Word { value >> 1 }

  function Not(value: Word): Word { !value }

  predicate Odd(value: Word) { value & 1 != 0 }

  /** One turn of the register: the branch both inner loops share. */
  function Shift(value: Word): Word {
    if Odd(value) then Xor(Right(value), POLYNOMIAL) else Right(value)
  }

  function Shifts(value: Word, n: nat): Word {
    if n == 0 then value else Shift(Shifts(value, n - 1))
  }

  // ---------------------------------------------------------------- server form

  function ServerByte(crc: Word, byte: bv8): Word {
    Shifts(Xor(crc, byte as Word), BYTE_BITS)
  }

  function ServerUpdate(crc: Word, data: Bytes): Word {
    if data == [] then crc
    else ServerByte(ServerUpdate(crc, data[..|data| - 1]), data[|data| - 1])
  }

  function ServerCrc(data: Bytes): Word {
    Not(ServerUpdate(INITIAL, data))
  }

  // ---------------------------------------------------------------- client form

  function ClientByte(crc: Word, byte: bv8): Word {
    Xor(crc >> 8, Shifts(Xor(crc, byte as Word) & 0xFF, BYTE_BITS))
  }

  function ClientUpdate(crc: Word, data: Bytes): Word {
    if data == [] then crc
    else ClientByte(ClientUpdate(crc, data[..|data| - 1]), data[|data| - 1])
  }

  // ---------------------------------------------------------------- section 8 of RFC 1952

  function RfcTable(n: Word): Word {
    RfcTableStep(BYTE_BITS, n)
  }

  function RfcTableStep(k: nat, c: Word): Word {
    if k == 0 then c
    else RfcTableStep(k - 1, if c & 1 != 0 then 0xEDB8_8320 ^ (c >> 1) else c >> 1)
  }

  /** update_crc: complements on entry and on exit, so that calls can be chained from 0. */
  function RfcUpdate(crc: Word, data: Bytes): Word {
    Not(RfcLoop(Not(crc), data))
  }

  function RfcLoop(c: Word, data: Bytes): Word
    decreases |data|
  {
    if data == [] then c
    else RfcLoop(Xor(RfcTable(Xor(c, data[0] as Word) & 0xFF), c >> 8), data[1..])
  }

  // ---------------------------------------------------------------- the register is linear

  function Rights(value: Word, n: nat): Word {
    if n == 0 then value else Right(Rights(value, n - 1))
  }

  lemma EvenXor(left: Word, right: Word)
    requires !Odd(left)
    ensures Odd(Xor(left, right)) <==> Odd(right)
  {
  }

  lemma RightOfXor(left: Word, right: Word)
    ensures Right(Xor(left, right)) == Xor(Right(left), Right(right))
  {
  }

  lemma XorAssociates(a: Word, b: Word, c: Word)
    ensures Xor(Xor(a, b), c) == Xor(a, Xor(b, c))
  {
  }

  /** An even word mixed in only moves right with the turn. */
  lemma ShiftSkipsHighBits(high: Word, value: Word)
    requires !Odd(high)
    ensures Shift(Xor(high, value)) == Xor(Right(high), Shift(value))
  {
    EvenXor(high, value);
    RightOfXor(high, value);
    XorAssociates(Right(high), Right(value), POLYNOMIAL);
  }

  lemma {:induction false} TurnsSkip(high: Word, value: Word, n: nat)
    requires forall k | 0 <= k < n :: !Odd(Rights(high, k))
    ensures Shifts(Xor(high, value), n) == Xor(Rights(high, n), Shifts(value, n))
  {
    if n > 0 {
      TurnsSkip(high, value, n - 1);
      ShiftSkipsHighBits(Rights(high, n - 1), Shifts(value, n - 1));
    }
  }

  lemma TwoRights(h: Word)
    ensures Rights(h, 0) == h && Rights(h, 1) == h >> 1 && Rights(h, 2) == h >> 2
  {
    assert Rights(h, 1) == Right(h);
  }

  lemma {:induction false} RightsAdd(h: Word, m: nat, n: nat)
    ensures Rights(Rights(h, m), n) == Rights(h, m + n)
  {
    if n > 0 { RightsAdd(h, m, n - 1); }
  }

  lemma FourRights(h: Word)
    ensures Rights(h, 4) == h >> 4
  {
    TwoRights(h);
    TwoRights(h >> 2);
    RightsAdd(h, 2, 2);
  }

  lemma EightRights(h: Word)
    ensures Rights(h, 8) == h >> 8
  {
    FourRights(h);
    FourRights(h >> 4);
    RightsAdd(h, 4, 4);
  }

  lemma Clear(w: Word)
    ensures w & 0x03 == 0 ==> w & 1 == 0 && (w >> 1) & 1 == 0
    ensures w & 0x0F == 0 ==> w & 0x03 == 0 && (w >> 2) & 0x03 == 0
    ensures w & 0xFF == 0 ==> w & 0x0F == 0 && (w >> 4) & 0x0F == 0
  {}

  lemma TwoEven(w: Word, k: nat)
    requires w & 0x03 == 0 && k < 2
    ensures !Odd(Rights(w, k))
  {
    TwoRights(w);
    Clear(w);
    if k == 0 {} else { assert k == 1; }
  }

  lemma FourEven(w: Word, k: nat)
    requires w & 0x0F == 0 && k < 4
    ensures !Odd(Rights(w, k))
  {
    Clear(w);
    if k < 2 {
      TwoEven(w, k);
    } else {
      TwoRights(w);
      TwoEven(w >> 2, k - 2);
      RightsAdd(w, 2, k - 2);
    }
  }

  lemma NoneOdd(h: Word, k: nat)
    requires h & 0xFF == 0 && k < 8
    ensures !Odd(Rights(h, k))
  {
    Clear(h);
    if k < 4 {
      FourEven(h, k);
    } else {
      FourRights(h);
      FourEven(h >> 4, k - 4);
      RightsAdd(h, 4, k - 4);
    }
  }

  lemma ShiftsSkipHighBits(high: Word, value: Word)
    requires high & 0xFF == 0
    ensures Shifts(Xor(high, value), BYTE_BITS) == Xor(high >> 8, Shifts(value, BYTE_BITS))
  {
    forall k | 0 <= k < 8 ensures !Odd(Rights(high, k)) { NoneOdd(high, k); }
    TurnsSkip(high, value, BYTE_BITS);
    EightRights(high);
  }

  // ---------------------------------------------------------------- three forms, one value

  lemma SplitRegister(mixed: Word)
    ensures mixed == Xor(mixed & 0xFFFF_FF00, mixed & 0xFF)
    ensures (mixed & 0xFFFF_FF00) & 0xFF == 0
  {
  }

  lemma TopIsUnmixed(crc: Word, byte: bv8)
    ensures (Xor(crc, byte as Word) & 0xFFFF_FF00) >> 8 == crc >> 8
  {
  }

  lemma ByteFormsAgree(crc: Word, byte: bv8)
    ensures ServerByte(crc, byte) == ClientByte(crc, byte)
  {
    var mixed := Xor(crc, byte as Word);
    SplitRegister(mixed);
    TopIsUnmixed(crc, byte);
    ShiftsSkipHighBits(mixed & 0xFFFF_FF00, mixed & 0xFF);
  }

  lemma {:induction false} UpdatesAgree(crc: Word, data: Bytes)
    ensures ServerUpdate(crc, data) == ClientUpdate(crc, data)
  {
    if data != [] {
      UpdatesAgree(crc, data[..|data| - 1]);
      ByteFormsAgree(ServerUpdate(crc, data[..|data| - 1]), data[|data| - 1]);
    }
  }

  /** The client's CRC of a file; its contract is what lets the planner compare it with the server's. */
  function ClientCrc(data: Bytes): (crc: Word)
    ensures crc == ServerCrc(data)
  {
    UpdatesAgree(INITIAL, data);
    Not(ClientUpdate(INITIAL, data))
  }

  lemma UpdateSnoc(crc: Word, data: Bytes, byte: bv8)
    ensures ServerUpdate(crc, data + [byte]) == ServerByte(ServerUpdate(crc, data), byte)
  {
    assert (data + [byte])[..|data|] == data;
  }

  /** Cutting the input anywhere and carrying the register over changes nothing. */
  lemma {:induction false} UpdateConcat(crc: Word, left: Bytes, right: Bytes)
    ensures ServerUpdate(crc, left + right) == ServerUpdate(ServerUpdate(crc, left), right)
  {
    if right == [] {
      assert left + right == left;
    } else {
      var n := |right| - 1;
      UpdateConcat(crc, left, right[..n]);
      assert left + right == (left + right[..n]) + [right[n]];
      UpdateSnoc(crc, left + right[..n], right[n]);
    }
  }

  lemma {:induction false} RfcTableIsShifts(k: nat, c: Word)
    ensures RfcTableStep(k, c) == Shifts(c, k)
  {
    if k > 0 {
      RfcStepIsShift(c);
      RfcTableIsShifts(k - 1, Shift(c));
      ShiftFromTheOtherEnd(c, k - 1);
    }
  }

  lemma RfcStepIsShift(c: Word)
    ensures (if c & 1 != 0 then 0xEDB8_8320 ^ (c >> 1) else c >> 1) == Shift(c)
  {
  }

  lemma {:induction false} ShiftFromTheOtherEnd(c: Word, k: nat)
    ensures Shifts(Shift(c), k) == Shift(Shifts(c, k))
  {
    if k > 0 {
      ShiftFromTheOtherEnd(c, k - 1);
    }
  }

  lemma ServerUpdateFront(crc: Word, data: Bytes)
    requires data != []
    ensures ServerUpdate(crc, data) == ServerUpdate(ServerByte(crc, data[0]), data[1..])
  {
    UpdateConcat(crc, [data[0]], data[1..]);
    assert [data[0]] + data[1..] == data;
    UpdateSnoc(crc, [], data[0]);
    assert [] + [data[0]] == [data[0]];
  }

  lemma {:induction false} RfcLoopAgrees(c: Word, data: Bytes)
    ensures RfcLoop(c, data) == ServerUpdate(c, data)
    decreases |data|
  {
    if data != [] {
      var low := Xor(c, data[0] as Word) & 0xFF;
      RfcTableIsShifts(BYTE_BITS, low);
      ByteFormsAgree(c, data[0]);
      XorCommutes(RfcTable(low), c >> 8);
      RfcLoopAgrees(ServerByte(c, data[0]), data[1..]);
      ServerUpdateFront(c, data);
    }
  }

  lemma XorCommutes(x: Word, y: Word)
    ensures Xor(x, y) == Xor(y, x)
  {
  }

  lemma NotZero()
    ensures Not(0) == INITIAL
  {
  }

  lemma NotInjective(x: Word, y: Word)
    requires Not(x) == Not(y)
    ensures x == y
  {
  }

  /** Both programs compute the CRC of section 8 of RFC 1952, started from 0. */
  lemma CrcIsRfc1952(data: Bytes)
    ensures ServerCrc(data) == RfcUpdate(0, data) == ClientCrc(data)
  {
    NotZero();
    RfcLoopAgrees(INITIAL, data);
  }

  // ---------------------------------------------------------------- the loops themselves

  function Flatten(chunks: seq<Bytes>): Bytes {
    if chunks == [] then [] else Flatten(chunks[..|chunks| - 1]) + chunks[|chunks| - 1]
  }

  lemma TurnIsShift(value: Word)
    ensures value & 1 != 0 ==> (value >> 1) ^ 0xEDB8_8320 == Shift(value)
    ensures value & 1 == 0 ==> value >> 1 == Shift(value)
  {
  }

  /** The inner loop of both sides. */
  method EightTurns(initial: Word) returns (value: Word)
    ensures value == Shifts(initial, BYTE_BITS)
  {
    value := initial;
    for bit := 0 to BYTE_BITS
      invariant value == Shifts(initial, bit)
    {
      TurnIsShift(value);
      if value & 1 != 0 {
        value := (value >> 1) ^ 0xEDB8_8320;
      } else {
        value := value >> 1;
      }
    }
  }

  method Crc32Update(initial: Word, data: Bytes) returns (crc: Word)
    ensures crc == ServerUpdate(initial, data)
  {
    crc := initial;
    for i := 0 to |data|
      invariant crc == ServerUpdate(initial, data[..i])
    {
      UpdateSnoc(initial, data[..i], data[i]);
      assert data[..i + 1] == data[..i] + [data[i]];
      crc := Xor(crc, data[i] as Word);
      crc := EightTurns(crc);
    }
    assert data[..|data|] == data;
  }

  method ProtoCrc32Step(initial: Word, data: Bytes) returns (crc: Word)
    ensures crc == ClientUpdate(initial, data)
  {
    crc := initial;
    for index := 0 to |data|
      invariant crc == ClientUpdate(initial, data[..index])
    {
      assert data[..index + 1][..index] == data[..index];
      var value := Xor(crc, data[index] as Word) & 0xFF;
      value := EightTurns(value);
      crc := Xor(crc >> 8, value);
    }
    assert data[..|data|] == data;
  }

  /** The server's file CRC over whatever pieces the reads return (8192 bytes at most each). */
  method Crc32File(chunks: seq<Bytes>) returns (crc: Word)
    ensures crc == ServerCrc(Flatten(chunks))
  {
    crc := 0xFFFF_FFFF;
    for i := 0 to |chunks|
      invariant crc == ServerUpdate(INITIAL, Flatten(chunks[..i]))
    {
      crc := Crc32Update(crc, chunks[i]);
      UpdateConcat(INITIAL, Flatten(chunks[..i]), chunks[i]);
      assert chunks[..i + 1][..i] == chunks[..i];
    }
    assert chunks[..|chunks|] == chunks;
    crc := Not(crc);
  }

  /** The client's file CRC over its own pieces (1024 bytes at most each): the same value. */
  method ProtoFileCrc32(chunks: seq<Bytes>) returns (crc: Word)
    ensures crc == ServerCrc(Flatten(chunks))
  {
    crc := 0xFFFF_FFFF;
    for i := 0 to |chunks|
      invariant crc == ServerUpdate(INITIAL, Flatten(chunks[..i]))
    {
      UpdatesAgree(crc, chunks[i]);
      crc := ProtoCrc32Step(crc, chunks[i]);
      UpdateConcat(INITIAL, Flatten(chunks[..i]), chunks[i]);
      assert chunks[..i + 1][..i] == chunks[..i];
    }
    assert chunks[..|chunks|] == chunks;
    crc := Not(crc);
  }

  // ---------------------------------------------------------------- burst detection

  /** A turn of the register never merges two values. */
  lemma ShiftInjective(left: Word, right: Word)
    requires Shift(left) == Shift(right)
    ensures left == right
  {
  }

  lemma {:induction false} ShiftsInjective(left: Word, right: Word, n: nat)
    requires Shifts(left, n) == Shifts(right, n)
    ensures left == right
  {
    if n > 0 {
      ShiftInjective(Shifts(left, n - 1), Shifts(right, n - 1));
      ShiftsInjective(left, right, n - 1);
    }
  }

  lemma XorCancels(left: Word, right: Word, mask: Word)
    requires Xor(left, mask) == Xor(right, mask)
    ensures left == right
  {
  }

  lemma ServerByteInjective(left: Word, right: Word, byte: bv8)
    requires ServerByte(left, byte) == ServerByte(right, byte)
    ensures left == right
  {
    ShiftsInjective(Xor(left, byte as Word), Xor(right, byte as Word), BYTE_BITS);
    XorCancels(left, right, byte as Word);
  }

  lemma {:induction false} ShiftsAdd(value: Word, m: nat, n: nat)
    ensures Shifts(Shifts(value, m), n) == Shifts(value, m + n)
  {
    if n > 0 {
      ShiftsAdd(value, m, n - 1);
    }
  }

  lemma {:induction false} UpdateInjective(left: Word, right: Word, data: Bytes)
    requires ServerUpdate(left, data) == ServerUpdate(right, data)
    ensures left == right
  {
    if data != [] {
      var n := |data| - 1;
      ServerByteInjective(ServerUpdate(left, data[..n]), ServerUpdate(right, data[..n]), data[n]);
      UpdateInjective(left, right, data[..n]);
    }
  }

  /** `byte` in the low eight bits, `rest` above it. */
  function Under(byte: bv8, rest: Word): Word {
    (byte as Word) | (rest << 8)
  }

  function Pack(a: bv8, b: bv8, c: bv8, d: bv8): Word {
    Under(a, Under(b, Under(c, d as Word)))
  }

  lemma PackIsInjective(a: bv8, b: bv8, c: bv8, d: bv8, a': bv8, b': bv8, c': bv8, d': bv8)
    requires Pack(a, b, c, d) == Pack(a', b', c', d')
    ensures a == a' && b == b' && c == c' && d == d'
  {
  }

  lemma PackHasRoom(a: bv8, b: bv8, c: bv8, d: bv8)
    ensures (d as Word) & 0xFF00_0000 == 0
    ensures Under(c, d as Word) & 0xFF00_0000 == 0
    ensures Under(b, Under(c, d as Word)) & 0xFF00_0000 == 0
  {
  }

  predicate HighByteClear(value: Word) { value & 0xFF00_0000 == 0 }

  predicate LowByteClear(value: Word) { value & 0xFF == 0 }

  function Up(value: Word): Word { value << 8 }

  function Down(value: Word): Word { value >> 8 }

  function Widen(byte: bv8): Word { byte as Word }

  lemma UnderIsMixed(byte: bv8, rest: Word)
    ensures Under(byte, rest) == Xor(Up(rest), Widen(byte))
  {
  }

  lemma UpAndDown(rest: Word)
    requires HighByteClear(rest)
    ensures LowByteClear(Up(rest)) && Down(Up(rest)) == rest
  {
  }

  lemma UnderSplits(crc: Word, byte: bv8, rest: Word)
    ensures Xor(crc, Under(byte, rest)) == Xor(Up(rest), Xor(crc, Widen(byte)))
  {
    UnderIsMixed(byte, rest);
    XorAssociates(crc, Up(rest), Widen(byte));
    XorCommutes(crc, Up(rest));
    XorAssociates(Up(rest), crc, Widen(byte));
  }

  lemma TakeMixed(low: Word, high: Word, rest: Word, mixed: Word)
    requires mixed == Xor(high, low) && LowByteClear(high) && Down(high) == rest
    ensures Shifts(mixed, BYTE_BITS) == Xor(Shifts(low, BYTE_BITS), rest)
  {
    ShiftsSkipHighBits(high, low);
    XorCommutes(rest, Shifts(low, BYTE_BITS));
  }

  /** Bytes above the lowest one can be mixed in before its eight turns instead of after. */
  lemma TakeByte(crc: Word, byte: bv8, rest: Word)
    requires HighByteClear(rest)
    ensures Shifts(Xor(crc, Under(byte, rest)), BYTE_BITS) == Xor(Shifts(Xor(crc, Widen(byte)), BYTE_BITS), rest)
  {
    UnderSplits(crc, byte, rest);
    UpAndDown(rest);
    TakeMixed(Xor(crc, Widen(byte)), Up(rest), rest, Xor(crc, Under(byte, rest)));
  }

  /** Four bytes in a row act like one 32-bit word mixed into the register. */
  lemma FourBytes(crc: Word, a: bv8, b: bv8, c: bv8, d: bv8)
    ensures ServerUpdate(crc, [a, b, c, d]) == Shifts(Xor(crc, Pack(a, b, c, d)), 32)
  {
    var word := Xor(crc, Pack(a, b, c, d));
    var r1 := ServerByte(crc, a);
    var r2 := ServerByte(r1, b);
    PackHasRoom(a, b, c, d);
    TakeByte(crc, a, Under(b, Under(c, d as Word)));
    TakeByte(r1, b, Under(c, d as Word));
    TakeByte(r2, c, d as Word);
    ShiftsAdd(word, 8, BYTE_BITS);
    ShiftsAdd(word, 16, BYTE_BITS);
    ShiftsAdd(word, 24, BYTE_BITS);
    FourSteps(crc, a, b, c, d);
  }

  lemma FourSteps(crc: Word, a: bv8, b: bv8, c: bv8, d: bv8)
    ensures ServerUpdate(crc, [a, b, c, d]) == ServerByte(ServerByte(ServerByte(ServerByte(crc, a), b), c), d)
  {
    UpdateSnoc(crc, [], a);
    UpdateSnoc(crc, [] + [a], b);
    UpdateSnoc(crc, [] + [a] + [b], c);
    UpdateSnoc(crc, [] + [a] + [b] + [c], d);
    assert [] + [a] + [b] + [c] + [d] == [a, b, c, d];
  }

  lemma WindowInjective(crc: Word, left: Bytes, right: Bytes)
    requires |left| == |right| == 4
    requires ServerUpdate(crc, left) == ServerUpdate(crc, right)
    ensures left == right
  {
    var x, y := Pack(left[0], left[1], left[2], left[3]), Pack(right[0], right[1], right[2], right[3]);
    assert left == [left[0], left[1], left[2], left[3]];
    assert right == [right[0], right[1], right[2], right[3]];
    FourBytes(crc, left[0], left[1], left[2], left[3]);
    FourBytes(crc, right[0], right[1], right[2], right[3]);
    ShiftsInjective(Xor(crc, x), Xor(crc, y), 32);
    XorCommutes(crc, x);
    XorCommutes(crc, y);
    XorCancels(x, y, crc);
    PackIsInjective(left[0], left[1], left[2], left[3], right[0], right[1], right[2], right[3]);
  }

  /** left and right agree outside the four bytes from `start` on. */
  ghost predicate DifferOnlyIn(left: Bytes, right: Bytes, start: nat) {
    && |left| == |right|
    && forall i :: 0 <= i < |left| && (i < start || start + 4 <= i) ==> left[i] == right[i]
  }

  lemma ThreeParts(prefix: Bytes, window: Bytes, suffix: Bytes)
    ensures ServerUpdate(INITIAL, prefix + window + suffix) ==
      ServerUpdate(ServerUpdate(ServerUpdate(INITIAL, prefix), window), suffix)
  {
    UpdateConcat(INITIAL, prefix + window, suffix);
    UpdateConcat(INITIAL, prefix, window);
  }

  lemma SameWindow(prefix: Bytes, left: Bytes, right: Bytes, suffix: Bytes)
    requires |left| == |right| == 4
    requires ServerUpdate(INITIAL, prefix + left + suffix) == ServerUpdate(INITIAL, prefix + right + suffix)
    ensures left == right
  {
    var register := ServerUpdate(INITIAL, prefix);
    ThreeParts(prefix, left, suffix);
    ThreeParts(prefix, right, suffix);
    UpdateInjective(ServerUpdate(register, left), ServerUpdate(register, right), suffix);
    WindowInjective(register, left, right);
  }

  lemma SplitAround(data: Bytes, start: nat)
    requires start + 4 <= |data|
    ensures data == data[..start] + data[start..start + 4] + data[start + 4..]
  {
  }

  lemma SameRegisterSameBytes(left: Bytes, right: Bytes, start: nat)
    requires DifferOnlyIn(left, right, start) && start + 4 <= |left|
    requires ServerUpdate(INITIAL, left) == ServerUpdate(INITIAL, right)
    ensures left == right
  {
    SplitAround(left, start);
    SplitAround(right, start);
    assert left[..start] == right[..start];
    assert left[start + 4..] == right[start + 4..];
    SameWindow(left[..start], left[start..start + 4], right[start..start + 4], left[start + 4..]);
  }

  lemma SameCrcSameBytes(left: Bytes, right: Bytes, start: nat)
    requires DifferOnlyIn(left, right, start)
    requires ServerCrc(left) == ServerCrc(right)
    ensures left == right
  {
    NotInjective(ServerUpdate(INITIAL, left), ServerUpdate(INITIAL, right));
    // Four further bytes, equal on both sides, put the whole stretch inside the input.
    var pad: Bytes := [0, 0, 0, 0];
    UpdateConcat(INITIAL, left, pad);
    UpdateConcat(INITIAL, right, pad);
    SameRegisterSameBytes(left + pad, right + pad, if start <= |left| then start else |left|);
    assert left == (left + pad)[..|left|] && right == (right + pad)[..|right|];
  }

  /**
   * Two contents of the same length that differ, but only inside one stretch of four bytes, never have
   * the same CRC: the check after a transfer always notices such a burst.
   */
  lemma BurstDetected(left: Bytes, right: Bytes, start: nat)
    requires DifferOnlyIn(left, right, start) && left != right
    ensures ServerCrc(left) != ServerCrc(right)
  {
    if ServerCrc(left) == ServerCrc(right) {
      SameCrcSameBytes(left, right, start);
    }
  }
}
