/**
 * The client's receive buffer: proto_read_line and proto_read_exact (client/proto.c) over a socket that
 * delivers the incoming bytes in pieces of its own choosing.  Whatever the pieces, every read returns what
 * reading the whole stream directly would return, and the buffer holds exactly the received bytes not yet
 * consumed.
 */
module RecvBuffer {
  type Bytes = seq<bv8>

  const LF: bv8 := 10
  const CR: bv8 := 13
  const CAPACITY: nat := 1025

  // ---------------------------------------------------------------- reading the stream directly

  datatype LineReply = LineRead(line: Bytes) | LineTooLong | BufferFull | ConnectionLost

  /** The index of the first line feed, or the length. */
  function LineEnd(stream: Bytes): (n: nat)
    ensures n <= |stream|
  {
    if stream == [] || stream[0] == LF then 0 else 1 + LineEnd(stream[1..])
  }

  lemma {:induction false} LineEndIs(stream: Bytes, n: nat)
    requires n <= |stream| && LF !in stream[..n] && (n < |stream| ==> stream[n] == LF)
    ensures LineEnd(stream) == n
  {
    if n > 0 {
      assert stream[..n][0] == stream[0];
      assert stream[1..][..n - 1] == stream[..n][1..];
      LineEndIs(stream[1..], n - 1);
    }
  }

  function StripCr(text: Bytes): Bytes {
    if text != [] && text[|text| - 1] == CR then text[..|text| - 1] else text
  }

  function DirectLine(stream: Bytes, capacity: nat): LineReply {
    var n := LineEnd(stream);
    if n < |stream| && n < CAPACITY - 1 then
      var line := StripCr(stream[..n]);
      if |line| + 1 <= capacity then LineRead(line) else LineTooLong
    else if |stream| >= CAPACITY - 1 then BufferFull
    else ConnectionLost
  }

  /** What a line read leaves unread: only a success consumes anything. */
  function AfterLine(stream: Bytes, reply: LineReply): Bytes {
    if reply.LineRead? && LineEnd(stream) < |stream| then stream[LineEnd(stream) + 1..] else stream
  }

  // ---------------------------------------------------------------- the socket

  class Socket {
    /** Bytes sent to the client and not yet received. */
    var pending: Bytes
    /** The network's choice: the most the next calls deliver.  When it runs out, or is 0, the call fails. */
    var pieces: seq<nat>

    constructor (pending: Bytes, pieces: seq<nat>)
      ensures this.pending == pending && this.pieces == pieces
    {
      this.pending, this.pieces := pending, pieces;
    }

    /** The connection holds: whatever was sent arrives, at least a byte a call. */
    predicate Steady()
      reads this
    {
      |pending| <= |pieces| && forall i :: 0 <= i < |pieces| ==> pieces[i] > 0
    }

    method Recv(max: nat) returns (chunk: Bytes)
      modifies this
      ensures old(Steady()) && max > 0 ==> Steady() && (old(pending) != [] ==> chunk != [])
      ensures chunk + pending == old(pending) && |chunk| <= max
      ensures chunk != [] ==> |pieces| < |old(pieces)|
    {
      if pieces == [] {
        return [];
      }
      var size := if pieces[0] <= max then pieces[0] else max;
      size := if size <= |pending| then size else |pending|;
      chunk := pending[..size];
      pending, pieces := pending[size..], pieces[1..];
    }
  }

  // ---------------------------------------------------------------- the client's end

  class ProtoClient {
    const recvBuffer: array<bv8>
    var recvLen: nat
    const socket: Socket

    ghost predicate Valid()
      reads this, recvBuffer
    {
      recvBuffer.Length == CAPACITY && recvLen < CAPACITY && recvBuffer[recvLen] == 0
    }

    /** Received and not consumed, then still to come. */
    ghost function Unread(): Bytes
      requires Valid()
      reads this, recvBuffer, socket
    {
      recvBuffer[..recvLen] + socket.pending
    }

    constructor (socket: Socket)
      ensures Valid() && fresh(recvBuffer) && this.socket == socket && recvLen == 0
      ensures Unread() == socket.pending
    {
      recvBuffer := new bv8[CAPACITY](_ => 0);
      recvLen := 0;
      this.socket := socket;
    }

    /** Drops the first `count` buffered bytes by moving the rest down. */
    method Consume(count: nat)
      requires Valid() && count <= recvLen
      modifies this`recvLen, recvBuffer
      ensures Valid() && recvLen == old(recvLen) - count
      ensures recvBuffer[..recvLen] == old(recvBuffer[count..recvLen])
    {
      var remaining := recvLen - count;
      for i := 0 to remaining
        invariant recvLen == old(recvLen)
        invariant forall j :: 0 <= j < i ==> recvBuffer[j] == old(recvBuffer[count + j])
        invariant forall j :: i <= j < recvBuffer.Length ==> recvBuffer[j] == old(recvBuffer[j])
      {
        recvBuffer[i] := recvBuffer[count + i];
      }
      recvLen := remaining;
      recvBuffer[recvLen] := 0;
    }

    /** One recv into the free part of the buffer; fails on a lost connection. */
    method Fill() returns (ok: bool)
      requires Valid() && recvLen < CAPACITY - 1
      modifies this`recvLen, recvBuffer, socket
      ensures Valid() && Unread() == old(Unread())
      ensures ok ==> |socket.pieces| < |old(socket.pieces)| && recvLen > old(recvLen)
      ensures !ok ==> recvLen == old(recvLen)
      ensures old(socket.Steady()) ==> socket.Steady() && (!ok ==> socket.pending == [])
    {
      var received := socket.Recv(CAPACITY - 1 - recvLen);
      if received == [] {
        return false;
      }
      for i := 0 to |received|
        invariant recvLen == old(recvLen) && received + socket.pending == old(socket.pending)
        invariant |socket.pieces| < |old(socket.pieces)|
        invariant old(socket.Steady()) ==> socket.Steady()
        invariant recvBuffer[..recvLen] == old(recvBuffer[..recvLen])
        invariant recvBuffer[recvLen..recvLen + i] == received[..i]
      {
        recvBuffer[recvLen + i] := received[i];
      }
      assert recvBuffer[..recvLen + |received|] == recvBuffer[..recvLen] + received;
      recvLen := recvLen + |received|;
      recvBuffer[recvLen] := 0;
      return true;
    }

    /** The index of the first buffered line feed, if there is one. */
    method FindLineFeed() returns (found: bool, index: nat)
      requires Valid()
      ensures index <= recvLen && (found ==> index < recvLen && recvBuffer[index] == LF)
      ensures LF !in recvBuffer[..index]
      ensures !found ==> index == recvLen
    {
      index := 0;
      while index < recvLen
        invariant index <= recvLen && LF !in recvBuffer[..index]
      {
        if recvBuffer[index] == LF {
          return true, index;
        }
        index := index + 1;
      }
      return false, recvLen;
    }

    /** The line a buffered line feed ends. */
    method TakeLine(index: nat, capacity: nat) returns (reply: LineReply)
      requires Valid() && capacity > 0
      requires index < recvLen && recvBuffer[index] == LF && LF !in recvBuffer[..index]
      modifies this`recvLen, recvBuffer
      ensures Valid()
      ensures reply == DirectLine(old(Unread()), capacity)
      ensures Unread() == AfterLine(old(Unread()), reply)
    {
      ghost var stream, text, rest := Unread(), recvBuffer[..index], recvBuffer[index + 1..recvLen];
      assert recvBuffer[..recvLen] == text + [LF] + rest;
      LineFound(stream, text, rest, socket.pending);
      var lineLength := index;
      if lineLength > 0 && recvBuffer[lineLength - 1] == CR {
        lineLength := lineLength - 1;
      }
      assert StripCr(text) == recvBuffer[..lineLength];
      if lineLength + 1 > capacity {
        return LineTooLong;
      }
      reply := LineRead(recvBuffer[..lineLength]);
      Consume(index + 1);
    }

    /**
     * Unless the connection is lost, the reply is the direct one; in every case the unread bytes are what the
     * reply leaves.  While the connection holds, the only lost line is the one that was never sent.
     */
    method ReadLine(capacity: nat) returns (reply: LineReply)
      requires Valid() && capacity > 0
      modifies this`recvLen, recvBuffer, socket
      ensures Valid()
      ensures reply == DirectLine(old(Unread()), capacity) || reply == ConnectionLost
      ensures Unread() == AfterLine(old(Unread()), reply)
      ensures old(socket.Steady()) ==> socket.Steady() && reply == DirectLine(old(Unread()), capacity)
    {
      ghost var stream := Unread();
      while true
        invariant Valid() && Unread() == stream
        invariant old(socket.Steady()) ==> socket.Steady()
        decreases |socket.pieces|
      {
        var found, index := FindLineFeed();
        if found {
          reply := TakeLine(index, capacity);
          return;
        }
        if recvLen >= CAPACITY - 1 {
          NoLineFeedIn(stream, recvBuffer[..recvLen]);
          return BufferFull;
        }
        ghost var buffered := recvBuffer[..recvLen];
        var ok := Fill();
        if !ok {
          if old(socket.Steady()) {
            assert stream == buffered;
            NoLineAtAll(stream);
          }
          return ConnectionLost;
        }
      }
    }

    /** memcpy of the first `chunk` buffered bytes behind what the target already holds. */
    method CopyBuffered(target: array<bv8>, copied: nat, chunk: nat)
      requires Valid() && target != recvBuffer && copied + chunk <= target.Length && chunk <= recvLen
      modifies target
      ensures target[..copied + chunk] == old(target[..copied]) + recvBuffer[..chunk]
      ensures recvBuffer[..] == old(recvBuffer[..])
    {
      for i := 0 to chunk
        invariant recvBuffer[..] == old(recvBuffer[..])
        invariant target[..copied + i] == old(target[..copied]) + recvBuffer[..i]
      {
        target[copied + i] := recvBuffer[i];
      }
    }

    /** Moves up to length - copied buffered bytes into the target. */
    method CopyOut(target: array<bv8>, copied: nat, length: nat) returns (chunk: nat)
      requires Valid() && target != recvBuffer && copied < length <= target.Length && recvLen > 0
      modifies this`recvLen, recvBuffer, target
      ensures Valid() && 0 < chunk <= length - copied
      ensures target[..copied + chunk] + Unread() == old(target[..copied] + Unread())
    {
      chunk := recvLen;
      if chunk > length - copied {
        chunk := length - copied;
      }
      ghost var first, second := recvBuffer[..chunk], recvBuffer[chunk..recvLen];
      assert recvBuffer[..recvLen] == first + second;
      CopyBuffered(target, copied, chunk);
      ghost var held := target[..copied + chunk];
      assert recvBuffer[chunk..recvLen] == second;
      Consume(chunk);
      assert target[..copied + chunk] == held;
      Regroup(old(target[..copied]), first, second, socket.pending);
    }

    /** One recv straight into the target. */
    method RecvOut(target: array<bv8>, copied: nat, length: nat) returns (count: nat)
      requires Valid() && target != recvBuffer && copied < length <= target.Length && recvLen == 0
      modifies socket, target
      ensures Valid() && count <= length - copied
      ensures target[..copied + count] + Unread() == old(target[..copied] + Unread())
      ensures count > 0 ==> |socket.pieces| < |old(socket.pieces)|
      ensures old(socket.Steady()) ==> socket.Steady() && (count == 0 ==> Unread() == [])
    {
      var max := length - copied;
      if max > 8192 {
        max := 8192;
      }
      var received := socket.Recv(max);
      for i := 0 to |received|
        invariant recvLen == 0 && recvBuffer[..] == old(recvBuffer[..])
        invariant received + socket.pending == old(socket.pending)
        invariant received != [] ==> |socket.pieces| < |old(socket.pieces)|
        invariant old(socket.Steady()) ==> socket.Steady()
        invariant target[..copied + i] == old(target[..copied]) + received[..i]
      {
        target[copied + i] := received[i];
      }
      assert received[..|received|] == received;
      Regroup(old(target[..copied]), received, [], socket.pending);
      count := |received|;
    }

    /** One turn of the loop: from the buffer while it holds anything, else from the socket. */
    method Advance(target: array<bv8>, copied: nat, length: nat) returns (count: nat)
      requires Valid() && target != recvBuffer && copied < length <= target.Length
      modifies this`recvLen, recvBuffer, socket, target
      ensures Valid() && count <= length - copied
      ensures target[..copied + count] + Unread() == old(target[..copied] + Unread())
      ensures old(socket.Steady()) ==> socket.Steady() && (count == 0 ==> Unread() == [])
    {
      if recvLen > 0 {
        count := CopyOut(target, copied, length);
      } else {
        count := RecvOut(target, copied, length);
      }
    }

    /**
     * Success delivers the next `length` bytes of the stream; failure has moved some of them to the target.
     * Nothing is lost, doubled or reordered, and while the connection holds only missing bytes make it fail.
     */
    method ReadExact(target: array<bv8>, length: nat) returns (ok: bool, copied: nat)
      requires Valid() && target != recvBuffer && length <= target.Length
      modifies this`recvLen, recvBuffer, socket, target
      ensures Valid() && copied <= length && (ok <==> copied == length)
      ensures target[..copied] + Unread() == old(Unread())
      ensures old(socket.Steady()) ==> socket.Steady() && (ok <==> length <= |old(Unread())|)
    {
      ghost var stream := Unread();
      copied := 0;
      assert target[..0] == [];
      while copied < length
        invariant Valid() && copied <= length
        invariant target[..copied] + Unread() == stream
        invariant old(socket.Steady()) ==> socket.Steady()
        decreases length - copied
      {
        var count := Advance(target, copied, length);
        if count == 0 {
          return false, copied;
        }
        copied := copied + count;
      }
      return true, copied;
    }
  }

  lemma LineFound(stream: Bytes, text: Bytes, rest: Bytes, pending: Bytes)
    requires stream == text + [LF] + rest + pending && LF !in text
    ensures LineEnd(stream) == |text| && stream[..|text|] == text && stream[|text| + 1..] == rest + pending
  {
    assert stream[..|text|] == text;
    LineEndIs(stream, |text|);
  }

  lemma Regroup(a: Bytes, b: Bytes, c: Bytes, d: Bytes)
    ensures (a + b) + (c + d) == a + ((b + c) + d)
  {
  }

  /** A full buffer without a line feed: the line cannot end within its capacity. */
  lemma NoLineFeedIn(stream: Bytes, buffered: Bytes)
    requires |buffered| == CAPACITY - 1 && LF !in buffered && buffered <= stream
    ensures LineEnd(stream) >= CAPACITY - 1
    ensures forall capacity: nat :: DirectLine(stream, capacity) == BufferFull
  {
    LineEndBeyond(stream, |buffered|);
  }

  lemma NoLineAtAll(stream: Bytes)
    requires |stream| < CAPACITY - 1 && LF !in stream
    ensures forall capacity: nat :: DirectLine(stream, capacity) == ConnectionLost
  {
    assert stream[..|stream|] == stream;
    LineEndBeyond(stream, |stream|);
  }

  lemma {:induction false} LineEndBeyond(stream: Bytes, n: nat)
    requires n <= |stream| && LF !in stream[..n]
    ensures LineEnd(stream) >= n
  {
    if n > 0 {
      assert stream[..n][0] == stream[0];
      assert stream[1..][..n - 1] == stream[..n][1..];
      LineEndBeyond(stream[1..], n - 1);
    }
  }

  // ---------------------------------------------------------------- lines that were sent

  /** A line as the server ends it, or ended by a bare line feed. */
  function Ended(text: Bytes, withCr: bool): Bytes {
    text + (if withCr then [CR, LF] else [LF])
  }

  /** A text that comes back as it is: no line feed in it, and no carriage return before a bare one. */
  predicate LineText(text: Bytes, withCr: bool) {
    LF !in text && (text != [] && text[|text| - 1] == CR ==> withCr)
  }

  /** The line ends within the client's buffer. */
  predicate Buffered(text: Bytes, withCr: bool) {
    |Ended(text, withCr)| <= 1024
  }

  /**
   * A line that was sent is read without its line end if it fits the target with its terminator, and what follows is
   * left; one that does not fit is refused, and one that does not even end within the buffer fills it.
   */
  lemma SentLine(text: Bytes, withCr: bool, rest: Bytes, capacity: nat)
    requires LineText(text, withCr)
    ensures var stream := Ended(text, withCr) + rest;
      var reply := DirectLine(stream, capacity);
      && reply == (if !Buffered(text, withCr) then BufferFull else if |text| < capacity then LineRead(text) else LineTooLong)
      && (reply.LineRead? ==> AfterLine(stream, reply) == rest)
      && (!reply.LineRead? ==> AfterLine(stream, reply) == stream)
  {
    var stream := Ended(text, withCr) + rest;
    var before := text + if withCr then [CR] else [];
    assert Ended(text, withCr) == before + [LF];
    assert stream[..|before|] == before && stream[|before| + 1..] == rest;
    LineEndIs(stream, |before|);
    assert withCr ==> before[..|text|] == text;
    assert !withCr ==> before == text;
  }

  // ---------------------------------------------------------------- any mix of reads

  datatype Request = Line(capacity: nat) | Exact(length: nat)

  datatype Reply = GotLine(line: Bytes) | GotBytes(bytes: Bytes)

  /** The direct reply to one request, if it can be met. */
  function DirectReply(request: Request, stream: Bytes): seq<Reply> {
    match request
    case Line(capacity) =>
      var reply := DirectLine(stream, capacity);
      if reply.LineRead? then [GotLine(reply.line)] else []
    case Exact(length) => if length <= |stream| then [GotBytes(stream[..length])] else []
  }

  function Rest(request: Request, stream: Bytes): Bytes {
    match request
    case Line(capacity) => AfterLine(stream, DirectLine(stream, capacity))
    case Exact(length) => if length <= |stream| then stream[length..] else stream
  }

  function DirectReplies(requests: seq<Request>, stream: Bytes): seq<Reply>
    decreases |requests|
  {
    if requests == [] || DirectReply(requests[0], stream) == [] then []
    else DirectReply(requests[0], stream) + DirectReplies(requests[1..], Rest(requests[0], stream))
  }

  function Lines(texts: seq<Bytes>, withCr: bool): Bytes {
    if texts == [] then [] else Ended(texts[0], withCr) + Lines(texts[1..], withCr)
  }

  predicate Readable(texts: seq<Bytes>, withCr: bool, capacity: nat) {
    forall i :: 0 <= i < |texts| ==> LineText(texts[i], withCr) && Buffered(texts[i], withCr) && |texts[i]| < capacity
  }

  function LineRequests(n: nat, capacity: nat): seq<Request> {
    if n == 0 then [] else [Line(capacity)] + LineRequests(n - 1, capacity)
  }

  function GotLines(texts: seq<Bytes>): seq<Reply> {
    if texts == [] then [] else [GotLine(texts[0])] + GotLines(texts[1..])
  }

  lemma NextReply(request: Request, requests: seq<Request>, stream: Bytes, reply: Reply)
    requires DirectReply(request, stream) == [reply]
    ensures DirectReplies([request] + requests, stream) == [reply] + DirectReplies(requests, Rest(request, stream))
  {
    assert ([request] + requests)[1..] == requests;
  }

  lemma FirstLine(text: Bytes, withCr: bool, capacity: nat, others: Bytes)
    requires LineText(text, withCr) && Buffered(text, withCr) && |text| < capacity
    ensures DirectReply(Line(capacity), Ended(text, withCr) + others) == [GotLine(text)]
    ensures Rest(Line(capacity), Ended(text, withCr) + others) == others
  {
    SentLine(text, withCr, others, capacity);
  }

  lemma Regrouped<T>(a: seq<T>, b: seq<T>, c: seq<T>)
    ensures (a + b) + c == a + (b + c)
  {
  }

  lemma NoLines(withCr: bool, capacity: nat, rest: Bytes, more: seq<Request>)
    ensures LineRequests(0, capacity) + more == more && Lines([], withCr) + rest == rest
    ensures GotLines([]) + DirectReplies(more, rest) == DirectReplies(more, rest)
  {
  }

  /** A stream of lines is read back line by line, and the bytes behind them after that. */
  lemma {:induction false} LinesReadBack(texts: seq<Bytes>, withCr: bool, capacity: nat, rest: Bytes, more: seq<Request>)
    requires Readable(texts, withCr, capacity)
    ensures DirectReplies(LineRequests(|texts|, capacity) + more, Lines(texts, withCr) + rest) ==
      GotLines(texts) + DirectReplies(more, rest)
  {
    if texts == [] {
      NoLines(withCr, capacity, rest, more);
    } else {
      var text, others := texts[0], texts[1..];
      var requests, stream := LineRequests(|others|, capacity), Lines(others, withCr);
      LinesReadBack(others, withCr, capacity, rest, more);
      FirstLine(text, withCr, capacity, stream + rest);
      NextReply(Line(capacity), requests + more, Ended(text, withCr) + (stream + rest), GotLine(text));
      Regrouped([Line(capacity)], requests, more);
      Regrouped(Ended(text, withCr), stream, rest);
      Regrouped([GotLine(text)], GotLines(others), DirectReplies(more, rest));
    }
  }

  predicate ValidRequests(requests: seq<Request>) {
    forall i :: 0 <= i < |requests| && requests[i].Line? ==> requests[i].capacity > 0
  }

  /**
   * A run of reads in any order, until one fails: as far as it gets, the replies are those of the undivided
   * stream, whatever pieces the network chose, and while the connection holds it gets as far as the stream goes.
   */
  method ReadMix(client: ProtoClient, requests: seq<Request>) returns (replies: seq<Reply>)
    requires client.Valid() && ValidRequests(requests)
    modifies client`recvLen, client.recvBuffer, client.socket
    ensures client.Valid()
    ensures replies <= DirectReplies(requests, old(client.Unread()))
    ensures old(client.socket.Steady()) ==> replies == DirectReplies(requests, old(client.Unread()))
    decreases |requests|
  {
    if requests == [] {
      return [];
    }
    ghost var stream := client.Unread();
    var first: Reply;
    match requests[0] {
      case Line(capacity) =>
        var reply := client.ReadLine(capacity);
        if !reply.LineRead? {
          return [];
        }
        first := GotLine(reply.line);
      case Exact(length) =>
        var target := new bv8[length];
        var ok, copied := client.ReadExact(target, length);
        if !ok {
          return [];
        }
        first := GotBytes(target[..]);
        assert target[..length] == target[..];
        assert stream[..length] == target[..] && stream[length..] == client.Unread();
    }
    assert DirectReply(requests[0], stream) == [first] && client.Unread() == Rest(requests[0], stream);
    var more := ReadMix(client, requests[1..]);
    replies := [first] + more;
  }
}
