/**
 * The bytes of one file on the wire: the client's download loop (client/proto.c) and the server's copy_exact with
 * the check after it (server/src/main.rs).  What is stored is the announced number of bytes of the stream, and
 * with CRCs on only if they have the announced CRC.
 */
module Transfer {
  import opened Wrappers
  import opened Crc32
  import RecvBuffer

  datatype Outcome = Stored(content: Bytes) | BadCrc | Lost

  // ---------------------------------------------------------------- files read in pieces

  function Pieces(content: Bytes, size: nat): seq<Bytes>
    requires size > 0
  {
    if content == [] then []
    else if |content| <= size then [content]
    else [content[..size]] + Pieces(content[size..], size)
  }

  lemma {:induction false} FlattenCons(first: Bytes, rest: seq<Bytes>)
    ensures Flatten([first] + rest) == first + Flatten(rest)
  {
    var all := [first] + rest;
    if rest == [] {
      assert all[..0] == [] && Flatten(all) == Flatten([]) + first;
    } else {
      FlattenCons(first, rest[..|rest| - 1]);
      assert all[..|all| - 1] == [first] + rest[..|rest| - 1];
    }
  }

  lemma {:induction false} PiecesFlatten(content: Bytes, size: nat)
    requires size > 0
    ensures Flatten(Pieces(content, size)) == content
  {
    if content != [] && |content| <= size {
      FlattenCons(content, []);
      assert [content] + [] == [content];
    } else if content != [] {
      PiecesFlatten(content[size..], size);
      FlattenCons(content[..size], Pieces(content[size..], size));
    }
  }

  // ---------------------------------------------------------------- the client receives

  /** The loop of proto_receive_download: 4096 bytes at most into the buffer, then on to the temporary file. */
  method ReceiveContent(client: RecvBuffer.ProtoClient, size: nat) returns (content: Option<Bytes>)
    requires client.Valid()
    modifies client`recvLen, client.recvBuffer, client.socket
    ensures client.Valid()
    ensures content.Some? ==> |content.value| == size && content.value + client.Unread() == old(client.Unread())
    ensures old(client.socket.Steady()) ==> client.socket.Steady() && (content.Some? <==> size <= |old(client.Unread())|)
  {
    var buffer := new bv8[4096];
    var written: Bytes := [];
    var remaining := size;
    while remaining > 0
      invariant client.Valid() && |written| + remaining == size
      invariant written + client.Unread() == old(client.Unread())
      invariant old(client.socket.Steady()) ==> client.socket.Steady()
    {
      var chunk := if remaining > 4096 then 4096 else remaining;
      ghost var stream := client.Unread();
      var ok, copied := client.ReadExact(buffer, chunk);
      if !ok {
        return None;
      }
      assert written + (buffer[..chunk] + client.Unread()) == (written + buffer[..chunk]) + client.Unread();
      written := written + buffer[..chunk];
      remaining := remaining - chunk;
    }
    return Some(written);
  }

  /** The download as stored: nothing is kept when the connection or the CRC fails. */
  method ReceiveDownload(client: RecvBuffer.ProtoClient, size: nat, expectedCrc: Word, crcDisabled: bool)
    returns (outcome: Outcome)
    requires client.Valid()
    modifies client`recvLen, client.recvBuffer, client.socket
    ensures client.Valid()
    ensures outcome.Stored? ==>
      && outcome.content + client.Unread() == old(client.Unread())
      && |outcome.content| == size
      && (crcDisabled || ServerCrc(outcome.content) == expectedCrc)
    ensures outcome.BadCrc? ==>
      && !crcDisabled
      && |old(client.Unread())| >= size
      && ServerCrc(old(client.Unread())[..size]) != expectedCrc
    ensures old(client.socket.Steady()) ==> (outcome.Lost? <==> size > |old(client.Unread())|)
  {
    var content := ReceiveContent(client, size);
    if content.None? {
      return Lost;
    }
    assert old(client.Unread())[..size] == content.value;
    if !crcDisabled {
      PiecesFlatten(content.value, 1024);
      var crc := ProtoFileCrc32(Pieces(content.value, 1024));
      if crc != expectedCrc {
        return BadCrc;
      }
    }
    return Stored(content.value);
  }

  // ---------------------------------------------------------------- the server receives

  /** The server's buffered reader, which fills the whole request or fails. */
  class Reader {
    var pending: Bytes

    constructor (pending: Bytes)
      ensures this.pending == pending
    {
      this.pending := pending;
    }

    method ReadExact(count: nat) returns (bytes: Option<Bytes>)
      modifies this
      ensures bytes.Some? <==> count <= |old(pending)|
      ensures bytes.Some? ==> |bytes.value| == count && bytes.value + pending == old(pending)
    {
      if count > |pending| {
        return None;
      }
      bytes := Some(pending[..count]);
      pending := pending[count..];
    }
  }

  /** copy_exact. */
  method CopyExact(reader: Reader, size: nat) returns (written: Option<Bytes>)
    modifies reader
    ensures written.Some? <==> size <= |old(reader.pending)|
    ensures written.Some? ==> |written.value| == size && written.value + reader.pending == old(reader.pending)
  {
    var out: Bytes := [];
    var remaining := size;
    while remaining > 0
      invariant |out| + remaining == size && out + reader.pending == old(reader.pending)
    {
      var chunk := if remaining < 8192 then remaining else 8192;
      var bytes := reader.ReadExact(chunk);
      if bytes.None? {
        return None;
      }
      assert out + (bytes.value + reader.pending) == (out + bytes.value) + reader.pending;
      out := out + bytes.value;
      remaining := remaining - chunk;
    }
    return Some(out);
  }

  /** The body of an upload: stored exactly when it is all there and, if its CRC is known, has that CRC. */
  method ReceiveUploadBody(reader: Reader, size: nat, crc: Word, crcKnown: bool) returns (outcome: Outcome)
    modifies reader
    ensures var stream := old(reader.pending);
      outcome ==
        if size > |stream| then Lost
        else if crcKnown && ServerCrc(stream[..size]) != crc then BadCrc
        else Stored(stream[..size])
    ensures outcome.Stored? ==> reader.pending == old(reader.pending)[size..]
  {
    var written := CopyExact(reader, size);
    if written.None? {
      return Lost;
    }
    assert old(reader.pending)[..size] == written.value;
    PiecesFlatten(written.value, 8192);
    var fileCrc := Crc32File(Pieces(written.value, 8192));
    if crcKnown && fileCrc != crc {
      return BadCrc;
    }
    return Stored(written.value);
  }

  /** Damage within four consecutive bytes of a file on its way never gets past either side's check. */
  lemma DamageIsCaught(sent: Bytes, stream: Bytes, start: nat)
    requires |sent| <= |stream| && DifferOnlyIn(sent, stream[..|sent|], start)
    requires ServerCrc(stream[..|sent|]) == ClientCrc(sent)
    ensures stream[..|sent|] == sent
  {
    SameCrcSameBytes(sent, stream[..|sent|], start);
  }
}
