/** The two halves of a connection: a reader that turns bytes into events for the scheduler, and a writer that
    turns the scheduler's commands into bytes. */
module Peers {
  import opened Metainfo
  import opened Pieces
  import opened Bytes
  import opened Bitfields
  import opened Wire
  import opened Handshakes
  import opened Wrappers
  import Model = SchedulerModel
  import opened Tiles

  /** The scheduler stamps an event with the time at which it handles it. */
  function Delivered(e: PeerEvent, now: nat): Model.Event {
    match e
    case Choke(slot) => Model.Event.Choke(slot)
    case Unchoke(slot) => Model.Event.Unchoke(slot, now)
    case Interested(slot) => Model.Event.Interested(slot)
    case NotInterested(slot) => Model.Event.NotInterested(slot)
    case Have(slot, piece) => Model.Event.Have(slot, piece, now)
    case Bitfield(slot, bitfield) => Model.Event.Bitfield(slot, bitfield, now)
    case Data(slot, piece, begin, data) => Model.Event.Data(slot, piece, begin, data, now)
    case Disconnect(slot) => Model.Event.Disconnect(slot)
  }

  class PeerReader {
    const slot: nat
    const numPieces: nat
    /** What the peer will still send. */
    var reader: seq<Byte>
    var messageBuffer: seq<Byte>
    var events: seq<PeerEvent>

    constructor (slotId: nat, stream: seq<Byte>, pieces: nat)
      ensures slot == slotId && numPieces == pieces && reader == stream && events == []
    {
      slot, numPieces, reader, messageBuffer, events := slotId, pieces, stream, [], [];
    }

    method ReadU32() returns (r: Result<U32>)
      modifies this`reader
      ensures |old(reader)| < 4 ==> r == Err(EndOfStream)
      ensures 4 <= |old(reader)| ==> r == Ok(FromBE(old(reader)[..4])) && reader == old(reader)[4..]
    {
      if |reader| < 4 {
        return Err(EndOfStream);
      }
      r := Ok(FromBE(reader[..4]));
      reader := reader[4..];
    }

    method ReadU8() returns (r: Result<Byte>)
      modifies this`reader
      ensures old(reader) == [] ==> r == Err(EndOfStream)
      ensures old(reader) != [] ==> r == Ok(old(reader)[0]) && reader == old(reader)[1..]
    {
      if reader == [] {
        return Err(EndOfStream);
      }
      r := Ok(reader[0]);
      reader := reader[1..];
    }

    /** Fill the whole buffer. */
    method ReadExact() returns (r: Result<()>)
      modifies this`reader, this`messageBuffer
      ensures r == if |old(reader)| < |old(messageBuffer)| then Err(EndOfStream) else Ok(())
      ensures r.Ok? ==> messageBuffer == old(reader)[..|old(messageBuffer)|]
                        && reader == old(reader)[|old(messageBuffer)|..]
    {
      if |reader| < |messageBuffer| {
        return Err(EndOfStream);
      }
      var n := |messageBuffer|;
      messageBuffer, reader := reader[..n], reader[n..];
      return Ok(());
    }

    method ParseBitfield() returns (r: Result<seq<bool>>)
      ensures r == if |messageBuffer| != ByteCount(numPieces) then Err(InvalidBitfield)
                   else Ok(Unpack(messageBuffer, numPieces))
    {
      if |messageBuffer| != ByteCount(numPieces) {
        return Err(InvalidBitfield);
      }
      var bitfield := [];
      var j := 0;
      while j < |messageBuffer|
        invariant 0 <= j <= |messageBuffer|
        invariant |bitfield| == if 8 * j < numPieces then 8 * j else numPieces
        invariant bitfield == Unpack(messageBuffer, |bitfield|)
      {
        var byte, i := messageBuffer[j], 8;
        while i > 0
          invariant 0 <= i <= 8
          invariant |bitfield| == if 8 * j + 8 - i < numPieces then 8 * j + 8 - i else numPieces
          invariant bitfield == Unpack(messageBuffer, |bitfield|)
        {
          if |bitfield| == numPieces {
            break;
          }
          i := i - 1;
          assert Bit(byte, i) == BitAt(messageBuffer, |bitfield|);
          bitfield := bitfield + [Bit(byte, i)];
        }
        j := j + 1;
      }
      return Ok(bitfield);
    }

    /** Act on a message, its payload being in the buffer. */
    method Act(id: Byte) returns (r: Result<()>)
      modifies this`messageBuffer, this`events
      ensures match Interpret(slot, numPieces, id, old(messageBuffer))
              case Ok(reported) => r == Ok(()) && events == old(events) + reported
              case Err(error) => r == Err(error) && events == old(events)
    {
      match TryFrom(id) {
      case None =>
      case Some(Choke) => events := events + [PeerEvent.Choke(slot)];
      case Some(Unchoke) => events := events + [PeerEvent.Unchoke(slot)];
      case Some(Interested) => events := events + [PeerEvent.Interested(slot)];
      case Some(NotInterested) => events := events + [PeerEvent.NotInterested(slot)];
      case Some(Have) =>
        if |messageBuffer| < 4 {
          return Err(Panic);
        }
        events := events + [PeerEvent.Have(slot, FromBE(messageBuffer[0..4]))];
      case Some(Bitfield) =>
        var bitfield := ParseBitfield();
        if bitfield.Err? {
          return Err(bitfield.error);
        }
        events := events + [PeerEvent.Bitfield(slot, bitfield.value)];
      case Some(Piece) =>
        if 8 <= |messageBuffer| {
          var piece, begin := FromBE(messageBuffer[0..4]), FromBE(messageBuffer[4..8]);
          var data := messageBuffer;
          messageBuffer := [];
          events := events + [PeerEvent.Data(slot, piece, begin, data)];
        }
      case Some(_) => return Err(Panic);
      }
      return Ok(());
    }

    /** Read one message. On success exactly its four length bytes and as many bytes as they announce are
        consumed, whatever the message is. */
    method ReadMessage() returns (r: Result<()>)
      modifies this
      ensures match NextMessage(slot, numPieces, old(reader))
              case Read(rest, reported) => r == Ok(()) && reader == rest && events == old(events) + reported
              case Failed(error) => r == Err(error) && events == old(events)
      ensures r.Ok? ==>
                && 4 <= |old(reader)|
                && var len: nat := FromBE(old(reader)[..4]);
                   4 + len <= |old(reader)| && reader == old(reader)[4 + len..]
    {
      var len := ReadU32();
      if len.Err? {
        return Err(len.error);
      }
      if len.value == 0 {
        return Ok(());
      }
      var id := ReadU8();
      if id.Err? {
        return Err(id.error);
      }
      messageBuffer := Resize(messageBuffer, len.value - 1);
      r := ReadExact();
      if r.Err? {
        return;
      }
      ghost var stream := old(reader);
      assert stream[4..][1..][..len.value - 1] == stream[5..4 + len.value];
      assert stream[4..][1..][len.value - 1..] == stream[4 + len.value..];
      r := Act(id.value);
    }

    /** Read messages until the first error. The reader may also be aborted before that: after `turns` messages. */
    method Run(turns: nat) returns (error: Option<ReadError>)
      modifies this
      ensures events == old(events) + DecodeFor(slot, numPieces, old(reader), turns)
      ensures error.Some? ==> events == old(events) + Decode(slot, numPieces, old(reader))
    {
      ghost var all := events + DecodeFor(slot, numPieces, reader, turns);
      ghost var whole := events + Decode(slot, numPieces, reader);
      var left := turns;
      while left > 0
        invariant events + DecodeFor(slot, numPieces, reader, left) == all
        invariant events + Decode(slot, numPieces, reader) == whole
      {
        ghost var before, stream := events, reader;
        var r := ReadMessage();
        if r.Err? {
          assert events + [] == all == whole;
          return Some(r.error);
        }
        left := left - 1;
        ghost var reported := NextMessage(slot, numPieces, stream).events;
        Associative(before, reported, Decode(slot, numPieces, reader));
        Associative(before, reported, DecodeFor(slot, numPieces, reader, left));
      }
      return None;
    }
  }

  /** `buf[at..at + |bytes|].copy_from_slice(bytes)` */
  method CopyFromSlice(buf: array<Byte>, at: nat, bytes: seq<Byte>)
    requires at + |bytes| <= buf.Length
    modifies buf
    ensures buf[..] == Overwrite(old(buf[..]), at, bytes)
    ensures buf[..at + |bytes|] == old(buf[..at]) + bytes
  {
    forall i | 0 <= i < |bytes| {
      buf[at + i] := bytes[i];
    }
  }

  /** The messages that carry out a command. */
  function MessagesOf(command: Model.PeerCommand): seq<Message>
    requires IsSendable(command)
  {
    match command
    case SendInterested => [Message.Interested]
    case BlocksToDownload(blocks) => RequestMessages(blocks)
    case SendHave(piece) => [Message.Have(piece)]
  }

  predicate IsSendable(command: Model.PeerCommand) {
    match command
    case SendInterested => true
    case BlocksToDownload(blocks) => AllFitTheWire(blocks)
    case SendHave(piece) => piece < U32_LIMIT
  }

  predicate AllSendable(commands: seq<Model.PeerCommand>) {
    forall i :: 0 <= i < |commands| ==> IsSendable(commands[i])
  }

  /** The first `n` chunks, one after the other. */
  function Joined<T>(chunks: seq<seq<T>>, n: nat): seq<T>
    requires n <= |chunks|
  {
    if n == 0 then [] else Joined(chunks, n - 1) + chunks[n - 1]
  }

  function Chunks(commands: seq<Model.PeerCommand>): (chunks: seq<seq<Byte>>)
    requires AllSendable(commands)
    ensures |chunks| == |commands|
  {
    seq(|commands|, i requires 0 <= i < |commands| => EncodeAll(MessagesOf(commands[i])))
  }

  /** The bytes that carry out commands, one after the other. */
  function WireOf(commands: seq<Model.PeerCommand>): seq<Byte>
    requires AllSendable(commands)
  {
    Joined(Chunks(commands), |commands|)
  }

  lemma EncodeOne(message: Message)
    requires Fits(message)
    ensures EncodeAll([message]) == Encode(message)
  {
  }

  lemma JoinRequest(front: seq<Byte>, r: BlockRequest)
    requires FitsTheWire(r)
    ensures front + ToBE(13) + [6] + ToBE(r.pieceIndex) + ToBE(r.offset) + ToBE(r.len)
            == front + Encode(RequestMessage(r))
  {
  }

  /** One request, written after what is in the buffer already. */
  method WriteRequest(buf: array<Byte>, counter: nat, r: BlockRequest)
    requires counter + 17 <= buf.Length && FitsTheWire(r)
    modifies buf
    ensures buf[..counter + 17] == old(buf[..counter]) + Encode(RequestMessage(r))
  {
    CopyFromSlice(buf, counter, ToBE(13));
    CopyFromSlice(buf, counter + 4, [Code(MessageId.Request)]);
    CopyFromSlice(buf, counter + 5, ToBE(r.pieceIndex));
    CopyFromSlice(buf, counter + 9, ToBE(r.offset));
    CopyFromSlice(buf, counter + 13, ToBE(r.len));
    JoinRequest(old(buf[..counter]), r);
  }

  lemma OneMoreRequest(blocks: seq<BlockRequest>, i: nat)
    requires i < |blocks| && AllFitTheWire(blocks)
    ensures EncodeAll(RequestMessages(blocks[..i + 1])) ==
              EncodeAll(RequestMessages(blocks[..i])) + Encode(RequestMessage(blocks[i]))
  {
    assert blocks[..i + 1] == blocks[..i] + [blocks[i]];
    EncodeLastRequest(blocks[..i], blocks[i]);
  }

  /** A batch of requests. */
  method WriteRequests(buf: array<Byte>, blocks: seq<BlockRequest>)
    requires buf.Length == 17 * |blocks| && AllFitTheWire(blocks)
    modifies buf
    ensures buf[..] == EncodeAll(RequestMessages(blocks))
  {
    var counter := 0;
    for i := 0 to |blocks|
      invariant counter == 17 * i
      invariant buf[..counter] == EncodeAll(RequestMessages(blocks[..i]))
    {
      OneMoreRequest(blocks, i);
      WriteRequest(buf, counter, blocks[i]);
      counter := counter + 17;
    }
    assert blocks[..|blocks|] == blocks && buf[..] == buf[..counter];
  }

  /** What gets through of some bytes when only `room` do. */
  function Cut<T>(s: seq<T>, room: nat): (r: seq<T>)
    ensures |r| == if |s| <= room then |s| else room
  {
    if |s| <= room then s else s[..room]
  }

  lemma CutBefore<T>(s: seq<T>, more: seq<T>, room: nat)
    requires room < |s|
    ensures room < |s + more| && Cut(s + more, room) == Cut(s, room)
  {
  }

  lemma OneMoreChunk<T>(start: seq<T>, chunks: seq<seq<T>>, n: nat)
    requires n < |chunks|
    ensures start + Joined(chunks, n + 1) == start + Joined(chunks, n) + chunks[n]
  {
    Associative(start, Joined(chunks, n), chunks[n]);
  }

  /** What comes after the cut does not matter. */
  lemma {:induction false} CutStays<T>(start: seq<T>, chunks: seq<seq<T>>, n: nat, room: nat)
    requires n <= |chunks| && room < |start + Joined(chunks, n)|
    ensures room < |start + Joined(chunks, |chunks|)|
    ensures Cut(start + Joined(chunks, |chunks|), room) == Cut(start + Joined(chunks, n), room)
    decreases |chunks| - n
  {
    if n < |chunks| {
      OneMoreChunk(start, chunks, n);
      CutBefore(start + Joined(chunks, n), chunks[n], room);
      CutStays(start, chunks, n + 1, room);
    }
  }

  ghost predicate IsSentUpTo<T>(start: seq<T>, chunks: seq<seq<T>>, n: nat, sent: seq<T>) {
    n <= |chunks| && sent == start + Joined(chunks, n)
  }

  ghost predicate IsCutOff<T>(start: seq<T>, chunks: seq<seq<T>>, sent: seq<T>, room: nat) {
    var whole := start + Joined(chunks, |chunks|);
    room < |whole| && sent == Cut(whole, room)
  }

  /** The next chunk is sent whole, or everything from it on is cut. */
  lemma OneMoreSent<T>(start: seq<T>, chunks: seq<seq<T>>, n: nat, before: seq<T>, after: seq<T>, room: nat)
    requires n < |chunks| && IsSentUpTo(start, chunks, n, before) && after == Cut(before + chunks[n], room)
    ensures |before + chunks[n]| <= room ==> IsSentUpTo(start, chunks, n + 1, after)
    ensures room < |before + chunks[n]| ==> IsCutOff(start, chunks, after, room)
  {
    OneMoreChunk(start, chunks, n);
    if room < |before + chunks[n]| {
      CutStays(start, chunks, n + 1, room);
    }
  }

  lemma AllIsSent<T>(start: seq<T>, chunks: seq<seq<T>>, sent: seq<T>, room: nat)
    requires IsSentUpTo(start, chunks, |chunks|, sent) && |sent| <= room
    ensures sent == Cut(start + Joined(chunks, |chunks|), room) && |start + Joined(chunks, |chunks|)| <= room
  {
  }

  class PeerWriter {
    /** How many bytes get through before the connection breaks or the writer is aborted. */
    const room: nat
    /** Everything sent to the peer. */
    var writer: seq<Byte>

    ghost predicate Valid()
      reads this
    {
      |writer| <= room
    }

    constructor (space: nat)
      ensures Valid() && room == space && writer == []
    {
      room, writer := space, [];
    }

    /** Send all the bytes. A write that fails may have sent some of them. */
    method WriteAll(bytes: seq<Byte>) returns (ok: bool)
      requires Valid()
      modifies this
      ensures Valid() && writer == Cut(old(writer) + bytes, room)
      ensures ok == (|old(writer) + bytes| <= room)
    {
      ok := |writer| + |bytes| <= room;
      writer := writer + if ok then bytes else bytes[..room - |writer|];
    }

    /** Send a batch of requests with one write. */
    method Download(blocks: seq<BlockRequest>) returns (ok: bool)
      requires Valid() && AllFitTheWire(blocks)
      modifies this
      ensures Valid() && writer == Cut(old(writer) + EncodeAll(RequestMessages(blocks)), room)
      ensures ok == (|old(writer) + EncodeAll(RequestMessages(blocks))| <= room)
    {
      var blocksBuf := new Byte[17 * |blocks|](_ => 0);
      WriteRequests(blocksBuf, blocks);
      ok := WriteAll(blocksBuf[..]);
    }

    method SendHave(piece: U32) returns (ok: bool)
      requires Valid()
      modifies this
      ensures Valid() && writer == Cut(old(writer) + Encode(Message.Have(piece)), room)
      ensures ok == (|old(writer) + Encode(Message.Have(piece))| <= room)
    {
      var haveBuffer := new Byte[9](_ => 0);
      CopyFromSlice(haveBuffer, 0, ToBE(5));
      CopyFromSlice(haveBuffer, 4, [Code(MessageId.Have)]);
      CopyFromSlice(haveBuffer, 5, ToBE(piece));
      assert haveBuffer[..] == haveBuffer[..9] == Encode(Message.Have(piece));
      ok := WriteAll(haveBuffer[..]);
    }

    method SendInterested() returns (ok: bool)
      requires Valid()
      modifies this
      ensures Valid() && writer == Cut(old(writer) + Encode(Message.Interested), room)
      ensures ok == (|old(writer) + Encode(Message.Interested)| <= room)
    {
      ok := SendBare(MessageId.Interested);
    }

    method SendUnchoke() returns (ok: bool)
      requires Valid()
      modifies this
      ensures Valid() && writer == Cut(old(writer) + Encode(Message.Unchoke), room)
      ensures ok == (|old(writer) + Encode(Message.Unchoke)| <= room)
    {
      ok := SendBare(MessageId.Unchoke);
    }

    method SendChoke() returns (ok: bool)
      requires Valid()
      modifies this
      ensures Valid() && writer == Cut(old(writer) + Encode(Message.Choke), room)
      ensures ok == (|old(writer) + Encode(Message.Choke)| <= room)
    {
      ok := SendBare(MessageId.Choke);
    }

    /** A message of an id alone. */
    method SendBare(id: MessageId) returns (ok: bool)
      requires Valid()
      modifies this
      ensures Valid() && writer == Cut(old(writer) + Frame(Code(id), []), room)
      ensures ok == (|old(writer) + Frame(Code(id), [])| <= room)
    {
      var buffer := new Byte[5](_ => 0);
      CopyFromSlice(buffer, 0, ToBE(1));
      CopyFromSlice(buffer, 4, [Code(id)]);
      assert buffer[..] == buffer[..5] == Frame(Code(id), []);
      ok := WriteAll(buffer[..]);
    }

    method Execute(command: Model.PeerCommand, ghost bytes: seq<Byte>) returns (ok: bool)
      requires Valid() && IsSendable(command) && bytes == EncodeAll(MessagesOf(command))
      modifies this
      ensures Valid() && writer == Cut(old(writer) + bytes, room)
      ensures ok == (|old(writer) + bytes| <= room)
    {
      match command
      case SendInterested =>
        EncodeOne(Message.Interested);
        ok := SendInterested();
      case BlocksToDownload(blocks) => ok := Download(blocks);
      case SendHave(piece) =>
        EncodeOne(Message.Have(piece));
        ok := SendHave(piece);
    }

    /** Carry out the next command, whose bytes are chunk `n`; the chunks before it have been sent. */
    method ExecuteNext(command: Model.PeerCommand, ghost start: seq<Byte>, ghost chunks: seq<seq<Byte>>, ghost n: nat)
      returns (ok: bool)
      requires Valid() && n < |chunks| && IsSentUpTo(start, chunks, n, writer)
      requires IsSendable(command) && chunks[n] == EncodeAll(MessagesOf(command))
      modifies this
      ensures Valid() && (ok ==> IsSentUpTo(start, chunks, n + 1, writer))
      ensures !ok ==> IsCutOff(start, chunks, writer, room)
    {
      ghost var before := writer;
      ok := Execute(command, chunks[n]);
      OneMoreSent(start, chunks, n, before, writer, room);
    }

    /** Carry out commands until the channel closes or a write fails: all their messages are sent, as far as there is
        room. */
    method Run(commands: seq<Model.PeerCommand>) returns (ok: bool)
      requires Valid() && AllSendable(commands)
      modifies this
      ensures Valid() && writer == Cut(old(writer) + WireOf(commands), room)
      ensures ok == (|old(writer) + WireOf(commands)| <= room)
    {
      ghost var chunks := Chunks(commands);
      for done := 0 to |commands|
        invariant Valid() && IsSentUpTo(old(writer), chunks, done, writer)
      {
        ok := ExecuteNext(commands[done], old(writer), chunks, done);
        if !ok {
          return;
        }
      }
      AllIsSent(old(writer), chunks, writer, room);
      ok := true;
    }

    /** Open a connection we started, or answer one. */
    method SendHandshake(infoHash: seq<Byte>) returns (ok: bool)
      requires Valid() && |infoHash| == 20
      modifies this
      ensures Valid() && writer == Cut(old(writer) + OurHandshake(infoHash), room)
      ensures ok == (|old(writer)| + 68 <= room)
    {
      var handshakeBuf := new Byte[68](_ => 0);
      handshakeBuf[0] := 19;
      CopyFromSlice(handshakeBuf, 1, P_STR_PROTOCOL);
      CopyFromSlice(handshakeBuf, 28, infoHash);
      CopyFromSlice(handshakeBuf, 48, PEER_ID);
      assert handshakeBuf[..] == OurHandshake(infoHash);
      ok := WriteAll(handshakeBuf[..]);
    }
  }

  /** Send our handshake, then wait for the peer's, unless the connection is incoming, where it has been read before.
      `rest` is what the peer sends after its handshake. */
  method DoHandshake(writer: PeerWriter, stream: seq<Byte>, infoHash: seq<Byte>, incoming: bool)
    returns (ok: bool, rest: seq<Byte>)
    requires writer.Valid() && writer.writer == [] && |infoHash| == 20
    modifies writer
    ensures writer.Valid() && writer.writer == Cut(OurHandshake(infoHash), writer.room)
    ensures ok <==> 68 <= writer.room && (incoming || StartsWithHandshake(stream, infoHash))
    ensures ok ==> rest == if incoming then stream else stream[68..]
  {
    ok := writer.SendHandshake(infoHash);
    rest := stream;
    assert [] + OurHandshake(infoHash) == OurHandshake(infoHash);
    if ok && !incoming {
      if |stream| < 68 {
        return false, stream;
      }
      AcceptedAreForThisTorrent(stream[..68], infoHash);
      if ValidateHandshake(stream[..68], infoHash) != Accepted {
        return false, stream;
      }
      rest := stream[68..];
    }
  }

  lemma ReportedAreWellFormed(slot: nat, numPieces: nat, stream: seq<Byte>, turns: nat)
    ensures forall e :: e in DecodeFor(slot, numPieces, stream, turns) ==> IsWellFormed(slot, numPieces, e)
  {
    DecodeForIsPrefix(slot, numPieces, stream, turns);
    DecodedAreWellFormed(slot, numPieces, stream);
    forall e | e in DecodeFor(slot, numPieces, stream, turns)
      ensures e in Decode(slot, numPieces, stream)
    {
    }
  }

  /** The life of a connection. We send our handshake, wait for the peer's unless it came first, and then read and
      write at the same time; when one half ends, the other is aborted. `commands` are the commands that the writer
      gets to see, `room` the bytes that get through to the peer, and `turns` the messages the reader has time for.

      Whatever the peer sends, and however the two halves end: the connection is `open` exactly if our whole handshake
      went out and, where we called, the peer answered with one for this torrent. Then the scheduler gets what the
      reader makes of the stream behind the handshake, all of it well-formed, and the peer gets our messages for the
      commands, as far as there is room. Otherwise it gets at most our handshake. Last, and once, the scheduler gets a
      disconnect. */
  method RunPeer(slot: nat, infoHash: seq<Byte>, stream: seq<Byte>, commands: seq<Model.PeerCommand>, numPieces: nat,
                 incoming: bool, room: nat, turns: nat)
    returns (open: bool, events: seq<PeerEvent>, sent: seq<Byte>)
    requires |infoHash| == 20 && AllSendable(commands)
    ensures open <==> 68 <= room && (incoming || StartsWithHandshake(stream, infoHash))
    ensures events == (if !open then []
                       else DecodeFor(slot, numPieces, if incoming then stream else stream[68..], turns))
                      + [PeerEvent.Disconnect(slot)]
    ensures sent == Cut(OurHandshake(infoHash) + (if open then WireOf(commands) else []), room)
    ensures forall i :: 0 <= i < |events| - 1 ==> IsWellFormed(slot, numPieces, events[i])
  {
    var writer := new PeerWriter(room);
    var rest;
    open, rest := DoHandshake(writer, stream, infoHash, incoming);
    events := [];
    if open {
      var reader := new PeerReader(slot, rest, numPieces);
      var error := reader.Run(turns);
      var ok := writer.Run(commands);
      ReportedAreWellFormed(slot, numPieces, rest, turns);
      events := reader.events;
      assert events == DecodeFor(slot, numPieces, rest, turns);
    }
    events, sent := events + [PeerEvent.Disconnect(slot)], writer.writer;
    assert OurHandshake(infoHash) + [] == OurHandshake(infoHash);
  }

  // Codec and scheduler together

  /** Every event a connection delivers is one the scheduler's invariants allow, and a block comes with its
      header. */
  lemma DeliveredAreLegitimate(m: Torrent, s: Model.SchedulerState, slot: nat, e: PeerEvent, now: nat)
    requires IsWellFormed(slot, m.numPieces, e)
    ensures Model.IsLegitimate(m, s, Delivered(e, now))
    ensures Delivered(e, now).Data? ==> 8 <= |Delivered(e, now).data|
  {
  }

  /** Every command about blocks and pieces of a torrent can be written to the wire. */
  lemma CommandsAreSendable(m: Torrent, command: Model.PeerCommand)
    requires NamesThisTorrent(m, command)
    ensures IsSendable(command)
  {
    if command.BlocksToDownload? {
      forall i | 0 <= i < |command.blocks|
        ensures FitsTheWire(command.blocks[i])
      {
        var r := command.blocks[i];
        assert IsTile(m, r);
        BlockFits(m, KeyOf(r));
      }
    }
  }
}
