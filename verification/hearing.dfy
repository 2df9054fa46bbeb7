/** The two ends of the wire: what the other side of a connection reads in the bytes we send, and what the scheduler is
    told of the bytes the other side sends. */
module Hearing {
  import opened Metainfo
  import opened Bytes
  import opened Bitfields
  import opened Wire
  import opened Handshakes
  import opened Peers

  // What the other side hears

  /** What a message of ours says. */
  datatype Told = IsInterested | HasPiece(piece: nat) | WantsBlock(request: BlockRequest)

  /** Read a stream of messages as BEP 3 describes them, up to the first that we would never send. */
  function Hear(stream: seq<Byte>): seq<Told>
    decreases |stream|
  {
    if |stream| < 5 then []
    else
      var len, id := FromBE(stream[..4]), stream[4];
      if |stream| < 4 + len then []
      else if len == 1 && id == 2 then [IsInterested] + Hear(stream[5..])
      else if len == 5 && id == 4 then [HasPiece(FromBE(stream[5..9]))] + Hear(stream[9..])
      else if len == 13 && id == 6 then
        [WantsBlock(BlockRequest(FromBE(stream[5..9]), FromBE(stream[9..13]), FromBE(stream[13..17])))]
        + Hear(stream[17..])
      else []
  }

  function Wants(blocks: seq<BlockRequest>): (r: seq<Told>)
    ensures |r| == |blocks|
  {
    seq(|blocks|, i requires 0 <= i < |blocks| => WantsBlock(blocks[i]))
  }

  lemma WantsOneMore(front: seq<BlockRequest>, r: BlockRequest)
    ensures Wants(front + [r]) == Wants(front) + [WantsBlock(r)]
  {
  }

  /** What a command of the scheduler is to tell the peer. */
  function Telling(command: Model.PeerCommand): seq<Told> {
    match command
    case SendInterested => [IsInterested]
    case SendHave(piece) => [HasPiece(piece)]
    case BlocksToDownload(blocks) => Wants(blocks)
  }

  function Tellings(commands: seq<Model.PeerCommand>): (tellings: seq<seq<Told>>)
    ensures |tellings| == |commands|
  {
    seq(|commands|, i requires 0 <= i < |commands| => Telling(commands[i]))
  }

  function TellingAll(commands: seq<Model.PeerCommand>): seq<Told> {
    Joined(Tellings(commands), |commands|)
  }

  lemma InterestIsHeard(tail: seq<Byte>)
    ensures Hear(Encode(Message.Interested) + tail) == [IsInterested] + Hear(tail)
  {
    FrameParts(2, [], tail);
    BigEndianRoundTrip(1);
  }

  lemma HaveIsHeard(piece: U32, tail: seq<Byte>)
    ensures Hear(Encode(Message.Have(piece)) + tail) == [HasPiece(piece)] + Hear(tail)
  {
    FrameParts(4, ToBE(piece), tail);
    BigEndianRoundTrip(5);
    BigEndianRoundTrip(piece);
  }

  lemma RequestIsHeard(r: BlockRequest, tail: seq<Byte>)
    requires FitsTheWire(r)
    ensures Hear(Encode(RequestMessage(r)) + tail) == [WantsBlock(r)] + Hear(tail)
  {
    var frame := Encode(RequestMessage(r));
    BigEndianRoundTrip(13);
    BigEndianRoundTrip(r.pieceIndex);
    BigEndianRoundTrip(r.offset);
    BigEndianRoundTrip(r.len);
    RequestParts(ToBE(13), ToBE(r.pieceIndex), ToBE(r.offset), ToBE(r.len));
    FrameStays(frame, tail);
  }

  lemma FrameStays(frame: seq<Byte>, tail: seq<Byte>)
    requires |frame| == 17
    ensures var stream := frame + tail;
            && stream[..4] == frame[..4] && stream[4] == frame[4] && stream[17..] == tail
            && stream[5..9] == frame[5..9] && stream[9..13] == frame[9..13] && stream[13..17] == frame[13..17]
  {
  }

  lemma {:induction false} BatchIsHeard(blocks: seq<BlockRequest>, tail: seq<Byte>)
    requires AllFitTheWire(blocks)
    ensures Hear(EncodeAll(RequestMessages(blocks)) + tail) == Wants(blocks) + Hear(tail)
    decreases |blocks|
  {
    if blocks == [] {
      assert EncodeAll(RequestMessages(blocks)) + tail == tail;
    } else {
      var front, r := blocks[..|blocks| - 1], blocks[|blocks| - 1];
      assert blocks == front + [r];
      EncodeLastRequest(front, r);
      Associative(EncodeAll(RequestMessages(front)), Encode(RequestMessage(r)), tail);
      BatchIsHeard(front, Encode(RequestMessage(r)) + tail);
      RequestIsHeard(r, tail);
      WantsOneMore(front, r);
      Associative(Wants(front), [WantsBlock(r)], Hear(tail));
    }
  }

  lemma CommandIsHeard(command: Model.PeerCommand, tail: seq<Byte>)
    requires IsSendable(command)
    ensures Hear(EncodeAll(MessagesOf(command)) + tail) == Telling(command) + Hear(tail)
  {
    match command
    case SendInterested =>
      EncodeOne(Message.Interested);
      InterestIsHeard(tail);
    case BlocksToDownload(blocks) => BatchIsHeard(blocks, tail);
    case SendHave(piece) =>
      EncodeOne(Message.Have(piece));
      HaveIsHeard(piece, tail);
  }

  /** If each chunk is heard on its own, whatever follows, then so are all. */
  lemma {:induction false} ChunksAreHeard<T>(hear: seq<Byte> -> seq<T>, chunks: seq<seq<Byte>>, heard: seq<seq<T>>,
                                             n: nat, tail: seq<Byte>)
    requires n <= |chunks| == |heard|
    requires forall i, t {:trigger hear(chunks[i] + t)} :: 0 <= i < n ==> hear(chunks[i] + t) == heard[i] + hear(t)
    ensures hear(Joined(chunks, n) + tail) == Joined(heard, n) + hear(tail)
    decreases n
  {
    if n == 0 {
      assert Joined(chunks, n) + tail == tail;
    } else {
      Associative(Joined(chunks, n - 1), chunks[n - 1], tail);
      ChunksAreHeard(hear, chunks, heard, n - 1, chunks[n - 1] + tail);
      Associative(Joined(heard, n - 1), heard[n - 1], hear(tail));
    }
  }

  /** Behind our handshake the other side reads our interest, each piece we announce and each block we ask for: exactly
      what the commands say, in order. */
  lemma CommandsAreHeard(commands: seq<Model.PeerCommand>, tail: seq<Byte>)
    requires AllSendable(commands)
    ensures Hear(WireOf(commands) + tail) == TellingAll(commands) + Hear(tail)
  {
    forall i, t | 0 <= i < |commands|
      ensures Hear(Chunks(commands)[i] + t) == Tellings(commands)[i] + Hear(t)
    {
      CommandIsHeard(commands[i], t);
    }
    ChunksAreHeard(Hear, Chunks(commands), Tellings(commands), |commands|, tail);
  }

  /** A connection that breaks off lets it read a prefix of that. */
  lemma {:induction false} CutIsHeard(stream: seq<Byte>, cut: nat)
    requires cut <= |stream|
    ensures Hear(stream[..cut]) <= Hear(stream)
    decreases |stream|
  {
    if Hear(stream[..cut]) != [] {
      var len: nat := FromBE(stream[..4]);
      assert stream[..cut][..4] == stream[..4];
      CutParts(stream, cut, 5, 4 + len);
      assert stream[..cut][4 + len..] == stream[4 + len..][..cut - 4 - len];
      assert len >= 5 ==> stream[..cut][5..9] == stream[5..9];
      assert len == 13 ==> stream[..cut][9..13] == stream[9..13] && stream[..cut][13..17] == stream[13..17];
      CutIsHeard(stream[4 + len..], cut - 4 - len);
    }
  }

  lemma CutBehind<T>(ours: seq<T>, more: seq<T>, room: nat)
    requires |ours| <= room
    ensures var sent := Cut(ours + more, room);
            |ours| <= |sent| && sent[..|ours|] == ours && sent[|ours|..] == Cut(more, room - |ours|)
  {
  }

  lemma CommandsAlone(commands: seq<Model.PeerCommand>)
    requires AllSendable(commands)
    ensures Hear(WireOf(commands)) == TellingAll(commands)
  {
    CommandsAreHeard(commands, []);
    assert WireOf(commands) + [] == WireOf(commands);
    assert TellingAll(commands) + Hear([]) == TellingAll(commands);
  }

  /** What a peer hears of a connection on which `room` bytes get through, at least our handshake among them. */
  lemma PeerHears(infoHash: seq<Byte>, commands: seq<Model.PeerCommand>, room: nat)
    requires |infoHash| == 20 && AllSendable(commands) && 68 <= room
    ensures var sent := Cut(OurHandshake(infoHash) + WireOf(commands), room);
            && 68 <= |sent| && sent[..68] == OurHandshake(infoHash)
            && Hear(sent[68..]) <= TellingAll(commands)
            && (68 + |WireOf(commands)| <= room ==> Hear(sent[68..]) == TellingAll(commands))
  {
    var wire := WireOf(commands);
    CutBehind(OurHandshake(infoHash), wire, room);
    CommandsAlone(commands);
    if room - 68 < |wire| {
      CutIsHeard(wire, room - 68);
    }
  }

  // What the scheduler is told

  /** Whatever comes after them, the scheduler is told this of these bytes. */
  ghost predicate IsReadAs(slot: nat, numPieces: nat, bytes: seq<Byte>, now: nat, e: Model.Event) {
    forall tail: seq<Byte> ::
      var step := NextMessage(slot, numPieces, bytes + tail);
      step.Read? && step.rest == tail && |step.events| == 1 && Delivered(step.events[0], now) == e
  }

  lemma FrameIsReadAs(slot: nat, numPieces: nat, id: Byte, payload: seq<Byte>, now: nat, e: PeerEvent)
    requires |payload| + 1 < U32_LIMIT && Interpret(slot, numPieces, id, payload) == Ok([e])
    ensures IsReadAs(slot, numPieces, Frame(id, payload), now, Delivered(e, now))
  {
    forall tail: seq<Byte>
      ensures NextMessage(slot, numPieces, Frame(id, payload) + tail) == Read(tail, [e])
    {
      FrameIsRead(slot, numPieces, id, payload, tail, [e]);
    }
  }

  lemma ShortFrame(id: Byte, payload: seq<Byte>)
    requires |payload| < 255
    ensures Frame(id, payload) == [0, 0, 0, |payload| + 1, id] + payload
  {
    ShortNumber(|payload| + 1);
  }

  /** The messages about choking and interest, byte for byte. */
  lemma FlagsAreUnderstood(slot: nat, numPieces: nat, now: nat)
    ensures IsReadAs(slot, numPieces, [0, 0, 0, 1, 0], now, Model.Event.Choke(slot))
    ensures IsReadAs(slot, numPieces, [0, 0, 0, 1, 1], now, Model.Event.Unchoke(slot, now))
    ensures IsReadAs(slot, numPieces, [0, 0, 0, 1, 2], now, Model.Event.Interested(slot))
    ensures IsReadAs(slot, numPieces, [0, 0, 0, 1, 3], now, Model.Event.NotInterested(slot))
  {
    forall id: Byte | id < 4
      ensures Frame(id, []) == [0, 0, 0, 1, id]
    {
      ShortFrame(id, []);
    }
    FrameIsReadAs(slot, numPieces, 0, [], now, PeerEvent.Choke(slot));
    FrameIsReadAs(slot, numPieces, 1, [], now, PeerEvent.Unchoke(slot));
    FrameIsReadAs(slot, numPieces, 2, [], now, PeerEvent.Interested(slot));
    FrameIsReadAs(slot, numPieces, 3, [], now, PeerEvent.NotInterested(slot));
  }

  /** The announcement of a piece: its index, most significant byte first. */
  lemma HavesAreUnderstood(slot: nat, numPieces: nat, index: seq<Byte>, now: nat)
    requires |index| == 4
    ensures var a: nat, b: nat, c: nat, d: nat := index[0], index[1], index[2], index[3];
            IsReadAs(slot, numPieces, [0, 0, 0, 5, 4] + index, now,
                     Model.Event.Have(slot, 0x100_0000 * a + 0x1_0000 * b + 0x100 * c + d, now))
  {
    ShortFrame(4, index);
    BigEndianValue(index);
    assert index[..4] == index;
    FrameIsReadAs(slot, numPieces, 4, index, now, PeerEvent.Have(slot, FromBE(index)));
  }

  /** A bitfield of the right length: piece `i` is bit 7 - i mod 8 of byte i / 8. */
  lemma BitfieldsAreUnderstood(slot: nat, numPieces: nat, payload: seq<Byte>, now: nat) returns (bits: seq<bool>)
    requires |payload| == (numPieces + 7) / 8 && |payload| + 1 < U32_LIMIT
    ensures |bits| == numPieces && forall i :: 0 <= i < numPieces ==> bits[i] == Bit(payload[i / 8], 7 - i % 8)
    ensures IsReadAs(slot, numPieces, ToBE(|payload| + 1) + [5] + payload, now, Model.Event.Bitfield(slot, bits, now))
  {
    bits := Unpack(payload, numPieces);
    FrameIsReadAs(slot, numPieces, 5, payload, now, PeerEvent.Bitfield(slot, bits));
  }

  /** A block: piece, offset, and the bytes, which the scheduler gets with both in front. */
  lemma BlocksAreUnderstood(slot: nat, numPieces: nat, piece: U32, begin: U32, block: seq<Byte>, now: nat)
    requires |block| + 9 < U32_LIMIT
    ensures IsReadAs(slot, numPieces, ToBE(|block| + 9) + [7] + (ToBE(piece) + ToBE(begin) + block), now,
                     Model.Event.Data(slot, piece, begin, ToBE(piece) + ToBE(begin) + block, now))
    ensures (ToBE(piece) + ToBE(begin) + block)[8..] == block
  {
    var payload := ToBE(piece) + ToBE(begin) + block;
    HeaderParts(piece, begin, block);
    FrameIsReadAs(slot, numPieces, 7, payload, now, PeerEvent.Data(slot, piece, begin, payload));
  }
}
