/** The messages of BEP 3 ("peer messages") as bytes, and what the reading side of a connection makes of a
    stream of bytes: the specification of the classes in peers.dfy. */
module Wire {
  import opened Metainfo
  import opened Bytes
  import opened Bitfields
  import opened Wrappers

  datatype Result<T> = Ok(value: T) | Err(error: ReadError)

  /** Why a reader stops. A panic ends only this connection. */
  datatype ReadError = EndOfStream | InvalidBitfield | Panic

  datatype MessageId =
    Choke | Unchoke | Interested | NotInterested | Have | Bitfield | Request | Piece | Cancel | Port

  function Code(id: MessageId): Byte {
    match id
    case Choke => 0
    case Unchoke => 1
    case Interested => 2
    case NotInterested => 3
    case Have => 4
    case Bitfield => 5
    case Request => 6
    case Piece => 7
    case Cancel => 8
    case Port => 9
  }

  function TryFrom(value: Byte): Option<MessageId> {
    if value == 0 then Some(MessageId.Choke)
    else if value == 1 then Some(MessageId.Unchoke)
    else if value == 2 then Some(MessageId.Interested)
    else if value == 3 then Some(MessageId.NotInterested)
    else if value == 4 then Some(MessageId.Have)
    else if value == 5 then Some(MessageId.Bitfield)
    else if value == 6 then Some(MessageId.Request)
    else if value == 7 then Some(MessageId.Piece)
    else if value == 8 then Some(MessageId.Cancel)
    else if value == 9 then Some(MessageId.Port)
    else None
  }

  lemma TryFromInvertsCode(value: Byte, id: MessageId)
    ensures TryFrom(value) == Some(id) <==> Code(id) == value
  {
  }

  /** What a connection reports to the scheduler. */
  datatype PeerEvent =
    | Choke(slot: nat)
    | Unchoke(slot: nat)
    | Interested(slot: nat)
    | NotInterested(slot: nat)
    | Have(slot: nat, piece: U32)
    | Bitfield(slot: nat, bitfield: seq<bool>)
    | Data(slot: nat, piece: U32, begin: U32, data: seq<Byte>)
    | Disconnect(slot: nat)

  // Reading

  /** The effect of one message, given its id byte and its payload. */
  function Interpret(slot: nat, numPieces: nat, id: Byte, payload: seq<Byte>): Result<seq<PeerEvent>> {
    match TryFrom(id)
    case None => Ok([])
    case Some(Choke) => Ok([PeerEvent.Choke(slot)])
    case Some(Unchoke) => Ok([PeerEvent.Unchoke(slot)])
    case Some(Interested) => Ok([PeerEvent.Interested(slot)])
    case Some(NotInterested) => Ok([PeerEvent.NotInterested(slot)])
    case Some(Have) =>
      if |payload| < 4 then Err(Panic) else Ok([PeerEvent.Have(slot, FromBE(payload[..4]))])
    case Some(Bitfield) =>
      if |payload| != ByteCount(numPieces) then Err(InvalidBitfield)
      else Ok([PeerEvent.Bitfield(slot, Unpack(payload, numPieces))])
    case Some(Piece) =>
      if |payload| < 8 then Ok([])
      else Ok([PeerEvent.Data(slot, FromBE(payload[..4]), FromBE(payload[4..8]), payload)])
    case Some(_) => Err(Panic)
  }

  datatype Step = Read(rest: seq<Byte>, events: seq<PeerEvent>) | Failed(error: ReadError)

  /** One message taken off a stream. */
  function NextMessage(slot: nat, numPieces: nat, stream: seq<Byte>): (step: Step)
    ensures step.Read? ==> |step.rest| + 4 <= |stream|
  {
    if |stream| < 4 then Failed(EndOfStream)
    else
      var len := FromBE(stream[..4]);
      if len == 0 then Read(stream[4..], [])
      else if |stream| < 4 + len then Failed(EndOfStream)
      else
        match Interpret(slot, numPieces, stream[4], stream[5..4 + len])
        case Ok(events) => Read(stream[4 + len..], events)
        case Err(error) => Failed(error)
  }

  /** Everything a reader reports about a stream before it stops. */
  function Decode(slot: nat, numPieces: nat, stream: seq<Byte>): seq<PeerEvent>
    decreases |stream|
  {
    match NextMessage(slot, numPieces, stream)
    case Read(rest, events) => events + Decode(slot, numPieces, rest)
    case Failed(_) => []
  }

  /** What a reader reports that is aborted after `turns` messages, if it has not stopped before. */
  function DecodeFor(slot: nat, numPieces: nat, stream: seq<Byte>, turns: nat): seq<PeerEvent>
    decreases turns
  {
    if turns == 0 then []
    else
      match NextMessage(slot, numPieces, stream)
      case Read(rest, events) => events + DecodeFor(slot, numPieces, rest, turns - 1)
      case Failed(_) => []
  }

  /** That is a prefix of everything, and everything if there was time to read the whole stream. */
  lemma {:induction false} DecodeForIsPrefix(slot: nat, numPieces: nat, stream: seq<Byte>, turns: nat)
    ensures DecodeFor(slot, numPieces, stream, turns) <= Decode(slot, numPieces, stream)
    ensures |stream| <= 4 * turns ==> DecodeFor(slot, numPieces, stream, turns) == Decode(slot, numPieces, stream)
    decreases turns
  {
    var step := NextMessage(slot, numPieces, stream);
    if turns > 0 && step.Read? {
      DecodeForIsPrefix(slot, numPieces, step.rest, turns - 1);
    }
  }

  /** A reader stops at a have without an index, a bitfield of the wrong length, and the messages it cannot handle:
      requests, cancellations and ports. It skips the messages it does not know. */
  lemma WhatStopsAReader(slot: nat, numPieces: nat, id: Byte, payload: seq<Byte>)
    ensures Interpret(slot, numPieces, id, payload).Err? <==>
              || (id == 4 && |payload| < 4)
              || (id == 5 && |payload| != (numPieces + 7) / 8)
              || id == 6 || id == 8 || id == 9
    ensures 9 < id ==> Interpret(slot, numPieces, id, payload) == Ok([])
  {
  }

  // Messages

  /** The messages of the protocol that this client sends or understands. `Ignored` stands for the others it
      skips: unknown ids, and piece messages too short for their header. */
  datatype Message =
    | KeepAlive
    | Choke
    | Unchoke
    | Interested
    | NotInterested
    | Have(piece: U32)
    | Bitfield(bits: seq<bool>)
    | Request(piece: U32, begin: U32, length: U32)
    | Piece(piece: U32, begin: U32, block: seq<Byte>)
    | Ignored(id: Byte, body: seq<Byte>)

  predicate Fits(message: Message) {
    match message
    case Bitfield(bits) => ByteCount(|bits|) + 1 < U32_LIMIT
    case Piece(_, _, block) => |block| + 9 < U32_LIMIT
    case Ignored(_, body) => |body| + 1 < U32_LIMIT
    case _ => true
  }

  /** The messages a reader can digest on a connection about `numPieces` pieces. */
  predicate IsReadable(numPieces: nat, message: Message) {
    && Fits(message)
    && !message.Request?
    && (message.Bitfield? ==> |message.bits| == numPieces)
    && (message.Ignored? ==> 9 < message.id || (message.id == 7 && |message.body| < 8))
  }

  /** Length prefix, id, payload. */
  function Frame(id: Byte, payload: seq<Byte>): seq<Byte>
    requires |payload| + 1 < U32_LIMIT
  {
    ToBE(|payload| + 1) + [id] + payload
  }

  function Encode(message: Message): seq<Byte>
    requires Fits(message)
  {
    match message
    case KeepAlive => ToBE(0)
    case Choke => Frame(0, [])
    case Unchoke => Frame(1, [])
    case Interested => Frame(2, [])
    case NotInterested => Frame(3, [])
    case Have(piece) => Frame(4, ToBE(piece))
    case Bitfield(bits) => Frame(5, Pack(bits))
    case Request(piece, begin, length) => Frame(6, ToBE(piece) + ToBE(begin) + ToBE(length))
    case Piece(piece, begin, block) => Frame(7, ToBE(piece) + ToBE(begin) + block)
    case Ignored(id, body) => Frame(id, body)
  }

  /** What a message tells the scheduler. A block keeps its 8-byte header. */
  function Meaning(slot: nat, message: Message): seq<PeerEvent> {
    match message
    case Choke => [PeerEvent.Choke(slot)]
    case Unchoke => [PeerEvent.Unchoke(slot)]
    case Interested => [PeerEvent.Interested(slot)]
    case NotInterested => [PeerEvent.NotInterested(slot)]
    case Have(piece) => [PeerEvent.Have(slot, piece)]
    case Bitfield(bits) => [PeerEvent.Bitfield(slot, bits)]
    case Piece(piece, begin, block) => [PeerEvent.Data(slot, piece, begin, ToBE(piece) + ToBE(begin) + block)]
    case _ => []
  }

  predicate AllFit(messages: seq<Message>) {
    forall i :: 0 <= i < |messages| ==> Fits(messages[i])
  }

  predicate AllReadable(numPieces: nat, messages: seq<Message>) {
    forall i :: 0 <= i < |messages| ==> IsReadable(numPieces, messages[i])
  }

  function EncodeAll(messages: seq<Message>): seq<Byte>
    requires AllFit(messages)
  {
    if messages == [] then [] else EncodeAll(messages[..|messages| - 1]) + Encode(messages[|messages| - 1])
  }

  function Meanings(slot: nat, messages: seq<Message>): seq<PeerEvent> {
    if messages == [] then [] else Meanings(slot, messages[..|messages| - 1]) + Meaning(slot, messages[|messages| - 1])
  }

  lemma FrameParts(id: Byte, payload: seq<Byte>, tail: seq<Byte>)
    requires |payload| + 1 < U32_LIMIT
    ensures var stream := Frame(id, payload) + tail;
            && |stream| == 5 + |payload| + |tail| && stream[..4] == ToBE(|payload| + 1) && stream[4] == id
            && stream[5..5 + |payload|] == payload && stream[5 + |payload|..] == tail
  {
  }

  /** Reading a frame consumes exactly the frame, and acts on its id and payload. */
  lemma FrameIsRead(slot: nat, numPieces: nat, id: Byte, payload: seq<Byte>, tail: seq<Byte>, events: seq<PeerEvent>)
    requires |payload| + 1 < U32_LIMIT && Interpret(slot, numPieces, id, payload) == Ok(events)
    ensures NextMessage(slot, numPieces, Frame(id, payload) + tail) == Read(tail, events)
  {
    FrameParts(id, payload, tail);
    BigEndianRoundTrip(|payload| + 1);
  }

  lemma Parts<T>(a: seq<T>, b: seq<T>, c: seq<T>)
    ensures (a + b + c)[..|a|] == a && (a + b + c)[|a|..|a| + |b|] == b && (a + b + c)[|a| + |b|..] == c
  {
  }

  lemma HeaderParts(piece: U32, begin: U32, block: seq<Byte>)
    ensures var payload := ToBE(piece) + ToBE(begin) + block;
            FromBE(payload[..4]) == piece && FromBE(payload[4..8]) == begin && payload[8..] == block
  {
    Parts(ToBE(piece), ToBE(begin), block);
    BigEndianRoundTrip(piece);
    BigEndianRoundTrip(begin);
  }

  lemma HaveIsRead(slot: nat, numPieces: nat, piece: U32, tail: seq<Byte>)
    ensures NextMessage(slot, numPieces, Frame(4, ToBE(piece)) + tail) == Read(tail, [PeerEvent.Have(slot, piece)])
  {
    var payload := ToBE(piece);
    BigEndianRoundTrip(piece);
    assert payload[..4] == payload;
    FrameIsRead(slot, numPieces, 4, payload, tail, [PeerEvent.Have(slot, piece)]);
  }

  lemma PieceIsRead(slot: nat, numPieces: nat, piece: U32, begin: U32, block: seq<Byte>, tail: seq<Byte>)
    requires |block| + 9 < U32_LIMIT
    ensures var payload := ToBE(piece) + ToBE(begin) + block;
            NextMessage(slot, numPieces, Frame(7, payload) + tail)
            == Read(tail, [PeerEvent.Data(slot, piece, begin, payload)])
  {
    var payload := ToBE(piece) + ToBE(begin) + block;
    HeaderParts(piece, begin, block);
    FrameIsRead(slot, numPieces, 7, payload, tail, [PeerEvent.Data(slot, piece, begin, payload)]);
  }

  lemma KeepAliveIsRead(slot: nat, numPieces: nat, tail: seq<Byte>)
    ensures NextMessage(slot, numPieces, ToBE(0) + tail) == Read(tail, [])
  {
    BigEndianRoundTrip(0);
    assert (ToBE(0) + tail)[..4] == ToBE(0) && (ToBE(0) + tail)[4..] == tail;
  }

  lemma MessageIsRead(slot: nat, numPieces: nat, message: Message, tail: seq<Byte>)
    requires IsReadable(numPieces, message)
    ensures NextMessage(slot, numPieces, Encode(message) + tail) == Read(tail, Meaning(slot, message))
  {
    match message
    case KeepAlive => KeepAliveIsRead(slot, numPieces, tail);
    case Choke => FrameIsRead(slot, numPieces, 0, [], tail, Meaning(slot, message));
    case Unchoke => FrameIsRead(slot, numPieces, 1, [], tail, Meaning(slot, message));
    case Interested => FrameIsRead(slot, numPieces, 2, [], tail, Meaning(slot, message));
    case NotInterested => FrameIsRead(slot, numPieces, 3, [], tail, Meaning(slot, message));
    case Have(piece) => HaveIsRead(slot, numPieces, piece, tail);
    case Bitfield(bits) =>
      UnpackPack(bits);
      FrameIsRead(slot, numPieces, 5, Pack(bits), tail, Meaning(slot, message));
    case Piece(piece, begin, block) => PieceIsRead(slot, numPieces, piece, begin, block, tail);
    case Ignored(id, body) => FrameIsRead(slot, numPieces, id, body, tail, Meaning(slot, message));
  }

  lemma ReadableFit(numPieces: nat, messages: seq<Message>)
    requires AllReadable(numPieces, messages)
    ensures AllFit(messages)
  {
  }

  lemma EncodeLast(front: seq<Message>, final: Message)
    requires AllFit(front) && Fits(final)
    ensures AllFit(front + [final])
    ensures EncodeAll(front + [final]) == EncodeAll(front) + Encode(final)
  {
  }

  lemma {:induction false} EncodeConcat(a: seq<Message>, b: seq<Message>)
    requires AllFit(a) && AllFit(b)
    ensures AllFit(a + b) && EncodeAll(a + b) == EncodeAll(a) + EncodeAll(b)
  {
    if b == [] {
      assert a + b == a;
    } else {
      var front, final := b[..|b| - 1], b[|b| - 1];
      assert b == front + [final] && a + b == (a + front) + [final];
      EncodeConcat(a, front);
      EncodeLast(front, final);
      EncodeLast(a + front, final);
      Associative(EncodeAll(a), EncodeAll(front), Encode(final));
    }
  }

  lemma Associative<T>(a: seq<T>, b: seq<T>, c: seq<T>)
    ensures (a + b) + c == a + (b + c)
  {
  }

  /** Framing: a reader that meets the encodings of any readable messages, one after the other, reports exactly
      their meanings in order, and is then at the byte after the last of them. */
  lemma {:induction false} DecodeInvertsEncode(slot: nat, numPieces: nat, messages: seq<Message>, tail: seq<Byte>)
    requires AllReadable(numPieces, messages)
    ensures AllFit(messages)
    ensures Decode(slot, numPieces, EncodeAll(messages) + tail) ==
              Meanings(slot, messages) + Decode(slot, numPieces, tail)
    decreases |messages|
  {
    ReadableFit(numPieces, messages);
    if messages == [] {
      assert EncodeAll(messages) + tail == tail;
    } else {
      var front, final := messages[..|messages| - 1], messages[|messages| - 1];
      assert messages == front + [final];
      EncodeLast(front, final);
      Associative(EncodeAll(front), Encode(final), tail);
      DecodeInvertsEncode(slot, numPieces, front, Encode(final) + tail);
      MessageIsRead(slot, numPieces, final, tail);
    }
  }

  lemma CutParts<T>(s: seq<T>, cut: nat, i: nat, j: nat)
    requires i <= j <= cut <= |s|
    ensures s[..cut][i..j] == s[i..j] && s[..cut][j..] == s[j..][..cut - j]
  {
  }

  /** A message read from a stream that breaks off later is read the same without the break. */
  lemma CutMessage(slot: nat, numPieces: nat, stream: seq<Byte>, cut: nat)
    requires cut <= |stream| && NextMessage(slot, numPieces, stream[..cut]).Read?
    ensures var short, step := NextMessage(slot, numPieces, stream[..cut]), NextMessage(slot, numPieces, stream);
            step.Read? && step.events == short.events
            && |short.rest| <= |step.rest| && short.rest == step.rest[..|short.rest|]
  {
    CutParts(stream, cut, 0, 4);
    var len: nat := FromBE(stream[..4]);
    if len > 0 {
      CutParts(stream, cut, 5, 4 + len);
    }
  }

  /** A connection that breaks off anywhere has reported a prefix of what it would have reported. */
  lemma {:induction false} BrokenStream(slot: nat, numPieces: nat, stream: seq<Byte>, cut: nat)
    requires cut <= |stream|
    ensures Decode(slot, numPieces, stream[..cut]) <= Decode(slot, numPieces, stream)
    decreases |stream|
  {
    var short := NextMessage(slot, numPieces, stream[..cut]);
    if short.Read? {
      CutMessage(slot, numPieces, stream, cut);
      var step := NextMessage(slot, numPieces, stream);
      BrokenStream(slot, numPieces, step.rest, |short.rest|);
    }
  }

  /** What the scheduler can rely on whatever bytes a peer sends. */
  predicate IsWellFormed(slot: nat, numPieces: nat, e: PeerEvent) {
    && e.slot == slot
    && !e.Disconnect?
    && (e.Bitfield? ==> |e.bitfield| == numPieces)
    && (e.Data? ==> 8 <= |e.data| && FromBE(e.data[..4]) == e.piece && FromBE(e.data[4..8]) == e.begin)
  }

  lemma {:induction false} DecodedAreWellFormed(slot: nat, numPieces: nat, stream: seq<Byte>)
    ensures forall e :: e in Decode(slot, numPieces, stream) ==> IsWellFormed(slot, numPieces, e)
    decreases |stream|
  {
    var step := NextMessage(slot, numPieces, stream);
    if step.Read? {
      DecodedAreWellFormed(slot, numPieces, step.rest);
    }
  }

  // Requests

  predicate FitsTheWire(r: BlockRequest) {
    r.pieceIndex < U32_LIMIT && r.offset < U32_LIMIT && 0 <= r.len < U32_LIMIT
  }

  predicate AllFitTheWire(blocks: seq<BlockRequest>) {
    forall i :: 0 <= i < |blocks| ==> FitsTheWire(blocks[i])
  }

  function RequestMessage(r: BlockRequest): Message
    requires FitsTheWire(r)
  {
    Message.Request(r.pieceIndex, r.offset, r.len)
  }

  function RequestMessages(blocks: seq<BlockRequest>): (messages: seq<Message>)
    requires AllFitTheWire(blocks)
    ensures |messages| == |blocks| && AllFit(messages)
  {
    seq(|blocks|, i requires 0 <= i < |blocks| => RequestMessage(blocks[i]))
  }

  /** How the other side reads one request message. */
  function ParseRequest(frame: seq<Byte>): Option<BlockRequest>
    requires |frame| == 17
  {
    if FromBE(frame[..4]) == 13 && frame[4] == 6 then
      Some(BlockRequest(FromBE(frame[5..9]), FromBE(frame[9..13]), FromBE(frame[13..17])))
    else
      None
  }

  /** How the other side reads a stream of nothing but request messages. */
  function ParseRequests(stream: seq<Byte>): Option<seq<BlockRequest>> {
    if stream == [] then Some([])
    else if |stream| < 17 then None
    else
      var front, final := ParseRequests(stream[..|stream| - 17]), ParseRequest(stream[|stream| - 17..]);
      if front.Some? && final.Some? then Some(front.value + [final.value]) else None
  }

  lemma RequestParts(head: seq<Byte>, piece: seq<Byte>, begin: seq<Byte>, length: seq<Byte>)
    requires |head| == |piece| == |begin| == |length| == 4
    ensures var frame := head + [6] + (piece + begin + length);
            && frame[..4] == head && frame[4] == 6
            && frame[5..9] == piece && frame[9..13] == begin && frame[13..17] == length
  {
  }

  lemma RequestIsParsed(r: BlockRequest)
    requires FitsTheWire(r)
    ensures |Encode(RequestMessage(r))| == 17 && ParseRequest(Encode(RequestMessage(r))) == Some(r)
  {
    BigEndianRoundTrip(13);
    BigEndianRoundTrip(r.pieceIndex);
    BigEndianRoundTrip(r.offset);
    BigEndianRoundTrip(r.len);
    RequestParts(ToBE(13), ToBE(r.pieceIndex), ToBE(r.offset), ToBE(r.len));
  }

  lemma LastRequest(front: seq<Byte>, frame: seq<Byte>)
    requires |frame| == 17
    ensures ParseRequests(front + frame) ==
              if ParseRequests(front).Some? && ParseRequest(frame).Some?
              then Some(ParseRequests(front).value + [ParseRequest(frame).value]) else None
  {
  }

  lemma EncodeLastRequest(front: seq<BlockRequest>, r: BlockRequest)
    requires AllFitTheWire(front) && FitsTheWire(r)
    ensures AllFitTheWire(front + [r])
    ensures EncodeAll(RequestMessages(front + [r])) == EncodeAll(RequestMessages(front)) + Encode(RequestMessage(r))
  {
    assert RequestMessages(front + [r]) == RequestMessages(front) + [RequestMessage(r)];
    EncodeLast(RequestMessages(front), RequestMessage(r));
  }

  /** The batch of requests splits back into exactly the blocks it was made of. */
  lemma {:induction false} RequestsRoundTrip(blocks: seq<BlockRequest>)
    requires AllFitTheWire(blocks)
    ensures |EncodeAll(RequestMessages(blocks))| == 17 * |blocks|
    ensures ParseRequests(EncodeAll(RequestMessages(blocks))) == Some(blocks)
  {
    if blocks != [] {
      var front, r := blocks[..|blocks| - 1], blocks[|blocks| - 1];
      assert blocks == front + [r];
      RequestsRoundTrip(front);
      EncodeLastRequest(front, r);
      RequestIsParsed(r);
      var stream, frame := EncodeAll(RequestMessages(front)), Encode(RequestMessage(r));
      LastRequest(stream, frame);
    }
  }
}
