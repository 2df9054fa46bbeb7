/** The handshake that opens a connection. */
module Handshakes {
  import opened Metainfo

  /** "BitTorrent protocol" and "-TR2940-1234567890ab" in ASCII. */
  const P_STR_PROTOCOL: seq<Byte> :=
    [66, 105, 116, 84, 111, 114, 114, 101, 110, 116, 32, 112, 114, 111, 116, 111, 99, 111, 108]
  const PEER_ID: seq<Byte> :=
    [45, 84, 82, 50, 57, 52, 48, 45, 49, 50, 51, 52, 53, 54, 55, 56, 57, 48, 97, 98]

  datatype HandshakeResult = Accepted | BadPstrlen | BadProtocol | InfoHashMismatch

  /** The handshake of BEP 3: a length byte, the protocol name, reserved bytes, the torrent and the sender. */
  function Handshake(reserved: seq<Byte>, infoHash: seq<Byte>, peerId: seq<Byte>): seq<Byte> {
    [19] + P_STR_PROTOCOL + reserved + infoHash + peerId
  }

  function ValidateHandshake(handshake: seq<Byte>, infoHash: seq<Byte>): HandshakeResult
    requires |handshake| == 68 && |infoHash| == 20
  {
    if handshake[0] != 19 then BadPstrlen
    else if handshake[1..20] != P_STR_PROTOCOL then BadProtocol
    else if handshake[28..48] != infoHash then InfoHashMismatch
    else Accepted
  }

  lemma HandshakeParts(reserved: seq<Byte>, infoHash: seq<Byte>, peerId: seq<Byte>)
    requires |reserved| == 8 && |infoHash| == 20 && |peerId| == 20
    ensures var h := Handshake(reserved, infoHash, peerId);
            |h| == 68 && h[0] == 19 && h[1..20] == P_STR_PROTOCOL && h[28..48] == infoHash
  {
  }

  /** Exactly the handshakes for this torrent are accepted, whoever sends them. */
  lemma AcceptedAreForThisTorrent(handshake: seq<Byte>, infoHash: seq<Byte>)
    requires |handshake| == 68 && |infoHash| == 20
    ensures ValidateHandshake(handshake, infoHash) == Accepted <==>
              exists reserved, peerId ::
                |reserved| == 8 && |peerId| == 20 && handshake == Handshake(reserved, infoHash, peerId)
  {
    if ValidateHandshake(handshake, infoHash) == Accepted {
      var reserved, peerId := handshake[20..28], handshake[48..];
      assert handshake == [handshake[0]] + handshake[1..20] + handshake[20..28] + handshake[28..48] + handshake[48..];
      assert handshake == Handshake(reserved, infoHash, peerId);
    }
    forall reserved, peerId | |reserved| == 8 && |peerId| == 20 && handshake == Handshake(reserved, infoHash, peerId)
      ensures ValidateHandshake(handshake, infoHash) == Accepted
    {
      HandshakeParts(reserved, infoHash, peerId);
    }
  }

  /** The stream starts with a handshake for this torrent. */
  ghost predicate StartsWithHandshake(stream: seq<Byte>, infoHash: seq<Byte>) {
    && 68 <= |stream|
    && exists reserved, peerId ::
         |reserved| == 8 && |peerId| == 20 && stream[..68] == Handshake(reserved, infoHash, peerId)
  }

  /** What we send first: no reserved bits are set. */
  function OurHandshake(infoHash: seq<Byte>): (handshake: seq<Byte>)
    ensures |handshake| == 48 + |infoHash|
  {
    Handshake(seq(8, _ => 0), infoHash, PEER_ID)
  }

  /** Byte for byte: 19, the name of the protocol, eight zeros, the torrent and our name. We would accept it. */
  lemma OurHandshakeIsAccepted(infoHash: seq<Byte>)
    requires |infoHash| == 20
    ensures var h := OurHandshake(infoHash);
            && ValidateHandshake(h, infoHash) == Accepted
            && h[0] == 19
            && (forall i :: 0 <= i < 19 ==> h[1 + i] == "BitTorrent protocol"[i] as int)
            && h[20..28] == [0, 0, 0, 0, 0, 0, 0, 0]
            && h[28..48] == infoHash
            && (forall i :: 0 <= i < 20 ==> h[48 + i] == "-TR2940-1234567890ab"[i] as int)
  {
    HandshakeParts(seq(8, _ => 0), infoHash, PEER_ID);
  }
}
