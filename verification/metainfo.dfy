/** The static description of a torrent, and the arithmetic that cuts its bytes into pieces and its pieces
    into blocks. */
module Metainfo {

  const BLOCK_SIZE: nat := 16384

  const U32_LIMIT: nat := 0x1_0000_0000
  const U64_LIMIT: nat := 0x1_0000_0000_0000_0000

  type Byte = x: int | 0 <= x < 256

  datatype Metainfo = Metainfo(numPieces: nat, totalLen: nat, pieceLen: nat)

  /** What the engine takes for granted about a torrent file: every piece but the last is full, the last one
      is not empty, and piece lengths and indices fit the 32-bit fields of the wire protocol. */
  predicate WellFormed(m: Metainfo) {
    && 1 <= m.numPieces < U32_LIMIT
    && 0 < m.pieceLen < U32_LIMIT
    && m.pieceLen * (m.numPieces - 1) < m.totalLen <= m.pieceLen * m.numPieces
  }

  type Torrent = m: Metainfo | WellFormed(m) witness Metainfo(1, 1, 1)

  datatype BlockRequest = BlockRequest(pieceIndex: nat, offset: nat, len: int)

  function PieceLen(m: Torrent, index: nat): (len: nat)
    ensures 0 < len
  {
    if index < m.numPieces - 1 then m.pieceLen
    else m.totalLen - m.pieceLen * (m.numPieces - 1)
  }

  function NumBlocks(len: nat): nat {
    (len + (BLOCK_SIZE - 1)) / BLOCK_SIZE
  }

  /** The request for block `block` of a piece of length `len`. */
  function BlockOf(piece: nat, len: nat, block: nat): BlockRequest {
    var left := len - block * BLOCK_SIZE;
    BlockRequest(piece, block * BLOCK_SIZE, if BLOCK_SIZE < left then BLOCK_SIZE else left)
  }

  function BlockAt(m: Torrent, piece: nat, block: nat): BlockRequest {
    BlockOf(piece, PieceLen(m, piece), block)
  }

  datatype BlockKey = BlockKey(piece: nat, block: nat)

  /** The table cell a request refers to. */
  function KeyOf(r: BlockRequest): BlockKey {
    BlockKey(r.pieceIndex, r.offset / BLOCK_SIZE)
  }

  ghost predicate IsBlock(m: Torrent, key: BlockKey) {
    && key.piece < m.numPieces
    && key.block < NumBlocks(PieceLen(m, key.piece))
  }

  /** Position in the concatenated files of the first byte of a piece, of a block, and one past a block. */
  function PieceStart(m: Torrent, piece: nat): nat {
    piece * m.pieceLen
  }

  function BlockStart(m: Torrent, key: BlockKey): nat {
    PieceStart(m, key.piece) + key.block * BLOCK_SIZE
  }

  function BlockEnd(m: Torrent, key: BlockKey): int {
    BlockStart(m, key) + BlockAt(m, key.piece, key.block).len
  }

  lemma PieceFits(m: Torrent, p: nat)
    requires p < m.numPieces
    ensures PieceLen(m, p) <= m.pieceLen
    ensures PieceStart(m, p) + PieceLen(m, p) <= m.totalLen
    ensures p + 1 < m.numPieces ==> PieceStart(m, p) + PieceLen(m, p) == PieceStart(m, p + 1)
    ensures p + 1 == m.numPieces ==> PieceStart(m, p) + PieceLen(m, p) == m.totalLen
  {
    if p + 1 < m.numPieces {
      assert (p + 1) * m.pieceLen <= (m.numPieces - 1) * m.pieceLen;
      assert p * m.pieceLen + m.pieceLen == (p + 1) * m.pieceLen;
    } else {
      assert m.pieceLen * m.numPieces == m.pieceLen * (m.numPieces - 1) + m.pieceLen;
    }
  }

  /** Pieces occupy disjoint ranges, in order. */
  lemma PiecesInOrder(m: Torrent, p: nat, q: nat)
    requires p < q < m.numPieces
    ensures PieceStart(m, p) + PieceLen(m, p) <= PieceStart(m, q)
  {
    PieceFits(m, p);
    assert (p + 1) * m.pieceLen <= q * m.pieceLen;
    assert p * m.pieceLen + m.pieceLen == (p + 1) * m.pieceLen;
  }

  /** Every block of a well-formed torrent is non-empty, at most 16 KiB, inside its piece, full unless it is
      the last of its piece, and describable in the 32-bit arithmetic of the engine. */
  lemma BlockFits(m: Torrent, key: BlockKey)
    requires IsBlock(m, key)
    ensures var r := BlockAt(m, key.piece, key.block);
            && KeyOf(r) == key
            && 1 <= r.len <= BLOCK_SIZE
            && r.offset + r.len <= PieceLen(m, key.piece) < U32_LIMIT
            && (key.block + 1 < NumBlocks(PieceLen(m, key.piece)) ==> r.len == BLOCK_SIZE)
            && (key.block + 1 == NumBlocks(PieceLen(m, key.piece)) ==> r.offset + r.len == PieceLen(m, key.piece))
    ensures BlockEnd(m, key) <= m.totalLen
  {
    PieceFits(m, key.piece);
  }

  /** The blocks cover the torrent: every byte lies in one. */
  lemma BlocksCover(m: Torrent, x: nat) returns (key: BlockKey)
    requires x < m.totalLen
    ensures IsBlock(m, key) && BlockStart(m, key) <= x < BlockEnd(m, key)
  {
    var p := x / m.pieceLen;
    var r := x - p * m.pieceLen;
    assert 0 <= r < m.pieceLen by {
      assert x == p * m.pieceLen + x % m.pieceLen;
    }
    assert p >= m.numPieces ==> p * m.pieceLen >= m.numPieces * m.pieceLen;
    PieceFits(m, p);
    assert r < PieceLen(m, p);
    key := BlockKey(p, r / BLOCK_SIZE);
    BlockFits(m, key);
  }

  /** ... and no byte lies in two. */
  lemma BlocksDisjoint(m: Torrent, k: BlockKey, l: BlockKey)
    requires IsBlock(m, k) && IsBlock(m, l) && k != l
    ensures BlockEnd(m, k) <= BlockStart(m, l) || BlockEnd(m, l) <= BlockStart(m, k)
  {
    BlockFits(m, k);
    BlockFits(m, l);
    if k.piece < l.piece {
      PiecesInOrder(m, k.piece, l.piece);
    } else if l.piece < k.piece {
      PiecesInOrder(m, l.piece, k.piece);
    }
  }

  /** Tiling: each byte of the torrent lies in exactly one block. */
  lemma Tiling(m: Torrent, x: nat)
    requires x < m.totalLen
    ensures exists k :: IsBlock(m, k) && BlockStart(m, k) <= x < BlockEnd(m, k)
    ensures forall k, l | IsBlock(m, k) && IsBlock(m, l)
              && BlockStart(m, k) <= x < BlockEnd(m, k) && BlockStart(m, l) <= x < BlockEnd(m, l) :: k == l
  {
    var key := BlocksCover(m, x);
    forall k, l | IsBlock(m, k) && IsBlock(m, l) && k != l
      ensures BlockEnd(m, k) <= BlockStart(m, l) || BlockEnd(m, l) <= BlockStart(m, k)
    {
      BlocksDisjoint(m, k, l);
    }
  }

  /** No 64-bit computation on lengths and offsets overflows. */
  lemma FitsIn64Bits(m: Torrent, p: nat)
    requires p < m.numPieces
    ensures m.totalLen <= m.pieceLen * m.numPieces < U64_LIMIT
    ensures m.pieceLen * (m.numPieces - 1) < U64_LIMIT
    ensures PieceStart(m, p) + PieceLen(m, p) <= m.totalLen < U64_LIMIT
    ensures PieceLen(m, p) + (BLOCK_SIZE - 1) < U64_LIMIT
  {
    PieceFits(m, p);
    ProductFits(m.pieceLen, m.numPieces);
  }

  lemma ProductFits(a: nat, b: nat)
    requires a < U32_LIMIT && b < U32_LIMIT
    ensures a * b < U64_LIMIT
  {
    assert a * b <= a * U32_LIMIT <= U32_LIMIT * U32_LIMIT - U32_LIMIT;
  }
}
