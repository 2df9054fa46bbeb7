/** One piece being assembled: its byte buffer, its table of block states and its counters. */
module Pieces {
  import opened Metainfo

  datatype BlockState = NotRequested | Requested | Received

  datatype PieceBuffer = PieceBuffer(data: seq<Byte>, blockStatus: seq<BlockState>, blocksReceived: nat,
                                     complete: bool) {

    /** Allocate the table and the buffer, unless that has been done before. */
    function LazyInit(len: nat): PieceBuffer {
      if blockStatus == [] then
        PieceBuffer(Resize(data, len), seq(NumBlocks(len), _ => NotRequested), blocksReceived, false)
      else
        this
    }

    /** Release the memory of a piece that is on disk; it stays complete. */
    function CompleteAndCleanup(): PieceBuffer {
      this.(blockStatus := [], data := [])
    }

    /** Forget everything, so that the piece is downloaded again. */
    function Reset(): PieceBuffer {
      PieceBuffer([], [], 0, false)
    }
  }

  const EMPTY_PIECE := PieceBuffer([], [], 0, false)

  function Resize(data: seq<Byte>, len: nat): (r: seq<Byte>)
    ensures |r| == len
  {
    if len <= |data| then data[..len] else data + seq(len - |data|, _ => 0)
  }

  /** What fits is kept; what is added is zero. */
  lemma ResizeKeeps(data: seq<Byte>, len: nat, i: nat)
    requires i < len
    ensures Resize(data, len)[i] == if i < |data| then data[i] else 0
  {
  }

  function Overwrite<T>(s: seq<T>, offset: nat, chunk: seq<T>): (r: seq<T>)
    requires offset + |chunk| <= |s|
    ensures |r| == |s|
  {
    seq(|s|, i requires 0 <= i < |s| => if offset <= i < offset + |chunk| then chunk[i - offset] else s[i])
  }

  function ReceivedCount(table: seq<BlockState>): (n: nat)
    ensures n <= |table|
  {
    if table == [] then 0
    else ReceivedCount(table[..|table| - 1]) + (if table[|table| - 1] == Received then 1 else 0)
  }

  /** The consistency of one piece of length `len`. */
  ghost predicate PieceInv(len: nat, p: PieceBuffer) {
    && (p.blockStatus == [] && !p.complete ==> p.blocksReceived == 0)
    && (p.blockStatus != [] ==>
          && |p.blockStatus| == NumBlocks(len)
          && p.blocksReceived == ReceivedCount(p.blockStatus)
          && (!p.complete ==> |p.data| == len && p.blocksReceived < |p.blockStatus|))
  }

  lemma {:induction false} ReceivedCountDependsOnReceived(t: seq<BlockState>, u: seq<BlockState>)
    requires |t| == |u|
    requires forall b :: 0 <= b < |t| ==> (t[b] == Received <==> u[b] == Received)
    ensures ReceivedCount(t) == ReceivedCount(u)
  {
    if t != [] {
      ReceivedCountDependsOnReceived(t[..|t| - 1], u[..|u| - 1]);
    }
  }

  lemma {:induction false} ReceivedCountAdds(t: seq<BlockState>, block: nat)
    requires block < |t| && t[block] != Received
    ensures ReceivedCount(t[block := Received]) == ReceivedCount(t) + 1
  {
    var u := t[block := Received];
    var last := |t| - 1;
    if block < last {
      assert u[..last] == t[..last][block := Received];
      ReceivedCountAdds(t[..last], block);
    } else {
      assert u[..last] == t[..last];
    }
  }

  lemma {:induction false} ReceivedCountFull(t: seq<BlockState>)
    ensures ReceivedCount(t) == |t| <==> forall b :: 0 <= b < |t| ==> t[b] == Received
  {
    if t != [] {
      ReceivedCountFull(t[..|t| - 1]);
      assert forall b :: 0 <= b < |t| - 1 ==> t[..|t| - 1][b] == t[b];
      assert ReceivedCount(t) == |t| ==> t[|t| - 1] == Received;
    }
  }

  lemma {:induction false} ReceivedCountNone(t: seq<BlockState>)
    requires forall b :: 0 <= b < |t| ==> t[b] != Received
    ensures ReceivedCount(t) == 0
  {
    if t != [] {
      ReceivedCountNone(t[..|t| - 1]);
    }
  }

  /** A piece without a table gets one with nothing requested, and a buffer of its length; a piece with a table is
      left alone. */
  lemma LazyInitKeepsInv(len: nat, p: PieceBuffer)
    requires 0 < len && PieceInv(len, p) && !p.complete
    ensures PieceInv(len, p.LazyInit(len)) && !p.LazyInit(len).complete && p.LazyInit(len).blockStatus != []
    ensures p.blockStatus != [] ==> p.LazyInit(len) == p
    ensures p.blockStatus == [] ==>
              && |p.LazyInit(len).data| == len && |p.LazyInit(len).blockStatus| == NumBlocks(len)
              && forall b :: 0 <= b < NumBlocks(len) ==> p.LazyInit(len).blockStatus[b] == NotRequested
  {
    ReceivedCountNone(seq(NumBlocks(len), _ => NotRequested));
  }
}
