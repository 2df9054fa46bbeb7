/** Which blocks to ask a peer for: the list of all eligible blocks, and the effect of granting a prefix of it.
    This is what the nested loops of the scheduler's `PushBlocks` are proved to compute. */
module Allocation {
  import opened Metainfo
  import opened Pieces

  predicate Has(bits: seq<bool>, p: nat) {
    p < |bits| && bits[p]
  }

  /** A piece as the allocation pass sees it: a piece the peer has gets its table. */
  function Opened(m: Torrent, pieces: seq<PieceBuffer>, bits: seq<bool>, p: nat): PieceBuffer
    requires p < |pieces|
  {
    if Has(bits, p) && !pieces[p].complete then pieces[p].LazyInit(PieceLen(m, p)) else pieces[p]
  }

  /** The number of unrequested blocks among the first `b`, and their requests. */
  function OpenCount(table: seq<BlockState>, b: nat): nat
    requires b <= |table|
  {
    if b == 0 then 0 else OpenCount(table, b - 1) + (if table[b - 1] == NotRequested then 1 else 0)
  }

  function OpenBlocks(m: Torrent, p: nat, table: seq<BlockState>, b: nat): (r: seq<BlockRequest>)
    requires b <= |table|
    ensures |r| == OpenCount(table, b)
  {
    if b == 0 then []
    else OpenBlocks(m, p, table, b - 1) + (if table[b - 1] == NotRequested then [BlockAt(m, p, b - 1)] else [])
  }

  function OpenIn(m: Torrent, pieces: seq<PieceBuffer>, bits: seq<bool>, p: nat): seq<BlockRequest>
    requires p < |pieces|
  {
    var table := Opened(m, pieces, bits, p).blockStatus;
    if pieces[p].complete then [] else OpenBlocks(m, p, table, |table|)
  }

  /** The first `n` lists one after the other. */
  function Joined<T>(parts: seq<seq<T>>, n: nat): seq<T>
    requires n <= |parts|
  {
    if n == 0 then [] else Joined(parts, n - 1) + parts[n - 1]
  }

  function OpenLists(m: Torrent, pieces: seq<PieceBuffer>, bits: seq<bool>): (lists: seq<seq<BlockRequest>>)
    ensures |lists| == |pieces|
  {
    seq(|pieces|, p requires 0 <= p < |pieces| => OpenIn(m, pieces, bits, p))
  }

  /** All eligible blocks of the first `n` pieces, in order. */
  function Eligible(m: Torrent, pieces: seq<PieceBuffer>, bits: seq<bool>, n: nat): seq<BlockRequest>
    requires n <= |pieces|
  {
    Joined(OpenLists(m, pieces, bits), n)
  }

  function Take<T>(s: seq<T>, n: nat): seq<T> {
    if n <= |s| then s[..n] else s
  }

  function Chosen(m: Torrent, pieces: seq<PieceBuffer>, bits: seq<bool>, quota: nat): (r: seq<BlockRequest>)
    ensures |r| <= quota
  {
    Take(Eligible(m, pieces, bits, |pieces|), quota)
  }

  /** The first `quota` unrequested blocks of a table become requested. */
  function Marked(table: seq<BlockState>, quota: nat): (t: seq<BlockState>)
    ensures |t| == |table|
    ensures forall b {:trigger t[b]} :: 0 <= b < |table| ==>
              t[b] == if table[b] == NotRequested && OpenCount(table, b) < quota then Requested else table[b]
  {
    seq(|table|, b requires 0 <= b < |table| =>
      if table[b] == NotRequested && OpenCount(table, b) < quota then Requested else table[b])
  }

  /** A piece is reached only while part of the quota is left. */
  predicate Reached(m: Torrent, pieces: seq<PieceBuffer>, bits: seq<bool>, quota: nat, p: nat)
    requires p < |pieces|
  {
    !pieces[p].complete && |Eligible(m, pieces, bits, p)| < quota
  }

  function PushedPiece(m: Torrent, pieces: seq<PieceBuffer>, bits: seq<bool>, quota: nat, p: nat): PieceBuffer
    requires p < |pieces|
  {
    if Reached(m, pieces, bits, quota, p) then
      var o := Opened(m, pieces, bits, p);
      o.(blockStatus := Marked(o.blockStatus, quota - |Eligible(m, pieces, bits, p)|))
    else
      pieces[p]
  }

  function Pushed(m: Torrent, pieces: seq<PieceBuffer>, bits: seq<bool>, quota: nat): (r: seq<PieceBuffer>)
    ensures |r| == |pieces|
  {
    seq(|pieces|, p requires 0 <= p < |pieces| => PushedPiece(m, pieces, bits, quota, p))
  }

  // What the list of eligible blocks is

  /** A block may be requested when its piece is incomplete and the block is unrequested in the piece's table or,
      for a piece the peer has, in the table the piece is about to get. */
  predicate IsEligible(m: Torrent, pieces: seq<PieceBuffer>, bits: seq<bool>, key: BlockKey) {
    && key.piece < |pieces|
    && !pieces[key.piece].complete
    && var table := pieces[key.piece].blockStatus;
       if table == [] then Has(bits, key.piece) && key.block < NumBlocks(PieceLen(m, key.piece))
       else key.block < |table| && table[key.block] == NotRequested
  }

  predicate Before(r: BlockRequest, s: BlockRequest) {
    r.pieceIndex < s.pieceIndex || (r.pieceIndex == s.pieceIndex && r.offset < s.offset)
  }

  ghost predicate Sorted(s: seq<BlockRequest>) {
    forall i, j {:trigger Before(s[i], s[j])} :: 0 <= i < j < |s| ==> Before(s[i], s[j])
  }

  lemma {:induction false} OpenBlocksSorted(m: Torrent, p: nat, table: seq<BlockState>, b: nat)
    requires b <= |table|
    ensures Sorted(OpenBlocks(m, p, table, b))
    ensures forall r :: r in OpenBlocks(m, p, table, b) ==> r.pieceIndex == p && r.offset < b * BLOCK_SIZE
  {
    if b > 0 {
      OpenBlocksSorted(m, p, table, b - 1);
    }
  }

  lemma {:induction false} OpenBlocksMembers(m: Torrent, p: nat, table: seq<BlockState>, b: nat, c: nat)
    requires b <= |table|
    ensures BlockAt(m, p, c) in OpenBlocks(m, p, table, b) <==> c < b && table[c] == NotRequested
  {
    if b > 0 {
      OpenBlocksMembers(m, p, table, b - 1, c);
    }
  }

  lemma {:induction false} OpenBlocksAreBlocks(m: Torrent, p: nat, table: seq<BlockState>, b: nat, r: BlockRequest)
    returns (c: nat)
    requires b <= |table| && r in OpenBlocks(m, p, table, b)
    ensures c < b && table[c] == NotRequested && r == BlockAt(m, p, c)
  {
    if r in OpenBlocks(m, p, table, b - 1) {
      c := OpenBlocksAreBlocks(m, p, table, b - 1, r);
    } else {
      c := b - 1;
    }
  }

  lemma OpenInMembers(m: Torrent, pieces: seq<PieceBuffer>, bits: seq<bool>, p: nat, key: BlockKey)
    requires p < |pieces|
    ensures BlockAt(m, key.piece, key.block) in OpenIn(m, pieces, bits, p) <==>
              key.piece == p && IsEligible(m, pieces, bits, key)
  {
    var table := Opened(m, pieces, bits, p).blockStatus;
    OpenBlocksSorted(m, p, table, |table|);
    OpenBlocksMembers(m, p, table, |table|, key.block);
  }

  ghost predicate IsBelow(s: seq<BlockRequest>, n: nat) {
    forall r :: r in s ==> r.pieceIndex < n
  }

  ghost predicate IsAbout(s: seq<BlockRequest>, p: nat) {
    forall r :: r in s ==> r.pieceIndex == p
  }

  lemma SortedNextPiece(s: seq<BlockRequest>, t: seq<BlockRequest>, p: nat)
    requires Sorted(s) && IsBelow(s, p) && Sorted(t) && IsAbout(t, p)
    ensures Sorted(s + t) && IsBelow(s + t, p + 1)
  {
  }

  lemma OpenInSorted(m: Torrent, pieces: seq<PieceBuffer>, bits: seq<bool>, p: nat)
    requires p < |pieces|
    ensures Sorted(OpenIn(m, pieces, bits, p)) && IsAbout(OpenIn(m, pieces, bits, p), p)
  {
    var table := Opened(m, pieces, bits, p).blockStatus;
    OpenBlocksSorted(m, p, table, |table|);
  }

  lemma {:induction false} JoinedSorted(lists: seq<seq<BlockRequest>>, n: nat)
    requires n <= |lists| && forall p :: 0 <= p < n ==> Sorted(lists[p]) && IsAbout(lists[p], p)
    ensures Sorted(Joined(lists, n)) && IsBelow(Joined(lists, n), n)
  {
    if n > 0 {
      JoinedSorted(lists, n - 1);
      SortedNextPiece(Joined(lists, n - 1), lists[n - 1], n - 1);
    }
  }

  lemma EligibleSortedUpTo(m: Torrent, pieces: seq<PieceBuffer>, bits: seq<bool>, n: nat)
    requires n <= |pieces|
    ensures Sorted(Eligible(m, pieces, bits, n)) && IsBelow(Eligible(m, pieces, bits, n), n)
  {
    var lists := OpenLists(m, pieces, bits);
    forall p | 0 <= p < n
      ensures Sorted(lists[p]) && IsAbout(lists[p], p)
    {
      OpenInSorted(m, pieces, bits, p);
    }
    JoinedSorted(lists, n);
  }

  lemma {:induction false} EligibleMembers(m: Torrent, pieces: seq<PieceBuffer>, bits: seq<bool>, n: nat, key: BlockKey)
    requires n <= |pieces|
    ensures BlockAt(m, key.piece, key.block) in Eligible(m, pieces, bits, n) <==>
              key.piece < n && IsEligible(m, pieces, bits, key)
  {
    if n > 0 {
      EligibleMembers(m, pieces, bits, n - 1, key);
      OpenInMembers(m, pieces, bits, n - 1, key);
    }
  }

  lemma {:induction false} EligibleAreBlocks(m: Torrent, pieces: seq<PieceBuffer>, bits: seq<bool>, n: nat,
                                             r: BlockRequest)
    returns (key: BlockKey)
    requires n <= |pieces| && r in Eligible(m, pieces, bits, n)
    ensures r == BlockAt(m, key.piece, key.block) && key.piece < n && IsEligible(m, pieces, bits, key)
  {
    var p := n - 1;
    if r in Eligible(m, pieces, bits, p) {
      key := EligibleAreBlocks(m, pieces, bits, p, r);
    } else {
      var table := Opened(m, pieces, bits, p).blockStatus;
      var c := OpenBlocksAreBlocks(m, p, table, |table|, r);
      key := BlockKey(p, c);
    }
  }

  /** The list of eligible blocks holds exactly the requests for eligible blocks, in (piece, offset) order;
      there is only one such list. */
  lemma EligibleIsTheSortedListOfEligibleBlocks(m: Torrent, pieces: seq<PieceBuffer>, bits: seq<bool>)
    ensures Sorted(Eligible(m, pieces, bits, |pieces|))
    ensures forall r :: r in Eligible(m, pieces, bits, |pieces|) <==>
              exists key :: IsEligible(m, pieces, bits, key) && r == BlockAt(m, key.piece, key.block)
  {
    var all := Eligible(m, pieces, bits, |pieces|);
    EligibleSortedUpTo(m, pieces, bits, |pieces|);
    forall r | r in all
      ensures exists key :: IsEligible(m, pieces, bits, key) && r == BlockAt(m, key.piece, key.block)
    {
      var key := EligibleAreBlocks(m, pieces, bits, |pieces|, r);
    }
    forall key | IsEligible(m, pieces, bits, key)
      ensures BlockAt(m, key.piece, key.block) in all
    {
      EligibleMembers(m, pieces, bits, |pieces|, key);
    }
  }

  // Which blocks are granted

  lemma {:induction false} OpenBlockRank(m: Torrent, p: nat, table: seq<BlockState>, b: nat, c: nat)
    requires c < b <= |table| && table[c] == NotRequested
    ensures OpenCount(table, c) < OpenCount(table, b)
    ensures OpenBlocks(m, p, table, b)[OpenCount(table, c)] == BlockAt(m, p, c)
  {
    if c < b - 1 {
      OpenBlockRank(m, p, table, b - 1, c);
    }
  }

  lemma {:induction false} EligibleGrows(m: Torrent, pieces: seq<PieceBuffer>, bits: seq<bool>, p: nat, n: nat, i: nat)
    requires p <= n <= |pieces| && i < |Eligible(m, pieces, bits, p)|
    ensures i < |Eligible(m, pieces, bits, n)|
    ensures Eligible(m, pieces, bits, n)[i] == Eligible(m, pieces, bits, p)[i]
  {
    if p < n {
      EligibleGrows(m, pieces, bits, p, n - 1, i);
    }
  }

  lemma EligibleStep(m: Torrent, pieces: seq<PieceBuffer>, bits: seq<bool>, p: nat)
    requires p < |pieces| && !pieces[p].complete
    ensures var table := Opened(m, pieces, bits, p).blockStatus;
            Eligible(m, pieces, bits, p + 1) == Eligible(m, pieces, bits, p) + OpenBlocks(m, p, table, |table|)
  {
  }

  /** The number of eligible blocks before a block. */
  function Rank(m: Torrent, pieces: seq<PieceBuffer>, bits: seq<bool>, key: BlockKey): nat
    requires key.piece < |pieces| && key.block <= |Opened(m, pieces, bits, key.piece).blockStatus|
  {
    |Eligible(m, pieces, bits, key.piece)| + OpenCount(Opened(m, pieces, bits, key.piece).blockStatus, key.block)
  }

  lemma EligibleIsOpen(m: Torrent, pieces: seq<PieceBuffer>, bits: seq<bool>, key: BlockKey)
    requires IsEligible(m, pieces, bits, key)
    ensures var table := Opened(m, pieces, bits, key.piece).blockStatus;
            key.block < |table| && table[key.block] == NotRequested
  {
  }

  lemma RankInPiece(m: Torrent, pieces: seq<PieceBuffer>, bits: seq<bool>, key: BlockKey)
    requires key.piece < |pieces| && !pieces[key.piece].complete
    requires key.block < |Opened(m, pieces, bits, key.piece).blockStatus|
    requires Opened(m, pieces, bits, key.piece).blockStatus[key.block] == NotRequested
    ensures Rank(m, pieces, bits, key) < |Eligible(m, pieces, bits, key.piece + 1)|
    ensures Eligible(m, pieces, bits, key.piece + 1)[Rank(m, pieces, bits, key)] == BlockAt(m, key.piece, key.block)
  {
    var p := key.piece;
    var table := Opened(m, pieces, bits, p).blockStatus;
    EligibleStep(m, pieces, bits, p);
    OpenBlockRank(m, p, table, |table|, key.block);
    ConcatAt(Eligible(m, pieces, bits, p), OpenBlocks(m, p, table, |table|), OpenCount(table, key.block));
  }

  lemma ConcatAt<T>(s: seq<T>, t: seq<T>, i: nat)
    requires i < |t|
    ensures (s + t)[|s| + i] == t[i]
  {
  }

  /** ... is its place in the list. */
  lemma RankIsPosition(m: Torrent, pieces: seq<PieceBuffer>, bits: seq<bool>, key: BlockKey)
    requires IsEligible(m, pieces, bits, key)
    ensures key.block < |Opened(m, pieces, bits, key.piece).blockStatus|
    ensures Rank(m, pieces, bits, key) < |Eligible(m, pieces, bits, |pieces|)|
    ensures Eligible(m, pieces, bits, |pieces|)[Rank(m, pieces, bits, key)] == BlockAt(m, key.piece, key.block)
  {
    EligibleIsOpen(m, pieces, bits, key);
    RankInPiece(m, pieces, bits, key);
    EligibleGrows(m, pieces, bits, key.piece + 1, |pieces|, Rank(m, pieces, bits, key));
  }

  lemma TakenAt<T>(s: seq<T>, quota: nat, i: nat)
    requires i < |s| && forall j :: 0 <= j < |s| && j != i ==> s[j] != s[i]
    ensures s[i] in Take(s, quota) <==> i < quota
  {
  }

  /** An eligible block is granted exactly when fewer than `quota` eligible blocks come before it. */
  lemma ChosenRank(m: Torrent, pieces: seq<PieceBuffer>, bits: seq<bool>, quota: nat, key: BlockKey)
    requires IsEligible(m, pieces, bits, key)
    ensures key.block < |Opened(m, pieces, bits, key.piece).blockStatus|
    ensures BlockAt(m, key.piece, key.block) in Chosen(m, pieces, bits, quota) <==> Rank(m, pieces, bits, key) < quota
  {
    RankIsPosition(m, pieces, bits, key);
    EligibleSortedUpTo(m, pieces, bits, |pieces|);
    var all := Eligible(m, pieces, bits, |pieces|);
    var rank := Rank(m, pieces, bits, key);
    forall j | 0 <= j < |all| && j != rank
      ensures all[j] != all[rank]
    {
      assert if j < rank then Before(all[j], all[rank]) else Before(all[rank], all[j]);
    }
    TakenAt(all, quota, rank);
  }

  lemma ChosenAreBlocks(m: Torrent, pieces: seq<PieceBuffer>, bits: seq<bool>, quota: nat, r: BlockRequest)
    returns (key: BlockKey)
    requires r in Chosen(m, pieces, bits, quota)
    ensures r == BlockAt(m, key.piece, key.block) && KeyOf(r) == key && IsEligible(m, pieces, bits, key)
  {
    key := EligibleAreBlocks(m, pieces, bits, |pieces|, r);
  }

  lemma ChosenDistinct(m: Torrent, pieces: seq<PieceBuffer>, bits: seq<bool>, quota: nat)
    ensures Sorted(Chosen(m, pieces, bits, quota))
  {
    EligibleSortedUpTo(m, pieces, bits, |pieces|);
  }

  /** The pieces after a pass: exactly the granted blocks become requested. */
  lemma PushMarksTheChosen(m: Torrent, pieces: seq<PieceBuffer>, bits: seq<bool>, quota: nat, p: nat)
    requires p < |pieces|
    ensures var before := if Reached(m, pieces, bits, quota, p) then Opened(m, pieces, bits, p) else pieces[p];
            var after := Pushed(m, pieces, bits, quota)[p];
            && |after.blockStatus| == |before.blockStatus|
            && after == before.(blockStatus := after.blockStatus)
            && (forall b :: 0 <= b < |before.blockStatus| ==>
                  after.blockStatus[b] ==
                    if BlockAt(m, p, b) in Chosen(m, pieces, bits, quota) then Requested else before.blockStatus[b])
            && (forall b: nat :: BlockAt(m, p, b) in Chosen(m, pieces, bits, quota) ==>
                  b < |before.blockStatus| && before.blockStatus[b] == NotRequested)
  {
    var chosen := Chosen(m, pieces, bits, quota);
    forall b: nat | BlockAt(m, p, b) in chosen
      ensures IsEligible(m, pieces, bits, BlockKey(p, b)) && Reached(m, pieces, bits, quota, p)
    {
      var key := ChosenAreBlocks(m, pieces, bits, quota, BlockAt(m, p, b));
      ChosenRank(m, pieces, bits, quota, key);
    }
    forall b | 0 <= b < |Opened(m, pieces, bits, p).blockStatus| && IsEligible(m, pieces, bits, BlockKey(p, b))
      ensures BlockAt(m, p, b) in chosen <==>
                Rank(m, pieces, bits, BlockKey(p, b)) < quota
    {
      ChosenRank(m, pieces, bits, quota, BlockKey(p, b));
    }
  }

  /** A pass grants `quota` blocks unless it runs out: then no eligible block is left. */
  lemma PassIsExhaustive(m: Torrent, pieces: seq<PieceBuffer>, bits: seq<bool>, quota: nat, key: BlockKey)
    requires |Chosen(m, pieces, bits, quota)| < quota
    ensures !IsEligible(m, Pushed(m, pieces, bits, quota), bits, key)
    ensures IsEligible(m, pieces, bits, key) ==> BlockAt(m, key.piece, key.block) in Chosen(m, pieces, bits, quota)
  {
    EligibleMembers(m, pieces, bits, |pieces|, key);
    if key.piece < |pieces| && !pieces[key.piece].complete {
      var before := |Eligible(m, pieces, bits, key.piece)|;
      if before > 0 {
        EligibleGrows(m, pieces, bits, key.piece, |pieces|, before - 1);
      }
      PushMarksTheChosen(m, pieces, bits, quota, key.piece);
    }
  }
}
