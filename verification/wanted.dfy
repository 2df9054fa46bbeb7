/** The blocks the piece tables show as requested, and how each step changes them. */
module Wanted {
  import opened Metainfo
  import opened Pieces
  import opened Allocation
  import opened Ledgers
  import opened SchedulerModel

  /** The block is marked requested in the table of an incomplete piece. */
  predicate IsWanted(pieces: seq<PieceBuffer>, key: BlockKey) {
    && key.piece < |pieces|
    && !pieces[key.piece].complete
    && key.block < |pieces[key.piece].blockStatus|
    && pieces[key.piece].blockStatus[key.block] == Requested
  }

  /** The entry is in the ledger of peer `k`. */
  predicate Holds(s: SchedulerState, k: nat, e: InFlightBlock) {
    k in s.slots && e in s.slots[k].inFlight
  }

  /** Somebody is being asked for the block. */
  ghost predicate IsHeld(s: SchedulerState, key: BlockKey) {
    exists k, e :: Holds(s, k, e) && KeyOf(e.request) == key
  }

  /** An allocation pass turns exactly the granted blocks into requested ones; none was requested before. */
  lemma PushWants(m: Torrent, pieces: seq<PieceBuffer>, bits: seq<bool>, quota: nat, key: BlockKey)
    ensures IsWanted(Pushed(m, pieces, bits, quota), key) <==>
              IsWanted(pieces, key) || BlockAt(m, key.piece, key.block) in Chosen(m, pieces, bits, quota)
    ensures BlockAt(m, key.piece, key.block) in Chosen(m, pieces, bits, quota) ==> !IsWanted(pieces, key)
  {
    var r := BlockAt(m, key.piece, key.block);
    if r in Chosen(m, pieces, bits, quota) {
      var same := ChosenAreBlocks(m, pieces, bits, quota, r);
      assert same == key;
    }
    if key.piece < |pieces| {
      PushMarksTheChosen(m, pieces, bits, quota, key.piece);
    }
  }

  /** Giving blocks back takes exactly those blocks out of the requested ones. */
  lemma ReleaseWants(pieces: seq<PieceBuffer>, keys: set<BlockKey>, key: BlockKey)
    ensures IsWanted(Released(pieces, keys), key) <==> IsWanted(pieces, key) && key !in keys
  {
  }

  lemma AcceptWants(s: SchedulerState, piece: nat, begin: nat, payload: seq<Byte>, key: BlockKey)
    requires Acceptable(s, piece, begin, payload)
    ensures var after := Accept(s, piece, begin, payload).pieces;
            IsWanted(after, key) <==>
              && IsWanted(s.pieces, key)
              && key != BlockKey(piece, begin / BLOCK_SIZE)
              && !after[key.piece].complete
  {
  }

  lemma StampMembers(blocks: seq<BlockRequest>, now: nat, e: InFlightBlock)
    ensures e in Stamp(blocks, now) <==> e.sentAt == now && e.request in blocks
  {
    if e.sentAt == now && e.request in blocks {
      var i :| 0 <= i < |blocks| && blocks[i] == e.request;
      assert Stamp(blocks, now)[i] == e;
    }
  }

  /** Asking a peer for blocks appends the granted requests to its ledger and touches no other. */
  lemma PushHolds(m: Torrent, s: SchedulerState, k: nat, now: nat, l: nat, e: InFlightBlock)
    requires k in s.slots
    ensures Holds(MaybePushBlocks(m, s, k, now), l, e) <==>
              || Holds(s, l, e)
              || (l == k && MayRequest(s.slots[k]) && e.sentAt == now
                  && e.request in Chosen(m, s.pieces, s.slots[k].bitfield, Quota(s.slots[k])))
  {
    if MayRequest(s.slots[k]) {
      StampMembers(Chosen(m, s.pieces, s.slots[k].bitfield, Quota(s.slots[k])), now, e);
    }
  }

  /** The pieces after asking a peer for blocks. */
  lemma PushPieces(m: Torrent, s: SchedulerState, k: nat, now: nat)
    requires k in s.slots
    ensures MaybePushBlocks(m, s, k, now).pieces ==
              if MayRequest(s.slots[k]) then Pushed(m, s.pieces, s.slots[k].bitfield, Quota(s.slots[k])) else s.pieces
  {
  }

  lemma ScanHolds(s: SchedulerState, now: nat, k: nat, e: InFlightBlock)
    ensures Holds(ScanTimeouts(s, now), k, e) <==> Holds(s, k, e) && now < e.sentAt + 15_000_000_000
  {
    if k in s.slots {
      SweepKeepsTheFresh(s.slots[k].inFlight, now);
    }
  }

  /** The scan frees exactly the blocks for which somebody has an entry of 15 seconds or more. */
  lemma ScanWants(m: Torrent, s: SchedulerState, e: Event, key: BlockKey)
    requires e.Tick? && IsSafe(m, s, e)
    ensures IsWanted(Handle(m, s, e).pieces, key) <==>
              && IsWanted(s.pieces, key)
              && forall k, f :: Holds(s, k, f) && KeyOf(f.request) == key ==> e.now < f.sentAt + 15_000_000_000
  {
    ReleaseWants(s.pieces, StaleKeys(s.slots, e.now), key);
    if key !in StaleKeys(s.slots, e.now) {
      forall k, f | Holds(s, k, f) && KeyOf(f.request) == key
        ensures !Stale(f, e.now)
      {
        assert k in s.slots && f in s.slots[k].inFlight;
      }
    } else {
      var k, f :| k in s.slots && f in s.slots[k].inFlight && Stale(f, e.now) && KeyOf(f.request) == key;
      assert Holds(s, k, f);
    }
  }

  /** A disconnect frees exactly the blocks the peer is being asked for. */
  lemma LeavingWants(m: Torrent, s: SchedulerState, e: Event, key: BlockKey)
    requires e.Disconnect? && IsSafe(m, s, e)
    ensures IsWanted(Handle(m, s, e).pieces, key) <==>
              IsWanted(s.pieces, key) && forall f :: Holds(s, e.slot, f) ==> KeyOf(f.request) != key
  {
    ReleaseWants(s.pieces, Keys(s.slots[e.slot].inFlight), key);
    if key !in Keys(s.slots[e.slot].inFlight) {
      forall f | Holds(s, e.slot, f)
        ensures KeyOf(f.request) != key
      {
        assert f in s.slots[e.slot].inFlight;
      }
    } else {
      var f :| f in s.slots[e.slot].inFlight && KeyOf(f.request) == key;
      assert Holds(s, e.slot, f);
    }
  }
}
