/** Who owes which block. As long as nobody delivers a block that others are being asked for, every requested block
    of an incomplete piece is in exactly one ledger, and nothing else is in any. */
module Ownership {
  import opened Metainfo
  import opened Pieces
  import opened Allocation
  import opened Ledgers
  import opened SchedulerModel
  import opened Wanted
  import opened Orphans
  import opened Tables
  import opened Connections

  ghost predicate EntriesAreLive(m: Torrent, s: SchedulerState) {
    forall k, e :: Holds(s, k, e) ==>
      && IsWanted(s.pieces, KeyOf(e.request))
      && e.request == BlockAt(m, KeyOf(e.request).piece, KeyOf(e.request).block)
  }

  ghost predicate EntriesAreDistinct(s: SchedulerState) {
    && (forall k :: k in s.slots ==> NoDuplicates(s.slots[k].inFlight))
    && (forall k, e, l, f :: Holds(s, k, e) && Holds(s, l, f) && k != l ==> KeyOf(e.request) != KeyOf(f.request))
  }

  ghost predicate OwnershipOk(m: Torrent, s: SchedulerState) {
    EntriesAreLive(m, s) && EntriesAreDistinct(s) && NoOrphan(s)
  }

  /** The places in all ledgers where a block is recorded. */
  function Holders(s: SchedulerState, key: BlockKey): set<(nat, nat)> {
    set k, i | k in s.slots && 0 <= i < |s.slots[k].inFlight| && KeyOf(s.slots[k].inFlight[i].request) == key :: (k, i)
  }

  lemma HolderIsUnique(m: Torrent, s: SchedulerState, k: nat, e: InFlightBlock, l: nat, f: InFlightBlock)
    requires OwnershipOk(m, s) && Holds(s, k, e) && Holds(s, l, f) && KeyOf(e.request) == KeyOf(f.request)
    ensures k == l && e == f
  {
    var i :| 0 <= i < |s.slots[k].inFlight| && s.slots[k].inFlight[i] == e;
    var j :| 0 <= j < |s.slots[l].inFlight| && s.slots[l].inFlight[j] == f;
    assert k == l ==> !(i < j) && !(j < i);
  }

  /** Exact ownership: one ledger entry for a requested block of an incomplete piece, none for any other. */
  lemma ExactlyOneHolder(m: Torrent, s: SchedulerState, key: BlockKey)
    requires OwnershipOk(m, s)
    ensures |Holders(s, key)| == if IsWanted(s.pieces, key) then 1 else 0
  {
    var all := Holders(s, key);
    if IsWanted(s.pieces, key) {
      var k, e :| Holds(s, k, e) && KeyOf(e.request) == key;
      var i :| 0 <= i < |s.slots[k].inFlight| && s.slots[k].inFlight[i] == e;
      forall l, j | (l, j) in all
        ensures (l, j) == (k, i)
      {
        HolderIsUnique(m, s, k, e, l, s.slots[l].inFlight[j]);
        assert !(i < j) && !(j < i);
      }
      assert all == {(k, i)};
    } else {
      forall l, j | (l, j) in all
        ensures false
      {
        assert Holds(s, l, s.slots[l].inFlight[j]);
      }
      assert all == {};
    }
  }

  // Preservation

  lemma DistinctConcat(l: seq<InFlightBlock>, r: seq<InFlightBlock>)
    requires NoDuplicates(l) && NoDuplicates(r)
    requires forall e, f :: e in l && f in r ==> KeyOf(e.request) != KeyOf(f.request)
    ensures NoDuplicates(l + r)
  {
  }

  lemma GrantedAreDistinct(m: Torrent, pieces: seq<PieceBuffer>, bits: seq<bool>, quota: nat, now: nat)
    ensures NoDuplicates(Stamp(Chosen(m, pieces, bits, quota), now))
  {
    var chosen := Chosen(m, pieces, bits, quota);
    ChosenDistinct(m, pieces, bits, quota);
    forall i, j | 0 <= i < j < |chosen|
      ensures KeyOf(chosen[i]) != KeyOf(chosen[j])
    {
      var k := ChosenAreBlocks(m, pieces, bits, quota, chosen[i]);
      var l := ChosenAreBlocks(m, pieces, bits, quota, chosen[j]);
      assert Before(chosen[i], chosen[j]);
    }
  }

  /** A granted block was in no ledger. */
  lemma GrantedAreFree(m: Torrent, s: SchedulerState, bits: seq<bool>, quota: nat, r: BlockRequest, k: nat,
                       e: InFlightBlock)
    requires EntriesAreLive(m, s) && r in Chosen(m, s.pieces, bits, quota) && Holds(s, k, e)
    ensures KeyOf(e.request) != KeyOf(r)
  {
    var key := ChosenAreBlocks(m, s.pieces, bits, quota, r);
    PushWants(m, s.pieces, bits, quota, key);
  }

  lemma PushKeepsLive(m: Torrent, s: SchedulerState, k: nat, now: nat)
    requires k in s.slots && EntriesAreLive(m, s)
    ensures EntriesAreLive(m, MaybePushBlocks(m, s, k, now))
  {
    var h := s.slots[k];
    var t := MaybePushBlocks(m, s, k, now);
    PushPieces(m, s, k, now);
    forall l, e | Holds(t, l, e)
      ensures IsWanted(t.pieces, KeyOf(e.request))
      ensures e.request == BlockAt(m, KeyOf(e.request).piece, KeyOf(e.request).block)
    {
      PushHolds(m, s, k, now, l, e);
      if MayRequest(h) {
        if !Holds(s, l, e) {
          var key := ChosenAreBlocks(m, s.pieces, h.bitfield, Quota(h), e.request);
        }
        PushWants(m, s.pieces, h.bitfield, Quota(h), KeyOf(e.request));
      }
    }
  }

  lemma PushKeepsDistinct(m: Torrent, s: SchedulerState, k: nat, now: nat)
    requires k in s.slots && EntriesAreLive(m, s) && EntriesAreDistinct(s)
    ensures EntriesAreDistinct(MaybePushBlocks(m, s, k, now))
  {
    var h := s.slots[k];
    var t := MaybePushBlocks(m, s, k, now);
    if MayRequest(h) {
      var chosen := Chosen(m, s.pieces, h.bitfield, Quota(h));
      var added := Stamp(chosen, now);
      GrantedAreDistinct(m, s.pieces, h.bitfield, Quota(h), now);
      forall e, f, l | Holds(s, l, e) && f in added
        ensures KeyOf(e.request) != KeyOf(f.request)
      {
        StampMembers(chosen, now, f);
        GrantedAreFree(m, s, h.bitfield, Quota(h), f.request, l, e);
      }
      forall e, f | e in h.inFlight && f in added
        ensures KeyOf(e.request) != KeyOf(f.request)
      {
        assert Holds(s, k, e);
      }
      DistinctConcat(h.inFlight, added);
      assert t.slots[k].inFlight == h.inFlight + added;
      assert forall l, e :: Holds(t, l, e) <==> Holds(s, l, e) || (l == k && e in added);
    }
  }

  lemma PushKeepsOwnership(m: Torrent, s: SchedulerState, k: nat, now: nat)
    requires k in s.slots && OwnershipOk(m, s)
    ensures OwnershipOk(m, MaybePushBlocks(m, s, k, now))
  {
    PushKeepsLive(m, s, k, now);
    PushKeepsDistinct(m, s, k, now);
    PushKeepsNoOrphan(m, s, k, now);
  }

  lemma ScanKeepsOwnership(m: Torrent, s: SchedulerState, now: nat)
    requires OwnershipOk(m, s)
    ensures OwnershipOk(m, ScanTimeouts(s, now))
  {
    var t := ScanTimeouts(s, now);
    ScanKeepsNoOrphan(s, now);
    forall k, e | Holds(t, k, e)
      ensures Holds(s, k, e) && IsWanted(t.pieces, KeyOf(e.request))
    {
      ScanHolds(s, now, k, e);
      ReleaseWants(s.pieces, StaleKeys(s.slots, now), KeyOf(e.request));
      forall l, f | Holds(s, l, f) && Stale(f, now)
        ensures KeyOf(f.request) != KeyOf(e.request)
      {
        if KeyOf(f.request) == KeyOf(e.request) {
          HolderIsUnique(m, s, k, e, l, f);
        }
      }
      assert KeyOf(e.request) !in StaleKeys(s.slots, now) by {
        if KeyOf(e.request) in StaleKeys(s.slots, now) {
          var l, f :| l in s.slots && f in s.slots[l].inFlight && Stale(f, now) && KeyOf(f.request) == KeyOf(e.request);
          assert Holds(s, l, f);
        }
      }
    }
    forall k | k in t.slots
      ensures NoDuplicates(t.slots[k].inFlight)
    {
      SweepKeepsDistinct(s.slots[k].inFlight, 0, now);
    }
  }

  lemma RemoveKeepsOwnership(m: Torrent, s: SchedulerState, k: nat)
    requires OwnershipOk(m, s) && k in s.slots
    ensures OwnershipOk(m, RemovePeer(s, k))
  {
    var t := RemovePeer(s, k);
    RemoveKeepsNoOrphan(s, k);
    forall l, e | Holds(t, l, e)
      ensures Holds(s, l, e) && l != k && IsWanted(t.pieces, KeyOf(e.request))
    {
      assert Holds(s, l, e);
      ReleaseWants(s.pieces, Keys(s.slots[k].inFlight), KeyOf(e.request));
      if KeyOf(e.request) in Keys(s.slots[k].inFlight) {
        var f :| f in s.slots[k].inFlight && KeyOf(f.request) == KeyOf(e.request);
        assert Holds(s, k, f);
      }
    }
  }

  // Deliveries

  /** A stored delivery is uncontested if, once the sender's own entry is settled, nobody is being asked for the
      block. */
  ghost predicate IsUncontested(m: Torrent, s: SchedulerState, e: Event) {
    IsStored(m, s, e) ==> !IsHeld(Settled(s, e), KeyOf(Answered(e)))
  }

  lemma OwnershipWithout(m: Torrent, s: SchedulerState, t: SchedulerState, gone: BlockKey)
    requires OwnershipOk(m, s)
    requires forall key :: IsWanted(t.pieces, key) <==> IsWanted(s.pieces, key) && key != gone
    requires forall k, f :: Holds(t, k, f) <==> Holds(s, k, f) && KeyOf(f.request) != gone
    requires forall k :: k in t.slots ==> NoDuplicates(t.slots[k].inFlight)
    ensures OwnershipOk(m, t)
  {
  }

  /** A delivery takes its block out of the requested ones; when it completes the piece there are no others. */
  lemma DeliveryWants(m: Torrent, s: SchedulerState, piece: nat, begin: nat, payload: seq<Byte>, key: BlockKey)
    requires TablesOk(m, s.pieces) && Acceptable(s, piece, begin, payload)
    ensures IsWanted(Accept(s, piece, begin, payload).pieces, key) <==>
              IsWanted(s.pieces, key) && key != BlockKey(piece, begin / BLOCK_SIZE)
  {
    AcceptKeepsTables(m, s, piece, begin, payload);
    AcceptWants(s, piece, begin, payload, key);
    var after := Accept(s, piece, begin, payload).pieces;
    assert forall b :: 0 <= b < |s.pieces[piece].blockStatus| && b != begin / BLOCK_SIZE ==>
        after[piece].blockStatus[b] == s.pieces[piece].blockStatus[b];
  }

  /** A stored block, and the requests made next, leave no block wanted that the delivery settled. */
  lemma DeliveredIsNotWanted(m: Torrent, s: SchedulerState, k: nat, piece: nat, begin: nat, payload: seq<Byte>,
                             now: nat)
    requires TablesOk(m, s.pieces) && k in s.slots && Acceptable(s, piece, begin, payload)
    ensures var after := MaybePushBlocks(m, Accept(s, piece, begin, payload), k, now).pieces;
            !IsWanted(after, BlockKey(piece, begin / BLOCK_SIZE))
  {
    var key := BlockKey(piece, begin / BLOCK_SIZE);
    var t := Accept(s, piece, begin, payload);
    var h := t.slots[k];
    DeliveryWants(m, s, piece, begin, payload, key);
    PushPieces(m, t, k, now);
    if MayRequest(h) {
      PushWants(m, t.pieces, h.bitfield, Quota(h), key);
      if BlockAt(m, key.piece, key.block) in Chosen(m, t.pieces, h.bitfield, Quota(h)) {
        var same := ChosenAreBlocks(m, t.pieces, h.bitfield, Quota(h), BlockAt(m, key.piece, key.block));
      }
    }
  }

  lemma EntryLeftBehind(m: Torrent, s: SchedulerState, e: Event) returns (l: nat, f: InFlightBlock)
    requires IsStored(m, s, e) && !IsUncontested(m, s, e)
    ensures Holds(Handle(m, s, e), l, f) && KeyOf(f.request) == KeyOf(Answered(e))
  {
    DataThenPush(m, s, e);
    l, f :| Holds(Settled(s, e), l, f) && KeyOf(f.request) == KeyOf(Answered(e));
    assert Holds(StoredState(m, s, e), l, f);
    PushHolds(m, StoredState(m, s, e), e.slot, e.now, l, f);
  }

  /** A contested delivery leaves an entry behind for a block that nobody wants. */
  lemma ContestedLeavesAnEntry(m: Torrent, s: SchedulerState, e: Event)
    requires TablesOk(m, s.pieces) && IsStored(m, s, e) && !IsUncontested(m, s, e)
    ensures !EntriesAreLive(m, Handle(m, s, e))
  {
    DataThenPush(m, s, e);
    DeliveredIsNotWanted(m, Settled(s, e), e.slot, e.piece, e.begin, e.data[8..], e.now);
    var l, f := EntryLeftBehind(m, s, e);
  }

  lemma SettleKeepsDistinct(ledger: seq<InFlightBlock>, r: BlockRequest)
    requires NoDuplicates(ledger)
    ensures NoDuplicates(Settle(ledger, r))
  {
    var pos := Position(ledger, r);
    if pos < |ledger| {
      SwapRemoveKeepsDistinct(ledger, pos);
    }
  }

  lemma SettledHolds(s: SchedulerState, e: Event, k: nat, f: InFlightBlock)
    requires e.Data? && 8 <= |e.data| && e.slot in s.slots
    ensures Holds(Settled(s, e), k, f) ==> Holds(s, k, f)
    ensures Holds(s, k, f) && KeyOf(f.request) != KeyOf(Answered(e)) ==> Holds(Settled(s, e), k, f)
  {
    SettleMembers(s.slots[e.slot].inFlight, Answered(e));
  }

  lemma UncontestedKeepsOwnership(m: Torrent, s: SchedulerState, e: Event)
    requires OwnershipOk(m, s) && TablesOk(m, s.pieces) && IsStored(m, s, e) && IsUncontested(m, s, e)
    ensures OwnershipOk(m, StoredState(m, s, e))
  {
    var settled, t, gone := Settled(s, e), StoredState(m, s, e), KeyOf(Answered(e));
    forall key
      ensures IsWanted(t.pieces, key) <==> IsWanted(s.pieces, key) && key != gone
    {
      DeliveryWants(m, settled, e.piece, e.begin, e.data[8..], key);
    }
    forall k, f
      ensures Holds(t, k, f) <==> Holds(s, k, f) && KeyOf(f.request) != gone
    {
      assert Holds(t, k, f) <==> Holds(settled, k, f);
      SettledHolds(s, e, k, f);
    }
    SettleKeepsDistinct(s.slots[e.slot].inFlight, Answered(e));
    OwnershipWithout(m, s, t, gone);
  }

  /** A redundant delivery finds no entry to settle. */
  lemma RedundantSettlesNothing(m: Torrent, s: SchedulerState, e: Event)
    requires EntriesAreLive(m, s) && e.Data? && IsSafe(m, s, e) && IsRedundant(s, e.piece, e.begin)
    ensures Settled(s, e) == s
  {
    var ledger := s.slots[e.slot].inFlight;
    var pos := Position(ledger, Answered(e));
    if pos < |ledger| {
      assert Holds(s, e.slot, ledger[pos]);
      assert false;
    }
  }

  /** Any delivery, asked for or not, keeps ownership exact if, and only if, it is uncontested. */
  lemma DataAndOwnership(m: Torrent, s: SchedulerState, e: Event)
    requires OwnershipOk(m, s) && TablesOk(m, s.pieces) && e.Data? && IsSafe(m, s, e)
    ensures OwnershipOk(m, Handle(m, s, e)) <==> IsUncontested(m, s, e)
  {
    DataThenPush(m, s, e);
    if !IsStored(m, s, e) {
      RedundantSettlesNothing(m, s, e);
    } else if IsUncontested(m, s, e) {
      UncontestedKeepsOwnership(m, s, e);
      PushKeepsOwnership(m, StoredState(m, s, e), e.slot, e.now);
    } else {
      ContestedLeavesAnEntry(m, s, e);
    }
  }

  // Deliveries that were asked for

  /** The peer answers one of its outstanding requests. */
  predicate IsSolicited(s: SchedulerState, e: Event) {
    e.Data? ==>
      && e.slot in s.slots
      && 8 <= |e.data|
      && Position(s.slots[e.slot].inFlight, Answered(e)) < |s.slots[e.slot].inFlight|
  }

  lemma SolicitedIsWanted(m: Torrent, s: SchedulerState, e: Event)
    requires OwnershipOk(m, s) && TablesOk(m, s.pieces) && e.Data? && IsSolicited(s, e)
    ensures var key := KeyOf(Answered(e));
            && IsBlock(m, key) && IsWanted(s.pieces, key)
            && Answered(e) == BlockAt(m, key.piece, key.block)
            && Acceptable(s, e.piece, e.begin, e.data[8..])
  {
    var ledger := s.slots[e.slot].inFlight;
    var entry := ledger[Position(ledger, Answered(e))];
    assert Holds(s, e.slot, entry);
    BlockFits(m, KeyOf(entry.request));
  }

  /** Peers that answer only what they were asked contest nothing. */
  lemma SolicitedIsUncontested(m: Torrent, s: SchedulerState, e: Event)
    requires OwnershipOk(m, s) && IsSolicited(s, e)
    ensures IsUncontested(m, s, e)
  {
    if IsStored(m, s, e) {
      var ledger := s.slots[e.slot].inFlight;
      var pos := Position(ledger, Answered(e));
      assert Holds(s, e.slot, ledger[pos]);
      SwapRemoveKeepsDistinct(ledger, pos);
      forall k, f | Holds(Settled(s, e), k, f)
        ensures KeyOf(f.request) != KeyOf(Answered(e))
      {
        SettledHolds(s, e, k, f);
      }
    }
  }

  // Other events

  lemma SameOwnership(m: Torrent, s: SchedulerState, t: SchedulerState)
    requires OwnershipOk(m, s)
    requires forall key :: IsWanted(t.pieces, key) <==> IsWanted(s.pieces, key)
    requires forall k :: k in s.slots ==> k in t.slots && t.slots[k].inFlight == s.slots[k].inFlight
    requires forall k :: k in t.slots && k !in s.slots ==> t.slots[k].inFlight == []
    ensures OwnershipOk(m, t)
  {
    assert forall k, e :: Holds(t, k, e) <==> Holds(s, k, e);
    MoreHeldKeepsNoOrphan(s, t);
  }

  /** The disk answers about pieces that were handed over, and has reported the resumed pieces before. */
  predicate DiskAnswersInTurn(s: SchedulerState, e: Event) {
    && !e.CompletedPieces?
    && (e.HashFailed? || e.WriteFailed? || e.PieceHashedAndWritten? ==>
          e.piece < |s.pieces| && s.pieces[e.piece].complete)
  }

  lemma UpdateKeepsOwnership(m: Torrent, s: SchedulerState, e: Event)
    requires OwnershipOk(m, s) && IsUpdate(e) && IsSafe(m, s, e)
    ensures OwnershipOk(m, Handle(m, s, e))
  {
    UpdateThenPush(m, s, e);
    UpdatesAreMinor(s, e);
    var t := WithPeer(s, e.slot, Updated(s, e));
    SameOwnership(m, s, t);
    PushKeepsOwnership(m, t, e.slot, e.now);
  }

  lemma QuietKeepsWants(m: Torrent, s: SchedulerState, e: Event, key: BlockKey)
    requires IsSafe(m, s, e) && DiskAnswersInTurn(s, e) && !IsPushing(e) && !e.Disconnect? && !e.Tick?
    ensures IsWanted(Handle(m, s, e).pieces, key) <==> IsWanted(s.pieces, key)
  {
    if e.LaunchPeers? {
      StartingPeersIsRegistryOnly(s, e.peers);
    }
  }

  lemma QuietKeepsLedgers(m: Torrent, s: SchedulerState, e: Event)
    requires IsSafe(m, s, e) && !IsPushing(e) && !e.Disconnect? && !e.Tick?
    ensures var t := Handle(m, s, e);
            && (forall k :: k in s.slots ==> k in t.slots && t.slots[k].inFlight == s.slots[k].inFlight)
            && (forall k :: k in t.slots && k !in s.slots ==> t.slots[k].inFlight == [])
  {
    if e.LaunchPeers? {
      StartingPeersIsRegistryOnly(s, e.peers);
    }
  }

  lemma OthersKeepOwnership(m: Torrent, s: SchedulerState, e: Event)
    requires OwnershipOk(m, s) && IsSafe(m, s, e) && DiskAnswersInTurn(s, e) && !IsPushing(e)
    ensures OwnershipOk(m, Handle(m, s, e))
  {
    if e.Disconnect? {
      RemoveKeepsOwnership(m, s, e.slot);
    } else if e.Tick? {
      ScanKeepsOwnership(m, s, e.now);
    } else {
      forall key
        ensures IsWanted(Handle(m, s, e).pieces, key) <==> IsWanted(s.pieces, key)
      {
        QuietKeepsWants(m, s, e, key);
      }
      QuietKeepsLedgers(m, s, e);
      SameOwnership(m, s, Handle(m, s, e));
    }
  }

  /** Every event keeps ownership exact, except, exactly, a contested delivery. */
  lemma OwnershipStep(m: Torrent, s: SchedulerState, e: Event)
    requires OwnershipOk(m, s) && TablesOk(m, s.pieces) && IsSafe(m, s, e) && DiskAnswersInTurn(s, e)
    ensures OwnershipOk(m, Handle(m, s, e)) <==> IsUncontested(m, s, e)
  {
    if e.Data? {
      DataAndOwnership(m, s, e);
    } else if IsUpdate(e) {
      UpdateKeepsOwnership(m, s, e);
    } else {
      OthersKeepOwnership(m, s, e);
    }
  }
}
