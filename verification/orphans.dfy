/** No block is ever lost: a requested block of an incomplete piece is always in somebody's ledger, whatever the
    peers and the disk answer, in whatever order and however often. */
module Orphans {
  import opened Metainfo
  import opened Ledgers
  import opened SchedulerModel
  import opened Wanted

  ghost predicate NoOrphan(s: SchedulerState) {
    forall key :: IsWanted(s.pieces, key) ==> IsHeld(s, key)
  }

  lemma PushKeepsNoOrphan(m: Torrent, s: SchedulerState, k: nat, now: nat)
    requires k in s.slots && NoOrphan(s)
    ensures NoOrphan(MaybePushBlocks(m, s, k, now))
  {
    var t := MaybePushBlocks(m, s, k, now);
    var h := s.slots[k];
    PushPieces(m, s, k, now);
    forall key | IsWanted(t.pieces, key)
      ensures IsHeld(t, key)
    {
      if IsWanted(s.pieces, key) {
        var l, e :| Holds(s, l, e) && KeyOf(e.request) == key;
        PushHolds(m, s, k, now, l, e);
      } else {
        PushWants(m, s.pieces, h.bitfield, Quota(h), key);
        var e := InFlightBlock(BlockAt(m, key.piece, key.block), now);
        PushHolds(m, s, k, now, k, e);
      }
    }
  }

  /** Keeping every entry, and wanting no more, loses nothing. */
  lemma MoreHeldKeepsNoOrphan(s: SchedulerState, t: SchedulerState)
    requires NoOrphan(s)
    requires forall key :: IsWanted(t.pieces, key) ==> IsWanted(s.pieces, key)
    requires forall k, e :: Holds(s, k, e) ==> Holds(t, k, e)
    ensures NoOrphan(t)
  {
  }

  lemma StoringKeepsNoOrphan(m: Torrent, s: SchedulerState, e: Event)
    requires NoOrphan(s) && IsStored(m, s, e)
    ensures NoOrphan(StoredState(m, s, e))
  {
    var stored := StoredState(m, s, e);
    forall key | IsWanted(stored.pieces, key)
      ensures IsHeld(stored, key)
    {
      AcceptWants(Settled(s, e), e.piece, e.begin, e.data[8..], key);
      var l, f :| Holds(s, l, f) && KeyOf(f.request) == key;
      SettleMembers(s.slots[e.slot].inFlight, Answered(e));
      assert Holds(stored, l, f);
    }
  }

  /** A redundant answer settles an entry for a block that is not requested. */
  lemma RedundantKeepsNoOrphan(m: Torrent, s: SchedulerState, e: Event)
    requires NoOrphan(s) && e.Data? && IsSafe(m, s, e) && IsRedundant(s, e.piece, e.begin)
    ensures NoOrphan(Settled(s, e))
  {
    var settled := Settled(s, e);
    forall key | IsWanted(settled.pieces, key)
      ensures IsHeld(settled, key)
    {
      assert key != KeyOf(Answered(e));
      var l, f :| Holds(s, l, f) && KeyOf(f.request) == key;
      SettleMembers(s.slots[e.slot].inFlight, Answered(e));
      assert Holds(settled, l, f);
    }
  }

  /** A late, repeated or unsolicited answer loses nothing: the entry it settles is for the block it delivers. */
  lemma DataKeepsNoOrphan(m: Torrent, s: SchedulerState, e: Event)
    requires NoOrphan(s) && e.Data? && IsSafe(m, s, e)
    ensures NoOrphan(Handle(m, s, e))
  {
    DataThenPush(m, s, e);
    if IsStored(m, s, e) {
      StoringKeepsNoOrphan(m, s, e);
      PushKeepsNoOrphan(m, StoredState(m, s, e), e.slot, e.now);
    } else {
      RedundantKeepsNoOrphan(m, s, e);
    }
  }

  /** An entry for the block is younger than 15 seconds. */
  ghost predicate IsFreshlyHeld(s: SchedulerState, key: BlockKey, now: nat) {
    exists k, e :: Holds(s, k, e) && KeyOf(e.request) == key && now < e.sentAt + 15_000_000_000
  }

  /** After the scan, what is still requested is freshly held. */
  lemma ScanKeepsNoOrphan(s: SchedulerState, now: nat)
    requires NoOrphan(s)
    ensures NoOrphan(ScanTimeouts(s, now))
    ensures forall key :: IsWanted(ScanTimeouts(s, now).pieces, key) ==> IsFreshlyHeld(ScanTimeouts(s, now), key, now)
  {
    var t := ScanTimeouts(s, now);
    forall key | IsWanted(t.pieces, key)
      ensures IsFreshlyHeld(t, key, now)
    {
      ReleaseWants(s.pieces, StaleKeys(s.slots, now), key);
      var k, e :| Holds(s, k, e) && KeyOf(e.request) == key;
      assert !Stale(e, now);
      ScanHolds(s, now, k, e);
    }
  }

  lemma RemoveKeepsNoOrphan(s: SchedulerState, k: nat)
    requires NoOrphan(s) && k in s.slots
    ensures NoOrphan(RemovePeer(s, k))
  {
    var t := RemovePeer(s, k);
    forall key | IsWanted(t.pieces, key)
      ensures IsHeld(t, key)
    {
      ReleaseWants(s.pieces, Keys(s.slots[k].inFlight), key);
      var l, e :| Holds(s, l, e) && KeyOf(e.request) == key;
      assert l != k;
      assert Holds(t, l, e);
    }
  }

  lemma UpdateKeepsNoOrphan(m: Torrent, s: SchedulerState, e: Event)
    requires NoOrphan(s) && IsUpdate(e) && IsSafe(m, s, e)
    ensures NoOrphan(Handle(m, s, e))
  {
    UpdateThenPush(m, s, e);
    UpdatesAreMinor(s, e);
    var t := WithPeer(s, e.slot, Updated(s, e));
    MoreHeldKeepsNoOrphan(s, t);
    PushKeepsNoOrphan(m, t, e.slot, e.now);
  }

  lemma QuietWants(m: Torrent, s: SchedulerState, e: Event, key: BlockKey)
    requires IsSafe(m, s, e) && !e.Data? && !IsUpdate(e) && !e.Disconnect? && !e.Tick?
    requires IsWanted(Handle(m, s, e).pieces, key)
    ensures IsWanted(s.pieces, key)
  {
    if e.LaunchPeers? {
      StartingPeersIsRegistryOnly(s, e.peers);
    }
  }

  lemma QuietHolds(m: Torrent, s: SchedulerState, e: Event, k: nat, f: InFlightBlock)
    requires IsSafe(m, s, e) && !e.Data? && !IsUpdate(e) && !e.Disconnect? && !e.Tick?
    requires Holds(s, k, f)
    ensures Holds(Handle(m, s, e), k, f)
  {
    if e.LaunchPeers? {
      StartingPeersIsRegistryOnly(s, e.peers);
    }
  }

  lemma QuietKeepsNoOrphan(m: Torrent, s: SchedulerState, e: Event)
    requires NoOrphan(s) && IsSafe(m, s, e) && !e.Data? && !IsUpdate(e) && !e.Disconnect? && !e.Tick?
    ensures NoOrphan(Handle(m, s, e))
  {
    var t := Handle(m, s, e);
    forall key | IsWanted(t.pieces, key)
      ensures IsWanted(s.pieces, key)
    {
      QuietWants(m, s, e, key);
    }
    forall k, f | Holds(s, k, f)
      ensures Holds(t, k, f)
    {
      QuietHolds(m, s, e, k, f);
    }
    MoreHeldKeepsNoOrphan(s, t);
  }

  lemma OthersKeepNoOrphan(m: Torrent, s: SchedulerState, e: Event)
    requires NoOrphan(s) && IsSafe(m, s, e) && !e.Data? && !IsUpdate(e)
    ensures NoOrphan(Handle(m, s, e))
  {
    if e.Disconnect? {
      RemoveKeepsNoOrphan(s, e.slot);
    } else if e.Tick? {
      ScanKeepsNoOrphan(s, e.now);
    } else {
      QuietKeepsNoOrphan(m, s, e);
    }
  }

  /** One event, any event that is handled without a panic. */
  lemma NoOrphanStep(m: Torrent, s: SchedulerState, e: Event)
    requires NoOrphan(s) && IsSafe(m, s, e)
    ensures NoOrphan(Handle(m, s, e))
  {
    if e.Data? {
      DataKeepsNoOrphan(m, s, e);
    } else if IsUpdate(e) {
      UpdateKeepsNoOrphan(m, s, e);
    } else {
      OthersKeepNoOrphan(m, s, e);
    }
  }
}
