/** Every request ever made, and every entry ever put in flight, is one of the blocks that tile the torrent. */
module Tiles {
  import opened Metainfo
  import opened Pieces
  import opened Allocation
  import opened Ledgers
  import opened SchedulerModel
  import opened Wanted
  import opened Tables
  import opened Connections

  ghost predicate IsTile(m: Torrent, r: BlockRequest) {
    IsBlock(m, KeyOf(r)) && r == BlockAt(m, KeyOf(r).piece, KeyOf(r).block)
  }

  ghost predicate NamesThisTorrent(m: Torrent, command: PeerCommand) {
    match command
    case SendInterested => true
    case BlocksToDownload(blocks) => forall r :: r in blocks ==> IsTile(m, r)
    case SendHave(piece) => piece < m.numPieces
  }

  ghost predicate PeerTiles(m: Torrent, h: PeerHandle) {
    && (forall e :: e in h.inFlight ==> IsTile(m, e.request))
    && (forall command :: command in h.sent ==> NamesThisTorrent(m, command))
  }

  ghost predicate TilesOk(m: Torrent, s: SchedulerState) {
    forall k :: k in s.slots ==> PeerTiles(m, s.slots[k])
  }

  lemma ChosenAreTiles(m: Torrent, pieces: seq<PieceBuffer>, bits: seq<bool>, quota: nat)
    requires TablesOk(m, pieces)
    ensures forall r :: r in Chosen(m, pieces, bits, quota) ==> IsTile(m, r)
  {
    forall r | r in Chosen(m, pieces, bits, quota)
      ensures IsTile(m, r)
    {
      var key := ChosenAreBlocks(m, pieces, bits, quota, r);
      assert PieceInv(PieceLen(m, key.piece), pieces[key.piece]);
    }
  }

  lemma PushKeepsTiles(m: Torrent, s: SchedulerState, k: nat, now: nat)
    requires k in s.slots && TablesOk(m, s.pieces) && TilesOk(m, s)
    ensures TilesOk(m, MaybePushBlocks(m, s, k, now))
  {
    var h := s.slots[k];
    if MayRequest(h) {
      ChosenAreTiles(m, s.pieces, h.bitfield, Quota(h));
      forall e | e in MaybePushBlocks(m, s, k, now).slots[k].inFlight
        ensures IsTile(m, e.request)
      {
        PushHolds(m, s, k, now, k, e);
      }
    }
  }

  lemma UpdateKeepsTiles(m: Torrent, s: SchedulerState, e: Event)
    requires TablesOk(m, s.pieces) && TilesOk(m, s) && IsUpdate(e) && IsSafe(m, s, e)
    ensures TilesOk(m, Handle(m, s, e))
  {
    assert PeerTiles(m, s.slots[e.slot]);
    UpdateThenPush(m, s, e);
    UpdatesAreMinor(s, e);
    PushKeepsTiles(m, WithPeer(s, e.slot, Updated(s, e)), e.slot, e.now);
  }

  lemma SettlingKeepsTiles(m: Torrent, s: SchedulerState, k: nat, r: BlockRequest)
    requires TilesOk(m, s) && k in s.slots
    ensures TilesOk(m, SettleAt(s, k, r))
  {
    SettleMembers(s.slots[k].inFlight, r);
    assert PeerTiles(m, s.slots[k]);
  }

  lemma DataKeepsTiles(m: Torrent, s: SchedulerState, e: Event)
    requires TablesOk(m, s.pieces) && TilesOk(m, s) && e.Data? && IsSafe(m, s, e)
    ensures TilesOk(m, Handle(m, s, e))
  {
    DataThenPush(m, s, e);
    SettlingKeepsTiles(m, s, e.slot, Answered(e));
    if IsStored(m, s, e) {
      AcceptKeepsTables(m, Settled(s, e), e.piece, e.begin, e.data[8..]);
      PushKeepsTiles(m, StoredState(m, s, e), e.slot, e.now);
    }
  }

  lemma QuietKeepsTiles(m: Torrent, s: SchedulerState, e: Event, k: nat)
    requires TilesOk(m, s) && |s.pieces| == m.numPieces && IsSafe(m, s, e) && !IsPushing(e)
    requires k in Handle(m, s, e).slots
    ensures PeerTiles(m, Handle(m, s, e).slots[k])
  {
    if !(e.Connect? && e.slot == k) {
      QuietEvents(m, s, e, k);
      assert PeerTiles(m, s.slots[k]);
      forall f | f in Handle(m, s, e).slots[k].inFlight
        ensures f in s.slots[k].inFlight
      {
        QuietLedgers(m, s, e, k, f);
      }
    }
  }

  lemma QuietLedgers(m: Torrent, s: SchedulerState, e: Event, k: nat, f: InFlightBlock)
    requires IsSafe(m, s, e) && !IsPushing(e) && !(e.Connect? && e.slot == k)
    requires k in s.slots && k in Handle(m, s, e).slots && f in Handle(m, s, e).slots[k].inFlight
    ensures f in s.slots[k].inFlight
  {
    if e.LaunchPeers? {
      StartingPeersIsRegistryOnly(s, e.peers);
    } else if e.Tick? {
      ScanHolds(s, e.now, k, f);
    }
  }

  lemma TilesStep(m: Torrent, s: SchedulerState, e: Event)
    requires TablesOk(m, s.pieces) && TilesOk(m, s) && IsSafe(m, s, e)
    ensures TilesOk(m, Handle(m, s, e))
  {
    if e.Data? {
      DataKeepsTiles(m, s, e);
    } else if IsUpdate(e) {
      UpdateKeepsTiles(m, s, e);
    } else {
      forall k | k in Handle(m, s, e).slots
        ensures PeerTiles(m, Handle(m, s, e).slots[k])
      {
        QuietKeepsTiles(m, s, e, k);
      }
    }
  }
}
