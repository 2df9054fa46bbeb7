/** The consistency of the piece tables: counters, buffers and table sizes agree after every event. */
module Tables {
  import opened Metainfo
  import opened Pieces
  import opened Allocation
  import opened Ledgers
  import opened SchedulerModel
  import opened Wanted

  ghost predicate TablesOk(m: Torrent, pieces: seq<PieceBuffer>) {
    && |pieces| == m.numPieces
    && forall p :: 0 <= p < |pieces| ==> PieceInv(PieceLen(m, p), pieces[p])
  }

  /** A piece is confirmed of which only some blocks have arrived. */
  predicate ConfirmsPartialPiece(s: SchedulerState, e: Event) {
    && e.PieceHashedAndWritten? && e.piece < |s.pieces|
    && !s.pieces[e.piece].complete && 0 < s.pieces[e.piece].blocksReceived
  }

  lemma PushKeepsTables(m: Torrent, pieces: seq<PieceBuffer>, bits: seq<bool>, quota: nat)
    requires TablesOk(m, pieces)
    ensures TablesOk(m, Pushed(m, pieces, bits, quota))
  {
    forall p | 0 <= p < |pieces|
      ensures PieceInv(PieceLen(m, p), Pushed(m, pieces, bits, quota)[p])
    {
      PushMarksTheChosen(m, pieces, bits, quota, p);
      var before, after := Opened(m, pieces, bits, p), Pushed(m, pieces, bits, quota)[p];
      if Reached(m, pieces, bits, quota, p) {
        LazyInitKeepsInv(PieceLen(m, p), pieces[p]);
        ReceivedCountDependsOnReceived(before.blockStatus, after.blockStatus);
      }
    }
  }

  lemma MaybePushKeepsTables(m: Torrent, s: SchedulerState, k: nat, now: nat)
    requires k in s.slots && TablesOk(m, s.pieces)
    ensures TablesOk(m, MaybePushBlocks(m, s, k, now).pieces)
  {
    PushPieces(m, s, k, now);
    if MayRequest(s.slots[k]) {
      PushKeepsTables(m, s.pieces, s.slots[k].bitfield, Quota(s.slots[k]));
    }
  }

  lemma ReleaseKeepsTables(m: Torrent, pieces: seq<PieceBuffer>, keys: set<BlockKey>)
    requires TablesOk(m, pieces)
    ensures TablesOk(m, Released(pieces, keys))
  {
    forall p | 0 <= p < |pieces|
      ensures PieceInv(PieceLen(m, p), Released(pieces, keys)[p])
    {
      ReceivedCountDependsOnReceived(pieces[p].blockStatus, Released(pieces, keys)[p].blockStatus);
    }
  }

  /** Storing a block keeps the counters exact; the last block hands over a buffer of the piece's length. */
  lemma AcceptKeepsTables(m: Torrent, s: SchedulerState, piece: nat, begin: nat, payload: seq<Byte>)
    requires TablesOk(m, s.pieces) && Acceptable(s, piece, begin, payload)
    ensures var t := Accept(s, piece, begin, payload);
            && TablesOk(m, t.pieces)
            && (t.pieces[piece].complete ==>
                  && t.diskEvents ==
                       s.diskEvents + [TryHashAndWrite(piece, Overwrite(s.pieces[piece].data, begin, payload))]
                  && |Overwrite(s.pieces[piece].data, begin, payload)| == PieceLen(m, piece)
                  && forall b :: 0 <= b < |t.pieces[piece].blockStatus| ==> t.pieces[piece].blockStatus[b] == Received)
            && (!t.pieces[piece].complete ==> t.diskEvents == s.diskEvents)
  {
    var block := begin / BLOCK_SIZE;
    ReceivedCountAdds(s.pieces[piece].blockStatus, block);
    ReceivedCountFull(s.pieces[piece].blockStatus[block := Received]);
  }

  lemma DataKeepsTables(m: Torrent, s: SchedulerState, e: Event)
    requires TablesOk(m, s.pieces) && e.Data? && IsSafe(m, s, e)
    ensures TablesOk(m, Handle(m, s, e).pieces)
  {
    DataThenPush(m, s, e);
    if IsStored(m, s, e) {
      AcceptKeepsTables(m, Settled(s, e), e.piece, e.begin, e.data[8..]);
      MaybePushKeepsTables(m, StoredState(m, s, e), e.slot, e.now);
    }
  }

  lemma UpdateKeepsTables(m: Torrent, s: SchedulerState, e: Event)
    requires TablesOk(m, s.pieces) && IsUpdate(e) && IsSafe(m, s, e)
    ensures TablesOk(m, Handle(m, s, e).pieces)
  {
    UpdateThenPush(m, s, e);
    MaybePushKeepsTables(m, WithPeer(s, e.slot, Updated(s, e)), e.slot, e.now);
  }

  lemma OthersKeepTables(m: Torrent, s: SchedulerState, e: Event)
    requires TablesOk(m, s.pieces) && IsSafe(m, s, e) && !e.Data? && !IsUpdate(e) && !e.PieceHashedAndWritten?
    ensures TablesOk(m, Handle(m, s, e).pieces)
  {
    if e.Disconnect? {
      ReleaseKeepsTables(m, s.pieces, Keys(s.slots[e.slot].inFlight));
    } else if e.Tick? {
      ReleaseKeepsTables(m, s.pieces, StaleKeys(s.slots, e.now));
    } else if e.LaunchPeers? {
      StartingPeersIsRegistryOnly(s, e.peers);
    }
  }

  lemma ConfirmationAndTables(m: Torrent, s: SchedulerState, e: Event)
    requires TablesOk(m, s.pieces) && e.PieceHashedAndWritten? && IsSafe(m, s, e)
    ensures TablesOk(m, Handle(m, s, e).pieces) <==> !ConfirmsPartialPiece(s, e)
  {
    var after := Handle(m, s, e).pieces;
    assert PieceInv(PieceLen(m, e.piece), s.pieces[e.piece]);
    assert PieceInv(PieceLen(m, e.piece), after[e.piece]) <==> !ConfirmsPartialPiece(s, e);
  }

  /** Every event keeps the tables consistent, except, exactly, the confirmation of a partly received piece. */
  lemma TablesStep(m: Torrent, s: SchedulerState, e: Event)
    requires TablesOk(m, s.pieces) && IsSafe(m, s, e)
    ensures TablesOk(m, Handle(m, s, e).pieces) <==> !ConfirmsPartialPiece(s, e)
  {
    if e.Data? {
      DataKeepsTables(m, s, e);
    } else if IsUpdate(e) {
      UpdateKeepsTables(m, s, e);
    } else if e.PieceHashedAndWritten? {
      ConfirmationAndTables(m, s, e);
    } else {
      OthersKeepTables(m, s, e);
    }
  }
}
