/** What a delivery does, asked for or not: it settles one request of its sender, and its bytes are stored if, and only
    if, they are for a block that is missing. */
module Deliveries {
  import opened Metainfo
  import opened Pieces
  import opened Allocation
  import opened Ledgers
  import opened SchedulerModel
  import opened Wanted
  import opened Tables

  /** The ledger that is left when the first entry for the answer is taken out. */
  ghost predicate IsLeftOver(ledger: seq<InFlightBlock>, r: BlockRequest, rest: seq<InFlightBlock>) {
    var pos := Position(ledger, r);
    multiset(rest) == if pos < |ledger| then multiset(ledger) - multiset{ledger[pos]} else multiset(ledger)
  }

  lemma PushExtendsLedgers(m: Torrent, s: SchedulerState, k: nat, now: nat, rest: seq<InFlightBlock>)
    requires k in s.slots && s.slots[k].inFlight == rest
    ensures var t := MaybePushBlocks(m, s, k, now);
            k in t.slots && |rest| <= |t.slots[k].inFlight| && t.slots[k].inFlight[..|rest|] == rest
  {
  }

  lemma StoringKeepsLedgers(m: Torrent, s: SchedulerState, e: Event)
    requires IsStored(m, s, e)
    ensures StoredState(m, s, e).slots == Settled(s, e).slots
  {
  }

  lemma SettleLeavesTheRest(ledger: seq<InFlightBlock>, r: BlockRequest)
    ensures IsLeftOver(ledger, r, Settle(ledger, r))
    ensures |Settle(ledger, r)| == if Position(ledger, r) < |ledger| then |ledger| - 1 else |ledger|
  {
    SettleMembers(ledger, r);
  }

  lemma LedgerStartsWithTheRest(m: Torrent, s: SchedulerState, e: Event)
    requires e.Data? && IsSafe(m, s, e)
    ensures e.slot in s.slots && e.slot in Handle(m, s, e).slots
    ensures var rest, after := Settle(s.slots[e.slot].inFlight, Answered(e)), Handle(m, s, e).slots[e.slot].inFlight;
            |rest| <= |after| && after[..|rest|] == rest
  {
    var rest := Settle(s.slots[e.slot].inFlight, Answered(e));
    DataThenPush(m, s, e);
    if IsStored(m, s, e) {
      StoringKeepsLedgers(m, s, e);
      PushExtendsLedgers(m, StoredState(m, s, e), e.slot, e.now, rest);
    } else {
      assert rest[..|rest|] == rest;
    }
  }

  /** A delivery, stored or not, takes the first entry for it out of the sender's ledger; what comes behind the rest
      is asked for anew. */
  lemma DeliverySettles(m: Torrent, s: SchedulerState, e: Event)
    requires e.Data? && IsSafe(m, s, e)
    ensures e.slot in s.slots && e.slot in Handle(m, s, e).slots
    ensures var ledger, after := s.slots[e.slot].inFlight, Handle(m, s, e).slots[e.slot].inFlight;
            var n := if Position(ledger, Answered(e)) < |ledger| then |ledger| - 1 else |ledger|;
            n <= |after| && IsLeftOver(ledger, Answered(e), after[..n])
  {
    LedgerStartsWithTheRest(m, s, e);
    SettleLeavesTheRest(s.slots[e.slot].inFlight, Answered(e));
  }

  /** No other connection notices a delivery. */
  lemma OthersDoNotNotice(m: Torrent, s: SchedulerState, e: Event, l: nat)
    requires e.Data? && IsSafe(m, s, e) && l != e.slot
    ensures l in Handle(m, s, e).slots <==> l in s.slots
    ensures l in s.slots ==> Handle(m, s, e).slots[l] == s.slots[l]
  {
    DataThenPush(m, s, e);
    if IsStored(m, s, e) {
      StoringKeepsLedgers(m, s, e);
      PushKeepsOthers(m, StoredState(m, s, e), e.slot, e.now, l);
    }
  }

  lemma PushKeepsOthers(m: Torrent, s: SchedulerState, k: nat, now: nat, l: nat)
    requires k in s.slots && l != k
    ensures l in MaybePushBlocks(m, s, k, now).slots <==> l in s.slots
    ensures l in s.slots ==> MaybePushBlocks(m, s, k, now).slots[l] == s.slots[l]
  {
  }

  /** The buffer holds the payload at its place and is otherwise as before. */
  predicate HoldsPayload(before: seq<Byte>, after: seq<Byte>, begin: nat, payload: seq<Byte>) {
    && begin + |payload| <= |after| == |before|
    && (forall i :: begin <= i < begin + |payload| ==> after[i] == payload[i - begin])
    && (forall i :: 0 <= i < |before| && !(begin <= i < begin + |payload|) ==> after[i] == before[i])
  }

  /** Storing a payload for a block of a piece: the block is received and counted, and the payload is in the buffer,
      or, if it was the last, in the one job that hands the buffer over. */
  ghost predicate Stores(before: PieceBuffer, after: PieceBuffer, jobs: seq<DiskEvent>, p: nat, begin: nat,
                         payload: seq<Byte>) {
    var block := begin / 16384;
    && block < |before.blockStatus| == |after.blockStatus| && after.blockStatus[block] == Received
    && after.blocksReceived == before.blocksReceived + 1
    && (after.complete <==>
          forall b :: 0 <= b < |before.blockStatus| && b != block ==> before.blockStatus[b] == Received)
    && if after.complete then
         && |jobs| == 1 && jobs[0].piece == p && after.data == []
         && HoldsPayload(before.data, jobs[0].data, begin, payload)
       else
         jobs == [] && HoldsPayload(before.data, after.data, begin, payload)
  }

  /** A table is full but for one block exactly when all other blocks are received. */
  lemma LastBlock(table: seq<BlockState>, block: nat)
    requires block < |table| && table[block] != Received
    ensures ReceivedCount(table) + 1 == |table| <==>
              forall b :: 0 <= b < |table| && b != block ==> table[b] == Received
  {
    var after := table[block := Received];
    ReceivedCountAdds(table, block);
    ReceivedCountFull(after);
    assert forall b :: 0 <= b < |table| && b != block ==> after[b] == table[b];
  }

  lemma OverwriteHolds(data: seq<Byte>, begin: nat, payload: seq<Byte>)
    requires begin + |payload| <= |data|
    ensures HoldsPayload(data, Overwrite(data, begin, payload), begin, payload)
  {
  }

  lemma AcceptStores(m: Torrent, s: SchedulerState, p: nat, begin: nat, payload: seq<Byte>)
    requires TablesOk(m, s.pieces) && Acceptable(s, p, begin, payload)
    ensures var t := Accept(s, p, begin, payload);
            && s.diskEvents <= t.diskEvents
            && Stores(s.pieces[p], t.pieces[p], t.diskEvents[|s.diskEvents|..], p, begin, payload)
  {
    var before := s.pieces[p];
    assert PieceInv(PieceLen(m, p), before);
    LastBlock(before.blockStatus, begin / BLOCK_SIZE);
    OverwriteHolds(before.data, begin, payload);
    var t := Accept(s, p, begin, payload);
    var job := TryHashAndWrite(p, Overwrite(before.data, begin, payload));
    assert t.diskEvents[|s.diskEvents|..] == if t.pieces[p].complete then [job] else [];
  }

  /** A piece that has a table keeps everything but unrequested cells in a pass. */
  lemma PassKeepsStarted(m: Torrent, s: SchedulerState, k: nat, now: nat, p: nat)
    requires k in s.slots && p < |s.pieces| && (s.pieces[p].complete || s.pieces[p].blockStatus != [])
    ensures var t := MaybePushBlocks(m, s, k, now);
            && |t.pieces| == |s.pieces| && t.diskEvents == s.diskEvents
            && |t.pieces[p].blockStatus| == |s.pieces[p].blockStatus|
            && t.pieces[p] == s.pieces[p].(blockStatus := t.pieces[p].blockStatus)
            && forall b :: 0 <= b < |s.pieces[p].blockStatus| && s.pieces[p].blockStatus[b] != NotRequested ==>
                 t.pieces[p].blockStatus[b] == s.pieces[p].blockStatus[b]
  {
    PushPieces(m, s, k, now);
    if MayRequest(s.slots[k]) {
      PushMarksTheChosen(m, s.pieces, s.slots[k].bitfield, Quota(s.slots[k]), p);
    }
  }

  lemma StoresThenPass(before: PieceBuffer, stored: PieceBuffer, after: PieceBuffer, jobs: seq<DiskEvent>, p: nat,
                       begin: nat, payload: seq<Byte>)
    requires Stores(before, stored, jobs, p, begin, payload)
    requires |after.blockStatus| == |stored.blockStatus| && after == stored.(blockStatus := after.blockStatus)
    requires forall b :: 0 <= b < |stored.blockStatus| && stored.blockStatus[b] != NotRequested ==>
               after.blockStatus[b] == stored.blockStatus[b]
    ensures Stores(before, after, jobs, p, begin, payload)
  {
  }

  /** A delivery is stored, whoever sends it and whether or not it was asked for, if its piece is incomplete and its
      block not received; otherwise pieces and jobs stay as they are. */
  lemma MissingBlocksAreStored(m: Torrent, s: SchedulerState, e: Event)
    requires TablesOk(m, s.pieces) && e.Data? && IsSafe(m, s, e)
    ensures var t := Handle(m, s, e);
            && e.piece < |s.pieces| == |t.pieces| && s.diskEvents <= t.diskEvents
            && var before := s.pieces[e.piece];
               if !before.complete && before.blockStatus[e.begin / 16384] != Received then
                 Stores(before, t.pieces[e.piece], t.diskEvents[|s.diskEvents|..], e.piece, e.begin, e.data[8..])
               else
                 t.pieces == s.pieces && t.diskEvents == s.diskEvents
  {
    DataThenPush(m, s, e);
    if IsStored(m, s, e) {
      AcceptStores(m, Settled(s, e), e.piece, e.begin, e.data[8..]);
      var stored := StoredState(m, s, e);
      PassKeepsStarted(m, stored, e.slot, e.now, e.piece);
      StoresThenPass(s.pieces[e.piece], stored.pieces[e.piece], Handle(m, s, e).pieces[e.piece],
                     stored.diskEvents[|s.diskEvents|..], e.piece, e.begin, e.data[8..]);
    }
  }
}
