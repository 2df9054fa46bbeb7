/** When a peer is asked for more blocks, and how many: the window of 40 outstanding requests is filled whenever an
    event calls for it and at most half of it is in use. */
module Windows {
  import opened Metainfo
  import opened Pieces
  import opened Allocation
  import opened Ledgers
  import opened SchedulerModel
  import opened Connections

  /** The gate: an interested peer that does not choke us and uses at most half its window gets the window filled,
      unless no eligible block is left; the command is sent if there was one. A peer that fails the gate gets
      nothing. */
  lemma WindowIsFilled(m: Torrent, s: SchedulerState, k: nat, now: nat, key: BlockKey)
    requires k in s.slots
    ensures var h, t := s.slots[k], MaybePushBlocks(m, s, k, now);
            if h.amInterested && !h.amChoked && |h.inFlight| <= 20 then
              && (|t.slots[k].inFlight| == 40 || !IsEligible(m, t.pieces, h.bitfield, key))
              && (IsEligible(m, s.pieces, h.bitfield, key) ==>
                    |t.slots[k].sent| == |h.sent| + 1 && t.slots[k].sent[|h.sent|].BlocksToDownload?)
            else t == s
  {
    var h := s.slots[k];
    if MayRequest(h) {
      var quota := Quota(h);
      if |Chosen(m, s.pieces, h.bitfield, quota)| < quota {
        PassIsExhaustive(m, s.pieces, h.bitfield, quota, key);
      }
    }
  }

  /** The events that call for more requests: news of what the peer has, the end of a choke, and a block that was
      missing. */
  predicate CallsForMore(s: SchedulerState, e: Event)
    requires e.Data? ==> InTable(s.pieces, BlockKey(e.piece, e.begin / 16384))
  {
    || e.Have?
    || e.Bitfield?
    || (e.Unchoke? && e.slot in s.slots && s.slots[e.slot].amChoked)
    || (e.Data? && !s.pieces[e.piece].complete && s.pieces[e.piece].blockStatus[e.begin / 16384] != Received)
  }

  /** What the sender of an event still owes once its answer, if the event is one, is taken off the ledger. */
  ghost function Owed(s: SchedulerState, e: Event): int
    requires IsPushing(e) && e.slot in s.slots && (e.Data? ==> 8 <= |e.data|)
  {
    var ledger := s.slots[e.slot].inFlight;
    |ledger| - (if e.Data? && exists f :: f in ledger && f.request == Answered(e) then 1 else 0)
  }

  lemma SettledOwes(s: SchedulerState, e: Event)
    requires e.Data? && 8 <= |e.data| && e.slot in s.slots
    ensures |Settled(s, e).slots[e.slot].inFlight| == Owed(s, e)
  {
    SettleMembers(s.slots[e.slot].inFlight, Answered(e));
  }

  /** The window of the sender after a pass, or after none. */
  ghost predicate WindowFollows(m: Torrent, s: SchedulerState, e: Event, t: SchedulerState, key: BlockKey)
    requires IsPushing(e) && e.slot in s.slots && e.slot in t.slots && (e.Data? ==> 8 <= |e.data|)
    requires e.Data? ==> InTable(s.pieces, BlockKey(e.piece, e.begin / 16384))
  {
    var before, after := s.slots[e.slot], t.slots[e.slot];
    && after.amInterested == (before.amInterested || e.Have? || e.Bitfield?)
    && after.amChoked == (before.amChoked && !e.Unchoke?)
    && if CallsForMore(s, e) && after.amInterested && !after.amChoked && Owed(s, e) <= 20 then
         |after.inFlight| == 40 || !IsEligible(m, t.pieces, after.bitfield, key)
       else
         |after.inFlight| == Owed(s, e)
  }

  lemma UpdateFillsTheWindow(m: Torrent, s: SchedulerState, e: Event, key: BlockKey)
    requires IsUpdate(e) && IsSafe(m, s, e)
    ensures e.slot in s.slots && e.slot in Handle(m, s, e).slots
    ensures WindowFollows(m, s, e, Handle(m, s, e), key)
  {
    UpdateThenPush(m, s, e);
    UpdatesAreMinor(s, e);
    var t := WithPeer(s, e.slot, Updated(s, e));
    PushKeepsRecords(m, t, e.slot, e.now, e.slot);
    WindowIsFilled(m, t, e.slot, e.now, key);
  }

  lemma DeliveryFillsTheWindow(m: Torrent, s: SchedulerState, e: Event, key: BlockKey)
    requires e.Data? && IsSafe(m, s, e)
    ensures e.slot in s.slots && e.slot in Handle(m, s, e).slots
    ensures WindowFollows(m, s, e, Handle(m, s, e), key)
  {
    DataThenPush(m, s, e);
    SettledOwes(s, e);
    if IsStored(m, s, e) {
      var stored := StoredState(m, s, e);
      StoringKeepsRecords(m, s, e, e.slot);
      PushKeepsRecords(m, stored, e.slot, e.now, e.slot);
      WindowIsFilled(m, stored, e.slot, e.now, key);
    }
  }

  /** After news of what a peer has, the end of a choke, or a missing block: if the peer does not choke us and owes at
      most 20 blocks, it then owes 40, or no eligible block is left. Otherwise, a repeated unchoke and a redundant
      delivery included, it is asked for nothing. News of what the peer has makes us interested in it. */
  lemma EventsFillTheWindow(m: Torrent, s: SchedulerState, e: Event, key: BlockKey)
    requires IsPushing(e) && IsSafe(m, s, e)
    ensures e.slot in s.slots && e.slot in Handle(m, s, e).slots
    ensures WindowFollows(m, s, e, Handle(m, s, e), key)
  {
    if e.Data? {
      DeliveryFillsTheWindow(m, s, e, key);
    } else {
      UpdateFillsTheWindow(m, s, e, key);
    }
  }
}
