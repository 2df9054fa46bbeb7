/** What the scheduler keeps per connection: the window of outstanding requests, the bitfield, the flags, and the
    order of the commands it sends. */
module Connections {
  import opened Metainfo
  import opened Allocation
  import opened Ledgers
  import opened SchedulerModel
  import opened Wanted

  ghost predicate InterestShownBefore(sent: seq<PeerCommand>, j: nat)
    requires j <= |sent|
  {
    exists i :: 0 <= i < j && sent[i].SendInterested?
  }

  /** At most one declaration of interest, and none of the requests before it. */
  ghost predicate Orderly(sent: seq<PeerCommand>) {
    && (forall i, j :: 0 <= i < j < |sent| ==> !(sent[i].SendInterested? && sent[j].SendInterested?))
    && (forall j :: 0 <= j < |sent| && sent[j].BlocksToDownload? ==>
          && 0 < |sent[j].blocks| <= MAX_IN_FLIGHT
          && InterestShownBefore(sent, j))
  }

  ghost predicate PeerOk(m: Torrent, h: PeerHandle) {
    && (h.bitfield == [] || |h.bitfield| == m.numPieces)
    && (h.amInterested ==> |h.bitfield| == m.numPieces)
    && |h.inFlight| <= MAX_IN_FLIGHT
    && (h.amInterested <==> SendInterested in h.sent)
    && Orderly(h.sent)
  }

  ghost predicate PeersOk(m: Torrent, s: SchedulerState) {
    forall k :: k in s.slots ==> PeerOk(m, s.slots[k])
  }

  lemma ShowInterestIsOrderly(m: Torrent, h: PeerHandle, bitfield: seq<bool>)
    requires PeerOk(m, h) && |bitfield| == m.numPieces
    ensures PeerOk(m, ShowInterest(h.(bitfield := bitfield))) && ShowInterest(h.(bitfield := bitfield)).amInterested
  {
  }

  lemma PushKeepsPeers(m: Torrent, s: SchedulerState, k: nat, now: nat)
    requires k in s.slots && PeersOk(m, s)
    ensures PeersOk(m, MaybePushBlocks(m, s, k, now))
    ensures forall l :: l in s.slots && l != k ==> MaybePushBlocks(m, s, k, now).slots[l] == s.slots[l]
  {
    var t := MaybePushBlocks(m, s, k, now);
    var h := s.slots[k];
    if MayRequest(h) {
      var blocks := Chosen(m, s.pieces, h.bitfield, Quota(h));
      if blocks != [] {
        var sent := t.slots[k].sent;
        assert sent == h.sent + [BlocksToDownload(blocks)];
        var i :| 0 <= i < |h.sent| && h.sent[i] == SendInterested;
        assert sent[i].SendInterested?;
        assert forall j :: 0 <= j < |h.sent| ==> sent[j] == h.sent[j];
      }
    }
  }

  lemma SettleKeepsPeers(m: Torrent, s: SchedulerState, k: nat, r: BlockRequest)
    requires k in s.slots && PeersOk(m, s)
    ensures PeersOk(m, SettleAt(s, k, r))
  {
  }

  lemma ScanKeepsPeers(m: Torrent, s: SchedulerState, now: nat)
    requires PeersOk(m, s)
    ensures PeersOk(m, ScanTimeouts(s, now))
  {
    forall k | k in s.slots
      ensures PeerOk(m, ScanTimeouts(s, now).slots[k])
    {
      SweepShrinks(s.slots[k].inFlight, 0, now);
    }
  }

  lemma DataKeepsPeers(m: Torrent, s: SchedulerState, e: Event)
    requires PeersOk(m, s) && e.Data? && IsSafe(m, s, e)
    ensures PeersOk(m, Handle(m, s, e))
  {
    DataThenPush(m, s, e);
    SettleKeepsPeers(m, s, e.slot, Answered(e));
    if IsStored(m, s, e) {
      PushKeepsPeers(m, StoredState(m, s, e), e.slot, e.now);
    }
  }

  lemma BroadcastKeepsPeers(m: Torrent, s: SchedulerState, piece: nat)
    requires piece < |s.pieces| && PeersOk(m, s)
    ensures PeersOk(m, OnCompletePiece(s, piece))
  {
  }

  lemma UpdateKeepsPeers(m: Torrent, s: SchedulerState, e: Event)
    requires PeersOk(m, s) && IsUpdate(e) && IsSafe(m, s, e) && IsLegitimate(m, s, e)
    ensures PeersOk(m, WithPeer(s, e.slot, Updated(s, e)))
    ensures PeersOk(m, Handle(m, s, e))
  {
    UpdatedIsOk(m, s, e);
    UpdateThenPush(m, s, e);
    PushKeepsPeers(m, WithPeer(s, e.slot, Updated(s, e)), e.slot, e.now);
  }

  lemma UpdatedIsOk(m: Torrent, s: SchedulerState, e: Event)
    requires PeersOk(m, s) && IsUpdate(e) && e.slot in s.slots && IsLegitimate(m, s, e)
    requires e.Have? ==> e.piece < |s.slots[e.slot].bitfield|
    ensures PeerOk(m, Updated(s, e))
  {
    if e.Bitfield? {
      ShowInterestIsOrderly(m, s.slots[e.slot], e.bitfield);
    } else if e.Have? {
      ShowInterestIsOrderly(m, s.slots[e.slot], s.slots[e.slot].bitfield[e.piece := true]);
    }
  }

  lemma OthersKeepPeers(m: Torrent, s: SchedulerState, e: Event)
    requires PeersOk(m, s) && IsSafe(m, s, e) && !e.Data? && !IsUpdate(e)
    ensures PeersOk(m, Handle(m, s, e))
  {
    if e.Tick? {
      ScanKeepsPeers(m, s, e.now);
    } else if e.PieceHashedAndWritten? {
      BroadcastKeepsPeers(m, s, e.piece);
    } else if e.LaunchPeers? {
      StartingPeersIsRegistryOnly(s, e.peers);
    }
  }

  lemma PeersStep(m: Torrent, s: SchedulerState, e: Event)
    requires PeersOk(m, s) && IsSafe(m, s, e) && IsLegitimate(m, s, e)
    ensures PeersOk(m, Handle(m, s, e))
  {
    if e.Data? {
      DataKeepsPeers(m, s, e);
    } else if IsUpdate(e) {
      UpdateKeepsPeers(m, s, e);
    } else {
      OthersKeepPeers(m, s, e);
    }
  }

  /** The allocation pass never looks beyond a bitfield: interest implies a bit for every piece. */
  lemma PushesAreSafe(m: Torrent, s: SchedulerState, k: nat)
    requires k in s.slots && PeerOk(m, s.slots[k]) && |s.pieces| == m.numPieces
    ensures PushIsSafe(m, s, k)
  {
  }

  // Gating by choke messages

  /** Whether the last choke or unchoke message of the connection in slot `k` was a choke, or there was none. */
  function ChokedAfter(events: seq<Event>, k: nat): bool {
    if events == [] then true
    else match events[|events| - 1]
      case Choke(l) => l == k || ChokedAfter(events[..|events| - 1], k)
      case Unchoke(l, _) => l != k && ChokedAfter(events[..|events| - 1], k)
      case Connect(_, l) => l == k || ChokedAfter(events[..|events| - 1], k)
      case _ => ChokedAfter(events[..|events| - 1], k)
  }

  ghost predicate ChokesTracked(s: SchedulerState, events: seq<Event>) {
    forall k :: k in s.slots ==> s.slots[k].amChoked == ChokedAfter(events, k)
  }

  /** A pass changes nothing about a connection but its ledger and what has been sent. */
  lemma PushKeepsRecords(m: Torrent, s: SchedulerState, k: nat, now: nat, l: nat)
    requires k in s.slots && l in s.slots
    ensures var t := MaybePushBlocks(m, s, k, now);
            && t.slots.Keys == s.slots.Keys
            && t.slots[l] == s.slots[l].(inFlight := t.slots[l].inFlight, sent := t.slots[l].sent)
  {
  }

  /** Neither does storing a block. */
  lemma StoringKeepsRecords(m: Torrent, s: SchedulerState, e: Event, k: nat)
    requires IsStored(m, s, e)
    ensures StoredState(m, s, e).slots.Keys == s.slots.Keys
    ensures k in s.slots ==>
              StoredState(m, s, e).slots[k] == s.slots[k].(inFlight := StoredState(m, s, e).slots[k].inFlight)
  {
  }

  /** Events after which blocks may be requested. */
  predicate IsPushing(e: Event) {
    e.Data? || IsUpdate(e)
  }

  /** The flags of a connection before and after an event. */
  predicate FlagsFollow(h: PeerHandle, g: PeerHandle, e: Event, k: nat) {
    && g.amChoked == ((e.Choke? && e.slot == k) || (h.amChoked && !(e.Unchoke? && e.slot == k)))
    && g.peerInterested == ((e.Interested? && e.slot == k) || (h.peerInterested && !(e.NotInterested? && e.slot == k)))
  }

  /** The other events leave a connection that stays as it is, but for its flags and announcements. */
  lemma QuietEvents(m: Torrent, s: SchedulerState, e: Event, k: nat)
    requires IsSafe(m, s, e) && !IsPushing(e) && k in Handle(m, s, e).slots
    requires !(e.Connect? && e.slot == k)
    ensures k in s.slots
    ensures var before, after := s.slots[k], Handle(m, s, e).slots[k];
            && FlagsFollow(before, after, e, k)
            && after.bitfield == before.bitfield && after.amInterested == before.amInterested
            && after.sent == if e.PieceHashedAndWritten? then before.sent + [SendHave(e.piece)] else before.sent
  {
    if e.LaunchPeers? {
      StartingPeersIsRegistryOnly(s, e.peers);
    }
  }

  lemma DataKeepsFlags(m: Torrent, s: SchedulerState, e: Event, k: nat)
    requires IsSafe(m, s, e) && e.Data? && k in Handle(m, s, e).slots
    ensures k in s.slots && FlagsFollow(s.slots[k], Handle(m, s, e).slots[k], e, k)
  {
    DataThenPush(m, s, e);
    if IsStored(m, s, e) {
      var stored := StoredState(m, s, e);
      StoringKeepsRecords(m, s, e, k);
      PushKeepsRecords(m, stored, e.slot, e.now, e.slot);
      PushKeepsRecords(m, stored, e.slot, e.now, k);
    }
  }

  lemma UpdateKeepsFlags(m: Torrent, s: SchedulerState, e: Event, k: nat)
    requires IsSafe(m, s, e) && IsUpdate(e) && k in Handle(m, s, e).slots
    ensures k in s.slots && FlagsFollow(s.slots[k], Handle(m, s, e).slots[k], e, k)
  {
    UpdateThenPush(m, s, e);
    UpdatesAreMinor(s, e);
    var t := WithPeer(s, e.slot, Updated(s, e));
    PushKeepsRecords(m, t, e.slot, e.now, e.slot);
    PushKeepsRecords(m, t, e.slot, e.now, k);
  }

  lemma FlagsAfter(m: Torrent, s: SchedulerState, e: Event, k: nat)
    requires IsSafe(m, s, e) && k in Handle(m, s, e).slots && !(e.Connect? && e.slot == k)
    ensures k in s.slots && FlagsFollow(s.slots[k], Handle(m, s, e).slots[k], e, k)
  {
    if e.Data? {
      DataKeepsFlags(m, s, e, k);
    } else if IsUpdate(e) {
      UpdateKeepsFlags(m, s, e, k);
    } else {
      QuietEvents(m, s, e, k);
    }
  }

  lemma ChokesStep(m: Torrent, s: SchedulerState, e: Event, before: seq<Event>)
    requires IsSafe(m, s, e) && ChokesTracked(s, before)
    ensures ChokesTracked(Handle(m, s, e), before + [e])
  {
    var t := Handle(m, s, e);
    var events := before + [e];
    assert events[..|events| - 1] == before;
    forall k | k in t.slots
      ensures t.slots[k].amChoked == ChokedAfter(events, k)
    {
      if !(e.Connect? && e.slot == k) {
        FlagsAfter(m, s, e, k);
      }
    }
  }

  /** Whether the last message of the connection in slot `k` about its interest declared it. */
  function InterestedAfter(events: seq<Event>, k: nat): bool {
    if events == [] then false
    else match events[|events| - 1]
      case Interested(l) => l == k || InterestedAfter(events[..|events| - 1], k)
      case NotInterested(l) => l != k && InterestedAfter(events[..|events| - 1], k)
      case Connect(_, l) => l != k && InterestedAfter(events[..|events| - 1], k)
      case _ => InterestedAfter(events[..|events| - 1], k)
  }

  ghost predicate InterestTracked(s: SchedulerState, events: seq<Event>) {
    forall k :: k in s.slots ==> s.slots[k].peerInterested == InterestedAfter(events, k)
  }

  lemma InterestStep(m: Torrent, s: SchedulerState, e: Event, before: seq<Event>)
    requires IsSafe(m, s, e) && InterestTracked(s, before)
    ensures InterestTracked(Handle(m, s, e), before + [e])
  {
    var t := Handle(m, s, e);
    var events := before + [e];
    assert events[..|events| - 1] == before;
    forall k | k in t.slots
      ensures t.slots[k].peerInterested == InterestedAfter(events, k)
    {
      if !(e.Connect? && e.slot == k) {
        FlagsAfter(m, s, e, k);
      }
    }
  }

  /** The tail of the ledger is these requests, in order. */
  ghost predicate EndsWith(ledger: seq<InFlightBlock>, blocks: seq<BlockRequest>) {
    && |blocks| <= |ledger|
    && forall i :: 0 <= i < |blocks| ==> ledger[|ledger| - |blocks| + i].request == blocks[i]
  }

  /** What a pass sends: only to a peer that does not choke us, with interest declared and at most half the
      window of 40 in use, exactly what the ledger then ends with, and only blocks of incomplete pieces, which are then
      marked requested. */
  ghost predicate IsGated(t: SchedulerState, k: nat, j: nat)
    requires k in t.slots && j < |t.slots[k].sent| && t.slots[k].sent[j].BlocksToDownload?
  {
    var h := t.slots[k];
    && j == |h.sent| - 1
    && !h.amChoked && h.amInterested
    && EndsWith(h.inFlight, h.sent[j].blocks)
    && |h.inFlight| - |h.sent[j].blocks| <= 20
    && forall r :: r in h.sent[j].blocks ==> IsWanted(t.pieces, KeyOf(r))
  }

  lemma PushIsGated(m: Torrent, s: SchedulerState, k: nat, now: nat, l: nat, j: nat)
    requires k in s.slots && l in s.slots
    requires var after := MaybePushBlocks(m, s, k, now).slots[l];
             |s.slots[l].sent| <= j < |after.sent| && after.sent[j].BlocksToDownload?
    ensures IsGated(MaybePushBlocks(m, s, k, now), l, j)
  {
    var h := s.slots[k];
    forall r | r in Chosen(m, s.pieces, h.bitfield, Quota(h))
      ensures IsWanted(Pushed(m, s.pieces, h.bitfield, Quota(h)), KeyOf(r))
    {
      var key := ChosenAreBlocks(m, s.pieces, h.bitfield, Quota(h), r);
      PushWants(m, s.pieces, h.bitfield, Quota(h), key);
    }
  }

  lemma PushAppends(m: Torrent, s: SchedulerState, k: nat, now: nat, l: nat)
    requires k in s.slots && l in s.slots
    ensures s.slots[l].sent <= MaybePushBlocks(m, s, k, now).slots[l].sent
  {
  }

  /** What a minor update has sent are no requests. */
  lemma RequestsComeLater(h: PeerHandle, g: PeerHandle, sent: seq<PeerCommand>, j: nat)
    requires IsMinorUpdate(h, g) && g.sent <= sent
    requires |h.sent| <= j < |sent| && sent[j].BlocksToDownload?
    ensures |g.sent| <= j
  {
  }

  lemma UpdateIsGated(m: Torrent, s: SchedulerState, e: Event, k: nat, j: nat)
    requires IsUpdate(e) && IsSafe(m, s, e) && k in s.slots && k in Handle(m, s, e).slots
    requires var after := Handle(m, s, e).slots[k];
             |s.slots[k].sent| <= j < |after.sent| && after.sent[j].BlocksToDownload?
    ensures IsGated(Handle(m, s, e), k, j)
  {
    UpdateThenPush(m, s, e);
    UpdatesAreMinor(s, e);
    var t := WithPeer(s, e.slot, Updated(s, e));
    PushAppends(m, t, e.slot, e.now, k);
    if k == e.slot {
      RequestsComeLater(s.slots[k], t.slots[k], MaybePushBlocks(m, t, k, e.now).slots[k].sent, j);
    }
    PushIsGated(m, t, e.slot, e.now, k, j);
  }

  lemma DataIsGated(m: Torrent, s: SchedulerState, e: Event, k: nat, j: nat)
    requires e.Data? && IsSafe(m, s, e) && k in s.slots && k in Handle(m, s, e).slots
    requires var after := Handle(m, s, e).slots[k];
             |s.slots[k].sent| <= j < |after.sent| && after.sent[j].BlocksToDownload?
    ensures IsGated(Handle(m, s, e), k, j)
  {
    DataThenPush(m, s, e);
    if IsStored(m, s, e) {
      StoringKeepsRecords(m, s, e, k);
      PushIsGated(m, StoredState(m, s, e), e.slot, e.now, k, j);
    }
  }

  lemma RequestsAreGated(m: Torrent, s: SchedulerState, e: Event, k: nat, j: nat)
    requires IsSafe(m, s, e) && k in s.slots && k in Handle(m, s, e).slots
    requires var after := Handle(m, s, e).slots[k];
             |s.slots[k].sent| <= j < |after.sent| && after.sent[j].BlocksToDownload?
    ensures IsGated(Handle(m, s, e), k, j)
  {
    if e.Data? {
      DataIsGated(m, s, e, k, j);
    } else if IsUpdate(e) {
      UpdateIsGated(m, s, e, k, j);
    } else {
      QuietEvents(m, s, e, k);
    }
  }

  /** A choke, an unchoke that ends none, and the messages about the peer's interest change nothing but the flags of
      their sender: its requests stay outstanding. */
  lemma FlagsChangeNothingElse(m: Torrent, s: SchedulerState, e: Event, k: nat)
    requires IsSafe(m, s, e)
    requires e.Choke? || e.Interested? || e.NotInterested? || (e.Unchoke? && !s.slots[e.slot].amChoked)
    ensures var t := Handle(m, s, e);
            && t == s.(slots := t.slots) && (k in t.slots <==> k in s.slots)
            && (k in s.slots ==>
                  && t.slots[k] ==
                       s.slots[k].(amChoked := t.slots[k].amChoked, peerInterested := t.slots[k].peerInterested)
                  && FlagsFollow(s.slots[k], t.slots[k], e, k)
                  && (k != e.slot ==> t.slots[k] == s.slots[k]))
  {
  }
}
