/** Which pieces are complete, what has been handed to the disk, and what has been announced. */
module Completion {
  import opened Metainfo
  import opened Pieces
  import opened SchedulerModel
  import opened Tables
  import opened Connections

  function CompleteCount(pieces: seq<PieceBuffer>): (n: nat)
    ensures n <= |pieces|
  {
    if pieces == [] then 0
    else CompleteCount(pieces[..|pieces| - 1]) + (if pieces[|pieces| - 1].complete then 1 else 0)
  }

  lemma {:induction false} CompleteCountDependsOnFlags(r: seq<PieceBuffer>, t: seq<PieceBuffer>)
    requires |r| == |t| && forall p :: 0 <= p < |r| ==> r[p].complete == t[p].complete
    ensures CompleteCount(r) == CompleteCount(t)
  {
    if r != [] {
      CompleteCountDependsOnFlags(r[..|r| - 1], t[..|t| - 1]);
    }
  }

  lemma {:induction false} CompleteCountChanges(r: seq<PieceBuffer>, t: seq<PieceBuffer>, p: nat)
    requires |r| == |t| && p < |r| && !r[p].complete && t[p].complete
    requires forall q :: 0 <= q < |r| && q != p ==> r[q].complete == t[q].complete
    ensures CompleteCount(t) == CompleteCount(r) + 1
  {
    var last := |r| - 1;
    if p == last {
      CompleteCountDependsOnFlags(r[..last], t[..last]);
    } else {
      CompleteCountChanges(r[..last], t[..last], p);
    }
  }

  ghost predicate SameCompletion(s: SchedulerState, t: SchedulerState) {
    && t.diskEvents == s.diskEvents
    && t.completedPieces == s.completedPieces
    && |t.pieces| == |s.pieces|
    && forall p :: 0 <= p < |s.pieces| ==> t.pieces[p].complete == s.pieces[p].complete
  }

  /** Piece `p` became complete and was handed over; nothing else did. */
  ghost predicate HandsOver(s: SchedulerState, t: SchedulerState, p: nat, data: seq<Byte>) {
    && t.diskEvents == s.diskEvents + [TryHashAndWrite(p, data)]
    && t.completedPieces == s.completedPieces
    && |t.pieces| == |s.pieces|
    && p < |s.pieces| && !s.pieces[p].complete && t.pieces[p].complete
    && forall q :: 0 <= q < |s.pieces| && q != p ==> t.pieces[q].complete == s.pieces[q].complete
  }

  lemma PushKeepsCompletion(m: Torrent, s: SchedulerState, k: nat, now: nat)
    requires k in s.slots
    ensures SameCompletion(s, MaybePushBlocks(m, s, k, now))
  {
  }

  /** A delivery either completes its piece, which is then handed over whole, or changes no completion. */
  lemma DataHandsOverOrNot(m: Torrent, s: SchedulerState, e: Event)
    requires TablesOk(m, s.pieces) && e.Data? && IsSafe(m, s, e)
    ensures var t := Handle(m, s, e);
            if IsStored(m, s, e) && StoredState(m, s, e).pieces[e.piece].complete then
              var whole := Overwrite(s.pieces[e.piece].data, e.begin, e.data[8..]);
              HandsOver(s, t, e.piece, whole) && |whole| == PieceLen(m, e.piece)
            else SameCompletion(s, t)
  {
    DataThenPush(m, s, e);
    if IsStored(m, s, e) {
      AcceptKeepsTables(m, Settled(s, e), e.piece, e.begin, e.data[8..]);
      PushKeepsCompletion(m, StoredState(m, s, e), e.slot, e.now);
    }
  }

  lemma OthersKeepCompletion(m: Torrent, s: SchedulerState, e: Event)
    requires IsSafe(m, s, e) && !IsDiskAnswer(e) && !e.Data?
    ensures SameCompletion(s, Handle(m, s, e))
  {
    if IsUpdate(e) {
      UpdateThenPush(m, s, e);
      PushKeepsCompletion(m, WithPeer(s, e.slot, Updated(s, e)), e.slot, e.now);
    } else if e.LaunchPeers? {
      StartingPeersIsRegistryOnly(s, e.peers);
    }
  }

  // Announcements

  /** The pieces announced on a connection, in order. */
  function Haves(sent: seq<PeerCommand>): seq<nat> {
    if sent == [] then []
    else
      var before := Haves(sent[..|sent| - 1]);
      var last := sent[|sent| - 1];
      if last.SendHave? then before + [last.piece] else before
  }

  lemma HavesAppend(sent: seq<PeerCommand>, c: PeerCommand)
    ensures Haves(sent + [c]) == Haves(sent) + (if c.SendHave? then [c.piece] else [])
  {
  }

  lemma PushKeepsHaves(m: Torrent, s: SchedulerState, k: nat, now: nat, l: nat)
    requires k in s.slots && l in s.slots
    ensures Haves(MaybePushBlocks(m, s, k, now).slots[l].sent) == Haves(s.slots[l].sent)
  {
  }

  lemma UpdateKeepsHaves(m: Torrent, s: SchedulerState, e: Event, l: nat)
    requires IsSafe(m, s, e) && IsUpdate(e) && l in Handle(m, s, e).slots
    ensures l in s.slots
    ensures Haves(Handle(m, s, e).slots[l].sent) == Haves(s.slots[l].sent)
  {
    UpdateThenPush(m, s, e);
    UpdatesAreMinor(s, e);
    var t := WithPeer(s, e.slot, Updated(s, e));
    HavesAppend(s.slots[e.slot].sent, SendInterested);
    PushKeepsRecords(m, t, e.slot, e.now, e.slot);
    PushKeepsHaves(m, t, e.slot, e.now, l);
  }

  lemma DataKeepsHaves(m: Torrent, s: SchedulerState, e: Event, l: nat)
    requires IsSafe(m, s, e) && e.Data? && l in Handle(m, s, e).slots
    ensures l in s.slots
    ensures Haves(Handle(m, s, e).slots[l].sent) == Haves(s.slots[l].sent)
  {
    DataThenPush(m, s, e);
    if IsStored(m, s, e) {
      var stored := StoredState(m, s, e);
      StoringKeepsRecords(m, s, e, l);
      PushKeepsRecords(m, stored, e.slot, e.now, e.slot);
      PushKeepsHaves(m, stored, e.slot, e.now, l);
    }
  }

  /** Only the confirmation of a piece announces, that piece, on every connection; a new connection starts with
      no announcement. */
  lemma Announcements(m: Torrent, s: SchedulerState, e: Event, l: nat)
    requires IsSafe(m, s, e) && l in Handle(m, s, e).slots
    ensures var after := Haves(Handle(m, s, e).slots[l].sent);
            if e.Connect? && e.slot == l then after == []
            else
              && l in s.slots
              && after == Haves(s.slots[l].sent) + (if e.PieceHashedAndWritten? then [e.piece] else [])
  {
    if e.Connect? && e.slot == l {
    } else if e.Data? {
      DataKeepsHaves(m, s, e, l);
    } else if IsUpdate(e) {
      UpdateKeepsHaves(m, s, e, l);
    } else {
      QuietEvents(m, s, e, l);
      if e.PieceHashedAndWritten? {
        HavesAppend(s.slots[l].sent, SendHave(e.piece));
      }
    }
  }

  // Answers of the disk

  /** The confirmation of a piece counts it and frees its memory; it stays as complete as it was. */
  lemma ConfirmedIsFreed(m: Torrent, s: SchedulerState, e: Event, q: nat)
    requires e.PieceHashedAndWritten? && IsSafe(m, s, e) && q < |s.pieces|
    ensures var t := Handle(m, s, e);
            && |t.pieces| == |s.pieces| && t.completedPieces == s.completedPieces + 1 && t.diskEvents == s.diskEvents
            && t.pieces[q].complete == s.pieces[q].complete
            && if q == e.piece then t.pieces[q].data == [] && t.pieces[q].blockStatus == []
               else t.pieces[q] == s.pieces[q]
  {
  }

  /** After a failure the piece is as if it had never been touched, and nothing else has changed. */
  lemma FailedIsForgotten(m: Torrent, s: SchedulerState, e: Event, q: nat)
    requires (e.HashFailed? || e.WriteFailed?) && IsSafe(m, s, e) && q < |s.pieces|
    ensures var t := Handle(m, s, e);
            && t == s.(pieces := t.pieces) && |t.pieces| == |s.pieces|
            && t.pieces[q] == if q == e.piece then PieceBuffer([], [], 0, false) else s.pieces[q]
  {
  }
}
