/** What the engine does not guarantee, and exactly when it does. failing_runs.dfy has a run for each. */
module Limits {
  import opened Metainfo
  import opened Pieces
  import opened Allocation
  import opened Ledgers
  import opened SchedulerModel
  import opened Wanted
  import opened Tables
  import opened Ownership
  import opened Completion

  // Requests to peers that do not have the piece

  predicate HasOpenBlock(piece: PieceBuffer) {
    !piece.complete && NotRequested in piece.blockStatus
  }

  predicate IsOpenBlock(pieces: seq<PieceBuffer>, p: nat, b: nat) {
    && p < |pieces| && !pieces[p].complete
    && b < |pieces[p].blockStatus| && pieces[p].blockStatus[b] == NotRequested
  }

  /** A peer's bitfield decides only which tables are created. A pass asks a peer only for pieces it has exactly when
      every unrequested block in a table of a piece it lacks comes too late in the list to be granted. */
  lemma GrantsGoToOwners(m: Torrent, pieces: seq<PieceBuffer>, bits: seq<bool>, quota: nat)
    ensures (forall r :: r in Chosen(m, pieces, bits, quota) ==> Has(bits, r.pieceIndex)) <==>
              (forall p: nat, b: nat :: IsOpenBlock(pieces, p, b) && !Has(bits, p) ==>
                 quota <= Rank(m, pieces, bits, BlockKey(p, b)))
  {
    forall p: nat, b: nat | IsOpenBlock(pieces, p, b) && !Has(bits, p)
      ensures BlockAt(m, p, b) in Chosen(m, pieces, bits, quota) <==> Rank(m, pieces, bits, BlockKey(p, b)) < quota
      ensures BlockAt(m, p, b).pieceIndex == p
    {
      ChosenRank(m, pieces, bits, quota, BlockKey(p, b));
    }
    forall r | r in Chosen(m, pieces, bits, quota) && !Has(bits, r.pieceIndex)
      ensures exists p: nat, b: nat :: IsOpenBlock(pieces, p, b) && r == BlockAt(m, p, b)
    {
      var key := ChosenAreBlocks(m, pieces, bits, quota, r);
      assert IsOpenBlock(pieces, key.piece, key.block);
    }
  }

  /** ... and however large the quota, exactly when there is no such block. */
  lemma GrantsAlwaysGoToOwners(m: Torrent, pieces: seq<PieceBuffer>, bits: seq<bool>)
    ensures (forall quota: nat, r :: r in Chosen(m, pieces, bits, quota) ==> Has(bits, r.pieceIndex)) <==>
              (forall p :: 0 <= p < |pieces| && HasOpenBlock(pieces[p]) ==> Has(bits, p))
  {
    forall quota: nat, r | r in Chosen(m, pieces, bits, quota) && !Has(bits, r.pieceIndex)
      ensures r.pieceIndex < |pieces| && HasOpenBlock(pieces[r.pieceIndex])
    {
      var key := ChosenAreBlocks(m, pieces, bits, quota, r);
      assert pieces[key.piece].blockStatus[key.block] == NotRequested;
    }
    var all := Eligible(m, pieces, bits, |pieces|);
    forall p | 0 <= p < |pieces| && HasOpenBlock(pieces[p])
      ensures exists r :: r in Chosen(m, pieces, bits, |all|) && r.pieceIndex == p
    {
      var b :| 0 <= b < |pieces[p].blockStatus| && pieces[p].blockStatus[b] == NotRequested;
      EligibleMembers(m, pieces, bits, |pieces|, BlockKey(p, b));
      assert BlockAt(m, p, b) in Chosen(m, pieces, bits, |all|);
    }
  }

  // A late report of the resume file

  /** The pieces reported that are complete already. */
  function Twice(completed: seq<bool>, pieces: seq<PieceBuffer>): nat
    requires |completed| == |pieces|
  {
    if pieces == [] then 0
    else
      var last := |pieces| - 1;
      Twice(completed[..last], pieces[..last]) + (if completed[last] && pieces[last].complete then 1 else 0)
  }

  lemma {:induction false} TwiceIsNone(completed: seq<bool>, pieces: seq<PieceBuffer>)
    requires |completed| == |pieces|
    ensures Twice(completed, pieces) == 0 <==> forall p :: 0 <= p < |pieces| ==> !(completed[p] && pieces[p].complete)
  {
    if pieces != [] {
      var last := |pieces| - 1;
      TwiceIsNone(completed[..last], pieces[..last]);
      assert forall p :: 0 <= p < last ==> pieces[..last][p] == pieces[p] && completed[..last][p] == completed[p];
    }
  }

  lemma {:induction false} ReportCounts(completed: seq<bool>, before: seq<PieceBuffer>, after: seq<PieceBuffer>)
    requires |completed| == |before| == |after|
    requires forall p :: 0 <= p < |before| ==> after[p].complete == (completed[p] || before[p].complete)
    ensures CompleteCount(after) + Twice(completed, before) == CompleteCount(before) + CountTrue(completed)
  {
    if before != [] {
      var last := |before| - 1;
      ReportCounts(completed[..last], before[..last], after[..last]);
    }
  }

  /** The counter of completed pieces stays in step with the complete pieces exactly when the report names no piece
      that is complete already. A report to a fresh scheduler never does. */
  lemma ReportIsExact(m: Torrent, s: SchedulerState, completed: seq<bool>)
    requires |completed| == |s.pieces|
    ensures var t := ParseCompletedPieces(s, completed);
            CompleteCount(t.pieces) - t.completedPieces == CompleteCount(s.pieces) - s.completedPieces <==>
              forall p :: 0 <= p < |s.pieces| ==> !(completed[p] && s.pieces[p].complete)
  {
    ReportCounts(completed, s.pieces, ParseCompletedPieces(s, completed).pieces);
    TwiceIsNone(completed, s.pieces);
  }

  // Deliveries

  /** A stored delivery, asked for or not, leaves every ledger entry in step with the tables exactly when it is
      uncontested, even if ownership was not exact before. */
  lemma DeliveryKeepsEntriesLive(m: Torrent, s: SchedulerState, e: Event)
    requires TablesOk(m, s.pieces) && EntriesAreLive(m, s) && IsStored(m, s, e)
    ensures EntriesAreLive(m, Handle(m, s, e)) <==> IsUncontested(m, s, e)
  {
    if IsUncontested(m, s, e) {
      var stored := StoredState(m, s, e);
      forall l, f | Holds(stored, l, f)
        ensures IsWanted(stored.pieces, KeyOf(f.request))
        ensures f.request == BlockAt(m, KeyOf(f.request).piece, KeyOf(f.request).block)
      {
        assert Holds(Settled(s, e), l, f);
        SettledHolds(s, e, l, f);
        DeliveryWants(m, Settled(s, e), e.piece, e.begin, e.data[8..], KeyOf(f.request));
      }
      DataThenPush(m, s, e);
      PushKeepsLive(m, stored, e.slot, e.now);
    } else {
      ContestedLeavesAnEntry(m, s, e);
    }
  }

  /** A contested delivery is a danger: if its piece then fails, the departure of some connected peer is a panic. */
  lemma ContestedCanPanic(m: Torrent, s: SchedulerState, e: Event) returns (l: nat)
    requires TablesOk(m, s.pieces) && IsStored(m, s, e) && !IsUncontested(m, s, e)
    ensures var t := Handle(m, s, e);
            && IsSafe(m, t, HashFailed(e.piece))
            && var u := Handle(m, t, HashFailed(e.piece));
               l in u.slots && !IsSafe(m, u, Disconnect(l))
  {
    var f;
    l, f := EntryLeftBehind(m, s, e);
    var t := Handle(m, s, e);
    DataThenPush(m, s, e);
    PushPieces(m, StoredState(m, s, e), e.slot, e.now);
    var u := HandleFailure(t, e.piece);
    assert f in u.slots[l].inFlight && KeyOf(f.request) in Keys(u.slots[l].inFlight);
    assert !InTable(u.pieces, KeyOf(f.request));
  }
}
