/** The scheduler: its fields, changed in place by one method per event, each proved to do what the functions of
    scheduler_model.dfy say. */
module Scheduling {
  import opened Metainfo
  import opened Pieces
  import opened Allocation
  import opened Ledgers
  import opened SchedulerModel
  import Model = SchedulerModel

  // Facts the loops need

  lemma TakeEnough<T>(s: seq<T>, t: seq<T>, quota: nat)
    requires quota <= |s|
    ensures Take(s + t, quota) == Take(s, quota)
  {
  }

  lemma {:induction false} OpenCountGrows(table: seq<BlockState>, b: nat, c: nat)
    requires b <= c <= |table|
    ensures OpenCount(table, b) <= OpenCount(table, c)
  {
    if b < c {
      OpenCountGrows(table, b, c - 1);
    }
  }

  lemma {:induction false} OpenBlocksExtend(m: Torrent, p: nat, table: seq<BlockState>, b: nat, c: nat)
    returns (more: seq<BlockRequest>)
    requires b <= c <= |table|
    ensures OpenBlocks(m, p, table, c) == OpenBlocks(m, p, table, b) + more
  {
    if b == c {
      more := [];
    } else {
      more := OpenBlocksExtend(m, p, table, b, c - 1);
      more := more + (if table[c - 1] == NotRequested then [BlockAt(m, p, c - 1)] else []);
    }
  }

  /** A sequence whose first `b` elements are taken from `goal`. */
  function Patched<T>(goal: seq<T>, rest: seq<T>, b: nat): seq<T>
    requires |goal| == |rest| && b <= |goal|
  {
    goal[..b] + rest[b..]
  }

  lemma PatchNext<T>(goal: seq<T>, rest: seq<T>, b: nat)
    requires |goal| == |rest| && b < |goal|
    ensures Patched(goal, rest, b)[b] == rest[b]
    ensures Patched(goal, rest, b)[b := goal[b]] == Patched(goal, rest, b + 1)
    ensures goal[b] == rest[b] ==> Patched(goal, rest, b) == Patched(goal, rest, b + 1)
  {
  }

  /** One piece of the pass. */
  lemma PassNext(m: Torrent, pieces: seq<PieceBuffer>, bits: seq<bool>, quota: nat, p: nat)
    requires p < |pieces|
    ensures var table := Opened(m, pieces, bits, p).blockStatus;
            var before := Take(Eligible(m, pieces, bits, p), quota);
            Take(Eligible(m, pieces, bits, p + 1), quota) ==
              if pieces[p].complete then before
              else before + Take(OpenBlocks(m, p, table, |table|), quota - |before|)
  {
  }

  lemma PassPiece(m: Torrent, pieces: seq<PieceBuffer>, bits: seq<bool>, quota: nat, p: nat)
    requires p < |pieces|
    ensures var before := Take(Eligible(m, pieces, bits, p), quota);
            var piece := Opened(m, pieces, bits, p);
            && (|before| < quota && !pieces[p].complete ==> Reached(m, pieces, bits, quota, p))
            && (|before| < quota && !pieces[p].complete ==>
                  Pushed(m, pieces, bits, quota)[p] ==
                    piece.(blockStatus := Marked(piece.blockStatus, quota - |before|)))
            && (pieces[p].complete ==> Pushed(m, pieces, bits, quota)[p] == pieces[p])
  {
  }

  /** Freeing one cell, the way the loops do it. */
  function FreeCell(pieces: seq<PieceBuffer>, key: BlockKey): seq<PieceBuffer>
    requires InTable(pieces, key)
  {
    var piece := pieces[key.piece];
    if !piece.complete && piece.blockStatus[key.block] == Requested then
      pieces[key.piece := piece.(blockStatus := piece.blockStatus[key.block := NotRequested])]
    else pieces
  }

  lemma FreeCellReleases(pieces: seq<PieceBuffer>, key: BlockKey)
    requires InTable(pieces, key)
    ensures FreeCell(pieces, key) == Released(pieces, {key})
  {
    forall p | 0 <= p < |pieces|
      ensures FreeCell(pieces, key)[p] == Released(pieces, {key})[p]
    {
      assert FreeCell(pieces, key)[p].blockStatus == Released(pieces, {key})[p].blockStatus;
    }
  }

  /** The blocks of the stale entries of one ledger. */
  function StaleIn(ledger: seq<InFlightBlock>, now: nat): set<BlockKey> {
    set e | e in ledger && Stale(e, now) :: KeyOf(e.request)
  }

  lemma StaleInAfterRemoval(ledger: seq<InFlightBlock>, i: nat, now: nat)
    requires i < |ledger| && Stale(ledger[i], now)
    ensures StaleIn(SwapRemove(ledger, i), now) + {KeyOf(ledger[i].request)} == StaleIn(ledger, now)
  {
  }

  function StaleKeysOf(slots: map<nat, PeerHandle>, peers: set<nat>, now: nat): set<BlockKey>
    requires peers <= slots.Keys
  {
    set k, e | k in peers && e in slots[k].inFlight && Stale(e, now) :: KeyOf(e.request)
  }

  lemma StaleKeysAdd(slots: map<nat, PeerHandle>, peers: set<nat>, k: nat, now: nat)
    requires peers <= slots.Keys && k in slots
    ensures StaleKeysOf(slots, peers + {k}, now) == StaleKeysOf(slots, peers, now) + StaleIn(slots[k].inFlight, now)
    ensures StaleIn(slots[k].inFlight, now) <= StaleKeys(slots, now)
  {
  }

  /** The timeout scan has dealt with these peers. */
  ghost predicate ScannedUpTo(s: SchedulerState, now: nat, done: set<nat>, slots: map<nat, PeerHandle>,
                              pieces: seq<PieceBuffer>)
  {
    && done <= s.slots.Keys == slots.Keys
    && (forall k :: k in slots ==>
          slots[k] == if k in done then s.slots[k].(inFlight := Sweep(s.slots[k].inFlight, 0, now)) else s.slots[k])
    && pieces == Released(s.pieces, StaleKeysOf(s.slots, done, now))
  }

  lemma NothingScanned(s: SchedulerState, now: nat)
    ensures ScannedUpTo(s, now, {}, s.slots, s.pieces)
  {
    ReleaseNothing(s.pieces);
    assert StaleKeysOf(s.slots, {}, now) == {};
  }

  lemma OneMoreScanned(s: SchedulerState, now: nat, done: set<nat>, k: nat, slots: map<nat, PeerHandle>,
                       pieces: seq<PieceBuffer>)
    requires ScannedUpTo(s, now, done, slots, pieces) && k in slots && k !in done && IsInTables(s, now)
    ensures forall key :: key in StaleIn(slots[k].inFlight, now) ==> InTable(pieces, key)
    ensures ScannedUpTo(s, now, done + {k}, slots[k := slots[k].(inFlight := Sweep(slots[k].inFlight, 0, now))],
                        Released(pieces, StaleIn(slots[k].inFlight, now)))
  {
    StaleKeysAdd(s.slots, done, k, now);
    ReleaseInSteps(s.pieces, StaleKeysOf(s.slots, done, now), StaleIn(s.slots[k].inFlight, now));
  }

  ghost predicate IsInTables(s: SchedulerState, now: nat) {
    forall key :: key in StaleKeys(s.slots, now) ==> InTable(s.pieces, key)
  }

  lemma AllScanned(s: SchedulerState, now: nat, slots: map<nat, PeerHandle>, pieces: seq<PieceBuffer>)
    requires ScannedUpTo(s, now, s.slots.Keys, slots, pieces)
    ensures slots == Model.ScanTimeouts(s, now).slots && pieces == Model.ScanTimeouts(s, now).pieces
  {
    assert StaleKeysOf(s.slots, s.slots.Keys, now) == StaleKeys(s.slots, now);
  }

  /** Free the block of a ledger entry, if its piece is incomplete and shows it as requested. */
  method FreeBlock(pieces: seq<PieceBuffer>, r: BlockRequest) returns (after: seq<PieceBuffer>)
    requires InTable(pieces, KeyOf(r))
    ensures after == Released(pieces, {KeyOf(r)})
  {
    FreeCellReleases(pieces, KeyOf(r));
    after := pieces;
    var block := r.offset / BLOCK_SIZE;
    var piece := pieces[r.pieceIndex];
    if !piece.complete && piece.blockStatus[block] == Requested {
      after := pieces[r.pieceIndex := piece.(blockStatus := piece.blockStatus[block := NotRequested])];
    }
  }

  /** The timeout scan of one ledger. */
  method ScanLedger(ledger: seq<InFlightBlock>, pieces: seq<PieceBuffer>, now: nat)
    returns (kept: seq<InFlightBlock>, after: seq<PieceBuffer>)
    requires forall key :: key in StaleIn(ledger, now) ==> InTable(pieces, key)
    ensures kept == Sweep(ledger, 0, now)
    ensures after == Released(pieces, StaleIn(ledger, now))
  {
    kept, after := ledger, pieces;
    var i := 0;
    ghost var freed: set<BlockKey> := {};
    ReleaseNothing(pieces);
    while i < |kept|
      invariant 0 <= i <= |kept|
      invariant Sweep(kept, i, now) == Sweep(ledger, 0, now)
      invariant forall j :: 0 <= j < i ==> !Stale(kept[j], now)
      invariant freed + StaleIn(kept, now) == StaleIn(ledger, now)
      invariant after == Released(pieces, freed)
      decreases |kept| - i
    {
      if Stale(kept[i], now) {
        var key := KeyOf(kept[i].request);
        StaleInAfterRemoval(kept, i, now);
        assert key in StaleIn(ledger, now);
        after := FreeBlock(after, kept[i].request);
        ReleaseInSteps(pieces, freed, {key});
        freed := freed + {key};
        kept := SwapRemove(kept, i);
      } else {
        i := i + 1;
      }
    }
    assert StaleIn(kept, now) == {};
  }

  /** The timeout scan of all peers, in whatever order. */
  method ScanPeers(ghost s: SchedulerState, peers: map<nat, PeerHandle>, tables: seq<PieceBuffer>, now: nat)
    returns (slots: map<nat, PeerHandle>, pieces: seq<PieceBuffer>)
    requires peers == s.slots && tables == s.pieces && IsInTables(s, now)
    ensures slots == Model.ScanTimeouts(s, now).slots && pieces == Model.ScanTimeouts(s, now).pieces
  {
    slots, pieces := peers, tables;
    var todo := slots.Keys;
    ghost var done := {};
    NothingScanned(s, now);
    while todo != {}
      invariant done + todo == peers.Keys && done !! todo
      invariant ScannedUpTo(s, now, done, slots, pieces)
      decreases todo
    {
      var k :| k in todo;
      OneMoreScanned(s, now, done, k, slots, pieces);
      var ledger, after := ScanLedger(slots[k].inFlight, pieces, now);
      slots := slots[k := slots[k].(inFlight := ledger)];
      pieces := after;
      todo, done := todo - {k}, done + {k};
    }
    AllScanned(s, now, slots, pieces);
  }

  lemma MarkedBeyond(table: seq<BlockState>, quota: nat, b: nat, c: nat)
    requires b <= c < |table| && quota <= OpenCount(table, b)
    ensures Marked(table, quota)[c] == table[c]
  {
    OpenCountGrows(table, b, c);
  }

  lemma ScanTakes(m: Torrent, p: nat, table: seq<BlockState>, quota: nat, b: nat)
    requires b <= |table| && OpenCount(table, b) <= quota && (b < |table| ==> OpenCount(table, b) == quota)
    ensures Take(OpenBlocks(m, p, table, |table|), quota) == OpenBlocks(m, p, table, b)
  {
    var more := OpenBlocksExtend(m, p, table, b, |table|);
  }

  lemma PatchedUpTo<T>(goal: seq<T>, rest: seq<T>, b: nat)
    requires |goal| == |rest| && b <= |goal| && forall c :: b <= c < |goal| ==> goal[c] == rest[c]
    ensures Patched(goal, rest, b) == goal
  {
  }

  /** A table scan that stops early has granted everything it can. */
  lemma ScanEnds(m: Torrent, p: nat, table: seq<BlockState>, quota: nat, b: nat)
    requires b <= |table| && OpenCount(table, b) <= quota && (b < |table| ==> OpenCount(table, b) == quota)
    ensures Take(OpenBlocks(m, p, table, |table|), quota) == OpenBlocks(m, p, table, b)
    ensures Patched(Marked(table, quota), table, b) == Marked(table, quota)
  {
    ScanTakes(m, p, table, quota, b);
    var goal := Marked(table, quota);
    forall c {:trigger goal[c]} | b <= c < |table|
      ensures goal[c] == table[c]
    {
      MarkedBeyond(table, quota, b, c);
    }
    PatchedUpTo(goal, table, b);
  }

  lemma OpenBlocksNext(m: Torrent, p: nat, table: seq<BlockState>, b: nat)
    requires b < |table|
    ensures OpenBlocks(m, p, table, b + 1) ==
              if table[b] == NotRequested then OpenBlocks(m, p, table, b) + [BlockAt(m, p, b)]
              else OpenBlocks(m, p, table, b)
  {
  }

  /** The inner loop has dealt with the first `b` blocks of a table. */
  ghost predicate TableDoneUpTo(m: Torrent, p: nat, before: seq<BlockState>, quota: nat, b: nat,
                                table: seq<BlockState>, blocks: seq<BlockRequest>)
  {
    && b <= |before| == |table| && |blocks| <= quota
    && table == Patched(Marked(before, quota), before, b)
    && blocks == OpenBlocks(m, p, before, b)
  }

  lemma OneMoreBlock(m: Torrent, p: nat, before: seq<BlockState>, quota: nat, b: nat,
                     table: seq<BlockState>, blocks: seq<BlockRequest>)
    requires TableDoneUpTo(m, p, before, quota, b, table, blocks) && b < |before| && |blocks| < quota
    ensures table[b] == before[b]
    ensures if before[b] == NotRequested then
              TableDoneUpTo(m, p, before, quota, b + 1, table[b := Requested], blocks + [BlockAt(m, p, b)])
            else TableDoneUpTo(m, p, before, quota, b + 1, table, blocks)
  {
    PatchNext(Marked(before, quota), before, b);
    OpenBlocksNext(m, p, before, b);
  }

  /** The inner loop of the allocation pass: request the open blocks of one piece, as far as the quota goes. */
  method RequestOpenBlocks(m: Torrent, p: nat, len: nat, before: seq<BlockState>, quota: nat)
    returns (table: seq<BlockState>, blocks: seq<BlockRequest>)
    requires len == PieceLen(m, p)
    ensures table == Marked(before, quota)
    ensures blocks == Take(OpenBlocks(m, p, before, |before|), quota)
  {
    table, blocks := before, [];
    var request := quota;
    var b := 0;
    while b < |table|
      invariant TableDoneUpTo(m, p, before, quota, b, table, blocks)
      invariant request == quota - |blocks|
    {
      if request == 0 {
        break;
      }
      OneMoreBlock(m, p, before, quota, b, table, blocks);
      if table[b] == NotRequested {
        table := table[b := Requested];
        blocks := blocks + [BlockOf(p, len, b)];
        request := request - 1;
      }
      b := b + 1;
    }
    ScanEnds(m, p, before, quota, b);
  }

  // The pass, piece by piece

  datatype Pass = Pass(pieces: seq<PieceBuffer>, blocks: seq<BlockRequest>)

  /** What the outer loop does with piece `p`. */
  function OnePiece(m: Torrent, bits: seq<bool>, quota: nat, p: nat, pass: Pass): (next: Pass)
    requires p < |pass.pieces| && |pass.blocks| <= quota
    ensures |next.pieces| == |pass.pieces| && |next.blocks| <= quota
  {
    if pass.pieces[p].complete || |pass.blocks| == quota then pass
    else
      var piece := Opened(m, pass.pieces, bits, p);
      var left := quota - |pass.blocks|;
      Pass(pass.pieces[p := piece.(blockStatus := Marked(piece.blockStatus, left))],
           pass.blocks + Take(OpenBlocks(m, p, piece.blockStatus, |piece.blockStatus|), left))
  }

  /** The pass after the first `p` pieces. */
  function PassAfter(m: Torrent, before: seq<PieceBuffer>, bits: seq<bool>, quota: nat, p: nat): (pass: Pass)
    requires p <= |before|
    ensures |pass.pieces| == |before| && |pass.blocks| <= quota
  {
    if p == 0 then Pass(before, []) else OnePiece(m, bits, quota, p - 1, PassAfter(m, before, bits, quota, p - 1))
  }

  ghost predicate PassedUpTo(m: Torrent, before: seq<PieceBuffer>, bits: seq<bool>, quota: nat, p: nat, pass: Pass) {
    && p <= |before| == |pass.pieces|
    && pass.pieces == Patched(Pushed(m, before, bits, quota), before, p)
    && pass.blocks == Take(Eligible(m, before, bits, p), quota)
  }

  lemma PassIsFull(m: Torrent, before: seq<PieceBuffer>, bits: seq<bool>, quota: nat, p: nat, pass: Pass)
    requires PassedUpTo(m, before, bits, quota, p, pass) && p < |before| && |pass.blocks| == quota
    ensures PassedUpTo(m, before, bits, quota, p + 1, pass)
  {
    TakeEnough(Eligible(m, before, bits, p), OpenIn(m, before, bits, p), quota);
    PatchNext(Pushed(m, before, bits, quota), before, p);
  }

  lemma PassGoesOn(m: Torrent, before: seq<PieceBuffer>, bits: seq<bool>, quota: nat, p: nat, pass: Pass)
    requires PassedUpTo(m, before, bits, quota, p, pass) && p < |before| && |pass.blocks| < quota
    ensures pass.pieces[p] == before[p]
    ensures PassedUpTo(m, before, bits, quota, p + 1, OnePiece(m, bits, quota, p, pass))
  {
    PatchNext(Pushed(m, before, bits, quota), before, p);
    PassPiece(m, before, bits, quota, p);
    PassNext(m, before, bits, quota, p);
  }

  lemma {:induction false} PassAfterIs(m: Torrent, before: seq<PieceBuffer>, bits: seq<bool>, quota: nat, p: nat)
    requires p <= |before|
    ensures PassedUpTo(m, before, bits, quota, p, PassAfter(m, before, bits, quota, p))
  {
    if p > 0 {
      PassAfterIs(m, before, bits, quota, p - 1);
      var pass := PassAfter(m, before, bits, quota, p - 1);
      if |pass.blocks| == quota {
        PassIsFull(m, before, bits, quota, p - 1, pass);
      } else {
        PassGoesOn(m, before, bits, quota, p - 1, pass);
      }
    }
  }

  /** A pass that stops early has granted everything it can. */
  lemma {:induction false} PassStays(m: Torrent, before: seq<PieceBuffer>, bits: seq<bool>, quota: nat, p: nat, q: nat)
    requires p <= q <= |before| && |PassAfter(m, before, bits, quota, p).blocks| == quota
    ensures PassAfter(m, before, bits, quota, q) == PassAfter(m, before, bits, quota, p)
  {
    if p < q {
      PassStays(m, before, bits, quota, p, q - 1);
    }
  }

  /** The whole pass. */
  lemma PassIsPush(m: Torrent, before: seq<PieceBuffer>, bits: seq<bool>, quota: nat)
    ensures PassAfter(m, before, bits, quota, |before|) ==
              Pass(Pushed(m, before, bits, quota), Chosen(m, before, bits, quota))
  {
    PassAfterIs(m, before, bits, quota, |before|);
  }

  /** The outer loop is at piece `p`. */
  ghost predicate AtPiece(m: Torrent, before: seq<PieceBuffer>, bits: seq<bool>, quota: nat, p: nat,
                          pieces: seq<PieceBuffer>, blocks: seq<BlockRequest>)
  {
    p <= |before| == |pieces| && |blocks| <= quota && Pass(pieces, blocks) == PassAfter(m, before, bits, quota, p)
  }

  lemma CompleteIsSkipped(m: Torrent, before: seq<PieceBuffer>, bits: seq<bool>, quota: nat, p: nat,
                          pieces: seq<PieceBuffer>, blocks: seq<BlockRequest>)
    requires AtPiece(m, before, bits, quota, p, pieces, blocks) && p < |before| && pieces[p].complete
    ensures AtPiece(m, before, bits, quota, p + 1, pieces, blocks)
  {
  }

  /** The bitfield has a bit for every piece that the pass looks up. */
  ghost predicate CoversPass(m: Torrent, pieces: seq<PieceBuffer>, bits: seq<bool>, quota: nat) {
    forall p :: 0 <= p < |pieces| && Reached(m, pieces, bits, quota, p) ==> p < |bits|
  }

  /** A piece is looked up only when it is reached. */
  lemma LookedUpIsReached(m: Torrent, before: seq<PieceBuffer>, bits: seq<bool>, quota: nat, p: nat,
                          pieces: seq<PieceBuffer>, blocks: seq<BlockRequest>)
    requires AtPiece(m, before, bits, quota, p, pieces, blocks) && p < |before|
    requires !pieces[p].complete && |blocks| < quota && CoversPass(m, before, bits, quota)
    ensures p < |bits|
  {
    PassAfterIs(m, before, bits, quota, p);
    PassGoesOn(m, before, bits, quota, p, Pass(pieces, blocks));
    PassPiece(m, before, bits, quota, p);
  }

  lemma PieceIsPassed(m: Torrent, before: seq<PieceBuffer>, bits: seq<bool>, quota: nat, p: nat,
                      pieces: seq<PieceBuffer>, blocks: seq<BlockRequest>, piece: PieceBuffer,
                      table: seq<BlockState>, granted: seq<BlockRequest>)
    requires AtPiece(m, before, bits, quota, p, pieces, blocks) && p < |before|
    requires !pieces[p].complete && |blocks| < quota && p < |bits|
    requires piece == if bits[p] then pieces[p].LazyInit(PieceLen(m, p)) else pieces[p]
    requires table == Marked(piece.blockStatus, quota - |blocks|)
    requires granted == Take(OpenBlocks(m, p, piece.blockStatus, |piece.blockStatus|), quota - |blocks|)
    ensures AtPiece(m, before, bits, quota, p + 1, pieces[p := piece.(blockStatus := table)], blocks + granted)
  {
    assert piece == Opened(m, pieces, bits, p);
    assert PassAfter(m, before, bits, quota, p + 1) == OnePiece(m, bits, quota, p, Pass(pieces, blocks));
  }

  lemma PassEnds(m: Torrent, before: seq<PieceBuffer>, bits: seq<bool>, quota: nat, p: nat,
                 pieces: seq<PieceBuffer>, blocks: seq<BlockRequest>)
    requires AtPiece(m, before, bits, quota, p, pieces, blocks) && (p < |before| ==> |blocks| == quota)
    ensures pieces == Pushed(m, before, bits, quota) && blocks == Chosen(m, before, bits, quota)
  {
    if p < |before| {
      PassStays(m, before, bits, quota, p, |before|);
    }
    PassIsPush(m, before, bits, quota);
  }

  /** The outer loop of the allocation pass. */
  method RequestPieces(m: Torrent, before: seq<PieceBuffer>, bits: seq<bool>, quota: nat)
    returns (pieces: seq<PieceBuffer>, blocks: seq<BlockRequest>)
    requires CoversPass(m, before, bits, quota)
    ensures pieces == Pushed(m, before, bits, quota)
    ensures blocks == Chosen(m, before, bits, quota)
  {
    pieces, blocks := before, [];
    var request := quota;
    var p := 0;
    while p < |pieces|
      invariant AtPiece(m, before, bits, quota, p, pieces, blocks)
      invariant request == quota - |blocks|
    {
      if request == 0 {
        break;
      }
      var len := PieceLen(m, p);
      var piece := pieces[p];
      if piece.complete {
        CompleteIsSkipped(m, before, bits, quota, p, pieces, blocks);
        p := p + 1;
        continue;
      }
      LookedUpIsReached(m, before, bits, quota, p, pieces, blocks);
      if bits[p] {
        piece := piece.LazyInit(len);
      }
      var table, granted := RequestOpenBlocks(m, p, len, piece.blockStatus, request);
      PieceIsPassed(m, before, bits, quota, p, pieces, blocks, piece, table, granted);
      pieces := pieces[p := piece.(blockStatus := table)];
      blocks := blocks + granted;
      request := request - |granted|;
      p := p + 1;
    }
    PassEnds(m, before, bits, quota, p, pieces, blocks);
  }

  /** What storing a block comes to, field by field. */
  lemma AcceptIs(s: SchedulerState, piece: nat, begin: nat, payload: seq<Byte>)
    requires Acceptable(s, piece, begin, payload)
    ensures var b, t := s.pieces[piece], Accept(s, piece, begin, payload);
            var table := b.blockStatus[begin / BLOCK_SIZE := Received];
            var isLast := b.blocksReceived + 1 == |table|;
            var data := Overwrite(b.data, begin, payload);
            && t == s.(pieces := t.pieces, diskEvents := t.diskEvents)
            && t.pieces ==
                 s.pieces[piece := PieceBuffer(if isLast then [] else data, table, b.blocksReceived + 1, isLast)]
            && t.diskEvents == s.diskEvents + (if isLast then [TryHashAndWrite(piece, data)] else [])
  {
  }

  class Scheduler {
    const torrent: Torrent
    var existingPeers: set<SocketAddr>
    var connecting: multiset<SocketAddr>
    var slots: map<nat, PeerHandle>
    var pieces: seq<PieceBuffer>
    var diskEvents: seq<DiskEvent>
    var completedPieces: nat

    ghost function State(): SchedulerState
      reads this
    {
      SchedulerState(existingPeers, connecting, slots, pieces, diskEvents, completedPieces)
    }

    constructor (torrent: Torrent)
      ensures this.torrent == torrent && State() == NewScheduler(torrent)
    {
      this.torrent := torrent;
      existingPeers, connecting, slots := {}, multiset{}, map[];
      pieces := seq(torrent.numPieces, _ => EMPTY_PIECE);
      diskEvents, completedPieces := [], 0;
    }

    method ParseCompletedPieces(completed: seq<bool>)
      requires |completed| == |pieces|
      modifies this
      ensures State() == Model.ParseCompletedPieces(old(State()), completed)
    {
      var i := 0;
      while i < |completed|
        invariant 0 <= i <= |completed| == |pieces| == |old(pieces)|
        invariant forall p :: 0 <= p < |pieces| ==>
                    pieces[p] == if p < i && completed[p] then old(pieces)[p].(complete := true) else old(pieces)[p]
        invariant completedPieces == old(completedPieces) + CountTrue(completed[..i])
        invariant State() == old(State()).(pieces := pieces, completedPieces := completedPieces)
      {
        assert completed[..i + 1][..i] == completed[..i];
        if completed[i] {
          completedPieces := completedPieces + 1;
          pieces := pieces[i := pieces[i].(complete := true)];
        }
        i := i + 1;
      }
      assert completed[..i] == completed;
      assert pieces == Model.ParseCompletedPieces(old(State()), completed).pieces;
    }

    method ScanTimeouts(now: nat)
      requires IsSafe(torrent, State(), Tick(now))
      modifies this
      ensures State() == Model.ScanTimeouts(old(State()), now)
    {
      slots, pieces := ScanPeers(State(), slots, pieces, now);
    }

    method StartPeer(addr: SocketAddr)
      modifies this
      ensures State() == Model.StartPeer(old(State()), addr)
    {
      if addr in existingPeers {
        return;
      }
      existingPeers := existingPeers + {addr};
      connecting := connecting + multiset{addr};
    }

    method DedupAndStartPeers(list: seq<SocketAddr>)
      modifies this
      ensures State() == Model.DedupAndStartPeers(old(State()), list)
    {
      var i := 0;
      while i < |list|
        invariant 0 <= i <= |list|
        invariant State() == Model.DedupAndStartPeers(old(State()), list[..i])
      {
        StartPeer(list[i]);
        assert list[..i + 1][..i] == list[..i];
        i := i + 1;
      }
      assert list[..i] == list;
    }

    method RemovePeer(k: nat)
      requires IsSafe(torrent, State(), Disconnect(k))
      modifies this
      ensures State() == Model.RemovePeer(old(State()), k)
    {
      var ledger := slots[k].inFlight;
      var i := 0;
      ReleaseNothing(pieces);
      assert Keys([]) == {};
      while i < |ledger|
        invariant 0 <= i <= |ledger|
        invariant pieces == Released(old(pieces), Keys(ledger[..i]))
        invariant State() == old(State()).(pieces := pieces)
      {
        assert KeyOf(ledger[i].request) in Keys(ledger);
        pieces := FreeBlock(pieces, ledger[i].request);
        ReleaseInSteps(old(pieces), Keys(ledger[..i]), {KeyOf(ledger[i].request)});
        assert ledger[..i + 1] == ledger[..i] + [ledger[i]];
        assert Keys(ledger[..i + 1]) == Keys(ledger[..i]) + {KeyOf(ledger[i].request)};
        i := i + 1;
      }
      assert ledger[..i] == ledger;
      existingPeers := existingPeers - {slots[k].addr};
      slots := slots - {k};
    }

    /** The allocation pass. */
    method PushBlocks(k: nat, quota: nat, now: nat) returns (blocks: seq<BlockRequest>)
      requires k in slots
      requires CoversPass(torrent, pieces, slots[k].bitfield, quota)
      modifies this
      ensures State() == Model.PushBlocks(torrent, old(State()), k, quota, now)
      ensures blocks == Chosen(torrent, old(pieces), old(slots)[k].bitfield, quota)
    {
      var handle := slots[k];
      pieces, blocks := RequestPieces(torrent, pieces, handle.bitfield, quota);
      slots := slots[k := handle.(inFlight := handle.inFlight + Stamp(blocks, now))];
    }

    method MaybePushBlocks(k: nat, now: nat)
      requires k in slots && PushIsSafe(torrent, State(), k)
      modifies this
      ensures State() == Model.MaybePushBlocks(torrent, old(State()), k, now)
    {
      var shouldRequest, inFlight := slots[k].amInterested && !slots[k].amChoked, |slots[k].inFlight|;
      if !shouldRequest || inFlight > MAX_IN_FLIGHT / 2 {
        return;
      }
      assert MAX_IN_FLIGHT - inFlight == Quota(slots[k]);
      var blocks := PushBlocks(k, MAX_IN_FLIGHT - inFlight, now);
      if blocks != [] {
        slots := slots[k := slots[k].(sent := slots[k].sent + [BlocksToDownload(blocks)])];
      }
    }

    method HandleHave(k: nat, piece: nat, now: nat)
      requires IsSafe(torrent, State(), Have(k, piece, now))
      modifies this
      ensures State() == Model.HandleHave(torrent, old(State()), k, piece, now)
    {
      var handle := slots[k].(bitfield := slots[k].bitfield[piece := true]);
      if !handle.amInterested {
        handle := handle.(sent := handle.sent + [SendInterested]);
        handle := handle.(amInterested := true);
      }
      slots := slots[k := handle];
      MaybePushBlocks(k, now);
    }

    method HandleBitfield(k: nat, bitfield: seq<bool>, now: nat)
      requires IsSafe(torrent, State(), Bitfield(k, bitfield, now))
      modifies this
      ensures State() == Model.HandleBitfield(torrent, old(State()), k, bitfield, now)
    {
      var handle := slots[k].(bitfield := bitfield);
      if !handle.amInterested {
        handle := handle.(sent := handle.sent + [SendInterested]);
        handle := handle.(amInterested := true);
      }
      slots := slots[k := handle];
      MaybePushBlocks(k, now);
    }

    method HandleChoke(k: nat)
      requires k in slots
      modifies this
      ensures State() == WithPeer(old(State()), k, old(slots)[k].(amChoked := true))
    {
      if !slots[k].amChoked {
        slots := slots[k := slots[k].(amChoked := true)];
      } else {
        assert slots == slots[k := slots[k].(amChoked := true)];
      }
    }

    method HandleUnchoke(k: nat, now: nat)
      requires IsSafe(torrent, State(), Unchoke(k, now))
      modifies this
      ensures State() == Model.HandleUnchoke(torrent, old(State()), k, now)
    {
      if slots[k].amChoked {
        slots := slots[k := slots[k].(amChoked := false)];
        MaybePushBlocks(k, now);
      }
    }

    method HandleInterested(k: nat)
      requires k in slots
      modifies this
      ensures State() == WithPeer(old(State()), k, old(slots)[k].(peerInterested := true))
    {
      if !slots[k].peerInterested {
        slots := slots[k := slots[k].(peerInterested := true)];
      } else {
        assert slots == slots[k := slots[k].(peerInterested := true)];
      }
    }

    method HandleNotInterested(k: nat)
      requires k in slots
      modifies this
      ensures State() == WithPeer(old(State()), k, old(slots)[k].(peerInterested := false))
    {
      if slots[k].peerInterested {
        slots := slots[k := slots[k].(peerInterested := false)];
      } else {
        assert slots == slots[k := slots[k].(peerInterested := false)];
      }
    }

    method HandleData(k: nat, piece: nat, begin: nat, data: seq<Byte>, now: nat)
      requires IsSafe(torrent, State(), Data(k, piece, begin, data, now))
      modifies this
      ensures State() == Model.HandleData(torrent, old(State()), k, piece, begin, data, now)
    {
      var pos := Position(slots[k].inFlight, BlockRequest(piece, begin, |data| - 8));
      if pos < |slots[k].inFlight| {
        slots := slots[k := slots[k].(inFlight := SwapRemove(slots[k].inFlight, pos))];
      }
      ghost var settled := SettleAt(old(State()), k, BlockRequest(piece, begin, |data| - 8));
      assert slots == settled.slots;
      var block := begin / BLOCK_SIZE;
      var buffer := pieces[piece];
      if buffer.complete || buffer.blockStatus[block] == Received {
        return;
      }
      AcceptIs(settled, piece, begin, data[8..]);
      buffer := buffer.(blockStatus := buffer.blockStatus[block := Received]);
      buffer := buffer.(blocksReceived := buffer.blocksReceived + 1);
      buffer := buffer.(data := Overwrite(buffer.data, begin, data[8..]));
      if buffer.blocksReceived == |buffer.blockStatus| {
        diskEvents := diskEvents + [TryHashAndWrite(piece, buffer.data)];
        buffer := buffer.(complete := true, data := []);
      }
      pieces := pieces[piece := buffer];
      assert State() == Accept(settled, piece, begin, data[8..]);
      MaybePushBlocks(k, now);
    }

    method OnCompletePiece(piece: nat)
      requires piece < |pieces|
      modifies this
      ensures State() == Model.OnCompletePiece(old(State()), piece)
    {
      pieces := pieces[piece := pieces[piece].CompleteAndCleanup()];
      completedPieces := completedPieces + 1;
      var todo := slots.Keys;
      ghost var was := slots;
      while todo != {}
        invariant todo <= was.Keys == slots.Keys
        invariant forall k :: k in was ==>
                    slots[k] == if k in todo then was[k] else was[k].(sent := was[k].sent + [SendHave(piece)])
        modifies this`slots
        decreases todo
      {
        var k :| k in todo;
        slots := slots[k := slots[k].(sent := slots[k].sent + [SendHave(piece)])];
        todo := todo - {k};
      }
      assert slots == Model.OnCompletePiece(old(State()), piece).slots;
    }

    method HandleFailure(piece: nat)
      requires piece < |pieces|
      modifies this
      ensures State() == Model.HandleFailure(old(State()), piece)
    {
      pieces := pieces[piece := pieces[piece].Reset()];
    }

    method HandleDiskResponse(e: Event)
      requires IsSafe(torrent, State(), e) && IsDiskAnswer(e)
      modifies this
      ensures State() == Handle(torrent, old(State()), e)
    {
      match e
      case CompletedPieces(completed) => ParseCompletedPieces(completed);
      case HashFailed(piece) => HandleFailure(piece);
      case WriteFailed(piece) => HandleFailure(piece);
      case PieceHashedAndWritten(piece) => OnCompletePiece(piece);
    }

    method HandleSessionEvent(e: Event)
      requires IsSafe(torrent, State(), e) && (e.LaunchPeers? || e.IncomingPeer?)
      modifies this
      ensures State() == Handle(torrent, old(State()), e)
    {
      match e
      case LaunchPeers(peers) => DedupAndStartPeers(peers);
      case IncomingPeer(addr) => StartPeer(addr);
    }

    method AddPeer(addr: SocketAddr, k: nat)
      requires IsSafe(torrent, State(), Connect(addr, k))
      modifies this
      ensures State() == Handle(torrent, old(State()), Connect(addr, k))
    {
      slots := slots[k := NewPeer(addr)];
      connecting := connecting - multiset{addr};
    }

    method ForgetPeer(addr: SocketAddr)
      modifies this
      ensures State() == Handle(torrent, old(State()), ConnectFailed(addr))
    {
      existingPeers := existingPeers - {addr};
      connecting := connecting - multiset{addr};
    }

    method HandleConnection(e: Event)
      requires IsSafe(torrent, State(), e) && (e.Connect? || e.ConnectFailed? || e.Disconnect?)
      modifies this
      ensures State() == Handle(torrent, old(State()), e)
    {
      match e
      case Connect(addr, k) => AddPeer(addr, k);
      case ConnectFailed(addr) => ForgetPeer(addr);
      case Disconnect(k) => RemovePeer(k);
    }

    method HandlePeerMessage(e: Event)
      requires IsSafe(torrent, State(), e)
      requires e.Data? || IsUpdate(e) || e.Choke? || e.Interested? || e.NotInterested?
      modifies this
      ensures State() == Handle(torrent, old(State()), e)
    {
      match e
      case Data(k, piece, begin, data, now) => HandleData(k, piece, begin, data, now);
      case Bitfield(k, bitfield, now) => HandleBitfield(k, bitfield, now);
      case Have(k, piece, now) => HandleHave(k, piece, now);
      case Choke(k) => HandleChoke(k);
      case Unchoke(k, now) => HandleUnchoke(k, now);
      case Interested(k) => HandleInterested(k);
      case NotInterested(k) => HandleNotInterested(k);
    }

    /** One turn of the loop: an answer of the disk, an event of the session or of a peer, or the clock. */
    method HandleEvent(e: Event)
      requires IsSafe(torrent, State(), e)
      modifies this
      ensures State() == Handle(torrent, old(State()), e)
    {
      if IsDiskAnswer(e) {
        HandleDiskResponse(e);
      } else if e.LaunchPeers? || e.IncomingPeer? {
        HandleSessionEvent(e);
      } else if e.Connect? || e.ConnectFailed? || e.Disconnect? {
        HandleConnection(e);
      } else if e.Tick? {
        ScanTimeouts(e.now);
      } else {
        HandlePeerMessage(e);
      }
    }
  }
}
