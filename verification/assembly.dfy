/** What reaches the disk is what the peers delivered: a piece handed over is the in-order concatenation of the
    payloads stored for its blocks. */
module Assembly {
  import opened Metainfo
  import opened Pieces
  import opened Allocation
  import opened Ledgers
  import opened SchedulerModel
  import opened Tables
  import opened Ownership
  import opened Completion
  import opened DiskModel
  import opened Engine
  import opened Resume

  predicate IsReceived(piece: PieceBuffer, b: nat) {
    b < |piece.blockStatus| && piece.blockStatus[b] == Received
  }

  /** The payload of a received block lies at the block's place in the buffer. */
  predicate InPlace(m: Torrent, p: nat, data: seq<Byte>, payloads: Payloads, b: nat)
    requires b in payloads
  {
    && |payloads[b]| == BlockAt(m, p, b).len
    && b * BLOCK_SIZE + |payloads[b]| <= |data|
    && data[b * BLOCK_SIZE..b * BLOCK_SIZE + |payloads[b]|] == payloads[b]
  }

  /** The recorded payloads of an incomplete piece are those of its received blocks, each in its place. */
  ghost predicate IsAssembling(m: Torrent, p: nat, piece: PieceBuffer, payloads: Payloads) {
    !piece.complete ==>
      && (forall b: nat :: b in payloads <==> IsReceived(piece, b))
      && (forall b: nat :: b in payloads ==> InPlace(m, p, piece.data, payloads, b))
  }

  function Concatenation(payloads: Payloads, n: nat): seq<Byte> {
    if n == 0 then [] else Concatenation(payloads, n - 1) + (if n - 1 in payloads then payloads[n - 1] else [])
  }

  /** All blocks are recorded and the data is their concatenation. */
  ghost predicate IsAssembled(m: Torrent, p: nat, data: seq<Byte>, payloads: Payloads) {
    && (forall b: nat :: b < NumBlocks(PieceLen(m, p)) ==> b in payloads && |payloads[b]| == BlockAt(m, p, b).len)
    && data == Concatenation(payloads, NumBlocks(PieceLen(m, p)))
  }

  /** Every queued job for the piece is assembled from the payloads recorded for it. */
  ghost predicate JobsAssembled(m: Torrent, jobs: seq<DiskEvent>, p: nat, payloads: Payloads) {
    forall i :: 0 <= i < |jobs| && jobs[i].piece == p ==> IsAssembled(m, p, jobs[i].data, payloads)
  }

  ghost predicate AssemblyOk(c: Config, g: Engine, p: nat) {
    && p < |g.accepted| == |g.scheduler.pieces| == c.torrent.numPieces
    && IsAssembling(c.torrent, p, g.scheduler.pieces[p], g.accepted[p])
    && JobsAssembled(c.torrent, g.scheduler.diskEvents, p, g.accepted[p])
  }

  // Steps that store nothing

  /** Nothing received is lost or added, and a buffer with something in it stays the same. */
  ghost predicate KeepsProgress(before: PieceBuffer, after: PieceBuffer) {
    && after.complete == before.complete
    && (!before.complete ==> forall b: nat :: IsReceived(after, b) <==> IsReceived(before, b))
    && (!before.complete ==> forall b: nat :: IsReceived(before, b) ==> after.data == before.data)
  }

  ghost predicate AllKeepProgress(r: seq<PieceBuffer>, t: seq<PieceBuffer>) {
    |r| == |t| && forall p :: 0 <= p < |r| ==> KeepsProgress(r[p], t[p])
  }

  lemma ProgressKeepsAssembling(m: Torrent, p: nat, before: PieceBuffer, after: PieceBuffer, payloads: Payloads)
    requires IsAssembling(m, p, before, payloads) && KeepsProgress(before, after)
    ensures IsAssembling(m, p, after, payloads)
  {
  }

  lemma PushKeepsProgress(m: Torrent, s: SchedulerState, k: nat, now: nat)
    requires k in s.slots
    ensures AllKeepProgress(s.pieces, MaybePushBlocks(m, s, k, now).pieces)
  {
    var h := s.slots[k];
    if MayRequest(h) {
      forall p | 0 <= p < |s.pieces|
        ensures KeepsProgress(s.pieces[p], Pushed(m, s.pieces, h.bitfield, Quota(h))[p])
      {
        PushMarksTheChosen(m, s.pieces, h.bitfield, Quota(h), p);
      }
    }
  }

  lemma ReleaseKeepsProgress(pieces: seq<PieceBuffer>, keys: set<BlockKey>)
    ensures AllKeepProgress(pieces, Released(pieces, keys))
  {
  }

  lemma OthersKeepProgress(m: Torrent, s: SchedulerState, e: Event)
    requires IsSafe(m, s, e) && !IsDiskAnswer(e) && !e.Data?
    ensures AllKeepProgress(s.pieces, Handle(m, s, e).pieces)
  {
    if IsUpdate(e) {
      UpdateThenPush(m, s, e);
      PushKeepsProgress(m, WithPeer(s, e.slot, Updated(s, e)), e.slot, e.now);
    } else if e.LaunchPeers? {
      StartingPeersIsRegistryOnly(s, e.peers);
    } else if e.Disconnect? {
      ReleaseKeepsProgress(s.pieces, Keys(s.slots[e.slot].inFlight));
    } else if e.Tick? {
      ReleaseKeepsProgress(s.pieces, StaleKeys(s.slots, e.now));
    }
  }

  // Storing a payload

  /** A payload goes to its own place and to no other block's. */
  lemma StoreInPlace(m: Torrent, p: nat, data: seq<Byte>, payloads: Payloads, block: nat, payload: seq<Byte>, b: nat)
    requires IsBlock(m, BlockKey(p, block)) && |data| == PieceLen(m, p) && |payload| == BlockAt(m, p, block).len
    requires block * BLOCK_SIZE + |payload| <= |data|
    requires b == block || (b in payloads && IsBlock(m, BlockKey(p, b)) && InPlace(m, p, data, payloads, b))
    ensures InPlace(m, p, Overwrite(data, block * BLOCK_SIZE, payload), Stored(payloads, block, payload), b)
  {
    BlockFits(m, BlockKey(p, block));
    if b == block {
      OverwrittenPart(data, block * BLOCK_SIZE, payload);
    } else {
      BlockFits(m, BlockKey(p, b));
      OverwrittenElsewhere(data, block * BLOCK_SIZE, payload, b * BLOCK_SIZE, b * BLOCK_SIZE + |payloads[b]|);
    }
  }

  /** Where the first `n` blocks of a piece end. */
  function Boundary(m: Torrent, p: nat, n: nat): nat {
    if n < NumBlocks(PieceLen(m, p)) then n * BLOCK_SIZE else PieceLen(m, p)
  }

  lemma BoundaryStep(m: Torrent, p: nat, b: nat)
    requires IsBlock(m, BlockKey(p, b))
    ensures Boundary(m, p, b) == b * BLOCK_SIZE
    ensures Boundary(m, p, b + 1) == b * BLOCK_SIZE + BlockAt(m, p, b).len
    ensures Boundary(m, p, b) <= Boundary(m, p, b + 1) <= PieceLen(m, p)
  {
  }

  lemma SlicesJoin<T>(s: seq<T>, i: nat, j: nat)
    requires i <= j <= |s|
    ensures s[..i] + s[i..j] == s[..j]
  {
  }

  /** The buffer up to a block boundary is the concatenation of the payloads before it. */
  lemma {:induction false} PrefixIsConcatenation(m: Torrent, p: nat, data: seq<Byte>, payloads: Payloads, n: nat)
    requires p < m.numPieces && n <= NumBlocks(PieceLen(m, p)) && |data| == PieceLen(m, p)
    requires forall b: nat :: b < n ==> b in payloads && InPlace(m, p, data, payloads, b)
    ensures Boundary(m, p, n) <= |data| && Concatenation(payloads, n) == data[..Boundary(m, p, n)]
  {
    if n > 0 {
      PrefixIsConcatenation(m, p, data, payloads, n - 1);
      BoundaryStep(m, p, n - 1);
      assert InPlace(m, p, data, payloads, n - 1);
      SlicesJoin(data, Boundary(m, p, n - 1), Boundary(m, p, n));
    }
  }

  /** All recorded payloads are in place after storing one more. */
  lemma AllInPlace(m: Torrent, p: nat, piece: PieceBuffer, payloads: Payloads, block: nat, payload: seq<Byte>)
    requires p < m.numPieces && PieceInv(PieceLen(m, p), piece) && !piece.complete
    requires IsAssembling(m, p, piece, payloads)
    requires block < |piece.blockStatus| && |payload| == BlockAt(m, p, block).len
    ensures block * BLOCK_SIZE + |payload| <= |piece.data|
    ensures forall b: nat :: b in Stored(payloads, block, payload) ==>
              InPlace(m, p, Overwrite(piece.data, block * BLOCK_SIZE, payload), Stored(payloads, block, payload), b)
  {
    BlockFits(m, BlockKey(p, block));
    forall b: nat | b in Stored(payloads, block, payload)
      ensures InPlace(m, p, Overwrite(piece.data, block * BLOCK_SIZE, payload), Stored(payloads, block, payload), b)
    {
      assert b != block ==> IsReceived(piece, b);
      StoreInPlace(m, p, piece.data, payloads, block, payload, b);
    }
  }

  lemma StoredAreReceived(piece: PieceBuffer, payloads: Payloads, block: nat, payload: seq<Byte>, after: PieceBuffer)
    requires forall b: nat :: b in payloads <==> IsReceived(piece, b)
    requires block < |piece.blockStatus| && after.blockStatus == piece.blockStatus[block := Received]
    ensures forall b: nat :: b in Stored(payloads, block, payload) <==> IsReceived(after, b)
  {
  }

  /** Storing the payload keeps the buffer an exact assembly, or hands over an exact one. */
  ghost predicate Assembles(m: Torrent, s: SchedulerState, p: nat, begin: nat, payload: seq<Byte>, payloads: Payloads)
    requires Acceptable(s, p, begin, payload)
  {
    var stored := Stored(payloads, begin / BLOCK_SIZE, payload);
    var after := Accept(s, p, begin, payload).pieces[p];
    && IsAssembling(m, p, after, stored)
    && (after.complete ==> IsAssembled(m, p, Overwrite(s.pieces[p].data, begin, payload), stored))
  }

  predicate IsWholeBlock(m: Torrent, p: nat, begin: nat, len: nat) {
    begin % BLOCK_SIZE == 0 && len == BlockAt(m, p, begin / BLOCK_SIZE).len
  }

  /** A block is stored once and in place; the last one completes the concatenation. */
  lemma AcceptAssembles(m: Torrent, s: SchedulerState, p: nat, begin: nat, payload: seq<Byte>, payloads: Payloads)
    requires TablesOk(m, s.pieces) && Acceptable(s, p, begin, payload) && IsWholeBlock(m, p, begin, |payload|)
    requires IsAssembling(m, p, s.pieces[p], payloads)
    ensures begin / BLOCK_SIZE !in payloads
    ensures Assembles(m, s, p, begin, payload, payloads)
  {
    var block := begin / BLOCK_SIZE;
    assert begin == block * BLOCK_SIZE;
    var stored := Stored(payloads, block, payload);
    var data := Overwrite(s.pieces[p].data, begin, payload);
    var after := Accept(s, p, begin, payload).pieces[p];
    assert !IsReceived(s.pieces[p], block);
    AllInPlace(m, p, s.pieces[p], payloads, block, payload);
    StoredAreReceived(s.pieces[p], payloads, block, payload, after);
    AcceptKeepsTables(m, s, p, begin, payload);
    if after.complete {
      assert forall b: nat :: b < NumBlocks(PieceLen(m, p)) ==> IsReceived(after, b);
      PrefixIsConcatenation(m, p, data, stored, NumBlocks(PieceLen(m, p)));
    }
  }

  lemma WrongLengthBreaks(m: Torrent, s: SchedulerState, p: nat, begin: nat, payload: seq<Byte>, payloads: Payloads)
    requires TablesOk(m, s.pieces) && Acceptable(s, p, begin, payload)
    requires |payload| != BlockAt(m, p, begin / BLOCK_SIZE).len
    ensures !Assembles(m, s, p, begin, payload, payloads)
  {
    var stored := Stored(payloads, begin / BLOCK_SIZE, payload);
    assert begin / BLOCK_SIZE in stored && !InPlace(m, p, s.pieces[p].data, stored, begin / BLOCK_SIZE);
  }

  ghost predicate AllBlocksFit(m: Torrent, p: nat, payloads: Payloads, n: nat) {
    forall c: nat :: c < n ==> c in payloads && |payloads[c]| == BlockAt(m, p, c).len
  }

  lemma {:induction false} ConcatenationLength(m: Torrent, p: nat, payloads: Payloads, n: nat)
    requires p < m.numPieces && n <= NumBlocks(PieceLen(m, p)) && AllBlocksFit(m, p, payloads, n)
    ensures |Concatenation(payloads, n)| == Boundary(m, p, n)
  {
    if n > 0 {
      BoundaryStep(m, p, n - 1);
      ConcatenationLength(m, p, payloads, n - 1);
    }
  }

  lemma {:induction false} ConcatenationAt(m: Torrent, p: nat, payloads: Payloads, n: nat, b: nat)
    requires p < m.numPieces && b < n <= NumBlocks(PieceLen(m, p)) && AllBlocksFit(m, p, payloads, n)
    ensures 0 < |payloads[b]| && b * BLOCK_SIZE < |Concatenation(payloads, n)|
    ensures Concatenation(payloads, n)[b * BLOCK_SIZE] == payloads[b][0]
  {
    BlockFits(m, BlockKey(p, b));
    if b < n - 1 {
      ConcatenationAt(m, p, payloads, n - 1, b);
    } else {
      ConcatenationLength(m, p, payloads, b);
      BoundaryStep(m, p, b);
    }
  }

  /** A payload that starts inside a block leaves the first byte of the block as it is. */
  lemma MisalignedBreaks(m: Torrent, s: SchedulerState, p: nat, begin: nat, payload: seq<Byte>, payloads: Payloads)
    requires TablesOk(m, s.pieces) && Acceptable(s, p, begin, payload) && begin % BLOCK_SIZE != 0
    requires |payload| == BlockAt(m, p, begin / BLOCK_SIZE).len && 0 < |payload|
    requires payload[0] != s.pieces[p].data[begin / BLOCK_SIZE * BLOCK_SIZE]
    ensures !Assembles(m, s, p, begin, payload, payloads)
  {
    var block := begin / BLOCK_SIZE;
    var stored := Stored(payloads, block, payload);
    var data := Overwrite(s.pieces[p].data, begin, payload);
    var after := Accept(s, p, begin, payload).pieces[p];
    assert data[block * BLOCK_SIZE] != payload[0];
    if after.complete {
      if IsAssembled(m, p, data, stored) {
        ConcatenationAt(m, p, stored, NumBlocks(PieceLen(m, p)), block);
      }
    } else {
      BlockFits(m, BlockKey(p, block));
      assert block in stored;
      assert data[block * BLOCK_SIZE..block * BLOCK_SIZE + |payload|][0] == data[block * BLOCK_SIZE];
    }
  }

  /** Bytes none of which equals `x`. */
  function Unlike(x: Byte, len: nat): (r: seq<Byte>)
    ensures |r| == len && forall i :: 0 <= i < len ==> r[i] != x
  {
    seq(len, _ => if x == 0 then 1 else 0)
  }

  /** Whatever bytes a payload of this length holds, storing it keeps the assembly exact: this is so if, and only
      if, the payload is as long as the block it starts in and starts where the block starts. */
  lemma AssemblesExactlyWholeBlocks(m: Torrent, s: SchedulerState, p: nat, begin: nat, len: nat, payloads: Payloads)
    requires TablesOk(m, s.pieces) && HasRoom(s, p, begin, len) && IsAssembling(m, p, s.pieces[p], payloads)
    ensures (forall payload: seq<Byte> | |payload| == len :: Assembles(m, s, p, begin, payload, payloads)) <==>
              IsWholeBlock(m, p, begin, len)
  {
    var block := begin / BLOCK_SIZE;
    BlockFits(m, BlockKey(p, block));
    if IsWholeBlock(m, p, begin, len) {
      forall payload: seq<Byte> | |payload| == len
        ensures Assembles(m, s, p, begin, payload, payloads)
      {
        AcceptAssembles(m, s, p, begin, payload, payloads);
      }
    } else {
      var payload := Unlike(s.pieces[p].data[block * BLOCK_SIZE], len);
      if len != BlockAt(m, p, block).len {
        WrongLengthBreaks(m, s, p, begin, payload, payloads);
      } else {
        MisalignedBreaks(m, s, p, begin, payload, payloads);
      }
    }
  }

  // The steps of the engine

  /** What is delivered and stored is a whole block. */
  ghost predicate DeliversWholeBlocks(m: Torrent, s: SchedulerState, e: Event) {
    IsStored(m, s, e) ==> IsWholeBlock(m, e.piece, e.begin, |e.data| - 8)
  }

  lemma SolicitedIsWhole(m: Torrent, s: SchedulerState, e: Event)
    requires OwnershipOk(m, s) && TablesOk(m, s.pieces) && IsSolicited(s, e)
    ensures DeliversWholeBlocks(m, s, e)
  {
    if e.Data? {
      SolicitedIsWanted(m, s, e);
    }
  }

  lemma ReceiveKeepsAssembly(c: Config, g: Engine, e: Event, p: nat)
    requires ConfigOk(c) && EngineOk(c, g) && AssemblyOk(c, g, p) && IsEnabled(c, g, Receive(e))
    requires e.Data? && e.piece == p ==> DeliversWholeBlocks(c.torrent, g.scheduler, e)
    ensures AssemblyOk(c, Next(c, g, Receive(e)), p)
  {
    if IsStored(c.torrent, g.scheduler, e) {
      DeliveryKeepsProgress(c.torrent, g.scheduler, e, p);
      if e.piece == p {
        DeliveryAssembles(c, g, e);
      } else {
        ElsewhereKeepsAssembly(c, g, e, p);
      }
    } else if e.Data? {
      DataThenPush(c.torrent, g.scheduler, e);
    } else {
      OthersKeepAssembly(c, g, e, p);
    }
  }

  lemma OthersKeepAssembly(c: Config, g: Engine, e: Event, p: nat)
    requires ConfigOk(c) && AssemblyOk(c, g, p) && IsEnabled(c, g, Receive(e)) && !e.Data?
    ensures AssemblyOk(c, Next(c, g, Receive(e)), p)
  {
    var h := Next(c, g, Receive(e));
    OthersKeepProgress(c.torrent, g.scheduler, e);
    OthersKeepCompletion(c.torrent, g.scheduler, e);
    ProgressKeepsAssembling(c.torrent, p, g.scheduler.pieces[p], h.scheduler.pieces[p], g.accepted[p]);
  }

  lemma DeliveryKeepsProgress(m: Torrent, s: SchedulerState, e: Event, p: nat)
    requires IsStored(m, s, e) && p < |s.pieces|
    ensures |Handle(m, s, e).pieces| == |s.pieces|
    ensures KeepsProgress(Accept(s, e.piece, e.begin, e.data[8..]).pieces[p], Handle(m, s, e).pieces[p])
  {
    DataThenPush(m, s, e);
    PushKeepsProgress(m, StoredState(m, s, e), e.slot, e.now);
  }

  lemma IncompleteIsNotQueued(c: Config, g: Engine, p: nat)
    requires QueuesOk(c, g) && p < |g.scheduler.pieces| && !g.scheduler.pieces[p].complete
    ensures forall i :: 0 <= i < |g.scheduler.diskEvents| ==> g.scheduler.diskEvents[i].piece != p
  {
    forall i | 0 <= i < |g.scheduler.diskEvents|
      ensures g.scheduler.diskEvents[i].piece != p
    {
      assert Outstanding(g)[|g.replies| + i] == g.scheduler.diskEvents[i].piece;
      assert g.scheduler.diskEvents[i].piece in Outstanding(g);
    }
  }

  /** A whole block for the piece itself. */
  lemma DeliveryAssembles(c: Config, g: Engine, e: Event)
    requires ConfigOk(c) && TablesOk(c.torrent, g.scheduler.pieces) && QueuesOk(c, g)
    requires IsEnabled(c, g, Receive(e)) && IsStored(c.torrent, g.scheduler, e)
    requires AssemblyOk(c, g, e.piece) && DeliversWholeBlocks(c.torrent, g.scheduler, e)
    ensures AssemblyOk(c, Next(c, g, Receive(e)), e.piece)
  {
    var h := Next(c, g, Receive(e));
    var s := g.scheduler;
    AcceptAssembles(c.torrent, s, e.piece, e.begin, e.data[8..], g.accepted[e.piece]);
    DeliveryKeepsProgress(c.torrent, s, e, e.piece);
    ProgressKeepsAssembling(c.torrent, e.piece, Accept(s, e.piece, e.begin, e.data[8..]).pieces[e.piece],
                            h.scheduler.pieces[e.piece], h.accepted[e.piece]);
    IncompleteIsNotQueued(c, g, e.piece);
    DataHandsOverOrNot(c.torrent, s, e);
  }

  /** A delivery for another piece, whole or not. */
  lemma ElsewhereKeepsAssembly(c: Config, g: Engine, e: Event, p: nat)
    requires ConfigOk(c) && TablesOk(c.torrent, g.scheduler.pieces) && AssemblyOk(c, g, p)
    requires IsEnabled(c, g, Receive(e)) && IsStored(c.torrent, g.scheduler, e) && e.piece != p
    ensures AssemblyOk(c, Next(c, g, Receive(e)), p)
  {
    var h := Next(c, g, Receive(e));
    DeliveryKeepsProgress(c.torrent, g.scheduler, e, p);
    ProgressKeepsAssembling(c.torrent, p, g.scheduler.pieces[p], h.scheduler.pieces[p], g.accepted[p]);
    DataHandsOverOrNot(c.torrent, g.scheduler, e);
  }

  lemma WorkKeepsAssembly(c: Config, g: Engine, outcome: WriteOutcome, p: nat)
    requires ConfigOk(c) && AssemblyOk(c, g, p) && IsEnabled(c, g, Work(outcome))
    ensures AssemblyOk(c, Next(c, g, Work(outcome)), p)
  {
  }

  lemma AnsweredIsNotQueued(c: Config, g: Engine)
    requires QueuesOk(c, g) && g.replies != []
    ensures forall i :: 0 <= i < |g.scheduler.diskEvents| ==>
              g.scheduler.diskEvents[i].piece != AnswerPiece(g.replies[0])
  {
    forall i | 0 <= i < |g.scheduler.diskEvents|
      ensures g.scheduler.diskEvents[i].piece != AnswerPiece(g.replies[0])
    {
      assert Outstanding(g)[|g.replies| + i] == g.scheduler.diskEvents[i].piece;
      assert Outstanding(g)[0] == AnswerPiece(g.replies[0]);
    }
  }

  predicate IsFailure(e: Event, p: nat) {
    e == HashFailed(p) || e == WriteFailed(p)
  }

  /** A piece that failed starts from scratch, whatever it was before. */
  lemma FailureStartsOver(c: Config, g: Engine, p: nat)
    requires ConfigOk(c) && QueuesOk(c, g) && IsEnabled(c, g, Reply) && IsFailure(g.replies[0], p)
    requires |g.accepted| == |g.scheduler.pieces| == c.torrent.numPieces
    ensures AssemblyOk(c, Next(c, g, Reply), p)
  {
    AnswerIsInTurn(c, g);
    AnsweredIsNotQueued(c, g);
  }

  lemma ReplyKeepsAssembly(c: Config, g: Engine, p: nat)
    requires ConfigOk(c) && QueuesOk(c, g) && AssemblyOk(c, g, p) && IsEnabled(c, g, Reply)
    ensures AssemblyOk(c, Next(c, g, Reply), p)
  {
    AnswerIsInTurn(c, g);
    if IsFailure(g.replies[0], p) {
      FailureStartsOver(c, g, p);
    }
  }

  lemma BootKeepsAssembly(c: Config, disk: DiskState, p: nat)
    requires ConfigOk(c) && p < c.torrent.numPieces
    ensures AssemblyOk(c, Boot(c, disk), p)
  {
  }

  lemma BootIsOwned(c: Config, disk: DiskState)
    requires ConfigOk(c)
    ensures OwnershipOk(c.torrent, Boot(c, disk).scheduler)
  {
  }
}
