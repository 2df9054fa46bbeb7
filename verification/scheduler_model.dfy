/** The scheduler as a state and one function per event: the specification of the class in scheduler.dfy.
    A channel is the sequence of the messages put into it; a spawned connection attempt is an address in
    `connecting`. */
module SchedulerModel {
  import opened Metainfo
  import opened Pieces
  import opened Allocation
  import opened Ledgers

  const MAX_IN_FLIGHT: nat := 40

  datatype SocketAddr = SocketAddr(ip: nat, port: nat)

  datatype PeerCommand =
    | SendInterested
    | BlocksToDownload(blocks: seq<BlockRequest>)
    | SendHave(piece: nat)

  /** `sent` is everything ever put into the channel of this connection. */
  datatype PeerHandle = PeerHandle(
    bitfield: seq<bool>,
    sent: seq<PeerCommand>,
    addr: SocketAddr,
    peerChoked: bool,
    amChoked: bool,
    peerInterested: bool,
    amInterested: bool,
    inFlight: seq<InFlightBlock>)

  datatype DiskEvent = TryHashAndWrite(piece: nat, data: seq<Byte>)

  datatype SchedulerState = SchedulerState(
    existingPeers: set<SocketAddr>,
    connecting: multiset<SocketAddr>,
    slots: map<nat, PeerHandle>,
    pieces: seq<PieceBuffer>,
    diskEvents: seq<DiskEvent>,
    completedPieces: nat)

  /** Everything the scheduler's loop can receive. Slot numbers of new connections are chosen by the slab;
      `now` is the reading of the clock, `data` still has the 8-byte piece header in front. */
  datatype Event =
    | CompletedPieces(completed: seq<bool>)
    | HashFailed(piece: nat)
    | WriteFailed(piece: nat)
    | PieceHashedAndWritten(piece: nat)
    | LaunchPeers(peers: seq<SocketAddr>)
    | IncomingPeer(addr: SocketAddr)
    | Connect(addr: SocketAddr, slot: nat)
    | ConnectFailed(addr: SocketAddr)
    | Data(slot: nat, piece: nat, begin: nat, data: seq<Byte>, now: nat)
    | Disconnect(slot: nat)
    | Bitfield(slot: nat, bitfield: seq<bool>, now: nat)
    | Have(slot: nat, piece: nat, now: nat)
    | Choke(slot: nat)
    | Unchoke(slot: nat, now: nat)
    | Interested(slot: nat)
    | NotInterested(slot: nat)
    | Tick(now: nat)

  function NewPeer(addr: SocketAddr): PeerHandle {
    PeerHandle([], [], addr, true, true, false, false, [])
  }

  function NewScheduler(m: Torrent): SchedulerState {
    SchedulerState({}, multiset{}, map[], seq(m.numPieces, _ => EMPTY_PIECE), [], 0)
  }

  // Requesting blocks

  function Stamp(blocks: seq<BlockRequest>, now: nat): (r: seq<InFlightBlock>)
    ensures |r| == |blocks|
  {
    seq(|blocks|, i requires 0 <= i < |blocks| => InFlightBlock(blocks[i], now))
  }

  predicate MayRequest(h: PeerHandle) {
    h.amInterested && !h.amChoked && |h.inFlight| <= MAX_IN_FLIGHT / 2
  }

  function Quota(h: PeerHandle): nat
    requires MayRequest(h)
  {
    MAX_IN_FLIGHT - |h.inFlight|
  }

  function PushBlocks(m: Torrent, s: SchedulerState, k: nat, quota: nat, now: nat): SchedulerState
    requires k in s.slots
  {
    var h := s.slots[k];
    var blocks := Chosen(m, s.pieces, h.bitfield, quota);
    s.(pieces := Pushed(m, s.pieces, h.bitfield, quota),
       slots := s.slots[k := h.(inFlight := h.inFlight + Stamp(blocks, now))])
  }

  function Send(s: SchedulerState, k: nat, command: PeerCommand): SchedulerState
    requires k in s.slots
  {
    s.(slots := s.slots[k := s.slots[k].(sent := s.slots[k].sent + [command])])
  }

  function MaybePushBlocks(m: Torrent, s: SchedulerState, k: nat, now: nat): SchedulerState
    requires k in s.slots
  {
    var h := s.slots[k];
    if !MayRequest(h) then s
    else
      var blocks := Chosen(m, s.pieces, h.bitfield, Quota(h));
      var pushed := PushBlocks(m, s, k, Quota(h), now);
      if blocks == [] then pushed else Send(pushed, k, BlocksToDownload(blocks))
  }

  /** The pass does not look beyond the end of the peer's bitfield. */
  ghost predicate PushIsSafe(m: Torrent, s: SchedulerState, k: nat)
    requires k in s.slots
  {
    var h := s.slots[k];
    MayRequest(h) ==>
      forall p :: 0 <= p < |s.pieces| && Reached(m, s.pieces, h.bitfield, Quota(h), p) ==> p < |h.bitfield|
  }

  // Handlers

  function WithPeer(s: SchedulerState, k: nat, h: PeerHandle): SchedulerState {
    s.(slots := s.slots[k := h])
  }

  function WithPiece(s: SchedulerState, p: nat, piece: PieceBuffer): SchedulerState
    requires p < |s.pieces|
  {
    s.(pieces := s.pieces[p := piece])
  }

  function ShowInterest(h: PeerHandle): PeerHandle {
    if h.amInterested then h else h.(sent := h.sent + [SendInterested], amInterested := true)
  }

  function HandleHave(m: Torrent, s: SchedulerState, k: nat, piece: nat, now: nat): SchedulerState
    requires k in s.slots && piece < |s.slots[k].bitfield|
  {
    var h := s.slots[k];
    MaybePushBlocks(m, WithPeer(s, k, ShowInterest(h.(bitfield := h.bitfield[piece := true]))), k, now)
  }

  function HandleBitfield(m: Torrent, s: SchedulerState, k: nat, bitfield: seq<bool>, now: nat): SchedulerState
    requires k in s.slots
  {
    MaybePushBlocks(m, WithPeer(s, k, ShowInterest(s.slots[k].(bitfield := bitfield))), k, now)
  }

  function HandleUnchoke(m: Torrent, s: SchedulerState, k: nat, now: nat): SchedulerState
    requires k in s.slots
  {
    if s.slots[k].amChoked then MaybePushBlocks(m, WithPeer(s, k, s.slots[k].(amChoked := false)), k, now) else s
  }

  function SettleAt(s: SchedulerState, k: nat, r: BlockRequest): SchedulerState
    requires k in s.slots
  {
    WithPeer(s, k, s.slots[k].(inFlight := Settle(s.slots[k].inFlight, r)))
  }

  /** There is room for `len` bytes at `begin`, and their block is still missing. */
  predicate HasRoom(s: SchedulerState, piece: nat, begin: nat, len: nat) {
    && piece < |s.pieces|
    && !s.pieces[piece].complete
    && begin / BLOCK_SIZE < |s.pieces[piece].blockStatus|
    && s.pieces[piece].blockStatus[begin / BLOCK_SIZE] != Received
    && begin + len <= |s.pieces[piece].data|
  }

  predicate Acceptable(s: SchedulerState, piece: nat, begin: nat, payload: seq<Byte>) {
    HasRoom(s, piece, begin, |payload|)
  }

  /** Store a block; a piece whose last block arrives goes to the disk. */
  function Accept(s: SchedulerState, piece: nat, begin: nat, payload: seq<Byte>): SchedulerState
    requires Acceptable(s, piece, begin, payload)
  {
    var buffer := s.pieces[piece];
    var table := buffer.blockStatus[begin / BLOCK_SIZE := Received];
    var received := buffer.blocksReceived + 1;
    var data := Overwrite(buffer.data, begin, payload);
    if received == |table| then
      WithPiece(s, piece, PieceBuffer([], table, received, true))
      .(diskEvents := s.diskEvents + [TryHashAndWrite(piece, data)])
    else
      WithPiece(s, piece, PieceBuffer(data, table, received, false))
  }

  predicate IsRedundant(s: SchedulerState, piece: nat, begin: nat)
    requires piece < |s.pieces|
    requires !s.pieces[piece].complete ==> begin / BLOCK_SIZE < |s.pieces[piece].blockStatus|
  {
    s.pieces[piece].complete || s.pieces[piece].blockStatus[begin / BLOCK_SIZE] == Received
  }

  ghost predicate DataIsSafe(m: Torrent, s: SchedulerState, k: nat, piece: nat, begin: nat, data: seq<Byte>) {
    && k in s.slots
    && 8 <= |data|
    && InTable(s.pieces, BlockKey(piece, begin / BLOCK_SIZE))
    && (!IsRedundant(s, piece, begin) ==>
          && Acceptable(s, piece, begin, data[8..])
          && PushIsSafe(m, Accept(SettleAt(s, k, BlockRequest(piece, begin, |data| - 8)), piece, begin, data[8..]), k))
  }

  function HandleData(m: Torrent, s: SchedulerState, k: nat, piece: nat, begin: nat, data: seq<Byte>,
                      now: nat): SchedulerState
    requires DataIsSafe(m, s, k, piece, begin, data)
  {
    var settled := SettleAt(s, k, BlockRequest(piece, begin, |data| - 8));
    if IsRedundant(s, piece, begin) then settled
    else MaybePushBlocks(m, Accept(settled, piece, begin, data[8..]), k, now)
  }

  function StaleKeys(slots: map<nat, PeerHandle>, now: nat): set<BlockKey> {
    set k, e | k in slots && e in slots[k].inFlight && Stale(e, now) :: KeyOf(e.request)
  }

  function ScanTimeouts(s: SchedulerState, now: nat): SchedulerState {
    s.(pieces := Released(s.pieces, StaleKeys(s.slots, now)),
       slots := map k | k in s.slots :: s.slots[k].(inFlight := Sweep(s.slots[k].inFlight, 0, now)))
  }

  function RemovePeer(s: SchedulerState, k: nat): SchedulerState
    requires k in s.slots
  {
    s.(pieces := Released(s.pieces, Keys(s.slots[k].inFlight)),
       slots := s.slots - {k},
       existingPeers := s.existingPeers - {s.slots[k].addr})
  }

  function StartPeer(s: SchedulerState, addr: SocketAddr): SchedulerState {
    if addr in s.existingPeers then s
    else s.(existingPeers := s.existingPeers + {addr}, connecting := s.connecting + multiset{addr})
  }

  function DedupAndStartPeers(s: SchedulerState, list: seq<SocketAddr>): SchedulerState {
    if list == [] then s else StartPeer(DedupAndStartPeers(s, list[..|list| - 1]), list[|list| - 1])
  }

  function ParseCompletedPieces(s: SchedulerState, completed: seq<bool>): SchedulerState
    requires |completed| == |s.pieces|
  {
    s.(pieces := seq(|s.pieces|, p requires 0 <= p < |s.pieces| =>
         if completed[p] then s.pieces[p].(complete := true) else s.pieces[p]),
       completedPieces := s.completedPieces + CountTrue(completed))
  }

  function CountTrue(bits: seq<bool>): nat {
    if bits == [] then 0 else CountTrue(bits[..|bits| - 1]) + (if bits[|bits| - 1] then 1 else 0)
  }

  function OnCompletePiece(s: SchedulerState, piece: nat): SchedulerState
    requires piece < |s.pieces|
  {
    WithPiece(s, piece, s.pieces[piece].CompleteAndCleanup())
    .(completedPieces := s.completedPieces + 1,
      slots := map k | k in s.slots :: s.slots[k].(sent := s.slots[k].sent + [SendHave(piece)]))
  }

  function HandleFailure(s: SchedulerState, piece: nat): SchedulerState
    requires piece < |s.pieces|
  {
    WithPiece(s, piece, s.pieces[piece].Reset())
  }

  // One turn of the loop

  /** The event is handled without a panic. */
  ghost predicate IsSafe(m: Torrent, s: SchedulerState, e: Event) {
    match e
    case CompletedPieces(completed) => |completed| == |s.pieces|
    case HashFailed(piece) => piece < |s.pieces|
    case WriteFailed(piece) => piece < |s.pieces|
    case PieceHashedAndWritten(piece) => piece < |s.pieces|
    case LaunchPeers(_) => true
    case IncomingPeer(_) => true
    case Connect(addr, k) => addr in s.existingPeers && k !in s.slots
    case ConnectFailed(_) => true
    case Data(k, piece, begin, data, _) => DataIsSafe(m, s, k, piece, begin, data)
    case Disconnect(k) => k in s.slots && forall key :: key in Keys(s.slots[k].inFlight) ==> InTable(s.pieces, key)
    case Bitfield(k, bitfield, _) =>
      k in s.slots && PushIsSafe(m, WithPeer(s, k, ShowInterest(s.slots[k].(bitfield := bitfield))), k)
    case Have(k, piece, _) =>
      && k in s.slots
      && piece < |s.slots[k].bitfield|
      && PushIsSafe(m, WithPeer(s, k, ShowInterest(s.slots[k].(bitfield := s.slots[k].bitfield[piece := true]))), k)
    case Choke(k) => k in s.slots
    case Unchoke(k, _) =>
      && k in s.slots
      && (s.slots[k].amChoked ==> PushIsSafe(m, WithPeer(s, k, s.slots[k].(amChoked := false)), k))
    case Interested(k) => k in s.slots
    case NotInterested(k) => k in s.slots
    case Tick(now) => forall key :: key in StaleKeys(s.slots, now) ==> InTable(s.pieces, key)
  }

  function Handle(m: Torrent, s: SchedulerState, e: Event): SchedulerState
    requires IsSafe(m, s, e)
  {
    match e
    case CompletedPieces(completed) => ParseCompletedPieces(s, completed)
    case HashFailed(piece) => HandleFailure(s, piece)
    case WriteFailed(piece) => HandleFailure(s, piece)
    case PieceHashedAndWritten(piece) => OnCompletePiece(s, piece)
    case LaunchPeers(peers) => DedupAndStartPeers(s, peers)
    case IncomingPeer(addr) => StartPeer(s, addr)
    case Connect(addr, k) => WithPeer(s, k, NewPeer(addr)).(connecting := s.connecting - multiset{addr})
    case ConnectFailed(addr) =>
      s.(existingPeers := s.existingPeers - {addr}, connecting := s.connecting - multiset{addr})
    case Data(k, piece, begin, data, now) => HandleData(m, s, k, piece, begin, data, now)
    case Disconnect(k) => RemovePeer(s, k)
    case Bitfield(k, bitfield, now) => HandleBitfield(m, s, k, bitfield, now)
    case Have(k, piece, now) => HandleHave(m, s, k, piece, now)
    case Choke(k) => WithPeer(s, k, s.slots[k].(amChoked := true))
    case Unchoke(k, now) => HandleUnchoke(m, s, k, now)
    case Interested(k) => WithPeer(s, k, s.slots[k].(peerInterested := true))
    case NotInterested(k) => WithPeer(s, k, s.slots[k].(peerInterested := false))
    case Tick(now) => ScanTimeouts(s, now)
  }

  /** What the senders of the events guarantee: a connection attempt ends once, and a parsed bitfield has one
      bit per piece (proved of the parser in peers.dfy). */
  predicate IsLegitimate(m: Torrent, s: SchedulerState, e: Event) {
    match e
    case Connect(addr, _) => addr in s.connecting
    case ConnectFailed(addr) => addr in s.connecting
    case Bitfield(_, bitfield, _) => |bitfield| == m.numPieces
    case _ => true
  }

  // The shape of the events

  predicate IsDiskAnswer(e: Event) {
    e.CompletedPieces? || e.HashFailed? || e.WriteFailed? || e.PieceHashedAndWritten?
  }

  /** Events that change the record of one peer and then may ask that peer for blocks. */
  predicate IsUpdate(e: Event) {
    e.Bitfield? || e.Have? || e.Unchoke?
  }

  /** The record after the change. */
  function Updated(s: SchedulerState, e: Event): PeerHandle
    requires IsUpdate(e) && e.slot in s.slots && (e.Have? ==> e.piece < |s.slots[e.slot].bitfield|)
  {
    var h := s.slots[e.slot];
    if e.Bitfield? then ShowInterest(h.(bitfield := e.bitfield))
    else if e.Have? then ShowInterest(h.(bitfield := h.bitfield[e.piece := true]))
    else h.(amChoked := false)
  }

  lemma UpdateThenPush(m: Torrent, s: SchedulerState, e: Event)
    requires IsUpdate(e) && IsSafe(m, s, e)
    ensures Handle(m, s, e) ==
              if e.Unchoke? && !s.slots[e.slot].amChoked then s
              else MaybePushBlocks(m, WithPeer(s, e.slot, Updated(s, e)), e.slot, e.now)
  {
  }

  /** A record after a change that leaves its ledger and its address alone, and says no more than that we are
      interested. */
  predicate IsMinorUpdate(h: PeerHandle, g: PeerHandle) {
    && g.addr == h.addr && g.inFlight == h.inFlight && g.peerInterested == h.peerInterested
    && (g.sent == h.sent || g.sent == h.sent + [SendInterested])
  }

  lemma UpdatesAreMinor(s: SchedulerState, e: Event)
    requires IsUpdate(e) && e.slot in s.slots && (e.Have? ==> e.piece < |s.slots[e.slot].bitfield|)
    ensures IsMinorUpdate(s.slots[e.slot], Updated(s, e))
    ensures Updated(s, e).amChoked == (s.slots[e.slot].amChoked && !e.Unchoke?)
  {
  }

  /** The request a delivery answers, its payload, and the state without that request in the sender's ledger. */
  function Answered(e: Event): BlockRequest
    requires e.Data? && 8 <= |e.data|
  {
    BlockRequest(e.piece, e.begin, |e.data| - 8)
  }

  function Settled(s: SchedulerState, e: Event): SchedulerState
    requires e.Data? && 8 <= |e.data| && e.slot in s.slots
  {
    SettleAt(s, e.slot, Answered(e))
  }

  /** A delivery that is stored. */
  ghost predicate IsStored(m: Torrent, s: SchedulerState, e: Event) {
    e.Data? && IsSafe(m, s, e) && !IsRedundant(s, e.piece, e.begin)
  }

  /** The state after storing it, before more blocks are requested. */
  function StoredState(m: Torrent, s: SchedulerState, e: Event): SchedulerState
    requires IsStored(m, s, e)
  {
    Accept(Settled(s, e), e.piece, e.begin, e.data[8..])
  }

  lemma DataThenPush(m: Torrent, s: SchedulerState, e: Event)
    requires e.Data? && IsSafe(m, s, e)
    ensures Handle(m, s, e) ==
              if IsRedundant(s, e.piece, e.begin) then Settled(s, e)
              else MaybePushBlocks(m, StoredState(m, s, e), e.slot, e.now)
  {
  }

  /** Starting connections changes nothing but the registry. */
  lemma StartingPeersIsRegistryOnly(s: SchedulerState, list: seq<SocketAddr>)
    ensures var t := DedupAndStartPeers(s, list);
            t == s.(existingPeers := t.existingPeers, connecting := t.connecting)
  {
  }
}
