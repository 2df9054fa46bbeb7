/** Runs in which the properties of limits.dfy and runs.dfy fail without their conditions. */
module FailingRuns {
  import opened Metainfo
  import opened Pieces
  import opened Allocation
  import opened Ledgers
  import opened SchedulerModel
  import opened Wanted
  import opened Tables
  import opened Connections
  import opened Ownership
  import opened Completion
  import opened DiskModel
  import opened Engine
  import opened Resume
  import opened Assembly
  import opened Runs

  // Building runs

  ghost predicate IsPlainRun(m: Torrent, states: seq<SchedulerState>, events: seq<Event>) {
    IsSchedulerRun(m, states, events) && AllLegitimate(m, states, events)
  }

  ghost predicate DiskIsSilent(events: seq<Event>) {
    forall i :: 0 <= i < |events| ==> !IsDiskAnswer(events[i])
  }

  lemma NoEvents(m: Torrent) returns (states: seq<SchedulerState>, events: seq<Event>)
    ensures IsPlainRun(m, states, events) && events == [] && states[0] == NewScheduler(m)
  {
    states, events := [NewScheduler(m)], [];
  }

  /** One more event. */
  lemma Then(m: Torrent, before: seq<SchedulerState>, past: seq<Event>, e: Event)
    returns (states: seq<SchedulerState>, events: seq<Event>)
    requires IsPlainRun(m, before, past)
    requires IsSafe(m, before[|past|], e) && IsLegitimate(m, before[|past|], e)
    ensures IsPlainRun(m, states, events)
    ensures events == past + [e] && states == before + [Handle(m, before[|past|], e)]
    ensures states[|events|] == Handle(m, before[|past|], e)
    ensures DiskIsSilent(past) && !IsDiskAnswer(e) ==> DiskIsSilent(events)
  {
    states, events := before + [Handle(m, before[|past|], e)], past + [e];
    forall i | 0 <= i < |events|
      ensures IsSafe(m, states[i], events[i]) && states[i + 1] == Handle(m, states[i], events[i])
      ensures IsLegitimate(m, states[i], events[i])
    {
      if i < |past| {
        assert states[i] == before[i] && states[i + 1] == before[i + 1] && events[i] == past[i];
      }
    }
  }

  // A Have without a bitfield

  const TINY: Torrent := Metainfo(1, 1, 1)
  const TINY_BLOCK := BlockRequest(0, 0, 1)
  const FIRST := SocketAddr(1, 6881)
  const SECOND := SocketAddr(2, 6881)

  /** A peer connects and announces a piece without having sent a bitfield: the lookup of the bit panics. */
  lemma HaveWithoutBitfieldPanics(m: Torrent) returns (states: seq<SchedulerState>, events: seq<Event>)
    ensures IsPlainRun(m, states, events)
    ensures IsOffered(m, states[|events|], Have(0, 0, 0)) && !IsSafe(m, states[|events|], Have(0, 0, 0))
  {
    states, events := NoEvents(m);
    states, events := Then(m, states, events, IncomingPeer(FIRST));
    states, events := Then(m, states, events, Connect(FIRST, 0));
  }

  // One piece of one byte, and two peers; the first has the piece

  function Peer(has: bool, addr: SocketAddr, choked: bool, sent: seq<PeerCommand>, inFlight: seq<InFlightBlock>):
    PeerHandle
  {
    PeerHandle([has], [SendInterested] + sent, addr, true, choked, false, true, inFlight)
  }

  /** A peer that has said what it has, and one that has then been sent a request for the one block. */
  function Silent(has: bool, addr: SocketAddr): PeerHandle {
    Peer(has, addr, true, [], [])
  }

  function Asked(has: bool, addr: SocketAddr, inFlight: seq<InFlightBlock>): PeerHandle {
    Peer(has, addr, false, [BlocksToDownload([TINY_BLOCK])], inFlight)
  }

  function Table(status: BlockState): PieceBuffer {
    PieceBuffer([0], [status], 0, false)
  }

  function Connected(first: PeerHandle, second: PeerHandle, piece: PieceBuffer, jobs: seq<DiskEvent>): SchedulerState {
    SchedulerState({FIRST, SECOND}, multiset{}, map[0 := first, 1 := second], [piece], jobs, 0)
  }

  lemma TinyPass(piece: PieceBuffer, has: bool, quota: nat)
    requires (piece == EMPTY_PIECE && has) || piece == Table(NotRequested)
    requires 0 < quota
    ensures Chosen(TINY, [piece], [has], quota) == [TINY_BLOCK]
    ensures Pushed(TINY, [piece], [has], quota) == [Table(Requested)]
  {
    assert NumBlocks(1) == 1;
    assert Opened(TINY, [piece], [has], 0) == Table(NotRequested);
    assert OpenBlocks(TINY, 0, [NotRequested], 1) == [TINY_BLOCK];
    assert Joined(OpenLists(TINY, [piece], [has]), 0) == [];
    assert Eligible(TINY, [piece], [has], 1) == [TINY_BLOCK];
    assert Marked([NotRequested], quota) == [Requested];
  }

  lemma NothingLeft(piece: PieceBuffer, quota: nat)
    requires piece.complete
    ensures Chosen(TINY, [piece], [true], quota) == [] && Pushed(TINY, [piece], [true], quota) == [piece]
  {
    assert Joined(OpenLists(TINY, [piece], [true]), 0) == [];
    assert Eligible(TINY, [piece], [true], 1) == [];
  }

  lemma FirstConnects(s: SchedulerState, t: SchedulerState)
    requires s == SchedulerState({FIRST, SECOND}, multiset{FIRST, SECOND}, map[], [EMPTY_PIECE], [], 0)
    requires t == s.(connecting := multiset{SECOND}, slots := map[0 := NewPeer(FIRST)])
    ensures IsSafe(TINY, s, Connect(FIRST, 0)) && Handle(TINY, s, Connect(FIRST, 0)) == t
  {
  }

  lemma SecondConnects(s: SchedulerState, t: SchedulerState)
    requires s == SchedulerState({FIRST, SECOND}, multiset{SECOND}, map[0 := NewPeer(FIRST)], [EMPTY_PIECE], [], 0)
    requires t == Connected(NewPeer(FIRST), NewPeer(SECOND), EMPTY_PIECE, [])
    ensures IsSafe(TINY, s, Connect(SECOND, 1)) && Handle(TINY, s, Connect(SECOND, 1)) == t
  {
  }

  lemma FirstSaysWhatItHas(s: SchedulerState, t: SchedulerState)
    requires s == Connected(NewPeer(FIRST), NewPeer(SECOND), EMPTY_PIECE, [])
    requires t == Connected(Silent(true, FIRST), NewPeer(SECOND), EMPTY_PIECE, [])
    ensures IsSafe(TINY, s, Bitfield(0, [true], 0)) && Handle(TINY, s, Bitfield(0, [true], 0)) == t
  {
    assert ShowInterest(NewPeer(FIRST).(bitfield := [true])) == Silent(true, FIRST);
  }

  lemma SecondSaysWhatItHas(s: SchedulerState, t: SchedulerState, has: bool)
    requires s == Connected(Silent(true, FIRST), NewPeer(SECOND), EMPTY_PIECE, [])
    requires t == Connected(Silent(true, FIRST), Silent(has, SECOND), EMPTY_PIECE, [])
    ensures IsSafe(TINY, s, Bitfield(1, [has], 0)) && Handle(TINY, s, Bitfield(1, [has], 0)) == t
  {
    assert ShowInterest(NewPeer(SECOND).(bitfield := [has])) == Silent(has, SECOND);
  }

  lemma BothArrive() returns (states: seq<SchedulerState>, events: seq<Event>)
    ensures IsPlainRun(TINY, states, events) && DiskIsSilent(events)
    ensures states[|events|] == Connected(NewPeer(FIRST), NewPeer(SECOND), EMPTY_PIECE, [])
  {
    var none := SchedulerState({}, multiset{}, map[], [EMPTY_PIECE], [], 0);
    var known := none.(existingPeers := {FIRST}, connecting := multiset{FIRST});
    var both := none.(existingPeers := {FIRST, SECOND}, connecting := multiset{FIRST, SECOND});
    var one := both.(connecting := multiset{SECOND}, slots := map[0 := NewPeer(FIRST)]);
    states, events := NoEvents(TINY);
    assert NewScheduler(TINY) == none;
    assert Handle(TINY, none, IncomingPeer(FIRST)) == known;
    states, events := Then(TINY, states, events, IncomingPeer(FIRST));
    assert Handle(TINY, known, IncomingPeer(SECOND)) == both;
    states, events := Then(TINY, states, events, IncomingPeer(SECOND));
    FirstConnects(both, one);
    states, events := Then(TINY, states, events, Connect(FIRST, 0));
    SecondConnects(one, Connected(NewPeer(FIRST), NewPeer(SECOND), EMPTY_PIECE, []));
    states, events := Then(TINY, states, events, Connect(SECOND, 1));
  }

  /** Two incoming connections that say what they have. */
  lemma BothConnect(has: bool) returns (states: seq<SchedulerState>, events: seq<Event>)
    ensures IsPlainRun(TINY, states, events) && DiskIsSilent(events)
    ensures states[|events|] == Connected(Silent(true, FIRST), Silent(has, SECOND), EMPTY_PIECE, [])
  {
    states, events := BothArrive();
    FirstSaysWhatItHas(states[|events|], Connected(Silent(true, FIRST), NewPeer(SECOND), EMPTY_PIECE, []));
    states, events := Then(TINY, states, events, Bitfield(0, [true], 0));
    SecondSaysWhatItHas(states[|events|], Connected(Silent(true, FIRST), Silent(has, SECOND), EMPTY_PIECE, []), has);
    states, events := Then(TINY, states, events, Bitfield(1, [has], 0));
  }

  lemma TinyPush(s: SchedulerState, k: nat, has: bool, addr: SocketAddr, now: nat)
    requires k in s.slots && s.slots[k] == Peer(has, addr, false, [], []) && |s.pieces| == 1
    requires (s.pieces[0] == EMPTY_PIECE && has) || s.pieces[0] == Table(NotRequested)
    ensures PushIsSafe(TINY, s, k)
    ensures MaybePushBlocks(TINY, s, k, now) ==
              s.(slots := s.slots[k := Asked(has, addr, [InFlightBlock(TINY_BLOCK, now)])],
                 pieces := [Table(Requested)])
  {
    TinyPass(s.pieces[0], has, 40);
    assert s.pieces == [s.pieces[0]];
    assert Stamp([TINY_BLOCK], now) == [InFlightBlock(TINY_BLOCK, now)];
    var t := MaybePushBlocks(TINY, s, k, now);
    assert t.slots[k].inFlight == [InFlightBlock(TINY_BLOCK, now)];
    assert t.slots[k].sent == [SendInterested] + [BlocksToDownload([TINY_BLOCK])];
  }

  /** The record of a peer after the one block has been requested from it. */
  lemma TinyRequest(s: SchedulerState, k: nat, has: bool, addr: SocketAddr, now: nat)
    requires k in s.slots && s.slots[k] == Silent(has, addr) && |s.pieces| == 1
    requires (s.pieces[0] == EMPTY_PIECE && has) || s.pieces[0] == Table(NotRequested)
    ensures IsSafe(TINY, s, Unchoke(k, now))
    ensures Handle(TINY, s, Unchoke(k, now)) ==
              s.(slots := s.slots[k := Asked(has, addr, [InFlightBlock(TINY_BLOCK, now)])],
                 pieces := [Table(Requested)])
  {
    var unchoked := Peer(has, addr, false, [], []);
    TinyPush(WithPeer(s, k, unchoked), k, has, addr, now);
  }

  lemma TwoSlots<T>(a: T, b: T, c: T)
    ensures map[0 := a, 1 := b][0 := c] == map[0 := c, 1 := b]
    ensures map[0 := a, 1 := b][1 := c] == map[0 := a, 1 := c]
  {
  }

  lemma TinySweep(s: SchedulerState, second: PeerHandle)
    requires second.inFlight == []
    requires s.slots == map[0 := Asked(true, FIRST, [InFlightBlock(TINY_BLOCK, 0)]), 1 := second]
    ensures ScanTimeouts(s, REQUEST_TIMEOUT).slots == map[0 := Asked(true, FIRST, []), 1 := second]
  {
    assert Sweep([InFlightBlock(TINY_BLOCK, 0)], 0, REQUEST_TIMEOUT) == [] && Sweep([], 0, REQUEST_TIMEOUT) == [];
  }

  lemma TinyRelease(piece: PieceBuffer)
    requires piece == Table(Requested)
    ensures Released([piece], {BlockKey(0, 0)}) == [Table(NotRequested)]
  {
    assert Released([piece], {BlockKey(0, 0)})[0].blockStatus == [NotRequested];
  }

  lemma OneIsStale(slots: map<nat, PeerHandle>, second: PeerHandle)
    requires slots == map[0 := Asked(true, FIRST, [InFlightBlock(TINY_BLOCK, 0)]), 1 := second] && second.inFlight == []
    ensures StaleKeys(slots, REQUEST_TIMEOUT) == {BlockKey(0, 0)}
  {
    var e := InFlightBlock(TINY_BLOCK, 0);
    assert KeyOf(TINY_BLOCK) == BlockKey(0, 0);
    assert e in slots[0].inFlight && Stale(e, REQUEST_TIMEOUT);
  }

  lemma FirstTimesOut(s: SchedulerState, second: PeerHandle)
    requires second.inFlight == []
    requires s == Connected(Asked(true, FIRST, [InFlightBlock(TINY_BLOCK, 0)]), second, Table(Requested), [])
    ensures IsSafe(TINY, s, Tick(REQUEST_TIMEOUT))
    ensures Handle(TINY, s, Tick(REQUEST_TIMEOUT)) ==
              Connected(Asked(true, FIRST, []), second, Table(NotRequested), [])
  {
    OneIsStale(s.slots, second);
    TinyRelease(s.pieces[0]);
    TinySweep(s, second);
  }

  lemma FirstIsAsked(has: bool) returns (states: seq<SchedulerState>, events: seq<Event>)
    ensures IsPlainRun(TINY, states, events) && DiskIsSilent(events)
    ensures states[|events|] ==
              Connected(Asked(true, FIRST, [InFlightBlock(TINY_BLOCK, 0)]), Silent(has, SECOND), Table(Requested), [])
  {
    states, events := BothConnect(has);
    TwoSlots(Silent(true, FIRST), Silent(has, SECOND), Asked(true, FIRST, [InFlightBlock(TINY_BLOCK, 0)]));
    TinyRequest(states[|events|], 0, true, FIRST, 0);
    states, events := Then(TINY, states, events, Unchoke(0, 0));
  }

  lemma FirstIsGivenUp(has: bool) returns (states: seq<SchedulerState>, events: seq<Event>)
    ensures IsPlainRun(TINY, states, events) && DiskIsSilent(events)
    ensures states[|events|] == Connected(Asked(true, FIRST, []), Silent(has, SECOND), Table(NotRequested), [])
  {
    states, events := FirstIsAsked(has);
    FirstTimesOut(states[|events|], Silent(has, SECOND));
    states, events := Then(TINY, states, events, Tick(REQUEST_TIMEOUT));
  }

  /** A request to the first peer times out, and the block is asked of the second. */
  lemma SecondIsAsked(has: bool) returns (states: seq<SchedulerState>, events: seq<Event>)
    ensures IsPlainRun(TINY, states, events) && DiskIsSilent(events)
    ensures states[|events|] == Connected(Asked(true, FIRST, []),
                                          Asked(has, SECOND, [InFlightBlock(TINY_BLOCK, REQUEST_TIMEOUT)]),
                                          Table(Requested), [])
  {
    states, events := FirstIsGivenUp(has);
    TwoSlots(Asked(true, FIRST, []), Silent(has, SECOND),
             Asked(has, SECOND, [InFlightBlock(TINY_BLOCK, REQUEST_TIMEOUT)]));
    TinyRequest(states[|events|], 1, has, SECOND, REQUEST_TIMEOUT);
    states, events := Then(TINY, states, events, Unchoke(1, REQUEST_TIMEOUT));
  }

  /** A peer is asked for a piece it has said it does not have. */
  lemma NonOwnersAreAsked() returns (states: seq<SchedulerState>, events: seq<Event>)
    ensures IsPlainRun(TINY, states, events)
    ensures var s := states[|events|];
            && 1 in s.slots && !Has(s.slots[1].bitfield, 0)
            && BlocksToDownload([TINY_BLOCK]) in s.slots[1].sent
  {
    states, events := SecondIsAsked(false);
    assert states[|events|].slots[1].sent[1] == BlocksToDownload([TINY_BLOCK]);
  }

  // A late answer

  const ANSWER: seq<Byte> := [0, 0, 0, 0, 0, 0, 0, 0, 1]

  lemma TinyAccept(s: SchedulerState, k: nat, now: nat)
    requires k in s.slots && s.pieces == [Table(Requested)] && s.diskEvents == []
    requires s.slots[k].bitfield == [true]
    ensures var e := Data(k, 0, 0, ANSWER, now);
            IsStored(TINY, s, e) && Handle(TINY, s, e) ==
              Settled(s, e).(pieces := [PieceBuffer([], [Received], 1, true)], diskEvents := [TryHashAndWrite(0, [1])])
  {
    var e := Data(k, 0, 0, ANSWER, now);
    var settled := Settled(s, e);
    assert ANSWER[8..] == [1];
    var t := Accept(settled, 0, 0, ANSWER[8..]);
    assert [Requested][0 := Received] == [Received];
    assert t.pieces == [PieceBuffer([], [Received], 1, true)];
    assert Overwrite(settled.pieces[0].data, 0, ANSWER[8..]) == [1];
    assert t.diskEvents == [] + [TryHashAndWrite(0, [1])] == [TryHashAndWrite(0, [1])];
    if MayRequest(t.slots[k]) {
      NothingLeft(t.pieces[0], Quota(t.slots[k]));
    }
    var r := MaybePushBlocks(TINY, t, k, now);
    assert r.slots[k].inFlight == t.slots[k].inFlight;
    assert r.slots == t.slots;
  }

  /** A request to the first peer times out, the second is asked, the first answers after all: a contested delivery,
      which completes the piece. */
  lemma LateAnswer() returns (states: seq<SchedulerState>, events: seq<Event>, i: nat)
    ensures IsPlainRun(TINY, states, events) && DiskIsSilent(events)
    ensures i < |events| && !IsUncontested(TINY, states[i], events[i])
    ensures var s := states[|events|];
            && s.pieces == [PieceBuffer([], [Received], 1, true)] && s.diskEvents == [TryHashAndWrite(0, [1])]
            && 1 in s.slots && s.slots[1].inFlight == [InFlightBlock(TINY_BLOCK, REQUEST_TIMEOUT)]
  {
    states, events := SecondIsAsked(true);
    i := |events|;
    var s, e := states[i], Data(0, 0, 0, ANSWER, REQUEST_TIMEOUT);
    var entry := InFlightBlock(TINY_BLOCK, REQUEST_TIMEOUT);
    TinyAccept(s, 0, REQUEST_TIMEOUT);
    assert Settled(s, e).slots[1].inFlight == [entry];
    assert Holds(Settled(s, e), 1, entry) && KeyOf(entry.request) == KeyOf(Answered(e));
    states, events := Then(TINY, states, events, e);
    assert states[i] == s && events[i] == e;
  }

  /** When the piece then starts over, the second peer's entry names a table cell that does not exist. */
  lemma StaleEntry(s: SchedulerState)
    requires s.pieces == [EMPTY_PIECE] && 1 in s.slots
    requires s.slots[1].inFlight == [InFlightBlock(TINY_BLOCK, REQUEST_TIMEOUT)]
    ensures !IsSafe(TINY, s, Disconnect(1))
  {
    var entry := InFlightBlock(TINY_BLOCK, REQUEST_TIMEOUT);
    assert entry in s.slots[1].inFlight && KeyOf(entry.request) in Keys(s.slots[1].inFlight);
  }

  /** The piece fails its hash, and the departure of the second peer is a panic. */
  lemma LateAnswersCanPanic() returns (states: seq<SchedulerState>, events: seq<Event>)
    ensures IsPlainRun(TINY, states, events)
    ensures 1 in states[|events|].slots && !IsSafe(TINY, states[|events|], Disconnect(1))
    ensures exists i :: 0 <= i < |events| && !IsUncontested(TINY, states[i], events[i])
  {
    var i;
    states, events, i := LateAnswer();
    var s, e := states[i], events[i];
    states, events := Then(TINY, states, events, HashFailed(0));
    assert states[i] == s && events[i] == e && !IsUncontested(TINY, states[i], events[i]);
    StaleEntry(states[|events|]);
  }

  // A late report

  lemma TinyReport(s: SchedulerState)
    requires s.pieces == [PieceBuffer([], [Received], 1, true)] && s.completedPieces == 0
    ensures IsSafe(TINY, s, CompletedPieces([true]))
    ensures var t := Handle(TINY, s, CompletedPieces([true]));
            t.pieces == s.pieces && t.completedPieces == 1 && t.diskEvents == s.diskEvents
  {
    assert CountTrue([true]) == 1;
    assert Handle(TINY, s, CompletedPieces([true])).pieces == [PieceBuffer([], [Received], 1, true)];
  }

  lemma TinyConfirmation(s: SchedulerState)
    requires s.pieces == [PieceBuffer([], [Received], 1, true)] && s.completedPieces == 1
    ensures IsSafe(TINY, s, PieceHashedAndWritten(0))
    ensures var t := Handle(TINY, s, PieceHashedAndWritten(0));
            t.completedPieces == 2 && CompleteCount(t.pieces) == 1
  {
    assert Handle(TINY, s, PieceHashedAndWritten(0)).pieces == [PieceBuffer([], [], 1, true)];
    assert CompleteCount([PieceBuffer([], [], 1, true)]) == 1;
  }

  lemma PieceIsHandedOver() returns (states: seq<SchedulerState>, events: seq<Event>)
    ensures IsPlainRun(TINY, states, events) && DiskIsSilent(events)
    ensures var s := states[|events|];
            && s.pieces == [PieceBuffer([], [Received], 1, true)] && s.completedPieces == 0
            && s.diskEvents == [TryHashAndWrite(0, [1])]
  {
    states, events := FirstIsAsked(true);
    TinyAccept(states[|events|], 0, 0);
    states, events := Then(TINY, states, events, Data(0, 0, 0, ANSWER, 0));
  }

  /** A piece is fetched again and handed over before the disk's report that it has it, which comes before the disk's
      answer to the job: the piece is counted twice. */
  lemma LateReportCountsTwice() returns (states: seq<SchedulerState>, events: seq<Event>)
    ensures IsPlainRun(TINY, states, events) && |events| >= 2
    ensures var n := |events|;
            && DiskIsSilent(events[..n - 2]) && states[n - 2].diskEvents == [TryHashAndWrite(0, [1])]
            && events[n - 2] == CompletedPieces([true]) && events[n - 1] == PieceHashedAndWritten(0)
            && states[n].completedPieces == 2 && CompleteCount(states[n].pieces) == 1
  {
    var before, past := PieceIsHandedOver();
    TinyReport(before[|past|]);
    states, events := Then(TINY, before, past, CompletedPieces([true]));
    TinyConfirmation(states[|events|]);
    states, events := Then(TINY, states, events, PieceHashedAndWritten(0));
    assert events[..|past|] == past;
  }

  // One piece of two blocks, the second of one byte

  const PAIR: Torrent := Metainfo(1, 16385, 16385)
  const BIG_BLOCK := BlockRequest(0, 0, 16384)
  const SMALL_BLOCK := BlockRequest(0, 16384, 1)

  lemma PairBlocks()
    ensures NumBlocks(PieceLen(PAIR, 0)) == 2
    ensures BlockAt(PAIR, 0, 0) == BIG_BLOCK && BlockAt(PAIR, 0, 1) == SMALL_BLOCK
  {
  }

  /** Asking a peer that has the piece for blocks of an untouched piece creates its table and asks for both. */
  lemma PairPass(quota: nat)
    requires 2 <= quota
    ensures var pieces := Pushed(PAIR, [EMPTY_PIECE], [true], quota);
            && Chosen(PAIR, [EMPTY_PIECE], [true], quota) == [BIG_BLOCK, SMALL_BLOCK]
            && pieces[0].blockStatus == [Requested, Requested] && |pieces[0].data| == 16385
            && !pieces[0].complete && pieces[0].blocksReceived == 0
  {
    PairBlocks();
    var open := [NotRequested, NotRequested];
    assert Opened(PAIR, [EMPTY_PIECE], [true], 0).blockStatus == open;
    assert OpenBlocks(PAIR, 0, open, 0) == [];
    assert OpenBlocks(PAIR, 0, open, 1) == [BIG_BLOCK];
    assert OpenBlocks(PAIR, 0, open, 2) == [BIG_BLOCK, SMALL_BLOCK];
    assert Joined(OpenLists(PAIR, [EMPTY_PIECE], [true]), 0) == [];
    assert Eligible(PAIR, [EMPTY_PIECE], [true], 1) == [BIG_BLOCK, SMALL_BLOCK];
    assert OpenCount(open, 0) == 0 && OpenCount(open, 1) == 1;
    assert Marked(open, quota) == [Requested, Requested];
  }

  /** A connected peer, the piece of two blocks in this state. */
  ghost predicate PairState(s: SchedulerState, status: seq<BlockState>, received: nat) {
    && |s.pieces| == 1 && s.pieces[0].blockStatus == status && s.pieces[0].blocksReceived == received
    && !s.pieces[0].complete && |s.pieces[0].data| == 16385
    && 0 in s.slots && s.slots[0].bitfield == [true] && s.diskEvents == []
  }

  /** The scheduler keeps the peer in slot 0 as it is, but for its ledger and what has been sent. */
  ghost predicate OnlyPeer(s: SchedulerState, choked: bool, inFlight: seq<InFlightBlock>) {
    && 0 in s.slots && s.slots[0].bitfield == [true]
    && s.slots[0].amInterested && s.slots[0].amChoked == choked && s.slots[0].inFlight == inFlight
  }

  lemma PairInterest(s: SchedulerState)
    requires s.slots == map[0 := NewPeer(FIRST)] && s.pieces == [EMPTY_PIECE] && s.diskEvents == []
    ensures IsSafe(PAIR, s, Bitfield(0, [true], 0))
    ensures var t := Handle(PAIR, s, Bitfield(0, [true], 0));
            OnlyPeer(t, true, []) && t.pieces == [EMPTY_PIECE] && t.diskEvents == []
  {
  }

  lemma PairRequest(s: SchedulerState)
    requires OnlyPeer(s, true, []) && s.pieces == [EMPTY_PIECE] && s.diskEvents == []
    ensures IsSafe(PAIR, s, Unchoke(0, 0))
    ensures var t := Handle(PAIR, s, Unchoke(0, 0));
            && PairState(t, [Requested, Requested], 0)
            && OnlyPeer(t, false, [InFlightBlock(BIG_BLOCK, 0), InFlightBlock(SMALL_BLOCK, 0)])
  {
    PairPass(40);
    assert Stamp([BIG_BLOCK, SMALL_BLOCK], 0) == [InFlightBlock(BIG_BLOCK, 0), InFlightBlock(SMALL_BLOCK, 0)];
  }

  lemma OnePeerConnects() returns (states: seq<SchedulerState>, events: seq<Event>)
    ensures IsPlainRun(PAIR, states, events) && DiskIsSilent(events)
    ensures forall i :: 0 <= i < |events| ==> !events[i].Data?
    ensures var s := states[|events|];
            s.slots == map[0 := NewPeer(FIRST)] && s.pieces == [EMPTY_PIECE] && s.diskEvents == []
  {
    states, events := NoEvents(PAIR);
    states, events := Then(PAIR, states, events, IncomingPeer(FIRST));
    states, events := Then(PAIR, states, events, Connect(FIRST, 0));
  }

  lemma OnePeerHasThePiece() returns (states: seq<SchedulerState>, events: seq<Event>)
    ensures IsPlainRun(PAIR, states, events) && DiskIsSilent(events)
    ensures forall i :: 0 <= i < |events| ==> !events[i].Data?
    ensures OnlyPeer(states[|events|], true, [])
    ensures states[|events|].pieces == [EMPTY_PIECE] && states[|events|].diskEvents == []
  {
    states, events := OnePeerConnects();
    PairInterest(states[|events|]);
    states, events := Then(PAIR, states, events, Bitfield(0, [true], 0));
  }

  lemma BothBlocksAreAsked() returns (states: seq<SchedulerState>, events: seq<Event>)
    ensures IsPlainRun(PAIR, states, events) && DiskIsSilent(events)
    ensures forall i :: 0 <= i < |events| ==> !events[i].Data?
    ensures PairState(states[|events|], [Requested, Requested], 0)
    ensures OnlyPeer(states[|events|], false, [InFlightBlock(BIG_BLOCK, 0), InFlightBlock(SMALL_BLOCK, 0)])
  {
    states, events := OnePeerHasThePiece();
    PairRequest(states[|events|]);
    states, events := Then(PAIR, states, events, Unchoke(0, 0));
  }

  /** A pass over a piece whose table has no open block changes nothing. */
  lemma NothingOpen(m: Torrent, piece: PieceBuffer, bits: seq<bool>, quota: nat)
    requires piece.blockStatus != [] && NotRequested !in piece.blockStatus
    ensures Chosen(m, [piece], bits, quota) == [] && Pushed(m, [piece], bits, quota) == [piece]
  {
    var chosen := Chosen(m, [piece], bits, quota);
    if chosen != [] {
      var key := ChosenAreBlocks(m, [piece], bits, quota, chosen[0]);
    }
    PushMarksTheChosen(m, [piece], bits, quota, 0);
    assert Pushed(m, [piece], bits, quota)[0].blockStatus == piece.blockStatus;
  }

  const SMALL_ANSWER: seq<Byte> := [0, 0, 0, 0, 0, 0, 0, 0, 7]

  lemma SmallIsStored(s: SchedulerState, e: Event)
    requires PairState(s, [Requested, Requested], 0) && e == Data(0, 0, 16384, SMALL_ANSWER, 0)
    requires OnlyPeer(s, false, [InFlightBlock(BIG_BLOCK, 0), InFlightBlock(SMALL_BLOCK, 0)])
    ensures var t := Settled(s, e);
            t.slots[0] == s.slots[0].(inFlight := [InFlightBlock(BIG_BLOCK, 0)]) && t.pieces == s.pieces
    ensures Acceptable(s, 0, 16384, SMALL_ANSWER[8..])
    ensures var t := Accept(Settled(s, e), 0, 16384, SMALL_ANSWER[8..]);
            && PairState(t, [Requested, Received], 1) && t.pieces[0].data[16384] == 7
  {
    var ledger := s.slots[0].inFlight;
    assert Answered(e) == SMALL_BLOCK;
    assert ledger[1..][0].request == SMALL_BLOCK && Position(ledger, SMALL_BLOCK) == 1;
    assert SwapRemove(ledger, 1) == [InFlightBlock(BIG_BLOCK, 0)];
    assert [Requested, Requested][1 := Received] == [Requested, Received];
  }

  /** The small block is answered as it should be. */
  lemma SmallArrives(s: SchedulerState, e: Event)
    requires PairState(s, [Requested, Requested], 0) && e == Data(0, 0, 16384, SMALL_ANSWER, 0)
    requires OnlyPeer(s, false, [InFlightBlock(BIG_BLOCK, 0), InFlightBlock(SMALL_BLOCK, 0)])
    ensures IsSafe(PAIR, s, e) && IsSolicited(s, e) && DeliversWholeBlocks(PAIR, s, e)
    ensures PairState(Handle(PAIR, s, e), [Requested, Received], 1) && Handle(PAIR, s, e).pieces[0].data[16384] == 7
  {
    SmallIsStored(s, e);
    PairBlocks();
    var t := Accept(Settled(s, e), 0, 16384, SMALL_ANSWER[8..]);
    assert t.pieces == [t.pieces[0]];
    var h := t.slots[0];
    if MayRequest(h) {
      NothingOpen(PAIR, t.pieces[0], h.bitfield, Quota(h));
    }
    DataThenPush(PAIR, s, e);
  }

  lemma OneOfTwoArrives() returns (states: seq<SchedulerState>, events: seq<Event>)
    ensures IsPlainRun(PAIR, states, events)
    ensures DiskIsSilent(events) && forall i :: 0 <= i < |events| ==> DeliversWholeBlocks(PAIR, states[i], events[i])
    ensures PairState(states[|events|], [Requested, Received], 1) && states[|events|].pieces[0].data[16384] == 7
  {
    states, events := BothBlocksAreAsked();
    var before, s := |events|, states[|events|];
    SmallArrives(s, Data(0, 0, 16384, SMALL_ANSWER, 0));
    states, events := Then(PAIR, states, events, Data(0, 0, 16384, SMALL_ANSWER, 0));
    assert forall i :: 0 <= i < before ==> !events[i].Data?;
    assert states[before] == s;
  }

  // A confirmation of a piece that is not there

  /** The disk confirms a piece of which one of two blocks has arrived. */
  lemma PartialConfirmationBreaksTables() returns (states: seq<SchedulerState>, events: seq<Event>)
    ensures IsPlainRun(PAIR, states, events) && |events| > 0
    ensures ConfirmsPartialPiece(states[|events| - 1], events[|events| - 1]) && !TablesOk(PAIR, states[|events|].pieces)
  {
    states, events := OneOfTwoArrives();
    var n, s := |events|, states[|events|];
    states, events := Then(PAIR, states, events, PieceHashedAndWritten(0));
    assert states[n] == s && events[n] == PieceHashedAndWritten(0);
    assert states[n + 1].pieces[0] == s.pieces[0].CompleteAndCleanup();
    assert !PieceInv(PieceLen(PAIR, 0), states[n + 1].pieces[0]);
  }

  // A delivery of the wrong size

  lemma {:induction false} CountNone(bits: seq<bool>)
    requires true !in bits
    ensures CountTrue(bits) == 0
  {
    if bits != [] {
      CountNone(bits[..|bits| - 1]);
    }
  }

  lemma BootIsNew(c: Config, disk: DiskState)
    requires disk.saved == []
    ensures Boot(c, disk).scheduler == NewScheduler(c.torrent)
  {
    var bits := CompletedBits(c.torrent.numPieces, disk.saved);
    CountNone(bits);
    assert ParseCompletedPieces(NewScheduler(c.torrent), bits).pieces == NewScheduler(c.torrent).pieces;
  }

  lemma OneMoreAction(c: Config, disk: DiskState, before: seq<Engine>, past: seq<Action>, a: Action)
    requires IsRun(c, disk, before, past) && IsEnabled(c, before[|past|], a)
    ensures IsRun(c, disk, before + [Next(c, before[|past|], a)], past + [a])
  {
    var states, actions := before + [Next(c, before[|past|], a)], past + [a];
    forall i | 0 <= i < |actions|
      ensures IsEnabled(c, states[i], actions[i]) && states[i + 1] == Next(c, states[i], actions[i])
    {
      if i < |past| {
        assert states[i] == before[i] && states[i + 1] == before[i + 1] && actions[i] == past[i];
      }
    }
  }

  /** The engine goes through the same states as the scheduler, as long as the disk does nothing. */
  lemma {:induction false} AsEngineRun(c: Config, disk: DiskState, states: seq<SchedulerState>, events: seq<Event>)
    returns (engines: seq<Engine>, actions: seq<Action>)
    requires ConfigOk(c) && DiskOk(c, disk) && disk.saved == [] && IsPlainRun(c.torrent, states, events)
    requires DiskIsSilent(events)
    ensures IsRun(c, disk, engines, actions) && |engines| == |states|
    ensures forall i :: 0 <= i < |states| ==> engines[i].scheduler == states[i]
    ensures forall i :: 0 <= i < |events| ==> actions[i] == Receive(events[i])
  {
    if events == [] {
      BootIsNew(c, disk);
      engines, actions := [Boot(c, disk)], [];
    } else {
      var last := |events| - 1;
      engines, actions := AsEngineRun(c, disk, states[..last + 1], events[..last]);
      assert engines[last].scheduler == states[last];
      OneMoreAction(c, disk, engines, actions, Receive(events[last]));
      engines, actions := engines + [Next(c, engines[last], Receive(events[last]))], actions + [Receive(events[last])];
    }
  }

  lemma OneOfTwoInTheEngine(c: Config, disk: DiskState) returns (engines: seq<Engine>, actions: seq<Action>)
    requires ConfigOk(c) && c.torrent == PAIR && DiskOk(c, disk) && disk.saved == []
    ensures IsRun(c, disk, engines, actions)
    ensures var g := engines[|actions|];
            && EngineOk(c, g)
            && PairState(g.scheduler, [Requested, Received], 1) && g.scheduler.pieces[0].data[16384] == 7
            && |g.accepted| == 1 && 1 in g.accepted[0] && g.accepted[0][1] == [7]
  {
    var states, events := OneOfTwoArrives();
    engines, actions := AsEngineRun(c, disk, states, events);
    EngineInEveryRun(c, disk, engines, actions, |actions|);
    AssemblySince(c, disk, engines, actions, 0, |actions|, 0);
    PairBlocks();
    var g := engines[|actions|];
    assert IsReceived(g.scheduler.pieces[0], 1);
    assert InPlace(PAIR, 0, g.scheduler.pieces[0].data, g.accepted[0], 1);
  }

  /** A payload as long as the whole piece. */
  function Oversized(): (data: seq<Byte>)
    ensures |data| == 8 + 16385 && forall i :: 0 <= i < |data| ==> data[i] == 0
  {
    seq(8 + 16385, _ => 0)
  }

  lemma OversizedIsStored(s: SchedulerState, e: Event)
    requires PairState(s, [Requested, Received], 1) && TablesOk(PAIR, s.pieces) && PeersOk(PAIR, s)
    requires e == Data(0, 0, 0, Oversized(), 0)
    ensures IsStored(PAIR, s, e) && !DeliversWholeBlocks(PAIR, s, e)
    ensures Handle(PAIR, s, e).diskEvents == [TryHashAndWrite(0, Overwrite(s.pieces[0].data, 0, Oversized()[8..]))]
  {
    PairBlocks();
    DeliveryIsSafe(PAIR, s, e);
    DataHandsOverOrNot(PAIR, s, e);
  }

  lemma OversizedOverwrites(data: seq<Byte>)
    requires |data| == 16385
    ensures Overwrite(data, 0, Oversized()[8..])[16384] == 0
  {
  }

  lemma OversizedIsNoAssembly(data: seq<Byte>, payloads: Payloads)
    requires 0 in payloads && |payloads[0]| == 16385
    ensures !IsAssembled(PAIR, 0, data, payloads)
  {
    PairBlocks();
  }

  lemma OversizedJob(c: Config, g: Engine, e: Event)
    requires ConfigOk(c) && c.torrent == PAIR && EngineOk(c, g) && PairState(g.scheduler, [Requested, Received], 1)
    requires e == Data(0, 0, 0, Oversized(), 0)
    ensures IsEnabled(c, g, Receive(e)) && !DeliversWholeBlocks(PAIR, g.scheduler, e)
    ensures var jobs := Next(c, g, Receive(e)).scheduler.diskEvents;
            |jobs| == 1 && jobs[0].piece == 0 && |jobs[0].data| == 16385 && jobs[0].data[16384] == 0
  {
    OversizedIsStored(g.scheduler, e);
    OversizedOverwrites(g.scheduler.pieces[0].data);
  }

  lemma OversizedRecord(c: Config, g: Engine, e: Event)
    requires ConfigOk(c) && c.torrent == PAIR && PairState(g.scheduler, [Requested, Received], 1)
    requires |g.accepted| == 1 && 1 in g.accepted[0] && g.accepted[0][1] == [7]
    requires e == Data(0, 0, 0, Oversized(), 0) && IsEnabled(c, g, Receive(e))
    ensures var accepted := Next(c, g, Receive(e)).accepted;
            && |accepted| == 1 && 1 in accepted[0] && accepted[0][1] == [7]
            && 0 in accepted[0] && |accepted[0][0]| == 16385
  {
  }

  /** The small block is answered with a 7; then a payload as long as the piece is delivered for the big one. It is
      stored over both, and the piece goes to the disk with a 0 where a 7 was delivered. */
  lemma OversizedBreaksAssembly(c: Config, disk: DiskState) returns (engines: seq<Engine>, actions: seq<Action>)
    requires ConfigOk(c) && c.torrent == PAIR && DiskOk(c, disk) && disk.saved == []
    ensures IsRun(c, disk, engines, actions) && !AllWholeBlocks(c, engines, actions)
    ensures var g := engines[|actions|];
            && |g.scheduler.diskEvents| == 1 && |g.accepted| == 1
            && var job := g.scheduler.diskEvents[0];
               && job.piece == 0 && |job.data| == 16385 && job.data[16384] == 0
               && 1 in g.accepted[0] && g.accepted[0][1] == [7]
               && !IsAssembled(PAIR, 0, job.data, g.accepted[0])
  {
    engines, actions := OneOfTwoInTheEngine(c, disk);
    var n, g, e := |actions|, engines[|actions|], Data(0, 0, 0, Oversized(), 0);
    OversizedJob(c, g, e);
    OversizedRecord(c, g, e);
    var h := Next(c, g, Receive(e));
    OversizedIsNoAssembly(h.scheduler.diskEvents[0].data, h.accepted[0]);
    OneMoreAction(c, disk, engines, actions, Receive(e));
    engines, actions := engines + [h], actions + [Receive(e)];
    assert actions[n] == Receive(e) && engines[n] == g && engines[n + 1] == h;
  }

  // The late answer in the whole engine

  lemma LateHashFails(c: Config, g: Engine)
    requires ConfigOk(c) && c.torrent == TINY && |g.disk.flat| == 1 && c.digest([1]) != c.pieceHashes[0]
    requires g.replies == [] && g.scheduler.diskEvents == [TryHashAndWrite(0, [1])]
    requires g.scheduler.pieces == [PieceBuffer([], [Received], 1, true)] && 1 in g.scheduler.slots
    ensures IsEnabled(c, g, Work(WriteOutcome(false, 0)))
    ensures var h := Next(c, g, Work(WriteOutcome(false, 0)));
            && IsEnabled(c, h, Reply)
            && Next(c, h, Reply).scheduler.pieces == [EMPTY_PIECE]
            && Next(c, h, Reply).scheduler.slots == g.scheduler.slots
  {
    var h := Next(c, g, Work(WriteOutcome(false, 0)));
    assert h.replies == [] + [HashFailed(0)] == [HashFailed(0)];
  }

  /** Before the disk has done anything, it has answered nothing. */
  lemma {:induction false} NoRepliesYet(c: Config, disk: DiskState, engines: seq<Engine>, actions: seq<Action>, i: nat)
    requires IsRun(c, disk, engines, actions) && i < |engines|
    requires forall j :: 0 <= j < |actions| ==> actions[j].Receive?
    ensures engines[i].replies == [] && engines[i].disk == disk
  {
    if i > 0 {
      NoRepliesYet(c, disk, engines, actions, i - 1);
    }
  }

  lemma HashFails(c: Config, g: Engine) returns (h: Engine, t: Engine)
    requires ConfigOk(c) && c.torrent == TINY && |g.disk.flat| == 1 && c.digest([1]) != c.pieceHashes[0]
    requires g.replies == [] && g.scheduler.diskEvents == [TryHashAndWrite(0, [1])]
    requires g.scheduler.pieces == [PieceBuffer([], [Received], 1, true)] && 1 in g.scheduler.slots
    requires g.scheduler.slots[1].inFlight == [InFlightBlock(TINY_BLOCK, REQUEST_TIMEOUT)]
    ensures IsEnabled(c, g, Work(WriteOutcome(false, 0))) && h == Next(c, g, Work(WriteOutcome(false, 0)))
    ensures IsEnabled(c, h, Reply) && t == Next(c, h, Reply)
    ensures IsOffered(TINY, t.scheduler, Disconnect(1)) && !IsEnabled(c, t, Receive(Disconnect(1)))
  {
    LateHashFails(c, g);
    h := Next(c, g, Work(WriteOutcome(false, 0)));
    t := Next(c, h, Reply);
    StaleEntry(t.scheduler);
  }

  lemma LateAnswerInTheEngine(c: Config, disk: DiskState) returns (engines: seq<Engine>, actions: seq<Action>, i: nat)
    requires ConfigOk(c) && c.torrent == TINY && DiskOk(c, disk) && disk.saved == []
    ensures IsRun(c, disk, engines, actions)
    ensures i < |actions| && actions[i].Receive? && !IsUncontested(TINY, engines[i].scheduler, actions[i].e)
    ensures var g := engines[|actions|];
            && g.replies == [] && g.disk == disk
            && g.scheduler.pieces == [PieceBuffer([], [Received], 1, true)]
            && g.scheduler.diskEvents == [TryHashAndWrite(0, [1])]
            && 1 in g.scheduler.slots && g.scheduler.slots[1].inFlight == [InFlightBlock(TINY_BLOCK, REQUEST_TIMEOUT)]
  {
    var states, events;
    states, events, i := LateAnswer();
    engines, actions := AsEngineRun(c, disk, states, events);
    NoRepliesYet(c, disk, engines, actions, |actions|);
  }

  /** The same in a run of scheduler and disk, for a piece whose bytes have the wrong digest: afterwards the second
      peer may leave, but the scheduler cannot handle it. */
  lemma LateAnswersCanPanicTheEngine(c: Config, disk: DiskState) returns (engines: seq<Engine>, actions: seq<Action>)
    requires ConfigOk(c) && c.torrent == TINY && DiskOk(c, disk) && disk.saved == []
    requires c.digest([1]) != c.pieceHashes[0]
    ensures IsRun(c, disk, engines, actions) && !AllUncontested(c, engines, actions)
    ensures var g := engines[|actions|];
            IsOffered(TINY, g.scheduler, Disconnect(1)) && !IsEnabled(c, g, Receive(Disconnect(1)))
  {
    var before, past, i := LateAnswerInTheEngine(c, disk);
    var h, t := HashFails(c, before[|past|]);
    OneMoreAction(c, disk, before, past, Work(WriteOutcome(false, 0)));
    OneMoreAction(c, disk, before + [h], past + [Work(WriteOutcome(false, 0))], Reply);
    engines := before + [h] + [t];
    actions := past + [Work(WriteOutcome(false, 0))] + [Reply];
    assert engines[i] == before[i] && actions[i] == past[i];
  }
}
