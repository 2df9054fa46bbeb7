/** The theorems: what holds in every state of every run. */
module Runs {
  import opened Metainfo
  import opened Pieces
  import opened Ledgers
  import opened SchedulerModel
  import opened Wanted
  import opened Orphans
  import opened Tables
  import opened Connections
  import opened Inventories
  import opened Registry
  import opened Ownership
  import opened Completion
  import opened DiskModel
  import opened Engine
  import opened Resume
  import opened Assembly
  import opened Tiles
  import Peers

  // Runs of the scheduler alone, against any peers and any disk

  ghost predicate IsSchedulerRun(m: Torrent, states: seq<SchedulerState>, events: seq<Event>) {
    && |states| == |events| + 1
    && states[0] == NewScheduler(m)
    && forall i :: 0 <= i < |events| ==>
         IsSafe(m, states[i], events[i]) && states[i + 1] == Handle(m, states[i], events[i])
  }

  ghost predicate AllLegitimate(m: Torrent, states: seq<SchedulerState>, events: seq<Event>)
    requires |states| == |events| + 1
  {
    forall i :: 0 <= i < |events| ==> IsLegitimate(m, states[i], events[i])
  }

  /** No orphaned block: after any events that do not panic, answered or not, late, repeated or forged, every
      requested block of an incomplete piece is in the ledger of a connected peer. */
  lemma {:induction false} NoOrphanInAnyRun(m: Torrent, states: seq<SchedulerState>, events: seq<Event>, i: nat)
    requires IsSchedulerRun(m, states, events) && i < |states|
    ensures NoOrphan(states[i])
  {
    if i > 0 {
      NoOrphanInAnyRun(m, states, events, i - 1);
      NoOrphanStep(m, states[i - 1], events[i - 1]);
    }
  }

  /** After a timeout scan every requested block of an incomplete piece has an entry younger than the timeout. */
  lemma FreshAfterScan(m: Torrent, states: seq<SchedulerState>, events: seq<Event>, i: nat, key: BlockKey)
    requires IsSchedulerRun(m, states, events) && i < |events| && events[i].Tick?
    requires IsWanted(states[i + 1].pieces, key)
    ensures IsFreshlyHeld(states[i + 1], key, events[i].now)
  {
    NoOrphanInAnyRun(m, states, events, i);
    ScanKeepsNoOrphan(states[i], events[i].now);
  }

  lemma {:induction false} TablesUpTo(m: Torrent, states: seq<SchedulerState>, events: seq<Event>, i: nat)
    requires IsSchedulerRun(m, states, events) && i < |states|
    requires forall j :: 0 <= j < i ==> !ConfirmsPartialPiece(states[j], events[j])
    ensures TablesOk(m, states[i].pieces)
  {
    if i > 0 {
      TablesUpTo(m, states, events, i - 1);
      TablesStep(m, states[i - 1], events[i - 1]);
    }
  }

  /** The piece tables are consistent in every state of a run if, and only if, no piece is ever confirmed of which
      only some blocks have arrived. */
  lemma TablesInAnyRun(m: Torrent, states: seq<SchedulerState>, events: seq<Event>)
    requires IsSchedulerRun(m, states, events)
    ensures (forall i :: 0 <= i < |states| ==> TablesOk(m, states[i].pieces)) <==>
              (forall i :: 0 <= i < |events| ==> !ConfirmsPartialPiece(states[i], events[i]))
  {
    if forall i :: 0 <= i < |states| ==> TablesOk(m, states[i].pieces) {
      forall i | 0 <= i < |events|
        ensures !ConfirmsPartialPiece(states[i], events[i])
      {
        assert TablesOk(m, states[i + 1].pieces);
        TablesStep(m, states[i], events[i]);
      }
    }
    if forall i :: 0 <= i < |events| ==> !ConfirmsPartialPiece(states[i], events[i]) {
      forall i | 0 <= i < |states|
        ensures TablesOk(m, states[i].pieces)
      {
        TablesUpTo(m, states, events, i);
      }
    }
  }

  lemma {:induction false} ConnectionsInAnyRun(m: Torrent, states: seq<SchedulerState>, events: seq<Event>, i: nat)
    requires IsSchedulerRun(m, states, events) && AllLegitimate(m, states, events) && i < |states|
    ensures PeersOk(m, states[i]) && RegistryOk(states[i])
  {
    if i > 0 {
      ConnectionsInAnyRun(m, states, events, i - 1);
      PeersStep(m, states[i - 1], events[i - 1]);
      RegistryStep(m, states[i - 1], events[i - 1]);
    }
  }

  /** In every state the flags tell what the last messages of each connection about choking and interest said. */
  lemma {:induction false} FlagsInAnyRun(m: Torrent, states: seq<SchedulerState>, events: seq<Event>, i: nat)
    requires IsSchedulerRun(m, states, events) && i < |states|
    ensures ChokesTracked(states[i], events[..i]) && InterestTracked(states[i], events[..i])
  {
    if i > 0 {
      FlagsInAnyRun(m, states, events, i - 1);
      InterestStep(m, states[i - 1], events[i - 1], events[..i - 1]);
      ChokesStep(m, states[i - 1], events[i - 1], events[..i - 1]);
      assert events[..i] == events[..i - 1] + [events[i - 1]];
    }
  }

  /** In every state the recorded bitfield of each connection is exactly what its last bitfield and the announcements
      since said, and we are interested exactly in the peers that have said anything. */
  lemma {:induction false} InventoriesInAnyRun(m: Torrent, states: seq<SchedulerState>, events: seq<Event>, i: nat)
    requires IsSchedulerRun(m, states, events) && i < |states|
    ensures InventoriesTracked(states[i], events[..i])
  {
    if i > 0 {
      InventoriesInAnyRun(m, states, events, i - 1);
      InventoriesStep(m, states[i - 1], events[i - 1], events[..i - 1]);
      assert events[..i] == events[..i - 1] + [events[i - 1]];
    }
  }

  /** Window and gating: whenever an event makes the scheduler send a peer requests, the last choke message of
      that peer was an unchoke, interest had been declared, at most half the window was in use, and the window of
      40 is respected afterwards. */
  lemma RequestsOnlyWhenUnchoked(m: Torrent, states: seq<SchedulerState>, events: seq<Event>, i: nat, k: nat, j: nat)
    requires IsSchedulerRun(m, states, events) && AllLegitimate(m, states, events) && i < |events|
    requires k in states[i].slots && k in states[i + 1].slots
    requires |states[i].slots[k].sent| <= j < |states[i + 1].slots[k].sent|
    requires states[i + 1].slots[k].sent[j].BlocksToDownload?
    ensures !ChokedAfter(events[..i + 1], k)
    ensures IsGated(states[i + 1], k, j)
    ensures |states[i + 1].slots[k].inFlight| <= 40
    ensures InterestShownBefore(states[i + 1].slots[k].sent, j)
  {
    ConnectionsInAnyRun(m, states, events, i + 1);
    FlagsInAnyRun(m, states, events, i + 1);
    RequestsAreGated(m, states[i], events[i], k, j);
  }

  // Runs of scheduler and disk together

  ghost predicate IsRun(c: Config, disk: DiskState, states: seq<Engine>, actions: seq<Action>) {
    && ConfigOk(c) && DiskOk(c, disk)
    && |states| == |actions| + 1
    && states[0] == Boot(c, disk)
    && forall i :: 0 <= i < |actions| ==>
         IsEnabled(c, states[i], actions[i]) && states[i + 1] == Next(c, states[i], actions[i])
  }

  lemma {:induction false} EngineInEveryRun(c: Config, disk: DiskState, states: seq<Engine>, actions: seq<Action>,
                                            i: nat)
    requires IsRun(c, disk, states, actions) && i < |states|
    ensures EngineOk(c, states[i])
  {
    if i == 0 {
      BootIsOk(c, disk);
    } else {
      EngineInEveryRun(c, disk, states, actions, i - 1);
      EngineStep(c, states[i - 1], actions[i - 1]);
    }
  }

  /** The piece tables are consistent in every state: the disk confirms only what it was handed. */
  lemma TablesInEveryEngineRun(c: Config, disk: DiskState, states: seq<Engine>, actions: seq<Action>, i: nat)
    requires IsRun(c, disk, states, actions) && i < |states|
    ensures TablesOk(c.torrent, states[i].scheduler.pieces)
  {
    EngineInEveryRun(c, disk, states, actions, i);
  }

  /** The piece is recorded in both states and its bytes are the same. */
  ghost predicate IsKept(m: Torrent, before: DiskState, after: DiskState, p: nat) {
    && p < m.numPieces && |before.flat| == |after.flat| == m.totalLen
    && p in before.saved && p in after.saved
    && PieceBytes(m, after.flat, p) == PieceBytes(m, before.flat, p)
  }

  lemma RecordedIsTrue(c: Config, disk: DiskState, states: seq<Engine>, actions: seq<Action>, i: nat, p: nat)
    requires IsRun(c, disk, states, actions) && i < |states| && p in states[i].disk.saved
    ensures IsKept(c.torrent, states[i].disk, states[i].disk, p)
    ensures c.digest(PieceBytes(c.torrent, states[i].disk.flat, p)) == c.pieceHashes[p]
  {
    EngineInEveryRun(c, disk, states, actions, i);
  }

  lemma KeptByOneStep(c: Config, disk: DiskState, states: seq<Engine>, actions: seq<Action>, i: nat, p: nat)
    requires IsRun(c, disk, states, actions) && i < |actions| && p in states[i].disk.saved
    ensures IsKept(c.torrent, states[i].disk, states[i + 1].disk, p)
  {
    EngineInEveryRun(c, disk, states, actions, i);
    SavedBytesStay(c, states[i], actions[i], p);
  }

  lemma {:induction false} KeptForever(c: Config, disk: DiskState, states: seq<Engine>, actions: seq<Action>, i: nat,
                                       j: nat, p: nat)
    requires IsRun(c, disk, states, actions) && i <= j < |states| && p in states[i].disk.saved
    ensures IsKept(c.torrent, states[i].disk, states[j].disk, p)
    decreases j
  {
    if i == j {
      RecordedIsTrue(c, disk, states, actions, i, p);
    } else {
      KeptForever(c, disk, states, actions, i, j - 1, p);
      KeptByOneStep(c, disk, states, actions, j - 1, p);
    }
  }

  // What reaches the files

  /** The bytes of a piece are replaced from the front by data that has the digest of the piece. */
  ghost predicate IsVerifiedWrite(c: Config, p: nat, before: seq<Byte>, after: seq<Byte>, data: seq<Byte>, written: nat)
    requires p < |c.pieceHashes|
  {
    && c.digest(data) == c.pieceHashes[p] && |data| == |before| && written <= |data|
    && IsPatch(before, after, 0, data[..written])
  }

  ghost predicate IsVerifiedChange(c: Config, p: nat, before: seq<Byte>, after: seq<Byte>)
    requires p < |c.pieceHashes|
  {
    after == before || exists data, written :: IsVerifiedWrite(c, p, before, after, data, written)
  }

  lemma WritingIsVerified(c: Config, d: DiskState, job: DiskEvent, written: nat, p: nat)
    requires ConfigOk(c) && JobFits(c.torrent, d, job) && written <= |job.data| && p < c.torrent.numPieces
    requires c.digest(job.data) == c.pieceHashes[job.piece]
    ensures IsVerifiedChange(c, p, PieceBytes(c.torrent, d.flat, p),
                             PieceBytes(c.torrent, PartlyWritten(c.torrent, d, job, written).flat, p))
  {
    if p == job.piece {
      PartIsAtTheFront(c.torrent, d, job, written);
      var before, after := PieceBytes(c.torrent, d.flat, p), PartlyWritten(c.torrent, d, job, written);
      assert IsVerifiedWrite(c, p, before, PieceBytes(c.torrent, after.flat, p), job.data, written);
    } else {
      WriteLeavesOtherPieces(c.torrent, d, job, written, p);
    }
  }

  lemma StepIsVerified(c: Config, g: Engine, a: Action, p: nat)
    requires ConfigOk(c) && IsEnabled(c, g, a) && |g.disk.flat| == c.torrent.totalLen && p < c.torrent.numPieces
    ensures |Next(c, g, a).disk.flat| == c.torrent.totalLen
    ensures IsVerifiedChange(c, p, PieceBytes(c.torrent, g.disk.flat, p),
                             PieceBytes(c.torrent, Next(c, g, a).disk.flat, p))
  {
    if (a.Work? || a.Restart?) && g.scheduler.diskEvents != [] {
      var job := g.scheduler.diskEvents[0];
      if c.digest(job.data) == c.pieceHashes[job.piece] {
        WritingIsVerified(c, g.disk, job, if a.Work? then a.outcome.written else a.torn, p);
      }
    }
  }

  /** Data with a wrong digest never reaches the files: whatever happens, a torn write included, the bytes of a piece
      stay as they are or are replaced, from the front, by data that has the piece's digest. */
  lemma OnlyVerifiedBytesAreWritten(c: Config, disk: DiskState, states: seq<Engine>, actions: seq<Action>, i: nat,
                                    p: nat)
    requires IsRun(c, disk, states, actions) && i < |actions| && p < c.torrent.numPieces
    ensures |states[i].disk.flat| == |states[i + 1].disk.flat| == c.torrent.totalLen
    ensures IsVerifiedChange(c, p, PieceBytes(c.torrent, states[i].disk.flat, p),
                             PieceBytes(c.torrent, states[i + 1].disk.flat, p))
  {
    EngineInEveryRun(c, disk, states, actions, i);
    StepIsVerified(c, states[i], actions[i], p);
  }

  /** A stop in the middle of a verified write leaves the part that had been written, and no record of it. */
  lemma StopTearsTheWrite(c: Config, g: Engine, torn: nat)
    requires ConfigOk(c) && IsEnabled(c, g, Restart(torn)) && g.scheduler.diskEvents != []
    requires c.digest(g.scheduler.diskEvents[0].data) == c.pieceHashes[g.scheduler.diskEvents[0].piece]
    ensures var job, after := g.scheduler.diskEvents[0], Next(c, g, Restart(torn)).disk;
            && after.saved == g.disk.saved && |after.flat| == |g.disk.flat|
            && IsPatch(PieceBytes(c.torrent, g.disk.flat, job.piece), PieceBytes(c.torrent, after.flat, job.piece), 0,
                       job.data[..torn])
  {
    PartIsAtTheFront(c.torrent, g.disk, g.scheduler.diskEvents[0], torn);
  }

  /** The byte is one the program found, or belongs to data with the digest of the piece. */
  ghost predicate IsFoundOrVerified(c: Config, p: nat, found: seq<Byte>, bytes: seq<Byte>, x: nat)
    requires p < |c.pieceHashes| && x < |bytes| == |found|
  {
    bytes[x] == found[x]
    || exists data: seq<Byte> :: |data| == |bytes| && c.digest(data) == c.pieceHashes[p] && data[x] == bytes[x]
  }

  lemma ChangeKeepsOrigin(c: Config, p: nat, found: seq<Byte>, before: seq<Byte>, after: seq<Byte>, x: nat)
    requires p < |c.pieceHashes| && x < |before| == |found| && IsFoundOrVerified(c, p, found, before, x)
    requires IsVerifiedChange(c, p, before, after)
    ensures |after| == |found| && IsFoundOrVerified(c, p, found, after, x)
  {
    if after != before {
      var data, written :| IsVerifiedWrite(c, p, before, after, data, written);
      assert after[x] == if x < written then data[x] else before[x];
    }
  }

  /** So every byte of the files, in every state, is one that was there when the program was first started, or belongs
      to data with the digest of its piece. */
  lemma {:induction false} EveryByteIsFoundOrVerified(c: Config, disk: DiskState, states: seq<Engine>,
        actions: seq<Action>, i: nat, p: nat, x: nat)
    requires IsRun(c, disk, states, actions) && i < |states| && p < c.torrent.numPieces
    requires x < PieceLen(c.torrent, p)
    ensures |states[i].disk.flat| == c.torrent.totalLen
    ensures IsFoundOrVerified(c, p, PieceBytes(c.torrent, disk.flat, p),
                              PieceBytes(c.torrent, states[i].disk.flat, p), x)
  {
    if i > 0 {
      EveryByteIsFoundOrVerified(c, disk, states, actions, i - 1, p, x);
      OnlyVerifiedBytesAreWritten(c, disk, states, actions, i - 1, p);
      ChangeKeepsOrigin(c, p, PieceBytes(c.torrent, disk.flat, p), PieceBytes(c.torrent, states[i - 1].disk.flat, p),
                        PieceBytes(c.torrent, states[i].disk.flat, p), x);
    }
  }

  /** A session starts with exactly the recorded pieces complete, and counts them; it knows no peer. */
  lemma SessionsResumeWhatIsRecorded(c: Config, disk: DiskState, states: seq<Engine>, actions: seq<Action>, i: nat)
    requires IsRun(c, disk, states, actions) && i < |states| && (i > 0 ==> actions[i - 1].Restart?)
    ensures var s := states[i].scheduler;
            && |s.pieces| == c.torrent.numPieces
            && (forall p :: 0 <= p < |s.pieces| ==> (s.pieces[p].complete <==> p in states[i].disk.saved))
            && s.completedPieces == CompleteCount(s.pieces)
            && s.existingPeers == {} && s.slots == map[] && s.diskEvents == []
  {
    EngineInEveryRun(c, disk, states, actions, i);
  }

  // Durable resume

  /** Durable resume: in every state, across failed and interrupted writes and restarts, each piece the resume
      file names has the right digest, and from then on it is named forever and its bytes never change. Peers
      may send anything. */
  lemma DurableResume(c: Config, disk: DiskState, states: seq<Engine>, actions: seq<Action>, i: nat, j: nat, p: nat)
    requires IsRun(c, disk, states, actions) && i <= j < |states| && p in states[i].disk.saved
    ensures IsKept(c.torrent, states[i].disk, states[j].disk, p)
    ensures c.digest(PieceBytes(c.torrent, states[j].disk.flat, p)) == c.pieceHashes[p]
  {
    KeptForever(c, disk, states, actions, i, j, p);
    RecordedIsTrue(c, disk, states, actions, j, p);
  }

  /** ... so across failures and restarts a recorded piece counts as complete and is in no job ... */
  lemma RecordedIsNeverQueued(c: Config, disk: DiskState, states: seq<Engine>, actions: seq<Action>, i: nat, j: nat,
                              p: nat)
    requires IsRun(c, disk, states, actions) && i <= j < |states| && p in states[i].disk.saved
    ensures p < |states[j].scheduler.pieces| && states[j].scheduler.pieces[p].complete
    ensures forall l :: 0 <= l < |states[j].scheduler.diskEvents| ==> states[j].scheduler.diskEvents[l].piece != p
  {
    KeptForever(c, disk, states, actions, i, j, p);
    EngineInEveryRun(c, disk, states, actions, j);
    forall l | 0 <= l < |states[j].scheduler.diskEvents|
      ensures states[j].scheduler.diskEvents[l].piece != p
    {
      assert JobPieces(states[j].scheduler.diskEvents)[l] == states[j].scheduler.diskEvents[l].piece;
    }
  }

  /** ... and no event makes the scheduler send a request for it. */
  lemma RecordedIsNeverRequested(c: Config, disk: DiskState, states: seq<Engine>, actions: seq<Action>, i: nat, j: nat,
                                 p: nat, k: nat, l: nat)
    requires IsRun(c, disk, states, actions) && i <= j < |actions| && p in states[i].disk.saved && actions[j].Receive?
    requires k in states[j].scheduler.slots && k in states[j + 1].scheduler.slots
    requires |states[j].scheduler.slots[k].sent| <= l < |states[j + 1].scheduler.slots[k].sent|
    requires states[j + 1].scheduler.slots[k].sent[l].BlocksToDownload?
    ensures forall r :: r in states[j + 1].scheduler.slots[k].sent[l].blocks ==> r.pieceIndex != p
  {
    RecordedIsNeverQueued(c, disk, states, actions, i, j + 1, p);
    RequestsAreGated(c.torrent, states[j].scheduler, actions[j].e, k, l);
  }

  /** Scheduler and disk: in every state at most one job or answer per piece is on its way, always for a complete
      piece. */
  lemma OneJobPerPiece(c: Config, disk: DiskState, states: seq<Engine>, actions: seq<Action>, i: nat)
    requires IsRun(c, disk, states, actions) && i < |states|
    ensures Distinct(Outstanding(states[i]))
    ensures forall p :: p in Outstanding(states[i]) ==>
              p < |states[i].scheduler.pieces| && states[i].scheduler.pieces[p].complete
  {
    EngineInEveryRun(c, disk, states, actions, i);
  }

  ghost predicate SameSession(actions: seq<Action>, i: nat, j: nat)
    requires i <= j <= |actions|
  {
    forall l :: i <= l < j ==> !actions[l].Restart?
  }

  lemma {:induction false} ConfirmedUpTo(c: Config, disk: DiskState, states: seq<Engine>, actions: seq<Action>,
                                         i: nat, j: nat, p: nat)
    requires IsRun(c, disk, states, actions) && i < j < |states| && SameSession(actions, i, j)
    requires actions[i] == Reply && states[i].replies != [] && states[i].replies[0] == PieceHashedAndWritten(p)
    ensures IsDone(states[j], p)
    decreases j
  {
    if i + 1 == j {
      EngineInEveryRun(c, disk, states, actions, i);
      ReplyKeepsQueues(c, states[i]);
    } else {
      ConfirmedUpTo(c, disk, states, actions, i, j - 1, p);
      EngineInEveryRun(c, disk, states, actions, j - 1);
      DoneStays(c, states[j - 1], actions[j - 1], p);
    }
  }

  /** A piece whose success the scheduler has handled stays complete, with nothing on its way, to the end of the
      session. */
  lemma ConfirmedForever(c: Config, disk: DiskState, states: seq<Engine>, actions: seq<Action>, i: nat, j: nat, p: nat)
    requires IsRun(c, disk, states, actions) && i < j < |states| && SameSession(actions, i, j)
    requires actions[i] == Reply && states[i].replies != [] && states[i].replies[0] == PieceHashedAndWritten(p)
    ensures Distinct(Outstanding(states[i])) && p == Outstanding(states[i])[0]
    ensures IsDone(states[j], p)
  {
    OneJobPerPiece(c, disk, states, actions, i);
    ConfirmedUpTo(c, disk, states, actions, i, j, p);
  }

  /** ... and it is never requested again: no event makes the scheduler send a request for it. */
  lemma ConfirmedIsNotRequested(c: Config, disk: DiskState, states: seq<Engine>, actions: seq<Action>, i: nat, p: nat,
                                k: nat, j: nat)
    requires IsRun(c, disk, states, actions) && i < |actions| && actions[i].Receive? && IsDone(states[i], p)
    requires k in states[i].scheduler.slots && k in states[i + 1].scheduler.slots
    requires |states[i].scheduler.slots[k].sent| <= j < |states[i + 1].scheduler.slots[k].sent|
    requires states[i + 1].scheduler.slots[k].sent[j].BlocksToDownload?
    ensures forall r :: r in states[i + 1].scheduler.slots[k].sent[j].blocks ==> r.pieceIndex != p
  {
    EngineInEveryRun(c, disk, states, actions, i);
    DoneStays(c, states[i], actions[i], p);
    RequestsAreGated(c.torrent, states[i].scheduler, actions[i].e, k, j);
  }

  /** At this point of the run the scheduler handles the news that the piece is on disk. */
  predicate ConfirmsAt(states: seq<Engine>, actions: seq<Action>, l: nat, p: nat)
    requires l < |actions| < |states|
  {
    actions[l] == Reply && states[l].replies != [] && states[l].replies[0] == PieceHashedAndWritten(p)
  }

  ghost predicate ConfirmedInSession(states: seq<Engine>, actions: seq<Action>, i: nat, p: nat)
    requires i <= |actions| < |states|
  {
    exists l :: 0 <= l < i && SameSession(actions, l, i) && ConfirmsAt(states, actions, l, p)
  }

  lemma ConfirmedStays(states: seq<Engine>, actions: seq<Action>, i: nat, p: nat)
    requires i < |actions| < |states| && !actions[i].Restart? && ConfirmedInSession(states, actions, i, p)
    ensures ConfirmedInSession(states, actions, i + 1, p)
  {
    var l :| 0 <= l < i && SameSession(actions, l, i) && ConfirmsAt(states, actions, l, p);
    assert SameSession(actions, l, i + 1);
  }

  /** What an action adds to the announcements of a connection that it does not open. */
  lemma AnnouncedByOneStep(c: Config, g: Engine, a: Action, k: nat, p: nat)
    requires ConfigOk(c) && IsEnabled(c, g, a) && k in Next(c, g, a).scheduler.slots
    requires p in Haves(Next(c, g, a).scheduler.slots[k].sent)
    ensures !a.Restart?
    ensures (k in g.scheduler.slots && p in Haves(g.scheduler.slots[k].sent))
            || (a == Reply && g.replies[0] == PieceHashedAndWritten(p))
  {
    match a
    case Receive(e) => Announcements(c.torrent, g.scheduler, e, k);
    case Work(_) =>
    case Reply => Announcements(c.torrent, g.scheduler, g.replies[0], k);
    case Restart(_) =>
  }

  lemma {:induction false} AnnouncedWasConfirmed(c: Config, disk: DiskState, states: seq<Engine>, actions: seq<Action>,
                                                 i: nat, k: nat, p: nat)
    requires IsRun(c, disk, states, actions) && i < |states| && k in states[i].scheduler.slots
    requires p in Haves(states[i].scheduler.slots[k].sent)
    ensures ConfirmedInSession(states, actions, i, p)
  {
    if i > 0 {
      AnnouncedByOneStep(c, states[i - 1], actions[i - 1], k, p);
      if k in states[i - 1].scheduler.slots && p in Haves(states[i - 1].scheduler.slots[k].sent) {
        AnnouncedWasConfirmed(c, disk, states, actions, i - 1, k, p);
        ConfirmedStays(states, actions, i - 1, p);
      } else {
        assert SameSession(actions, i - 1, i) && ConfirmsAt(states, actions, i - 1, p);
      }
    }
  }

  /** Announcements: a peer is told of a piece at most once per connection, and only of a piece whose success the
      scheduler has handled before in the same session; pieces resumed from the disk are not announced. */
  lemma AnnouncedOnceAfterConfirmation(c: Config, disk: DiskState, states: seq<Engine>, actions: seq<Action>, i: nat,
                                       k: nat)
    requires IsRun(c, disk, states, actions) && i < |states| && k in states[i].scheduler.slots
    ensures var haves := Haves(states[i].scheduler.slots[k].sent);
            && Distinct(haves)
            && forall p :: p in haves ==> ConfirmedInSession(states, actions, i, p) && IsDone(states[i], p)
  {
    EngineInEveryRun(c, disk, states, actions, i);
    forall p | p in Haves(states[i].scheduler.slots[k].sent)
      ensures ConfirmedInSession(states, actions, i, p)
    {
      AnnouncedWasConfirmed(c, disk, states, actions, i, k, p);
    }
  }

  /** Conservation: complete pieces are those counted and those on their way through the disk; the counter never
      decreases within a session and never exceeds the number of pieces. */
  lemma PiecesAreConserved(c: Config, disk: DiskState, states: seq<Engine>, actions: seq<Action>, i: nat)
    requires IsRun(c, disk, states, actions) && i < |states|
    ensures var s := states[i].scheduler;
            && CompleteCount(s.pieces) == s.completedPieces + |Outstanding(states[i])|
            && s.completedPieces <= c.torrent.numPieces
    ensures i < |actions| && !actions[i].Restart? ==>
              states[i].scheduler.completedPieces <= states[i + 1].scheduler.completedPieces
  {
    EngineInEveryRun(c, disk, states, actions, i);
    if i < |actions| {
      match actions[i]
      case Receive(e) => var handed, p, data := ReceiveEffect(c, states[i], e);
      case Work(_) =>
      case Reply =>
      case Restart(_) =>
    }
  }

  /** Every request ever put into a channel or a ledger is one of the blocks that tile the torrent, whatever the
      peers send. */
  lemma {:induction false} OnlyTilesAreRequested(c: Config, disk: DiskState, states: seq<Engine>,
        actions: seq<Action>, i: nat)
    requires IsRun(c, disk, states, actions) && i < |states|
    ensures TilesOk(c.torrent, states[i].scheduler)
  {
    if i > 0 {
      OnlyTilesAreRequested(c, disk, states, actions, i - 1);
      EngineInEveryRun(c, disk, states, actions, i - 1);
      var g := states[i - 1];
      match actions[i - 1]
      case Receive(e) => TilesStep(c.torrent, g.scheduler, e);
      case Work(_) =>
      case Reply =>
        AnswerIsInTurn(c, g);
        TilesStep(c.torrent, g.scheduler, g.replies[0]);
      case Restart(_) =>
    }
  }

  /** ... so the connection can write every command it is ever given: indices, offsets and lengths fit the 32-bit
      fields of the wire. */
  lemma EveryCommandIsSendable(c: Config, disk: DiskState, states: seq<Engine>, actions: seq<Action>, i: nat, k: nat)
    requires IsRun(c, disk, states, actions) && i < |states| && k in states[i].scheduler.slots
    ensures Peers.AllSendable(states[i].scheduler.slots[k].sent)
  {
    OnlyTilesAreRequested(c, disk, states, actions, i);
    var sent := states[i].scheduler.slots[k].sent;
    forall j | 0 <= j < |sent|
      ensures Peers.IsSendable(sent[j])
    {
      assert sent[j] in sent;
      Peers.CommandsAreSendable(c.torrent, sent[j]);
    }
  }

  // Exact ownership

  /** No stored delivery is contested. */
  ghost predicate AllUncontested(c: Config, states: seq<Engine>, actions: seq<Action>)
    requires |states| == |actions| + 1
  {
    forall i :: 0 <= i < |actions| && actions[i].Receive? ==>
      IsUncontested(c.torrent, states[i].scheduler, actions[i].e)
  }

  lemma OwnershipByOneStep(c: Config, g: Engine, a: Action)
    requires ConfigOk(c) && IsEnabled(c, g, a) && EngineOk(c, g) && OwnershipOk(c.torrent, g.scheduler)
    ensures OwnershipOk(c.torrent, Next(c, g, a).scheduler) <==>
              (a.Receive? ==> IsUncontested(c.torrent, g.scheduler, a.e))
  {
    match a
    case Receive(e) => OwnershipStep(c.torrent, g.scheduler, e);
    case Work(outcome) => SameOwnership(c.torrent, g.scheduler, Next(c, g, a).scheduler);
    case Reply =>
      AnswerIsInTurn(c, g);
      OwnershipStep(c.torrent, g.scheduler, g.replies[0]);
    case Restart(torn) => BootIsOwned(c, Interrupted(c, g, torn));
  }

  lemma {:induction false} OwnershipUpTo(c: Config, disk: DiskState, states: seq<Engine>, actions: seq<Action>, i: nat)
    requires IsRun(c, disk, states, actions) && AllUncontested(c, states, actions) && i < |states|
    ensures EngineOk(c, states[i]) && OwnershipOk(c.torrent, states[i].scheduler)
  {
    EngineInEveryRun(c, disk, states, actions, i);
    if i == 0 {
      BootIsOwned(c, disk);
    } else {
      OwnershipUpTo(c, disk, states, actions, i - 1);
      OwnershipByOneStep(c, states[i - 1], actions[i - 1]);
    }
  }

  /** Ownership is exact in every state of a run if, and only if, no stored delivery of the run is contested. Hash
      failures, write failures, timeouts, disconnects and restarts do no harm. */
  lemma OwnershipInAnyRun(c: Config, disk: DiskState, states: seq<Engine>, actions: seq<Action>)
    requires IsRun(c, disk, states, actions)
    ensures (forall i :: 0 <= i < |states| ==> OwnershipOk(c.torrent, states[i].scheduler)) <==>
              AllUncontested(c, states, actions)
  {
    if forall i :: 0 <= i < |states| ==> OwnershipOk(c.torrent, states[i].scheduler) {
      forall i | 0 <= i < |actions| && actions[i].Receive?
        ensures IsUncontested(c.torrent, states[i].scheduler, actions[i].e)
      {
        assert OwnershipOk(c.torrent, states[i + 1].scheduler);
        EngineInEveryRun(c, disk, states, actions, i);
        OwnershipByOneStep(c, states[i], actions[i]);
      }
    }
    if AllUncontested(c, states, actions) {
      forall i | 0 <= i < |states|
        ensures OwnershipOk(c.torrent, states[i].scheduler)
      {
        OwnershipUpTo(c, disk, states, actions, i);
      }
    }
  }

  /** Exact ownership: then a block has one ledger entry if it is requested and its piece incomplete, else none. */
  lemma ExactOwnership(c: Config, disk: DiskState, states: seq<Engine>, actions: seq<Action>, i: nat, key: BlockKey)
    requires IsRun(c, disk, states, actions) && AllUncontested(c, states, actions) && i < |states|
    ensures |Holders(states[i].scheduler, key)| == if IsWanted(states[i].scheduler.pieces, key) then 1 else 0
  {
    OwnershipUpTo(c, disk, states, actions, i);
    ExactlyOneHolder(c.torrent, states[i].scheduler, key);
  }

  // Piece assembly

  /** Every stored delivery is a whole block. */
  ghost predicate AllWholeBlocks(c: Config, states: seq<Engine>, actions: seq<Action>)
    requires |states| == |actions| + 1
  {
    forall i :: 0 <= i < |actions| && actions[i].Receive? ==>
      DeliversWholeBlocks(c.torrent, states[i].scheduler, actions[i].e)
  }

  /** Here the piece starts from scratch: at the beginning, after a restart, or after the failure of the piece. */
  predicate StartsAt(states: seq<Engine>, actions: seq<Action>, l: nat, p: nat)
    requires l <= |actions| < |states|
  {
    || l == 0
    || actions[l - 1].Restart?
    || (actions[l - 1] == Reply && states[l - 1].replies != [] && IsFailure(states[l - 1].replies[0], p))
  }

  /** From then on, every delivery stored for the piece is a whole block. */
  ghost predicate WholeBlocksSince(c: Config, states: seq<Engine>, actions: seq<Action>, l: nat, i: nat, p: nat)
    requires l <= i <= |actions| < |states|
  {
    forall j :: l <= j < i && actions[j].Receive? && actions[j].e.Data? && actions[j].e.piece == p ==>
      DeliversWholeBlocks(c.torrent, states[j].scheduler, actions[j].e)
  }

  lemma {:induction false} OneRecordPerPiece(c: Config, disk: DiskState, states: seq<Engine>, actions: seq<Action>,
                                             i: nat)
    requires IsRun(c, disk, states, actions) && i < |states|
    ensures |states[i].accepted| == c.torrent.numPieces
  {
    if i > 0 {
      OneRecordPerPiece(c, disk, states, actions, i - 1);
    }
  }

  lemma AssemblyStarts(c: Config, disk: DiskState, states: seq<Engine>, actions: seq<Action>, l: nat, p: nat)
    requires IsRun(c, disk, states, actions) && l < |states| && p < c.torrent.numPieces
    requires StartsAt(states, actions, l, p)
    ensures AssemblyOk(c, states[l], p)
  {
    if l == 0 {
      BootKeepsAssembly(c, disk, p);
    } else if actions[l - 1].Restart? {
      BootKeepsAssembly(c, Interrupted(c, states[l - 1], actions[l - 1].torn), p);
    } else {
      EngineInEveryRun(c, disk, states, actions, l - 1);
      OneRecordPerPiece(c, disk, states, actions, l - 1);
      FailureStartsOver(c, states[l - 1], p);
    }
  }

  lemma AssemblyByOneStep(c: Config, g: Engine, a: Action, p: nat)
    requires ConfigOk(c) && EngineOk(c, g) && IsEnabled(c, g, a) && AssemblyOk(c, g, p)
    requires a.Receive? && a.e.Data? && a.e.piece == p ==> DeliversWholeBlocks(c.torrent, g.scheduler, a.e)
    ensures AssemblyOk(c, Next(c, g, a), p)
  {
    match a
    case Receive(e) => ReceiveKeepsAssembly(c, g, e, p);
    case Work(outcome) => WorkKeepsAssembly(c, g, outcome, p);
    case Reply => ReplyKeepsAssembly(c, g, p);
    case Restart(torn) => BootKeepsAssembly(c, Interrupted(c, g, torn), p);
  }

  lemma AssemblyGoesOn(c: Config, disk: DiskState, states: seq<Engine>, actions: seq<Action>, i: nat, p: nat)
    requires IsRun(c, disk, states, actions) && i < |actions| && AssemblyOk(c, states[i], p)
    requires actions[i].Receive? && actions[i].e.Data? && actions[i].e.piece == p ==>
               DeliversWholeBlocks(c.torrent, states[i].scheduler, actions[i].e)
    ensures AssemblyOk(c, states[i + 1], p)
  {
    EngineInEveryRun(c, disk, states, actions, i);
    AssemblyByOneStep(c, states[i], actions[i], p);
  }

  lemma {:induction false} AssemblySince(c: Config, disk: DiskState, states: seq<Engine>, actions: seq<Action>, l: nat,
                                         i: nat, p: nat)
    requires IsRun(c, disk, states, actions) && l <= i < |states| && p < c.torrent.numPieces
    requires StartsAt(states, actions, l, p) && WholeBlocksSince(c, states, actions, l, i, p)
    ensures AssemblyOk(c, states[i], p)
    decreases i
  {
    if i == l {
      AssemblyStarts(c, disk, states, actions, l, p);
    } else {
      AssemblySince(c, disk, states, actions, l, i - 1, p);
      AssemblyGoesOn(c, disk, states, actions, i - 1, p);
    }
  }

  /** Piece assembly: if, since some start of its piece from scratch, every delivery stored for that piece was a whole
      block, asked for or not, then a queued job is the in-order concatenation of the payloads of its blocks. What
      is delivered for other pieces, or was before, does not matter. */
  lemma JobsAreConcatenations(c: Config, disk: DiskState, states: seq<Engine>, actions: seq<Action>, l: nat, i: nat,
                              j: nat)
    requires IsRun(c, disk, states, actions) && l <= i < |states| && j < |states[i].scheduler.diskEvents|
    requires StartsAt(states, actions, l, states[i].scheduler.diskEvents[j].piece)
    requires WholeBlocksSince(c, states, actions, l, i, states[i].scheduler.diskEvents[j].piece)
    ensures var job := states[i].scheduler.diskEvents[j];
            && job.piece < c.torrent.numPieces && job.piece < |states[i].accepted|
            && |job.data| == PieceLen(c.torrent, job.piece)
            && IsAssembled(c.torrent, job.piece, job.data, states[i].accepted[job.piece])
  {
    EngineInEveryRun(c, disk, states, actions, i);
    var job := states[i].scheduler.diskEvents[j];
    assert Outstanding(states[i])[|states[i].replies| + j] == job.piece;
    assert job.piece in Outstanding(states[i]);
    AssemblySince(c, disk, states, actions, l, i, job.piece);
  }

  /** So if all deliveries stored in a run are whole blocks, all its jobs are such concatenations. */
  lemma AllJobsAreConcatenations(c: Config, disk: DiskState, states: seq<Engine>, actions: seq<Action>, i: nat, j: nat)
    requires IsRun(c, disk, states, actions) && AllWholeBlocks(c, states, actions) && i < |states|
    requires j < |states[i].scheduler.diskEvents|
    ensures var job := states[i].scheduler.diskEvents[j];
            && job.piece < c.torrent.numPieces && job.piece < |states[i].accepted|
            && |job.data| == PieceLen(c.torrent, job.piece)
            && IsAssembled(c.torrent, job.piece, job.data, states[i].accepted[job.piece])
  {
    JobsAreConcatenations(c, disk, states, actions, 0, i, j);
  }

  // Peers that answer only what they are being asked

  ghost predicate AllSolicited(states: seq<Engine>, actions: seq<Action>)
    requires |states| == |actions| + 1
  {
    forall i :: 0 <= i < |actions| && actions[i].Receive? ==> IsSolicited(states[i].scheduler, actions[i].e)
  }

  lemma {:induction false} SolicitedUpTo(c: Config, disk: DiskState, states: seq<Engine>, actions: seq<Action>, i: nat)
    requires IsRun(c, disk, states, actions) && AllSolicited(states, actions) && i < |states|
    ensures EngineOk(c, states[i]) && OwnershipOk(c.torrent, states[i].scheduler)
  {
    EngineInEveryRun(c, disk, states, actions, i);
    if i == 0 {
      BootIsOwned(c, disk);
    } else {
      SolicitedUpTo(c, disk, states, actions, i - 1);
      var g, a := states[i - 1], actions[i - 1];
      if a.Receive? {
        SolicitedIsUncontested(c.torrent, g.scheduler, a.e);
      }
      OwnershipByOneStep(c, g, a);
    }
  }

  /** Such peers meet the conditions of exact ownership and of piece assembly. */
  lemma SolicitedIsEnough(c: Config, disk: DiskState, states: seq<Engine>, actions: seq<Action>)
    requires IsRun(c, disk, states, actions) && AllSolicited(states, actions)
    ensures AllUncontested(c, states, actions) && AllWholeBlocks(c, states, actions)
  {
    forall i | 0 <= i < |actions| && actions[i].Receive?
      ensures IsUncontested(c.torrent, states[i].scheduler, actions[i].e)
      ensures DeliversWholeBlocks(c.torrent, states[i].scheduler, actions[i].e)
    {
      SolicitedUpTo(c, disk, states, actions, i);
      SolicitedIsUncontested(c.torrent, states[i].scheduler, actions[i].e);
      SolicitedIsWhole(c.torrent, states[i].scheduler, actions[i].e);
    }
  }

  // Freedom from panics

  /** What a correct environment offers: events of live connections as the connections report them. */
  predicate IsOffered(m: Torrent, s: SchedulerState, e: Event) {
    && !IsDiskAnswer(e)
    && IsLegitimate(m, s, e)
    && (e.Connect? ==> e.slot !in s.slots)
    && (e.Disconnect? || e.Bitfield? || e.Have? || e.Data? ==> e.slot in s.slots)
    && (e.Choke? || e.Unchoke? || e.Interested? || e.NotInterested? ==> e.slot in s.slots)
    && (e.Data? ==> 8 <= |e.data|)
  }

  /** The two things a peer can name that may not exist: a piece outside its bitfield, and a place outside the
      tables and buffers. */
  predicate IsWithinBounds(m: Torrent, s: SchedulerState, e: Event) {
    match e
    case Have(k, piece, _) => k in s.slots && piece < |s.slots[k].bitfield|
    case Data(_, piece, begin, data, _) =>
      && InTable(s.pieces, BlockKey(piece, begin / BLOCK_SIZE))
      && (s.pieces[piece].complete || s.pieces[piece].blockStatus[begin / BLOCK_SIZE] == Received
          || begin + (|data| - 8) <= PieceLen(m, piece))
    case _ => true
  }

  ghost predicate IsOfferedAction(c: Config, g: Engine, a: Action) {
    match a
    case Receive(e) => IsOffered(c.torrent, g.scheduler, e)
    case Work(outcome) => g.scheduler.diskEvents != [] && Possible(g.scheduler.diskEvents[0].data, outcome)
    case Reply => g.replies != []
    case Restart(torn) => g.scheduler.diskEvents != [] ==> torn <= |g.scheduler.diskEvents[0].data|
  }

  /** A Have is handled without a panic exactly when the peer's bitfield has a bit for the piece; a peer that has
      sent no bitfield has none. */
  lemma HaveIsSafe(m: Torrent, s: SchedulerState, k: nat, piece: nat, now: nat)
    requires TablesOk(m, s.pieces) && PeersOk(m, s)
    ensures IsSafe(m, s, Have(k, piece, now)) <==> k in s.slots && piece < |s.slots[k].bitfield|
  {
    var e := Have(k, piece, now);
    if k in s.slots && piece < |s.slots[k].bitfield| {
      UpdatedIsOk(m, s, e);
      PushesAreSafe(m, WithPeer(s, k, Updated(s, e)), k);
    }
  }

  lemma StoredIsSafe(m: Torrent, s: SchedulerState, e: Event)
    requires TablesOk(m, s.pieces) && PeersOk(m, s) && e.Data? && e.slot in s.slots && 8 <= |e.data|
    requires Acceptable(s, e.piece, e.begin, e.data[8..])
    ensures PushIsSafe(m, Accept(Settled(s, e), e.piece, e.begin, e.data[8..]), e.slot)
  {
    SettleKeepsPeers(m, s, e.slot, Answered(e));
    PushesAreSafe(m, Accept(Settled(s, e), e.piece, e.begin, e.data[8..]), e.slot);
  }

  /** A delivery is handled without a panic exactly when it names a cell of a table, and there is room for it unless
      it is redundant. */
  lemma DeliveryIsSafe(m: Torrent, s: SchedulerState, e: Event)
    requires TablesOk(m, s.pieces) && PeersOk(m, s) && e.Data? && e.slot in s.slots && 8 <= |e.data|
    ensures IsSafe(m, s, e) <==> IsWithinBounds(m, s, e)
  {
    if Acceptable(s, e.piece, e.begin, e.data[8..]) {
      StoredIsSafe(m, s, e);
    }
    if InTable(s.pieces, BlockKey(e.piece, e.begin / BLOCK_SIZE)) {
      assert PieceInv(PieceLen(m, e.piece), s.pieces[e.piece]);
    }
  }

  /** The piece is incomplete and without a table: it has not been started, or has been started over. */
  predicate IsFromScratch(s: SchedulerState, p: nat) {
    p < |s.pieces| && !s.pieces[p].complete && s.pieces[p].blockStatus == []
  }

  /** What a disconnect, or a timeout scan, looks up: no entry in question is for a piece that starts from scratch. */
  ghost predicate FindsItsTables(s: SchedulerState, e: Event) {
    && (e.Disconnect? ==> forall f :: Holds(s, e.slot, f) ==> !IsFromScratch(s, f.request.pieceIndex))
    && (e.Tick? ==> forall k, f :: Holds(s, k, f) && Stale(f, e.now) ==> !IsFromScratch(s, f.request.pieceIndex))
  }

  lemma TileInTable(m: Torrent, s: SchedulerState, k: nat, f: InFlightBlock)
    requires TablesOk(m, s.pieces) && TilesOk(m, s) && Holds(s, k, f)
    ensures InTable(s.pieces, KeyOf(f.request)) <==> !IsFromScratch(s, f.request.pieceIndex)
  {
    assert PeerTiles(m, s.slots[k]) && IsTile(m, f.request);
    assert PieceInv(PieceLen(m, f.request.pieceIndex), s.pieces[f.request.pieceIndex]);
  }

  /** A disconnect is handled without a panic exactly when no entry of the ledger is for a piece without a table. */
  lemma LeavingIsSafe(m: Torrent, s: SchedulerState, e: Event)
    requires TablesOk(m, s.pieces) && TilesOk(m, s) && e.Disconnect? && e.slot in s.slots
    ensures IsSafe(m, s, e) <==> FindsItsTables(s, e)
  {
    var ledger := s.slots[e.slot].inFlight;
    forall f | f in ledger
      ensures KeyOf(f.request) in Keys(ledger)
      ensures InTable(s.pieces, KeyOf(f.request)) <==> !IsFromScratch(s, f.request.pieceIndex)
    {
      assert Holds(s, e.slot, f);
      TileInTable(m, s, e.slot, f);
    }
  }

  /** A timeout scan is handled without a panic exactly when no stale entry is. */
  lemma ScanningIsSafe(m: Torrent, s: SchedulerState, e: Event)
    requires TablesOk(m, s.pieces) && TilesOk(m, s) && e.Tick?
    ensures IsSafe(m, s, e) <==> FindsItsTables(s, e)
  {
    forall k, f | Holds(s, k, f) && Stale(f, e.now)
      ensures KeyOf(f.request) in StaleKeys(s.slots, e.now)
      ensures InTable(s.pieces, KeyOf(f.request)) <==> !IsFromScratch(s, f.request.pieceIndex)
    {
      TileInTable(m, s, k, f);
    }
    forall key | key in StaleKeys(s.slots, e.now)
      ensures exists k, f :: Holds(s, k, f) && Stale(f, e.now) && KeyOf(f.request) == key
    {
      var k, f :| k in s.slots && f in s.slots[k].inFlight && Stale(f, e.now) && KeyOf(f.request) == key;
      assert Holds(s, k, f);
    }
  }

  /** An offered event is handled without a panic exactly when it stays within bounds and finds its tables. */
  lemma OfferedEventsAreSafe(m: Torrent, s: SchedulerState, e: Event)
    requires TablesOk(m, s.pieces) && PeersOk(m, s) && RegistryOk(s) && TilesOk(m, s) && IsOffered(m, s, e)
    ensures IsSafe(m, s, e) <==> IsWithinBounds(m, s, e) && FindsItsTables(s, e)
  {
    if e.Data? {
      DeliveryIsSafe(m, s, e);
    } else if e.Have? {
      HaveIsSafe(m, s, e.slot, e.piece, e.now);
    } else if IsUpdate(e) {
      UpdatedIsOk(m, s, e);
      PushesAreSafe(m, WithPeer(s, e.slot, Updated(s, e)), e.slot);
    } else if e.Disconnect? {
      LeavingIsSafe(m, s, e);
    } else if e.Tick? {
      ScanningIsSafe(m, s, e);
    }
  }

  /** No index is ever out of range and no unwrap or assertion fails, except, exactly, when a peer names what is not
      there, and when a disconnect or a timeout finds an entry for a piece that has no table: in every state of every
      run, this says of everything that a correct environment offers whether it is handled without a panic. */
  lemma NoPanic(c: Config, disk: DiskState, states: seq<Engine>, actions: seq<Action>, i: nat, a: Action)
    requires IsRun(c, disk, states, actions) && i < |states| && IsOfferedAction(c, states[i], a)
    ensures IsEnabled(c, states[i], a) <==>
              (a.Receive? ==>
                 IsWithinBounds(c.torrent, states[i].scheduler, a.e) && FindsItsTables(states[i].scheduler, a.e))
  {
    EngineInEveryRun(c, disk, states, actions, i);
    match a
    case Receive(e) =>
      OnlyTilesAreRequested(c, disk, states, actions, i);
      OfferedEventsAreSafe(c.torrent, states[i].scheduler, e);
    case Work(_) => JobFitsTheDisk(c, states[i]);
    case Reply => AnswerIsInTurn(c, states[i]);
    case Restart(_) =>
      if states[i].scheduler.diskEvents != [] {
        JobFitsTheDisk(c, states[i]);
      }
  }

  /** With exact ownership every entry is for a block in a table. */
  lemma OwnedEntriesFindTheirTables(m: Torrent, s: SchedulerState, e: Event)
    requires EntriesAreLive(m, s)
    ensures FindsItsTables(s, e)
  {
  }

  /** So in a run without contested deliveries, timeouts and disconnects never panic, and only a peer that names what
      is not there can make the scheduler panic. */
  lemma NoPanicUncontested(c: Config, disk: DiskState, states: seq<Engine>, actions: seq<Action>, i: nat, a: Action)
    requires IsRun(c, disk, states, actions) && AllUncontested(c, states, actions) && i < |states|
    requires IsOfferedAction(c, states[i], a)
    ensures IsEnabled(c, states[i], a) <==> (a.Receive? ==> IsWithinBounds(c.torrent, states[i].scheduler, a.e))
  {
    NoPanic(c, disk, states, actions, i, a);
    OwnershipUpTo(c, disk, states, actions, i);
    if a.Receive? {
      OwnedEntriesFindTheirTables(c.torrent, states[i].scheduler, a.e);
    }
  }

  /** A block that was asked for is within bounds. */
  lemma SolicitedIsWithinBounds(c: Config, disk: DiskState, states: seq<Engine>, actions: seq<Action>, i: nat, e: Event)
    requires IsRun(c, disk, states, actions) && AllUncontested(c, states, actions) && i < |states|
    requires e.Data? && IsSolicited(states[i].scheduler, e)
    ensures IsWithinBounds(c.torrent, states[i].scheduler, e)
  {
    OwnershipUpTo(c, disk, states, actions, i);
    SolicitedIsWanted(c.torrent, states[i].scheduler, e);
    assert PieceInv(PieceLen(c.torrent, e.piece), states[i].scheduler.pieces[e.piece]);
  }
}
