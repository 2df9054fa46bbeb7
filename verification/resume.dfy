/** The protocol between scheduler and disk, and the durability of the resume file. */
module Resume {
  import opened Metainfo
  import opened Pieces
  import opened SchedulerModel
  import opened Orphans
  import opened Tables
  import opened Connections
  import opened Registry
  import opened Ownership
  import opened Completion
  import opened DiskModel
  import opened Engine

  ghost predicate Distinct(s: seq<nat>) {
    forall i, j :: 0 <= i < j < |s| ==> s[i] != s[j]
  }

  predicate IsAnswer(e: Event) {
    e.HashFailed? || e.WriteFailed? || e.PieceHashedAndWritten?
  }

  function AnswerPiece(e: Event): nat {
    if IsAnswer(e) then e.piece else 0
  }

  function JobPieces(jobs: seq<DiskEvent>): (r: seq<nat>)
    ensures |r| == |jobs|
  {
    seq(|jobs|, i requires 0 <= i < |jobs| => jobs[i].piece)
  }

  function ReplyPieces(replies: seq<Event>): (r: seq<nat>)
    ensures |r| == |replies|
  {
    seq(|replies|, i requires 0 <= i < |replies| => AnswerPiece(replies[i]))
  }

  /** The pieces handed to the disk whose answer the scheduler has not handled, oldest first. */
  function Outstanding(g: Engine): seq<nat> {
    ReplyPieces(g.replies) + JobPieces(g.scheduler.diskEvents)
  }

  /** The piece is on disk and the scheduler knows. */
  predicate IsDone(g: Engine, p: nat) {
    p < |g.scheduler.pieces| && g.scheduler.pieces[p].complete && p !in Outstanding(g)
  }

  ghost predicate QueuesOk(c: Config, g: Engine) {
    && Distinct(Outstanding(g))
    && (forall p :: p in Outstanding(g) ==> p < |g.scheduler.pieces| && g.scheduler.pieces[p].complete)
    && (forall i :: 0 <= i < |g.scheduler.diskEvents| ==>
          |g.scheduler.diskEvents[i].data| == PieceLen(c.torrent, g.scheduler.diskEvents[i].piece))
    && (forall i :: 0 <= i < |g.replies| ==> IsAnswer(g.replies[i]))
  }

  ghost predicate CountsOk(g: Engine) {
    CompleteCount(g.scheduler.pieces) == g.scheduler.completedPieces + |Outstanding(g)|
  }

  ghost predicate ResumeOk(c: Config, g: Engine)
    requires ConfigOk(c)
  {
    && DiskOk(c, g.disk)
    && (forall p :: p in g.disk.saved ==>
          && p < |g.scheduler.pieces| && g.scheduler.pieces[p].complete
          && p !in JobPieces(g.scheduler.diskEvents))
    && (forall i :: 0 <= i < |g.replies| && !g.replies[i].PieceHashedAndWritten? ==>
          AnswerPiece(g.replies[i]) !in g.disk.saved)
  }

  ghost predicate AnnouncedOk(g: Engine) {
    forall k :: k in g.scheduler.slots ==>
      && Distinct(Haves(g.scheduler.slots[k].sent))
      && forall p :: p in Haves(g.scheduler.slots[k].sent) ==> IsDone(g, p)
  }

  ghost predicate EngineOk(c: Config, g: Engine)
    requires ConfigOk(c)
  {
    && TablesOk(c.torrent, g.scheduler.pieces)
    && PeersOk(c.torrent, g.scheduler)
    && RegistryOk(g.scheduler)
    && NoOrphan(g.scheduler)
    && QueuesOk(c, g)
    && CountsOk(g)
    && ResumeOk(c, g)
    && AnnouncedOk(g)
  }

  // Starting

  lemma {:induction false} CountTrueIsCompleteCount(bits: seq<bool>, pieces: seq<PieceBuffer>)
    requires |bits| == |pieces| && forall p :: 0 <= p < |bits| ==> pieces[p].complete == bits[p]
    ensures CountTrue(bits) == CompleteCount(pieces)
  {
    if bits != [] {
      CountTrueIsCompleteCount(bits[..|bits| - 1], pieces[..|pieces| - 1]);
    }
  }

  lemma BootIsOk(c: Config, disk: DiskState)
    requires ConfigOk(c) && DiskOk(c, disk)
    ensures EngineOk(c, Boot(c, disk))
  {
    var g := Boot(c, disk);
    CountTrueIsCompleteCount(CompletedBits(c.torrent.numPieces, disk.saved), g.scheduler.pieces);
    assert Outstanding(g) == [];
  }

  // An event from outside

  /** Either one more piece is handed over, whole, or nothing about completion changes. */
  lemma ReceiveEffect(c: Config, g: Engine, e: Event) returns (handed: bool, p: nat, data: seq<Byte>)
    requires ConfigOk(c) && IsEnabled(c, g, Receive(e)) && TablesOk(c.torrent, g.scheduler.pieces)
    ensures var t := Handle(c.torrent, g.scheduler, e);
            if handed then HandsOver(g.scheduler, t, p, data) && |data| == PieceLen(c.torrent, p)
            else SameCompletion(g.scheduler, t)
  {
    handed, p, data := false, 0, [];
    if e.Data? {
      DataHandsOverOrNot(c.torrent, g.scheduler, e);
      if IsStored(c.torrent, g.scheduler, e) && StoredState(c.torrent, g.scheduler, e).pieces[e.piece].complete {
        handed, p, data := true, e.piece, Overwrite(g.scheduler.pieces[e.piece].data, e.begin, e.data[8..]);
      }
    } else {
      OthersKeepCompletion(c.torrent, g.scheduler, e);
    }
  }

  lemma DistinctAppend(s: seq<nat>, x: nat)
    requires Distinct(s) && x !in s
    ensures Distinct(s + [x])
  {
  }

  lemma HandedOverIsOutstanding(g: Engine, h: Engine, p: nat, data: seq<Byte>)
    requires h.replies == g.replies && HandsOver(g.scheduler, h.scheduler, p, data)
    ensures Outstanding(h) == Outstanding(g) + [p]
    ensures JobPieces(h.scheduler.diskEvents) == JobPieces(g.scheduler.diskEvents) + [p]
  {
  }

  lemma HandingOverKeepsQueues(c: Config, g: Engine, h: Engine, p: nat, data: seq<Byte>)
    requires QueuesOk(c, g) && CountsOk(g)
    requires h.replies == g.replies && HandsOver(g.scheduler, h.scheduler, p, data) && |data| == PieceLen(c.torrent, p)
    ensures QueuesOk(c, h) && CountsOk(h)
    ensures forall q :: IsDone(g, q) ==> IsDone(h, q)
  {
    HandedOverIsOutstanding(g, h, p, data);
    DistinctAppend(Outstanding(g), p);
    CompleteCountChanges(g.scheduler.pieces, h.scheduler.pieces, p);
  }

  lemma SameCompletionKeepsQueues(c: Config, g: Engine, h: Engine)
    requires QueuesOk(c, g) && CountsOk(g)
    requires h.replies == g.replies && SameCompletion(g.scheduler, h.scheduler)
    ensures QueuesOk(c, h) && CountsOk(h)
    ensures forall q :: IsDone(g, q) ==> IsDone(h, q)
  {
    assert Outstanding(h) == Outstanding(g);
    CompleteCountDependsOnFlags(g.scheduler.pieces, h.scheduler.pieces);
  }

  lemma ReceiveKeepsQueues(c: Config, g: Engine, e: Event)
    requires ConfigOk(c) && IsEnabled(c, g, Receive(e))
    requires TablesOk(c.torrent, g.scheduler.pieces) && QueuesOk(c, g) && CountsOk(g)
    ensures QueuesOk(c, Next(c, g, Receive(e))) && CountsOk(Next(c, g, Receive(e)))
    ensures forall p :: IsDone(g, p) ==> IsDone(Next(c, g, Receive(e)), p)
  {
    var handed, p, data := ReceiveEffect(c, g, e);
    if handed {
      HandingOverKeepsQueues(c, g, Next(c, g, Receive(e)), p, data);
    } else {
      SameCompletionKeepsQueues(c, g, Next(c, g, Receive(e)));
    }
  }

  lemma ReceiveKeepsResume(c: Config, g: Engine, e: Event)
    requires ConfigOk(c) && IsEnabled(c, g, Receive(e))
    requires TablesOk(c.torrent, g.scheduler.pieces) && ResumeOk(c, g)
    ensures ResumeOk(c, Next(c, g, Receive(e)))
  {
    var handed, p, data := ReceiveEffect(c, g, e);
    if handed {
      HandedOverIsOutstanding(g, Next(c, g, Receive(e)), p, data);
    }
  }

  lemma ReceiveKeepsAnnounced(c: Config, g: Engine, e: Event)
    requires ConfigOk(c) && EngineOk(c, g) && IsEnabled(c, g, Receive(e))
    ensures AnnouncedOk(Next(c, g, Receive(e)))
  {
    ReceiveKeepsQueues(c, g, e);
    var h := Next(c, g, Receive(e));
    forall k | k in h.scheduler.slots
      ensures Distinct(Haves(h.scheduler.slots[k].sent))
      ensures forall p :: p in Haves(h.scheduler.slots[k].sent) ==> IsDone(h, p)
    {
      Announcements(c.torrent, g.scheduler, e, k);
    }
  }

  lemma ReceiveKeepsEngine(c: Config, g: Engine, e: Event)
    requires ConfigOk(c) && EngineOk(c, g) && IsEnabled(c, g, Receive(e))
    ensures EngineOk(c, Next(c, g, Receive(e)))
  {
    TablesStep(c.torrent, g.scheduler, e);
    PeersStep(c.torrent, g.scheduler, e);
    RegistryStep(c.torrent, g.scheduler, e);
    NoOrphanStep(c.torrent, g.scheduler, e);
    ReceiveKeepsQueues(c, g, e);
    ReceiveKeepsResume(c, g, e);
    ReceiveKeepsAnnounced(c, g, e);
  }

  // A turn of the disk

  lemma JobFitsTheDisk(c: Config, g: Engine)
    requires ConfigOk(c) && QueuesOk(c, g) && ResumeOk(c, g) && |g.scheduler.pieces| == c.torrent.numPieces
    requires g.scheduler.diskEvents != []
    ensures JobFits(c.torrent, g.disk, g.scheduler.diskEvents[0])
    ensures g.scheduler.diskEvents[0].piece !in g.disk.saved
  {
    var p := g.scheduler.diskEvents[0].piece;
    assert JobPieces(g.scheduler.diskEvents)[0] == p;
    assert Outstanding(g)[|g.replies|] == p;
    assert p in Outstanding(g);
  }

  /** A job moves to the answers; what is outstanding stays the same. */
  lemma WorkKeepsOutstanding(c: Config, g: Engine, outcome: WriteOutcome)
    requires ConfigOk(c) && IsEnabled(c, g, Work(outcome))
    ensures Outstanding(Next(c, g, Work(outcome))) == Outstanding(g)
  {
  }

  lemma PartialWriteKeepsDisk(c: Config, d: DiskState, job: DiskEvent, written: nat)
    requires ConfigOk(c) && DiskOk(c, d) && JobFits(c.torrent, d, job) && written <= |job.data|
    requires job.piece !in d.saved
    ensures DiskOk(c, PartlyWritten(c.torrent, d, job, written))
  {
    forall p | p in d.saved
      ensures PieceBytes(c.torrent, PartlyWritten(c.torrent, d, job, written).flat, p) ==
                PieceBytes(c.torrent, d.flat, p)
    {
      WriteLeavesOtherPieces(c.torrent, d, job, written, p);
    }
  }

  lemma WorkKeepsDisk(c: Config, d: DiskState, job: DiskEvent, outcome: WriteOutcome)
    requires ConfigOk(c) && DiskOk(c, d) && JobFits(c.torrent, d, job) && Possible(job.data, outcome)
    requires job.piece !in d.saved
    ensures DiskOk(c, TryHashAndWriteJob(c, d, job, outcome).0)
  {
    PartialWriteKeepsDisk(c, d, job, outcome.written);
    FullWriteStoresThePiece(c.torrent, d, job);
  }

  lemma WorkKeepsResume(c: Config, g: Engine, outcome: WriteOutcome)
    requires ConfigOk(c) && EngineOk(c, g) && IsEnabled(c, g, Work(outcome))
    ensures ResumeOk(c, Next(c, g, Work(outcome)))
  {
    var h := Next(c, g, Work(outcome));
    var p := g.scheduler.diskEvents[0].piece;
    JobFitsTheDisk(c, g);
    WorkKeepsDisk(c, g.disk, g.scheduler.diskEvents[0], outcome);
    assert JobPieces(g.scheduler.diskEvents) == [p] + JobPieces(h.scheduler.diskEvents);
    forall i | 0 <= i < |h.scheduler.diskEvents|
      ensures h.scheduler.diskEvents[i].piece != p
    {
      assert Outstanding(g)[|g.replies|] == p;
      assert Outstanding(g)[|g.replies| + 1 + i] == h.scheduler.diskEvents[i].piece;
    }
    forall i | 0 <= i < |g.replies|
      ensures AnswerPiece(g.replies[i]) != p
    {
      assert Outstanding(g)[i] == AnswerPiece(g.replies[i]);
      assert Outstanding(g)[|g.replies|] == p;
    }
  }

  lemma WorkKeepsEngine(c: Config, g: Engine, outcome: WriteOutcome)
    requires ConfigOk(c) && EngineOk(c, g) && IsEnabled(c, g, Work(outcome))
    ensures EngineOk(c, Next(c, g, Work(outcome)))
  {
    WorkKeepsOutstanding(c, g, outcome);
    WorkKeepsResume(c, g, outcome);
    MoreHeldKeepsNoOrphan(g.scheduler, Next(c, g, Work(outcome)).scheduler);
    SameConnectionsKeepRegistry(g.scheduler, Next(c, g, Work(outcome)).scheduler);
  }

  // An answer of the disk

  /** An answer is about a complete piece; handling it cannot panic. */
  lemma AnswerIsInTurn(c: Config, g: Engine)
    requires QueuesOk(c, g) && g.replies != []
    ensures IsAnswer(g.replies[0]) && DiskAnswersInTurn(g.scheduler, g.replies[0])
    ensures IsSafe(c.torrent, g.scheduler, g.replies[0])
    ensures g.replies[0].piece == Outstanding(g)[0]
  {
    assert IsAnswer(g.replies[0]);
    assert Outstanding(g)[0] == g.replies[0].piece;
    assert g.replies[0].piece in Outstanding(g);
  }

  lemma AnsweringShortensTheQueue(g: Engine, h: Engine)
    requires Distinct(Outstanding(g)) && g.replies != []
    requires h.replies == g.replies[1..] && h.scheduler.diskEvents == g.scheduler.diskEvents
    ensures Outstanding(h) == Outstanding(g)[1..]
    ensures forall p :: p in Outstanding(h) <==> p in Outstanding(g) && p != Outstanding(g)[0]
  {
  }

  lemma ReplyKeepsQueues(c: Config, g: Engine)
    requires ConfigOk(c) && IsEnabled(c, g, Reply) && QueuesOk(c, g) && CountsOk(g)
    ensures QueuesOk(c, Next(c, g, Reply)) && CountsOk(Next(c, g, Reply))
    ensures Outstanding(Next(c, g, Reply)) == Outstanding(g)[1..]
    ensures forall p :: IsDone(g, p) ==> IsDone(Next(c, g, Reply), p)
    ensures g.replies[0].PieceHashedAndWritten? ==> IsDone(Next(c, g, Reply), g.replies[0].piece)
  {
    var h := Next(c, g, Reply);
    var e := g.replies[0];
    AnswerIsInTurn(c, g);
    AnsweringShortensTheQueue(g, h);
    if e.PieceHashedAndWritten? {
      CompleteCountDependsOnFlags(g.scheduler.pieces, h.scheduler.pieces);
    } else {
      CompleteCountChanges(h.scheduler.pieces, g.scheduler.pieces, e.piece);
    }
  }

  lemma ReplyKeepsResume(c: Config, g: Engine)
    requires ConfigOk(c) && EngineOk(c, g) && IsEnabled(c, g, Reply)
    ensures ResumeOk(c, Next(c, g, Reply))
  {
  }

  lemma ReplyKeepsAnnounced(c: Config, g: Engine)
    requires ConfigOk(c) && IsEnabled(c, g, Reply) && QueuesOk(c, g) && CountsOk(g) && AnnouncedOk(g)
    ensures AnnouncedOk(Next(c, g, Reply))
  {
    var h := Next(c, g, Reply);
    var e := g.replies[0];
    AnswerIsInTurn(c, g);
    ReplyKeepsQueues(c, g);
    forall k | k in h.scheduler.slots
      ensures Distinct(Haves(h.scheduler.slots[k].sent))
      ensures forall p :: p in Haves(h.scheduler.slots[k].sent) ==> IsDone(h, p)
    {
      var before := Haves(g.scheduler.slots[k].sent);
      Announcements(c.torrent, g.scheduler, e, k);
      assert e.piece !in before;
      DistinctAppend(before, e.piece);
    }
  }

  lemma ReplyKeepsEngine(c: Config, g: Engine)
    requires ConfigOk(c) && EngineOk(c, g) && IsEnabled(c, g, Reply)
    ensures EngineOk(c, Next(c, g, Reply))
  {
    AnswerIsInTurn(c, g);
    TablesStep(c.torrent, g.scheduler, g.replies[0]);
    PeersStep(c.torrent, g.scheduler, g.replies[0]);
    RegistryStep(c.torrent, g.scheduler, g.replies[0]);
    NoOrphanStep(c.torrent, g.scheduler, g.replies[0]);
    ReplyKeepsQueues(c, g);
    ReplyKeepsResume(c, g);
    ReplyKeepsAnnounced(c, g);
  }

  // Every action

  lemma EngineStep(c: Config, g: Engine, a: Action)
    requires ConfigOk(c) && EngineOk(c, g) && IsEnabled(c, g, a)
    ensures EngineOk(c, Next(c, g, a))
  {
    match a
    case Receive(e) => ReceiveKeepsEngine(c, g, e);
    case Work(outcome) => WorkKeepsEngine(c, g, outcome);
    case Reply => ReplyKeepsEngine(c, g);
    case Restart(torn) =>
      if g.scheduler.diskEvents != [] {
        JobFitsTheDisk(c, g);
        PartialWriteKeepsDisk(c, g.disk, g.scheduler.diskEvents[0], torn);
      }
      BootIsOk(c, Interrupted(c, g, torn));
  }

  /** Once recorded in the resume file, a piece stays recorded and its bytes stay as they are. */
  lemma SavedBytesStay(c: Config, g: Engine, a: Action, p: nat)
    requires ConfigOk(c) && EngineOk(c, g) && IsEnabled(c, g, a) && p in g.disk.saved
    ensures p in Next(c, g, a).disk.saved
    ensures |Next(c, g, a).disk.flat| == c.torrent.totalLen
    ensures PieceBytes(c.torrent, Next(c, g, a).disk.flat, p) == PieceBytes(c.torrent, g.disk.flat, p)
  {
    if a.Work? {
      JobFitsTheDisk(c, g);
      WriteLeavesOtherPieces(c.torrent, g.disk, g.scheduler.diskEvents[0], a.outcome.written, p);
    } else if a.Restart? && g.scheduler.diskEvents != [] {
      JobFitsTheDisk(c, g);
      WriteLeavesOtherPieces(c.torrent, g.disk, g.scheduler.diskEvents[0], a.torn, p);
    }
  }

  /** Within a session, a confirmed piece stays complete and is never handed to the disk again. */
  lemma DoneStays(c: Config, g: Engine, a: Action, p: nat)
    requires ConfigOk(c) && EngineOk(c, g) && IsEnabled(c, g, a) && !a.Restart? && IsDone(g, p)
    ensures IsDone(Next(c, g, a), p)
  {
    match a
    case Receive(e) => ReceiveKeepsQueues(c, g, e);
    case Work(outcome) => WorkKeepsOutstanding(c, g, outcome);
    case Reply => ReplyKeepsQueues(c, g);
  }
}
