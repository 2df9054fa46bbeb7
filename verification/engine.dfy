/** Scheduler and disk working together, with the two queues between them, over any number of restarts. */
module Engine {
  import opened Metainfo
  import opened Ledgers
  import opened SchedulerModel
  import opened DiskModel

  type Payloads = map<nat, seq<Byte>>

  /** `accepted` is not part of the program: for each piece it records the payloads stored for its blocks since
      the piece was last started from scratch. */
  datatype Engine = Engine(
    scheduler: SchedulerState,
    replies: seq<Event>,
    disk: DiskState,
    accepted: seq<Payloads>)

  /** Receive: the scheduler handles an event from the session, a peer or the clock. Work: the disk handles its
      next job. Reply: the scheduler handles the disk's next answer. Restart: the process stops, possibly in the
      middle of a write, and starts again from the files. */
  datatype Action =
    | Receive(e: Event)
    | Work(outcome: WriteOutcome)
    | Reply
    | Restart(torn: nat)

  /** A session starts with the report of the pieces named in the resume file. */
  function Boot(c: Config, disk: DiskState): Engine {
    Engine(
      ParseCompletedPieces(NewScheduler(c.torrent), CompletedBits(c.torrent.numPieces, disk.saved)),
      [],
      disk,
      seq(c.torrent.numPieces, _ => map[]))
  }

  /** What the program is started on: files of the right total length, and a resume file that tells the truth. */
  ghost predicate DiskOk(c: Config, d: DiskState)
    requires ConfigOk(c)
  {
    && |d.flat| == c.torrent.totalLen
    && forall p :: p in d.saved ==>
         p < c.torrent.numPieces && c.digest(PieceBytes(c.torrent, d.flat, p)) == c.pieceHashes[p]
  }

  function Interrupted(c: Config, g: Engine, torn: nat): DiskState
    requires ConfigOk(c) && IsEnabled(c, g, Restart(torn))
  {
    if g.scheduler.diskEvents == [] then g.disk
    else if c.digest(g.scheduler.diskEvents[0].data) != c.pieceHashes[g.scheduler.diskEvents[0].piece] then g.disk
    else PartlyWritten(c.torrent, g.disk, g.scheduler.diskEvents[0], torn)
  }

  /** An action can be taken, without a panic. */
  ghost predicate IsEnabled(c: Config, g: Engine, a: Action)
    requires ConfigOk(c)
  {
    match a
    case Receive(e) =>
      && !IsDiskAnswer(e)
      && IsSafe(c.torrent, g.scheduler, e)
      && IsLegitimate(c.torrent, g.scheduler, e)
    case Work(outcome) =>
      && g.scheduler.diskEvents != []
      && JobFits(c.torrent, g.disk, g.scheduler.diskEvents[0])
      && Possible(g.scheduler.diskEvents[0].data, outcome)
    case Reply =>
      && g.replies != []
      && IsDiskAnswer(g.replies[0]) && !g.replies[0].CompletedPieces?
      && IsSafe(c.torrent, g.scheduler, g.replies[0])
    case Restart(torn) =>
      g.scheduler.diskEvents != [] ==>
        && JobFits(c.torrent, g.disk, g.scheduler.diskEvents[0])
        && torn <= |g.scheduler.diskEvents[0].data|
  }

  function Stored(payloads: Payloads, block: nat, payload: seq<Byte>): Payloads {
    payloads[block := payload]
  }

  function Record(g: Engine, e: Event): seq<Payloads>
    requires e.Data? ==> 8 <= |e.data| && InTable(g.scheduler.pieces, BlockKey(e.piece, e.begin / BLOCK_SIZE))
  {
    if e.Data? && e.piece < |g.accepted| && !IsRedundant(g.scheduler, e.piece, e.begin) then
      g.accepted[e.piece := Stored(g.accepted[e.piece], e.begin / BLOCK_SIZE, e.data[8..])]
    else if (e.HashFailed? || e.WriteFailed?) && e.piece < |g.accepted| then
      g.accepted[e.piece := map[]]
    else
      g.accepted
  }

  function Next(c: Config, g: Engine, a: Action): Engine
    requires ConfigOk(c) && IsEnabled(c, g, a)
  {
    match a
    case Receive(e) => g.(scheduler := Handle(c.torrent, g.scheduler, e), accepted := Record(g, e))
    case Work(outcome) =>
      var job := g.scheduler.diskEvents[0];
      var (disk, answer) := TryHashAndWriteJob(c, g.disk, job, outcome);
      g.(scheduler := g.scheduler.(diskEvents := g.scheduler.diskEvents[1..]),
         replies := g.replies + [answer],
         disk := disk)
    case Reply =>
      var e := g.replies[0];
      g.(scheduler := Handle(c.torrent, g.scheduler, e), replies := g.replies[1..], accepted := Record(g, e))
    case Restart(torn) => Boot(c, Interrupted(c, g, torn))
  }
}
