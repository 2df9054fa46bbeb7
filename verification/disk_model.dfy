/** The disk as the concatenation of the torrent's files and the list of pieces in the resume file: the
    specification of the class in disk.dfy. */
module DiskModel {
  import opened Metainfo
  import opened Pieces
  import opened SchedulerModel

  type Digest = seq<Byte>

  /** A torrent with the digests of its pieces and the digest function, which stays uninterpreted. */
  datatype Config = Config(torrent: Torrent, pieceHashes: seq<Digest>, digest: seq<Byte> -> Digest)

  predicate ConfigOk(c: Config) {
    |c.pieceHashes| == c.torrent.numPieces
  }

  datatype DiskState = DiskState(flat: seq<Byte>, saved: seq<nat>)

  function PieceBytes(m: Torrent, flat: seq<Byte>, p: nat): (bytes: seq<Byte>)
    requires p < m.numPieces && |flat| == m.totalLen
    ensures |bytes| == PieceLen(m, p)
  {
    PieceFits(m, p);
    flat[PieceStart(m, p)..PieceStart(m, p) + PieceLen(m, p)]
  }

  /** How far the file system gets: `written` bytes of the piece reach the files. */
  datatype WriteOutcome = WriteOutcome(ok: bool, written: nat)

  predicate JobFits(m: Torrent, d: DiskState, job: DiskEvent) {
    && job.piece < m.numPieces
    && |job.data| == PieceLen(m, job.piece)
    && |d.flat| == m.totalLen
  }

  predicate Possible(data: seq<Byte>, outcome: WriteOutcome) {
    outcome.written <= |data| && (outcome.ok ==> outcome.written == |data|)
  }

  function PartlyWritten(m: Torrent, d: DiskState, job: DiskEvent, written: nat): DiskState
    requires JobFits(m, d, job) && written <= |job.data|
  {
    PieceFits(m, job.piece);
    d.(flat := Overwrite(d.flat, PieceStart(m, job.piece), job.data[..written]))
  }

  /** The state after a job, and the answer. */
  function TryHashAndWriteJob(c: Config, d: DiskState, job: DiskEvent, outcome: WriteOutcome): (DiskState, Event)
    requires ConfigOk(c) && JobFits(c.torrent, d, job) && Possible(job.data, outcome)
  {
    if c.digest(job.data) != c.pieceHashes[job.piece] then (d, HashFailed(job.piece))
    else
      var after := PartlyWritten(c.torrent, d, job, outcome.written);
      if !outcome.ok then (after, WriteFailed(job.piece))
      else (after.(saved := after.saved + [job.piece]), PieceHashedAndWritten(job.piece))
  }

  /** The bits reported when the resume file is read. */
  function CompletedBits(n: nat, saved: seq<nat>): (bits: seq<bool>)
    ensures |bits| == n
  {
    seq(n, p => p in saved)
  }

  lemma OverwrittenElsewhere<T>(s: seq<T>, at: nat, chunk: seq<T>, lo: nat, hi: nat)
    requires at + |chunk| <= |s| && lo <= hi <= |s| && (hi <= at || at + |chunk| <= lo)
    ensures Overwrite(s, at, chunk)[lo..hi] == s[lo..hi]
  {
  }

  /** Writing a piece, or part of it, leaves every other piece alone. */
  lemma WriteLeavesOtherPieces(m: Torrent, d: DiskState, job: DiskEvent, written: nat, p: nat)
    requires JobFits(m, d, job) && written <= |job.data| && p < m.numPieces && p != job.piece
    ensures PieceBytes(m, PartlyWritten(m, d, job, written).flat, p) == PieceBytes(m, d.flat, p)
  {
    PieceFits(m, p);
    PieceFits(m, job.piece);
    if p < job.piece {
      PiecesInOrder(m, p, job.piece);
    } else {
      PiecesInOrder(m, job.piece, p);
    }
    OverwrittenElsewhere(d.flat, PieceStart(m, job.piece), job.data[..written],
                         PieceStart(m, p), PieceStart(m, p) + PieceLen(m, p));
  }

  lemma OverwrittenPart<T>(s: seq<T>, at: nat, chunk: seq<T>)
    requires at + |chunk| <= |s|
    ensures Overwrite(s, at, chunk)[at..at + |chunk|] == chunk
  {
  }

  lemma FullWriteStoresThePiece(m: Torrent, d: DiskState, job: DiskEvent)
    requires JobFits(m, d, job)
    ensures PieceBytes(m, PartlyWritten(m, d, job, |job.data|).flat, job.piece) == job.data
  {
    PieceFits(m, job.piece);
    assert job.data[..|job.data|] == job.data;
    OverwrittenPart(d.flat, PieceStart(m, job.piece), job.data);
  }

  /** The bytes are as before except from `at` on, where they are the chunk. */
  predicate IsPatch<T(==)>(before: seq<T>, after: seq<T>, at: nat, chunk: seq<T>) {
    && |after| == |before| && at + |chunk| <= |before|
    && after == before[..at] + chunk + before[at + |chunk|..]
  }

  lemma OverwriteIsPatch<T>(s: seq<T>, at: nat, chunk: seq<T>)
    requires at + |chunk| <= |s|
    ensures IsPatch(s, Overwrite(s, at, chunk), at, chunk)
  {
  }

  lemma PatchInside<T>(before: seq<T>, after: seq<T>, at: nat, chunk: seq<T>, end: nat)
    requires IsPatch(before, after, at, chunk) && at + |chunk| <= end <= |before|
    ensures IsPatch(before[at..end], after[at..end], 0, chunk)
  {
  }

  /** A piece that is written in part starts with that part of the data. */
  lemma PartIsAtTheFront(m: Torrent, d: DiskState, job: DiskEvent, written: nat)
    requires JobFits(m, d, job) && written <= |job.data|
    ensures IsPatch(PieceBytes(m, d.flat, job.piece),
                    PieceBytes(m, PartlyWritten(m, d, job, written).flat, job.piece), 0, job.data[..written])
  {
    PieceFits(m, job.piece);
    var start := PieceStart(m, job.piece);
    OverwriteIsPatch(d.flat, start, job.data[..written]);
    PatchInside(d.flat, PartlyWritten(m, d, job, written).flat, start, job.data[..written],
                start + PieceLen(m, job.piece));
  }

  /** Data with a wrong digest is answered with a hash failure and leaves the disk as it was. */
  lemma WrongDigestIsRefused(c: Config, d: DiskState, job: DiskEvent, outcome: WriteOutcome)
    requires ConfigOk(c) && JobFits(c.torrent, d, job) && Possible(job.data, outcome)
    requires c.digest(job.data) != c.pieceHashes[job.piece]
    ensures TryHashAndWriteJob(c, d, job, outcome) == (d, HashFailed(job.piece))
  {
  }

  /** Data with the right digest replaces as much of the piece as the file system takes; the piece is recorded, and its
      success answered, exactly if that is all of it. */
  lemma RightDigestIsWritten(c: Config, d: DiskState, job: DiskEvent, outcome: WriteOutcome)
    requires ConfigOk(c) && JobFits(c.torrent, d, job) && Possible(job.data, outcome)
    requires c.digest(job.data) == c.pieceHashes[job.piece]
    ensures var (after, answer) := TryHashAndWriteJob(c, d, job, outcome);
            && |after.flat| == |d.flat|
            && IsPatch(PieceBytes(c.torrent, d.flat, job.piece), PieceBytes(c.torrent, after.flat, job.piece), 0,
                       job.data[..outcome.written])
            && after.saved == d.saved + (if outcome.ok then [job.piece] else [])
            && answer == if outcome.ok then PieceHashedAndWritten(job.piece) else WriteFailed(job.piece)
  {
    PartIsAtTheFront(c.torrent, d, job, outcome.written);
  }
}
