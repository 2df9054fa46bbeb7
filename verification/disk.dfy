/** The disk: it lays the files out, writes verified pieces across file boundaries and keeps the resume file. */
module Disks {
  import opened Metainfo
  import opened Pieces
  import opened Bytes
  import opened Files
  import opened SchedulerModel
  import opened DiskModel
  import opened Wrappers

  /** The bytes after `written` bytes of `data` have reached position `start`. */
  ghost predicate IsWritten(before: seq<OutputFile>, after: seq<OutputFile>, start: nat, data: seq<Byte>,
                            written: nat) {
    && Contiguous(after) && SameLayout(before, after)
    && written <= |data| && start + |data| <= |Flat(before)|
    && Flat(after) == Overwrite(Flat(before), start, data[..written])
  }

  lemma ChunkIsWritten(before: seq<OutputFile>, files: seq<OutputFile>, start: nat, data: seq<Byte>, done: nat,
                       i: nat, at: nat, chunk: seq<Byte>)
    requires IsWritten(before, files, start, data, done)
    requires i < |files| && files[i].offset + at == start + done && at + |chunk| <= files[i].len
    requires done + |chunk| <= |data| && chunk == data[done..done + |chunk|]
    ensures at + |chunk| <= |files[i].content|
    ensures IsWritten(before, PatchFile(files, i, at, chunk), start, data, done + |chunk|)
  {
    var after := PatchFile(files, i, at, chunk);
    var next := files[i].offset + at;
    OffsetIsPosition(files, i);
    assert Flat(after) == Overwrite(Flat(files), next, chunk) by {
      PatchIsFlatPatch(files, i, files[i].offset, at, chunk);
    }
    assert Overwrite(Flat(files), next, chunk) == Overwrite(Flat(before), start, data[..done + |chunk|]) by {
      OverwriteInSteps(Flat(before), start, data[..done], next, chunk);
      assert data[..done] + chunk == data[..done + |chunk|];
    }
    SameLayoutStaysContiguous(files, after);
  }

  /** One write to one file: seek, then write all of the next `len` bytes. Either can fail; a failed write may have
      stored any number of the bytes. `outcome` is how far the file system gets with the whole of `data`. */
  method WriteChunk(ghost before: seq<OutputFile>, files: seq<OutputFile>, ghost start: nat, data: seq<Byte>, done: nat,
                    i: nat, at: nat, len: nat, outcome: WriteOutcome)
    returns (after: seq<OutputFile>, ok: bool, reached: nat)
    requires IsWritten(before, files, start, data, done) && done + len <= |data| && Possible(data, outcome)
    requires i < |before| && before[i].offset + at == start + done && at + len <= before[i].len
    requires done <= outcome.written
    ensures ok == (outcome.ok || done + len < outcome.written)
    ensures reached == if ok then done + len else outcome.written
    ensures IsWritten(before, after, start, data, reached)
  {
    OffsetIsPosition(files, i);
    ok := outcome.ok || done + len < outcome.written;
    reached := if ok then done + len else outcome.written;
    var chunk := data[done..reached];
    after := PatchFile(files, i, at, chunk);
    ChunkIsWritten(before, files, start, data, done, i, at, chunk);
  }

  /** The position lies in the file, or just behind it. */
  predicate IsInFile(files: seq<OutputFile>, i: nat, x: nat) {
    i < |files| && files[i].offset <= x <= files[i].offset + files[i].len
  }

  lemma StartFile(files: seq<OutputFile>, start: nat)
    requires Contiguous(files) && start < End(files)
    ensures 1 <= PartitionPoint(files, start)
    ensures var i := PartitionPoint(files, start) - 1;
            files[i].offset <= start < files[i].offset + files[i].len
  {
  }

  lemma NextFile(files: seq<OutputFile>, i: nat, x: nat)
    requires Contiguous(files) && i < |files| && x == files[i].offset + files[i].len && x < End(files)
    ensures IsInFile(files, i + 1, x)
  {
  }

  /** Write bytes across as many files as they span. On success the flat bytes hold all of the data at its place,
      on failure the part that the file system took; nothing else changes and no file changes its length. */
  method WriteAcross(files: seq<OutputFile>, start: nat, data: seq<Byte>, outcome: WriteOutcome)
    returns (after: seq<OutputFile>, ok: bool)
    requires Contiguous(files) && start + |data| <= |Flat(files)| && Possible(data, outcome)
    ensures IsWritten(files, after, start, data, outcome.written)
    ensures ok == (outcome.ok || data == [])
  {
    var pieceOffset: nat, remaining: nat, dataOffset: nat := start, |data|, 0;
    var point := PartitionPoint(files, pieceOffset);
    var idx := if point == 0 then 0 else point - 1;
    after := files;
    FlatLen(files);
    NothingWritten(files, start, data);
    if remaining > 0 {
      StartFile(files, start);
    }
    while remaining > 0
      invariant dataOffset + remaining == |data| && pieceOffset == start + dataOffset
      invariant IsWritten(files, after, start, data, dataOffset)
      invariant remaining > 0 ==> IsInFile(files, idx, pieceOffset)
      invariant outcome.ok || dataOffset == 0 || dataOffset < outcome.written
      decreases |files| - idx
    {
      var fileOffset := if pieceOffset < files[idx].offset then 0 else pieceOffset - files[idx].offset;
      var writeLen := if remaining < files[idx].len - fileOffset then remaining else files[idx].len - fileOffset;
      var reached;
      after, ok, reached := WriteChunk(files, after, start, data, dataOffset, idx, fileOffset, writeLen, outcome);
      if !ok {
        return after, false;
      }
      remaining := remaining - writeLen;
      dataOffset := dataOffset + writeLen;
      assert dataOffset == reached;
      pieceOffset := pieceOffset + writeLen;
      if remaining == 0 {
        break;
      }
      NextFile(files, idx, pieceOffset);
      idx := idx + 1;
    }
    assert dataOffset == outcome.written;
    return after, true;
  }

  lemma NothingWritten(files: seq<OutputFile>, start: nat, data: seq<Byte>)
    requires Contiguous(files) && start + |data| <= |Flat(files)|
    ensures IsWritten(files, files, start, data, 0)
  {
  }

  /** The lengths of the files: those in the list, or a single file for everything. */
  function Lengths(fileList: Option<seq<nat>>, totalLen: nat): seq<nat> {
    match fileList
    case Some(list) => list
    case None => [totalLen]
  }

  function Sum(lengths: seq<nat>): nat {
    if lengths == [] then 0 else Sum(lengths[..|lengths| - 1]) + lengths[|lengths| - 1]
  }

  /** The first files of the list laid out one after the other, each resized to its length. */
  ghost predicate LaidOut(files: seq<OutputFile>, lengths: seq<nat>, onDisk: seq<seq<Byte>>)
    requires |files| <= |lengths| == |onDisk|
  {
    && Contiguous(files) && End(files) == Sum(lengths[..|files|])
    && forall i {:trigger files[i]} :: 0 <= i < |files| ==>
         files[i].len == lengths[i] && files[i].content == Resize(onDisk[i], lengths[i])
  }

  lemma AppendStaysContiguous(files: seq<OutputFile>, file: OutputFile)
    requires Contiguous(files) && file.offset == End(files) && |file.content| == file.len
    ensures Contiguous(files + [file])
  {
  }

  lemma SumAdds(lengths: seq<nat>, i: nat)
    requires i < |lengths|
    ensures Sum(lengths[..i + 1]) == Sum(lengths[..i]) + lengths[i]
  {
    assert lengths[..i + 1][..i] == lengths[..i];
  }

  lemma LayOutOne(files: seq<OutputFile>, lengths: seq<nat>, onDisk: seq<seq<Byte>>, i: nat)
    requires i == |files| < |lengths| == |onDisk| && LaidOut(files, lengths, onDisk)
    ensures LaidOut(files + [OutputFile(lengths[i], End(files), Resize(onDisk[i], lengths[i]))], lengths, onDisk)
  {
    var file := OutputFile(lengths[i], End(files), Resize(onDisk[i], lengths[i]));
    AppendStaysContiguous(files, file);
    SumAdds(lengths, i);
  }

  method BuildOutputFiles(lengths: seq<nat>, onDisk: seq<seq<Byte>>) returns (files: seq<OutputFile>)
    requires |onDisk| == |lengths|
    ensures |files| == |lengths| && LaidOut(files, lengths, onDisk)
    ensures End(files) == Sum(lengths)
  {
    files := [];
    var offset := 0;
    var i := 0;
    while i < |lengths|
      invariant 0 <= i <= |lengths| && |files| == i
      invariant LaidOut(files, lengths, onDisk) && offset == End(files)
    {
      LayOutOne(files, lengths, onDisk, i);
      files := files + [OutputFile(lengths[i], offset, Resize(onDisk[i], lengths[i]))];
      offset := offset + lengths[i];
      i := i + 1;
    }
    assert lengths[..i] == lengths;
  }

  /** Sorting the files by offset, as the source does at the end, changes nothing: they are sorted already. */
  lemma {:induction false} OffsetsAreSorted(files: seq<OutputFile>, i: nat, j: nat)
    requires Contiguous(files) && i <= j < |files|
    ensures files[i].offset <= files[j].offset
  {
    if i < j {
      OffsetsAreSorted(files, i, j - 1);
      assert files[j].offset == files[j - 1].offset + files[j - 1].len;
    }
  }

  lemma OneMoreBit(n: nat, saved: seq<nat>, p: nat)
    requires p < n
    ensures CompletedBits(n, saved + [p]) == CompletedBits(n, saved)[p := true]
  {
  }

  /** One bit per piece, set exactly for those of the list. */
  ghost predicate IsReport(bits: seq<bool>, n: nat, saved: seq<nat>) {
    |bits| == n && forall p :: 0 <= p < n ==> (bits[p] <==> p in saved)
  }

  /** Set the bit of every whole entry of the resume file; reading stops at the end of the file. */
  method ReadEntries(savefile: seq<Byte>, n: nat) returns (bitfield: seq<bool>)
    requires forall p :: p in Entries(savefile) ==> p < n
    ensures IsReport(bitfield, n, Entries(savefile)) && bitfield == CompletedBits(n, Entries(savefile))
  {
    bitfield := seq(n, _ => false);
    var at := 0;
    assert bitfield == CompletedBits(n, Entries(savefile[..at]));
    while at + 4 <= |savefile|
      invariant at % 4 == 0 && at <= |savefile| && |bitfield| == n
      invariant bitfield == CompletedBits(n, Entries(savefile[..at]))
    {
      var index := FromLE(savefile[at..at + 4]);
      EntriesSplit(savefile, at);
      OneMoreBit(n, Entries(savefile[..at]), index);
      bitfield := bitfield[index := true];
      at := at + 4;
    }
    EntriesEnd(savefile, at);
  }

  class Disk {
    const config: Config
    var outputFiles: seq<OutputFile>
    var savefile: seq<Byte>
    var responses: seq<Event>

    ghost predicate Valid()
      reads this
    {
      && ConfigOk(config)
      && Contiguous(outputFiles) && |Flat(outputFiles)| == config.torrent.totalLen
    }

    /** What the disk holds: the files as one stretch of bytes, and the entries of the resume file. */
    ghost function State(): DiskState
      reads this
    {
      DiskState(Flat(outputFiles), Entries(savefile))
    }

    /** Open, or create, the files named by the torrent and the resume file. */
    constructor (torrent: Config, fileList: Option<seq<nat>>, onDisk: seq<seq<Byte>>, resume: seq<Byte>)
      requires ConfigOk(torrent) && |onDisk| == |Lengths(fileList, torrent.torrent.totalLen)|
      requires Sum(Lengths(fileList, torrent.torrent.totalLen)) == torrent.torrent.totalLen
      ensures Valid() && config == torrent && responses == [] && savefile == resume
      ensures |outputFiles| == |onDisk|
      ensures LaidOut(outputFiles, Lengths(fileList, torrent.torrent.totalLen), onDisk)
    {
      var files := BuildOutputFiles(Lengths(fileList, torrent.torrent.totalLen), onDisk);
      FlatLen(files);
      config := torrent;
      outputFiles := files;
      savefile := resume;
      responses := [];
    }

    /** Report the pieces named in the resume file. */
    method ReadSavefile()
      requires Valid()
      requires forall p :: p in Entries(savefile) ==> p < |config.pieceHashes|
      modifies this`responses
      ensures responses == old(responses) + [CompletedPieces(CompletedBits(config.torrent.numPieces, State().saved))]
      ensures IsReport(responses[|old(responses)|].completed, config.torrent.numPieces, State().saved)
    {
      var bitfield := ReadEntries(savefile, |config.pieceHashes|);
      responses := responses + [CompletedPieces(bitfield)];
    }

    method Write(piece: nat, data: seq<Byte>, outcome: WriteOutcome) returns (ok: bool)
      requires Valid() && JobFits(config.torrent, State(), TryHashAndWrite(piece, data)) && Possible(data, outcome)
      modifies this`outputFiles
      ensures Valid() && SameLayout(old(outputFiles), outputFiles) && ok == outcome.ok
      ensures State() == PartlyWritten(config.torrent, old(State()), TryHashAndWrite(piece, data), outcome.written)
    {
      PieceFits(config.torrent, piece);
      var files;
      ghost var before := outputFiles;
      files, ok := WriteAcross(outputFiles, piece * config.torrent.pieceLen, data, outcome);
      FlatLen(files);
      FlatLen(before);
      outputFiles := files;
    }

    /** Append the index of a stored piece to the resume file. */
    method Record(piece: U32)
      requires Valid()
      modifies this`savefile
      ensures Valid() && savefile == old(savefile) + ToLE(piece)
      ensures |old(savefile)| % 4 == 0 ==> Entries(savefile) == old(Entries(savefile)) + [piece]
    {
      if |savefile| % 4 == 0 {
        EntriesAppend(savefile, piece);
      }
      savefile := savefile + ToLE(piece);
    }

    /** Verify, write, answer and record one piece. Data with a wrong digest never reaches the files. Otherwise the
        files take as much of it as the file system does, at the place of the piece and nowhere else, and the piece is
        recorded if that was all. As far as the resume file holds whole entries, this is a step of the model; if it
        ends in a torn entry, the index is appended to that. */
    method TryHashAndWritePiece(piece: nat, data: seq<Byte>, outcome: WriteOutcome)
      requires Valid() && JobFits(config.torrent, State(), TryHashAndWrite(piece, data)) && Possible(data, outcome)
      modifies this`outputFiles, this`savefile, this`responses
      ensures Valid() && SameLayout(old(outputFiles), outputFiles)
      ensures config.digest(data) != config.pieceHashes[piece] ==>
                && outputFiles == old(outputFiles) && savefile == old(savefile)
                && responses == old(responses) + [HashFailed(piece)]
      ensures config.digest(data) == config.pieceHashes[piece] ==>
                && IsPatch(old(Flat(outputFiles)), Flat(outputFiles), PieceStart(config.torrent, piece),
                           data[..outcome.written])
                && savefile == old(savefile) + (if outcome.ok then ToLE(piece) else [])
                && responses ==
                     old(responses) + [if outcome.ok then PieceHashedAndWritten(piece) else WriteFailed(piece)]
      ensures var (after, answer) := TryHashAndWriteJob(config, old(State()), TryHashAndWrite(piece, data), outcome);
              && Flat(outputFiles) == after.flat && responses == old(responses) + [answer]
              && (|old(savefile)| % 4 == 0 ==> State() == after)
    {
      if config.digest(data) != config.pieceHashes[piece] {
        responses := responses + [HashFailed(piece)];
        return;
      }
      PieceFits(config.torrent, piece);
      OverwriteIsPatch(Flat(outputFiles), PieceStart(config.torrent, piece), data[..outcome.written]);
      var ok := Write(piece, data, outcome);
      if !ok {
        responses := responses + [WriteFailed(piece)];
        return;
      }
      responses := responses + [PieceHashedAndWritten(piece)];
      Record(piece);
    }
  }

  // Starting again

  predicate HasLengths(files: seq<OutputFile>, lengths: seq<nat>) {
    |files| == |lengths| && forall i :: 0 <= i < |files| ==> files[i].len == lengths[i]
  }

  function Contents(files: seq<OutputFile>): (contents: seq<seq<Byte>>)
    ensures |contents| == |files|
  {
    seq(|files|, i requires 0 <= i < |files| => files[i].content)
  }

  lemma {:induction false} OffsetIsSum(files: seq<OutputFile>, lengths: seq<nat>, i: nat)
    requires Contiguous(files) && HasLengths(files, lengths) && i < |files|
    ensures files[i].offset == Sum(lengths[..i]) && files[i].offset + files[i].len == Sum(lengths[..i + 1])
  {
    SumAdds(lengths, i);
    if i > 0 {
      OffsetIsSum(files, lengths, i - 1);
      assert files[i].offset == files[i - 1].offset + files[i - 1].len;
    }
  }

  lemma EndIsSum(files: seq<OutputFile>, lengths: seq<nat>)
    requires Contiguous(files) && HasLengths(files, lengths)
    ensures End(files) == Sum(lengths)
  {
    assert lengths[..|lengths|] == lengths;
    if files != [] {
      OffsetIsSum(files, lengths, |files| - 1);
    }
  }

  /** Laying out what is in the files gives the files again. */
  lemma LayOutAgain(files: seq<OutputFile>, again: seq<OutputFile>, lengths: seq<nat>)
    requires Contiguous(files) && HasLengths(files, lengths)
    requires |again| == |lengths| && LaidOut(again, lengths, Contents(files))
    ensures again == files
  {
    forall i | 0 <= i < |files|
      ensures again[i] == files[i]
    {
      OffsetIsSum(files, lengths, i);
      OffsetIsSum(again, lengths, i);
    }
  }

  /** A restart: a new disk on the files and the resume file of the old one holds what the old one held. */
  method Reopen(disk: Disk, fileList: Option<seq<nat>>) returns (again: Disk)
    requires disk.Valid() && HasLengths(disk.outputFiles, Lengths(fileList, disk.config.torrent.totalLen))
    ensures fresh(again) && again.Valid() && again.config == disk.config
    ensures again.State() == disk.State() && again.savefile == disk.savefile
  {
    FlatLen(disk.outputFiles);
    EndIsSum(disk.outputFiles, Lengths(fileList, disk.config.torrent.totalLen));
    again := new Disk(disk.config, fileList, Contents(disk.outputFiles), disk.savefile);
    LayOutAgain(disk.outputFiles, again.outputFiles, Lengths(fileList, disk.config.torrent.totalLen));
  }

  // The resume file over a whole run of the disk

  /** The entries after a list of jobs. */
  function SavedAfter(c: Config, d: DiskState, jobs: seq<DiskEvent>, outcomes: seq<WriteOutcome>): DiskState
    requires ConfigOk(c) && |outcomes| == |jobs| && |d.flat| == c.torrent.totalLen
    requires forall i :: 0 <= i < |jobs| ==>
               Possible(jobs[i].data, outcomes[i]) && jobs[i].piece < c.torrent.numPieces
               && |jobs[i].data| == PieceLen(c.torrent, jobs[i].piece)
    decreases |jobs|
  {
    if jobs == [] then d
    else SavedAfter(c, TryHashAndWriteJob(c, d, jobs[0], outcomes[0]).0, jobs[1..], outcomes[1..])
  }

  predicate Succeeds(c: Config, job: DiskEvent, outcome: WriteOutcome)
    requires ConfigOk(c) && job.piece < c.torrent.numPieces
  {
    outcome.ok && c.digest(job.data) == c.pieceHashes[job.piece]
  }

  /** Round trip of the resume file: reading it after any jobs reports exactly the pieces recorded before and the
      pieces stored since, whatever failed in between. */
  lemma {:induction false} ResumeRoundTrip(c: Config, d: DiskState, jobs: seq<DiskEvent>, outcomes: seq<WriteOutcome>,
                                           p: nat)
    requires ConfigOk(c) && |outcomes| == |jobs| && |d.flat| == c.torrent.totalLen && p < c.torrent.numPieces
    requires forall i :: 0 <= i < |jobs| ==>
               Possible(jobs[i].data, outcomes[i]) && jobs[i].piece < c.torrent.numPieces
               && |jobs[i].data| == PieceLen(c.torrent, jobs[i].piece)
    ensures p in SavedAfter(c, d, jobs, outcomes).saved <==>
              || p in d.saved
              || exists i :: 0 <= i < |jobs| && jobs[i].piece == p && Succeeds(c, jobs[i], outcomes[i])
    decreases |jobs|
  {
    if jobs != [] {
      var next := TryHashAndWriteJob(c, d, jobs[0], outcomes[0]).0;
      ResumeRoundTrip(c, next, jobs[1..], outcomes[1..], p);
      assert p in next.saved <==> p in d.saved || (jobs[0].piece == p && Succeeds(c, jobs[0], outcomes[0]));
      assert forall i :: 0 <= i < |jobs| - 1 ==> jobs[1..][i] == jobs[i + 1] && outcomes[1..][i] == outcomes[i + 1];
      assert forall i :: 1 <= i < |jobs| ==> jobs[1..][i - 1] == jobs[i] && outcomes[1..][i - 1] == outcomes[i];
    }
  }
}
