/** The output files as one flat stretch of bytes. */
module Files {
  import opened Metainfo
  import opened Pieces
  import opened Bytes

  datatype OutputFile = OutputFile(len: nat, offset: nat, content: seq<Byte>)

  /** All files one after the other. */
  function Flat(files: seq<OutputFile>): seq<Byte> {
    if files == [] then [] else Flat(files[..|files| - 1]) + files[|files| - 1].content
  }

  /** Where the last file ends. */
  function End(files: seq<OutputFile>): nat {
    if files == [] then 0 else files[|files| - 1].offset + files[|files| - 1].len
  }

  /** Every file starts where the one before it ends; files may be empty. */
  ghost predicate Contiguous(files: seq<OutputFile>) {
    && (forall i {:trigger files[i].content} :: 0 <= i < |files| ==> |files[i].content| == files[i].len)
    && (files != [] ==> files[0].offset == 0)
    && (forall i, j {:trigger files[i].offset, files[j].offset} ::
          0 <= i < |files| - 1 && j == i + 1 ==> files[j].offset == files[i].offset + files[i].len)
  }

  ghost predicate SameLayout(files: seq<OutputFile>, other: seq<OutputFile>) {
    && |files| == |other|
    && forall i {:trigger files[i]} {:trigger other[i]} ::
         0 <= i < |files| ==> files[i].len == other[i].len && files[i].offset == other[i].offset
  }

  lemma SameLayoutStaysContiguous(files: seq<OutputFile>, other: seq<OutputFile>)
    requires Contiguous(files) && SameLayout(files, other)
    requires forall i :: 0 <= i < |other| ==> |other[i].content| == other[i].len
    ensures Contiguous(other)
  {
  }

  /** The flat bytes end where the last file ends, and a file starts where the bytes of the files before it end. */
  lemma {:induction false} FlatLen(files: seq<OutputFile>)
    requires Contiguous(files)
    ensures |Flat(files)| == End(files)
  {
    if files != [] {
      var front := files[..|files| - 1];
      FlatLen(front);
      if front != [] {
        assert files[|files| - 1].offset == End(front);
      }
    }
  }

  lemma OffsetIsPosition(files: seq<OutputFile>, i: nat)
    requires Contiguous(files) && i < |files|
    ensures files[i].offset == |Flat(files[..i])| && |files[i].content| == files[i].len
  {
    FlatLen(files[..i]);
    if i > 0 {
      assert files[i].offset == files[i - 1].offset + files[i - 1].len;
    }
  }

  /** The number of leading files that start at or before `x`. */
  function PartitionPoint(files: seq<OutputFile>, x: nat): (n: nat)
    ensures n <= |files|
    ensures forall i :: 0 <= i < n ==> files[i].offset <= x
    ensures n < |files| ==> x < files[n].offset
  {
    if files == [] || x < files[0].offset then 0 else 1 + PartitionPoint(files[1..], x)
  }

  function PatchFile(files: seq<OutputFile>, i: nat, at: nat, chunk: seq<Byte>): seq<OutputFile>
    requires i < |files| && at + |chunk| <= |files[i].content|
  {
    files[i := files[i].(content := Overwrite(files[i].content, at, chunk))]
  }

  lemma OverwriteLeft<T>(s: seq<T>, t: seq<T>, at: nat, chunk: seq<T>)
    requires at + |chunk| <= |s|
    ensures Overwrite(s, at, chunk) + t == Overwrite(s + t, at, chunk)
  {
  }

  lemma FlatOfAppended(front: seq<OutputFile>, final: OutputFile)
    ensures Flat(front + [final]) == Flat(front) + final.content
  {
  }

  lemma PatchLast(front: seq<OutputFile>, final: OutputFile, offset: nat, at: nat, chunk: seq<Byte>)
    requires at + |chunk| <= |final.content| && offset == |Flat(front)|
    ensures Flat(PatchFile(front + [final], |front|, at, chunk)) ==
              Overwrite(Flat(front) + final.content, offset + at, chunk)
  {
  }

  lemma PatchFront(front: seq<OutputFile>, final: OutputFile, i: nat, at: nat, chunk: seq<Byte>)
    requires i < |front| && at + |chunk| <= |front[i].content|
    ensures Flat(PatchFile(front + [final], i, at, chunk)) == Flat(PatchFile(front, i, at, chunk)) + final.content
  {
  }

  /** Writing into one file is writing into the flat bytes at the place where the file starts. */
  lemma {:induction false} PatchIsFlatPatch(files: seq<OutputFile>, i: nat, offset: nat, at: nat, chunk: seq<Byte>)
    requires i < |files| && at + |chunk| <= |files[i].content| && offset == |Flat(files[..i])|
    ensures offset + |files[i].content| <= |Flat(files)|
    ensures Flat(PatchFile(files, i, at, chunk)) == Overwrite(Flat(files), offset + at, chunk)
  {
    var last := |files| - 1;
    var front, final := files[..last], files[last];
    assert files == front + [final];
    FlatOfAppended(front, final);
    if i == last {
      PatchLast(front, final, offset, at, chunk);
    } else {
      assert files[..i] == front[..i];
      PatchIsFlatPatch(front, i, offset, at, chunk);
      PatchFront(front, final, i, at, chunk);
      OverwriteLeft(Flat(front), final.content, offset + at, chunk);
    }
  }

  lemma OverwriteInSteps<T>(s: seq<T>, at: nat, chunk: seq<T>, next: nat, more: seq<T>)
    requires at + |chunk| + |more| <= |s| && next == at + |chunk|
    ensures Overwrite(Overwrite(s, at, chunk), next, more) == Overwrite(s, at, chunk + more)
  {
  }

  // The resume file

  /** The whole 32-bit entries of a resume file. */
  function Entries(bytes: seq<Byte>): seq<nat> {
    if |bytes| < 4 then [] else [FromLE(bytes[..4])] + Entries(bytes[4..])
  }

  /** A file of whole entries followed by anything reads as its entries and what follows. */
  lemma {:induction false} EntriesOfWhole(whole: seq<Byte>, more: seq<Byte>)
    requires |whole| % 4 == 0
    ensures Entries(whole + more) == Entries(whole) + Entries(more)
  {
    if whole == [] {
      assert whole + more == more;
    } else {
      EntriesOfWhole(whole[4..], more);
      assert (whole + more)[..4] == whole[..4] && (whole + more)[4..] == whole[4..] + more;
    }
  }

  lemma OneEntry(bytes: seq<Byte>)
    requires |bytes| == 4
    ensures Entries(bytes) == [FromLE(bytes)]
  {
    assert bytes[..4] == bytes && Entries(bytes[4..]) == [];
  }

  /** Appending an entry to a file of whole entries appends it to the entries read back. */
  lemma EntriesAppend(bytes: seq<Byte>, x: U32)
    requires |bytes| % 4 == 0
    ensures Entries(bytes + ToLE(x)) == Entries(bytes) + [x]
  {
    EntriesOfWhole(bytes, ToLE(x));
    OneEntry(ToLE(x));
    LittleEndianRoundTrip(x);
  }

  lemma EntryBetween(before: seq<Byte>, entry: seq<Byte>, after: seq<Byte>)
    requires |before| % 4 == 0 && |entry| == 4
    ensures Entries(before + entry) == Entries(before) + [FromLE(entry)]
    ensures FromLE(entry) in Entries(before + entry + after)
  {
    EntriesOfWhole(before, entry);
    OneEntry(entry);
    EntriesOfWhole(before + entry, after);
    assert (Entries(before) + [FromLE(entry)])[|Entries(before)|] == FromLE(entry);
  }

  lemma CutThree<T>(s: seq<T>, i: nat, j: nat)
    requires i <= j <= |s|
    ensures s[..j] == s[..i] + s[i..j] && s == s[..i] + s[i..j] + s[j..]
  {
  }

  lemma EntriesSplit(bytes: seq<Byte>, at: nat)
    requires at % 4 == 0 && at + 4 <= |bytes|
    ensures Entries(bytes[..at + 4]) == Entries(bytes[..at]) + [FromLE(bytes[at..at + 4])]
    ensures FromLE(bytes[at..at + 4]) in Entries(bytes)
  {
    CutThree(bytes, at, at + 4);
    EntryBetween(bytes[..at], bytes[at..at + 4], bytes[at + 4..]);
  }

  /** What is left behind the last whole entry holds none. */
  lemma EntriesEnd(bytes: seq<Byte>, at: nat)
    requires at % 4 == 0 && at <= |bytes| < at + 4
    ensures Entries(bytes[..at]) == Entries(bytes)
  {
    EntriesOfWhole(bytes[..at], bytes[at..]);
    assert bytes == bytes[..at] + bytes[at..];
  }

  // Torn entries

  lemma EntriesOfTail(tail: seq<Byte>, x: U32)
    requires |tail| < 4
    ensures Entries(tail) == [] && Entries(tail + ToLE(x)) == [FromLE((tail + ToLE(x))[..4])]
  {
    assert Entries((tail + ToLE(x))[4..]) == [];
  }

  /** Behind a torn entry, the first bytes of an appended index complete that entry instead. */
  lemma EntriesAfterTornEntry(whole: seq<Byte>, tail: seq<Byte>, x: U32)
    requires |whole| % 4 == 0 && |tail| < 4
    ensures Entries(whole + tail + ToLE(x)) == Entries(whole + tail) + [FromLE((tail + ToLE(x))[..4])]
  {
    EntriesOfWhole(whole, tail);
    EntriesOfWhole(whole, tail + ToLE(x));
    EntriesOfTail(tail, x);
    assert whole + tail + ToLE(x) == whole + (tail + ToLE(x));
  }

  lemma TornEntryLosesAnIndex(whole: seq<Byte>, tail: seq<Byte>) returns (x: U32)
    requires |whole| % 4 == 0 && 0 < |tail| < 4
    ensures Entries(whole + tail + ToLE(x)) != Entries(whole + tail) + [x]
  {
    x := if tail[0] == 0 then 1 else 0;
    EntriesAfterTornEntry(whole, tail, x);
    var read := FromLE((tail + ToLE(x))[..4]);
    LittleEndianValue((tail + ToLE(x))[..4]);
    assert read != x;
    var before := Entries(whole + tail);
    assert (before + [read])[|before|] != (before + [x])[|before|];
  }

  lemma FirstByteThenIndex(torn: Byte, x: Byte)
    ensures FromLE((ToLE(torn)[..1] + ToLE(x))[..4]) == torn + 256 * x
  {
    ShortNumber(torn);
    ShortNumber(x);
    assert (ToLE(torn)[..1] + ToLE(x))[..4] == [torn, x, 0, 0];
    LittleEndianValue([torn, x, 0, 0]);
  }

  lemma TornEntryIsNone(whole: seq<Byte>, tail: seq<Byte>)
    requires |whole| % 4 == 0 && |tail| < 4
    ensures Entries(whole + tail) == Entries(whole)
  {
    EntriesOfWhole(whole, tail);
    assert Entries(tail) == [];
  }

  /** The program stops after the first of the four bytes that record a piece below 256. After the restart the record
      of another piece is read back as that of a third, whose bytes may never have been written. */
  lemma TornRecordNamesAnotherPiece(whole: seq<Byte>, tail: seq<Byte>, torn: Byte, x: Byte)
    requires |whole| % 4 == 0 && tail == ToLE(torn)[..1]
    ensures Entries(whole + tail + ToLE(x)) == Entries(whole) + [torn + 256 * x]
  {
    FirstByteThenIndex(torn, x);
    TornEntryIsNone(whole, tail);
    EntriesAfterTornEntry(whole, tail, x);
  }

  predicate ReadsBack(bytes: seq<Byte>, x: U32) {
    Entries(bytes + ToLE(x)) == Entries(bytes) + [x]
  }

  /** Every index can be appended and read back exactly when the resume file holds whole entries only. */
  lemma WholeEntriesAreNeeded(bytes: seq<Byte>)
    ensures (forall x: U32 :: ReadsBack(bytes, x)) <==> |bytes| % 4 == 0
  {
    if |bytes| % 4 == 0 {
      forall x: U32
        ensures ReadsBack(bytes, x)
      {
        EntriesAppend(bytes, x);
      }
    } else {
      var at := |bytes| - |bytes| % 4;
      var x := TornEntryLosesAnIndex(bytes[..at], bytes[at..]);
      assert bytes[..at] + bytes[at..] == bytes;
      assert !ReadsBack(bytes, x);
    }
  }
}
