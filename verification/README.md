# A verified model of the download engine

A BitTorrent client downloads a torrent in pieces, each cut into blocks of at most 16 KiB. Three parts do the work.
The **scheduler** decides which peer is asked for which block, collects the answers and hands complete pieces over.
The **disk** checks the digest of a piece, writes it across the files of the torrent and records it in a resume file.
For every **connection** a reader turns the bytes of the peer into events and a writer turns commands into bytes.

This project models the three parts and proves what the engine keeps over every run: no requested block is ever lost;
each one is owed by exactly one peer if, and only if, nobody delivers a block that others are being asked for; what
reaches the disk is what the peers delivered, if they deliver whole blocks; and whatever the resume file names is on disk
and stays there, across failed writes and restarts. Where a property does not hold of the program, a run shows it, and a
theorem says exactly when it holds.

## How it is built

| file | contents |
|---|---|
| metainfo.dfy | pieces and blocks, and how they tile the torrent |
| pieces.dfy, allocation.dfy, ledgers.dfy | one piece being assembled; which blocks a peer is asked for; what a peer still owes |
| scheduler_model.dfy | the scheduler as a state and one function per event, and the shapes that events have in common |
| wanted.dfy, orphans.dfy, tables.dfy, connections.dfy, tiles.dfy, registry.dfy, ownership.dfy, completion.dfy | the invariants of the scheduler, each with the proof that every event keeps it |
| windows.dfy, deliveries.dfy, inventories.dfy | when a peer is asked for more; what a delivery does; what the scheduler believes a peer to have |
| scheduler.dfy | the scheduler as a class whose methods change its fields in place, with the loops of the program, each proved to do what scheduler_model.dfy says |
| files.dfy, disk_model.dfy | the files as one stretch of bytes, the entries of the resume file; the disk as a state and a function |
| disk.dfy | the disk as a class: layout, spanning writes, resume file |
| engine.dfy, resume.dfy, assembly.dfy | scheduler and disk with the queues between them, and restarts; the invariants of the whole |
| bytes.dfy, bitfields.dfy, wire.dfy, handshakes.dfy | the formats of BEP 3 ("peer protocol" and "peer messages") |
| peers.dfy | the reader and the writer of a connection as classes |
| hearing.dfy | what each side of a connection makes of the bytes of the other |
| runs.dfy | the theorems about all runs |
| limits.dfy, failing_runs.dfy | what the program does not guarantee: the exact conditions, and runs without them |
| wrappers.dfy | values that may be missing |

A method of a class that changes state promises `State() == F(old(State()), ...)` for a function `F` of the model; the
lemmas are about those functions. A channel is the sequence of everything ever put into it. What the outside world does
is an input: how far the file system gets with a write, how many bytes get through to a peer, how many messages a reader
has time for.

## Hypotheses

The program does not check these. Each theorem names the ones it needs.

- **Metainfo** (`Metainfo.WellFormed`, part of the type `Torrent`): at least one piece, fewer than 2^32; a piece length
  between 1 and 2^32 - 1; all pieces full but the last, which is not empty.
- **Files** (`Disks.Disk.constructor`): the lengths of the listed files add up to the length of the torrent.
- **Start** (`Engine.DiskOk`, part of `Runs.IsRun`): the program is started on files of the right total length and a
  resume file that tells the truth: each piece it names exists and has the right digest. It may be empty. Every theorem
  about runs of scheduler and disk starts from there, and that it stays so is one of them.
- **Live events** (`SchedulerModel.IsLegitimate`, `IsSafe`): an event names a live slot, a connection attempt ends once,
  a parsed bitfield has one bit per piece. The last, and that a connection ends with exactly one disconnect, are proved
  of the connection in peers.dfy.
- **Uncontested deliveries** (`Ownership.IsUncontested`): once the sender's own entry is settled, nobody is being asked
  for a block that is delivered and stored. This is the exact condition of exact ownership. It is enough for safe
  timeouts and disconnects, but not needed: a contested delivery makes a panic possible only once its piece fails
  (`Limits.ContestedCanPanic`).
- **Whole blocks** (`Assembly.IsWholeBlock`): what is delivered and stored starts where its block starts and is as long.
  This is the exact condition of piece assembly.
- **Solicited data** (`Ownership.IsSolicited`): a peer sends only blocks that it is being asked for. It implies the two
  conditions above.
- **Bounds** (`Runs.IsWithinBounds`): a have names a piece inside the peer's bitfield, a delivery a place inside the
  tables and buffers. **Tables** (`Runs.FindsItsTables`): the entries that a disconnect or a timeout frees are not for
  an incomplete piece without a table. The two together are the exact condition of freedom from panics.
- **Disk answers**: in order and once each, which is how the engine of engine.dfy is put together, and only after the
  report of the resumed pieces. That the report is sent first is the program's doing; that it is handled before any
  event of a peer is not, because the loop may take an event first. `Engine.Boot` handles it first, so every theorem
  about runs of scheduler and disk (`Runs.IsRun`) takes that for granted. If a recorded piece is requested or fetched
  before the report is handled, `Runs.RecordedIsNeverRequested`, `Runs.RecordedIsNeverQueued` and
  `Runs.PiecesAreConserved` fail (`FailingRuns.LateReportCountsTwice`), so does exact ownership of a piece that is
  reported while blocks of it are asked for, and `Runs.DurableResume` rests on no other bytes having the digest of a
  piece.

A panic of the scheduler is modelled as a step that is not possible (`SchedulerModel.IsSafe`), a panic of a reader as a
reason to stop.

## Model

| member | source | states |
|---|---|---|
| Metainfo.PieceFits | src/scheduler/scheduler.rs:311-317 | Pieces end where the next one starts, the last at the end of the torrent; no subtraction underflows. |
| Metainfo.PiecesInOrder | src/scheduler/scheduler.rs:311-317 | Pieces occupy disjoint ranges, in order. |
| Metainfo.BlockFits | src/scheduler/scheduler.rs:447-451 | Every block has 1 to 16384 bytes, lies inside its piece, is full unless it is the last, and fits 32-bit arithmetic. |
| Metainfo.BlocksDisjoint | src/scheduler/scheduler.rs:447-451 | No two blocks of a torrent overlap. |
| Metainfo.Tiling | src/scheduler/scheduler.rs:311-317 | Every byte of the torrent lies in exactly one block, with the block count of lazy initialisation. |
| Metainfo.FitsIn64Bits | src/scheduler/scheduler.rs:311-317 | No product or sum of lengths and offsets reaches 2^64. |
| Pieces.LazyInitKeepsInv | src/scheduler/scheduler.rs:30-38 | Creating the table of an incomplete piece gives it ceil(len / 16384) unrequested blocks, a buffer of its length and a correct counter. |
| Pieces.ReceivedCountAdds | src/scheduler/scheduler.rs:494-495 | Receiving one more block raises the number of received blocks by exactly one. |
| Pieces.ReceivedCountFull | src/scheduler/scheduler.rs:499 | The counter reaches the table size exactly when every block is received. |
| Allocation.EligibleIsTheSortedListOfEligibleBlocks | src/scheduler/scheduler.rs:418-461 | The list a pass draws from holds exactly the unrequested blocks of tables of incomplete pieces, and all blocks of incomplete pieces the peer has that have no table yet, in (piece, offset) order. |
| Allocation.RankIsPosition | src/scheduler/scheduler.rs:418-461 | A block's place in that list is the number of eligible blocks before it. |
| Allocation.ChosenRank | src/scheduler/scheduler.rs:419-442 | An eligible block is granted exactly when fewer than `request` eligible blocks come before it, whichever loop the pass breaks out of. |
| Allocation.ChosenDistinct | src/scheduler/scheduler.rs:453 | Granted blocks are in order, so no block is granted twice. |
| Allocation.PushMarksTheChosen | src/scheduler/scheduler.rs:435-458 | A pass turns exactly the granted blocks from not requested into requested, and changes nothing else but lazily created tables. |
| Allocation.PassIsExhaustive | src/scheduler/scheduler.rs:414-463 | A pass that grants less than its quota leaves no eligible block. |
| Ledgers.SwapRemove | src/scheduler/scheduler.rs:223 | Removing by moving the last entry into the gap removes one entry as a multiset. |
| Ledgers.SwapRemoveMovesTheLast | src/scheduler/scheduler.rs:223 | The other entries keep their places, but for the last, which takes the free one. |
| Ledgers.SweepKeepsTheFresh | src/scheduler/scheduler.rs:205-227 | The scan, which removes while it walks, terminates with exactly the entries younger than 15 seconds, each as often as before. |
| Ledgers.SettleMembers | src/scheduler/scheduler.rs:472-481 | An answer takes exactly one entry out of the ledger, the first for its request, or none if there is none. |
| Ledgers.SweepKeepsDistinct | src/scheduler/scheduler.rs:205-227 | A ledger without two entries for a block keeps that under the scan. |
| Ledgers.ReleaseInSteps | src/scheduler/scheduler.rs:288-300 | Freeing blocks one after the other frees exactly their set, in any order. |
| Wanted.PushWants | src/scheduler/scheduler.rs:444-458 | Asking for blocks makes exactly the granted blocks requested; none of them was before. |
| Wanted.ReleaseWants | src/scheduler/scheduler.rs:219-221 | Freeing a set of blocks takes exactly that set out of the requested blocks of incomplete pieces. |
| Wanted.PushHolds | src/scheduler/scheduler.rs:454-457 | Asking a peer for blocks adds exactly the granted requests, with the time of asking, to its ledger and changes no other. |
| Wanted.ScanHolds | src/scheduler/scheduler.rs:203-228 | After the scan exactly the entries younger than 15 seconds are left, in every ledger. |
| Wanted.ScanWants | src/scheduler/scheduler.rs:216-221 | A tick frees exactly the blocks for which somebody has an entry of 15 seconds or more. |
| Wanted.LeavingWants | src/scheduler/scheduler.rs:285-300 | A disconnect frees exactly the blocks the peer is being asked for. |
| Orphans.DataKeepsNoOrphan | src/scheduler/scheduler.rs:467-512 | A late, repeated or unsolicited answer orphans no block. |
| Orphans.ScanKeepsNoOrphan | src/scheduler/scheduler.rs:199-229 | After a timeout scan every block still requested has an entry younger than 15 seconds. |
| Orphans.RemoveKeepsNoOrphan | src/scheduler/scheduler.rs:285-308 | Removing a peer orphans no block, even one another peer is asked for too. |
| Orphans.NoOrphanStep | src/scheduler/scheduler.rs:104-183 | Every event that does not panic keeps each requested block of an incomplete piece in some ledger. |
| Tables.AcceptKeepsTables | src/scheduler/scheduler.rs:490-508 | Storing a block keeps counter, table and buffer in step; a piece is handed over exactly when its last block arrives, with a buffer of its length. |
| Tables.TablesStep | src/scheduler/scheduler.rs:104-183 | Every event keeps the following, except, exactly, the confirmation of a piece of which only some blocks have arrived: no table on an incomplete piece means nothing received; a table has ceil(len / 16384) cells and the counter counts the received ones; an incomplete piece with a table has a whole buffer and a block missing. |
| Connections.PeersStep | src/scheduler/scheduler.rs:104-183 | Every event keeps, for every connection: at most 40 outstanding requests, a bitfield of 0 or n bits, n bits once interested, at most one declaration of interest, before all requests. |
| Connections.PushesAreSafe | src/scheduler/scheduler.rs:435 | The lookup in the bitfield cannot fail in a pass. |
| Connections.ChokesStep | src/scheduler/scheduler.rs:335-351 | The choke flag always tells whether the last choke message of the connection was a choke. |
| Connections.InterestStep | src/scheduler/scheduler.rs:353-367 | The peer's interest flag always tells what its last message about interest said. |
| Connections.RequestsAreGated | src/scheduler/scheduler.rs:388-409 | Requests are sent only to a peer that does not choke us, after interest, with at most 20 outstanding before; the message lists exactly the end of the new ledger. |
| Connections.FlagsChangeNothingElse | src/scheduler/scheduler.rs:335-367 | A choke, an unchoke that ends none and the messages about interest change nothing but the flags of their sender; its requests stay outstanding. |
| Windows.WindowIsFilled | src/scheduler/scheduler.rs:387-409 | A peer we are interested in, that does not choke us and owes at most 20 blocks gets its window filled to 40, or no eligible block is left, and the message is sent if there was one; any other peer gets nothing. |
| Windows.EventsFillTheWindow | src/scheduler/scheduler.rs:319-512 | The same of the events: after a have, a bitfield, the end of a choke and a missing block, and after nothing else, such a peer then owes 40 blocks or no eligible block is left; a have and a bitfield make us interested. |
| Deliveries.DeliverySettles | src/scheduler/scheduler.rs:467-481 | A delivery, redundant ones included, takes the first entry for it out of the sender's ledger; only new requests come behind the rest. |
| Deliveries.OthersDoNotNotice | src/scheduler/scheduler.rs:467-512 | A delivery leaves the records of all other connections alone. |
| Deliveries.MissingBlocksAreStored | src/scheduler/scheduler.rs:484-508 | A delivery is stored, asked for or not, if and only if its piece is incomplete and its block not received: its bytes, and no others, go to its place; the piece is handed over, once, exactly if all other blocks were there. |
| Inventories.InventoriesStep | src/scheduler/scheduler.rs:319-386 | Every event keeps the recorded bitfields equal to what the peers have said, and us interested in exactly those that have said anything. |
| Tiles.ChosenAreTiles | src/scheduler/scheduler.rs:447-451 | Every granted request is one of the blocks that tile the torrent. |
| Tiles.TilesStep | src/scheduler/scheduler.rs:104-183 | Every event keeps all entries in flight, and all requests ever sent, among those blocks. |
| Registry.UnknownAreStartedOnce | src/scheduler/scheduler.rs:231-283 | After a list of peers, or an incoming one, all of them are known, and exactly one attempt is under way for each that was not known before and none for the others; nothing else changes. |
| Registry.ConnectKeepsRegistry | src/scheduler/scheduler.rs:135-142 | A connection that succeeds moves its address from pending to a new slot with a blank record. |
| Registry.ConnectFailedFreesOne | src/scheduler/scheduler.rs:144-146 | A failed attempt ends that attempt and frees exactly its address. |
| Registry.DisconnectFreesOne | src/scheduler/scheduler.rs:302-307 | A disconnect frees exactly one known address and the slot. |
| Registry.RegistryStep | src/scheduler/scheduler.rs:231-283 | Every event keeps: the known addresses are the pending and the connected ones, disjoint, and no address is in two slots. |
| Ownership.ExactlyOneHolder | src/scheduler/scheduler.rs:444-457 | From the ownership invariant: one ledger entry for a requested block of an incomplete piece, none for any other. |
| Ownership.SolicitedIsWanted | src/scheduler/scheduler.rs:472-499 | A solicited block is a whole block of an incomplete piece, marked requested, and fits the buffer. |
| Ownership.SolicitedIsUncontested | src/scheduler/scheduler.rs:472-481 | A solicited delivery is uncontested. |
| Ownership.DataAndOwnership | src/scheduler/scheduler.rs:467-512 | A delivery, asked for or not, keeps ownership exact if and only if it is uncontested. |
| Ownership.OwnershipStep | src/scheduler/scheduler.rs:104-183 | Every event keeps ownership exact, hash and write failures included, except, exactly, a contested delivery. |
| Completion.DataHandsOverOrNot | src/scheduler/scheduler.rs:490-508 | A delivery either completes its piece, which is then handed over once and whole, or completes nothing. |
| Completion.Announcements | src/scheduler/scheduler.rs:516-531 | Only the confirmation of a piece announces a piece, that one, to every connected peer. |
| Completion.ConfirmedIsFreed | src/scheduler/scheduler.rs:516-519 | A confirmed piece is counted and loses its table and buffer; the other pieces stay. |
| Completion.FailedIsForgotten | src/scheduler/scheduler.rs:536-540 | After a hash or write failure the piece is as new, and nothing else has changed. |
| DiskModel.WriteLeavesOtherPieces | src/disk/disk.rs:101-149 | Writing a piece, or failing in the middle, leaves the bytes of every other piece alone. |
| DiskModel.FullWriteStoresThePiece | src/disk/disk.rs:101-149 | After a whole write the piece's bytes are the data. |
| DiskModel.WrongDigestIsRefused | src/disk/disk.rs:66-73 | Data with a wrong digest changes nothing on disk and is answered with a hash failure. |
| DiskModel.RightDigestIsWritten | src/disk/disk.rs:75-93 | Data with the right digest replaces the front of the piece, as far as the file system takes it; the piece is recorded and its success answered exactly if that is all. |
| Files.OffsetIsPosition | src/disk/disk.rs:151-189 | In the layout a file starts where the bytes of the files before it end, empty files included. |
| Files.PatchIsFlatPatch | src/disk/disk.rs:122-135 | Writing into one file is writing into the concatenation at the file's offset. |
| Files.EntriesAppend | src/disk/disk.rs:88-93 | Appending an index to a resume file of whole entries appends it to the entries read back. |
| Files.EntriesAfterTornEntry | src/disk/disk.rs:88-93 | Behind a torn entry the first bytes of an appended index complete that entry instead. |
| Files.TornRecordNamesAnotherPiece | src/disk/disk.rs:87-93 | If the program stops after one of the four bytes that record a piece below 256, the record of the next such piece is read back as that of a third one. |
| Files.WholeEntriesAreNeeded | src/disk/disk.rs:54-57 | Every index can be appended and read back if and only if the resume file holds whole entries only. |
| Files.PartitionPoint | src/disk/disk.rs:109-112 | The number of leading files that start at or before an offset. |
| Disks.StartFile | src/disk/disk.rs:109-115 | The search finds a file that contains the first byte to write, although files may be empty. |
| Disks.WriteAcross | src/disk/disk.rs:101-149 | The spanning loop, over any contiguous files and any range inside them, and whatever the file system takes: afterwards exactly that much of the data is at its place in the concatenation, and success is reported exactly if it took all; nothing else and no file length changes, the index stays in range, and the loop ends although an iteration may write nothing. |
| Pieces.ResizeKeeps | src/disk/disk.rs:151-209 | A file set to its length keeps the bytes that fit and is filled up with zeros. |
| Disks.BuildOutputFiles | src/disk/disk.rs:151-209 | The files are laid out without gaps in list order, each of its length, up to the sum of the lengths. |
| Disks.OffsetsAreSorted | src/disk/disk.rs:228 | The files are sorted by offset before they are sorted. |
| Disks.ReadEntries | src/disk/disk.rs:51-58 | Reading the resume file sets the bit of a piece if and only if it is one of the entries, whatever their order and repetition. |
| Disks.Disk.constructor | src/disk/disk.rs:17-37 | A new disk lays out the files, keeping what is in them, with the listed or the single length. |
| Disks.Disk.ReadSavefile | src/disk/disk.rs:51-64 | The report has one bit per piece, set exactly for the recorded pieces. |
| Disks.Disk.Write | src/disk/disk.rs:101-149 | A write changes the flat bytes as the model says, also when it fails midway. |
| Disks.Disk.TryHashAndWritePiece | src/disk/disk.rs:66-94 | With a wrong digest the files and the resume file stay as they are and the answer is a hash failure. With the right one the files take what the file system takes, at the place of the piece and nowhere else; if that is all, the answer is success and the index is appended, else a write failure. The whole is one step of the model if the resume file holds whole entries. |
| Disks.ResumeRoundTrip | src/disk/disk.rs:88-93 | After any jobs, a piece is recorded exactly if it was before or one of them stored it. |
| Disks.Reopen | src/disk/disk.rs:151-226 | A disk opened on the files and the resume file of another holds what that one held. |
| Resume.EngineStep | src/scheduler/scheduler.rs:490-540 | Every action of scheduler and disk, restarts included, keeps: at most one job or answer per piece under way, always for a complete piece; completed pieces are counted or under way; the resume file tells the truth; announcements are unique and only of confirmed pieces. |
| Resume.SavedBytesStay | src/disk/disk.rs:66-149 | No action changes the bytes of a recorded piece or removes its record. |
| Resume.DoneStays | src/scheduler/scheduler.rs:431-433 | Within a session a confirmed piece stays complete and is never handed over again. |
| Assembly.AssemblesExactlyWholeBlocks | src/scheduler/scheduler.rs:490-508 | Storing a payload of a given length at a given offset keeps the buffer an exact assembly of what was delivered, or hands over an exact one, whatever the bytes, if and only if the payload is as long as its block and starts where the block starts. |
| Assembly.PrefixIsConcatenation | src/scheduler/scheduler.rs:497-508 | The buffer up to any block boundary is the concatenation of the payloads before it. |
| Runs.NoOrphanInAnyRun | src/scheduler/scheduler.rs:104-183 | In every run of the scheduler, whatever peers and disk answer, each requested block of an incomplete piece is in the ledger of a connected peer. |
| Runs.FreshAfterScan | src/scheduler/scheduler.rs:199-229 | In every run, after a timeout scan such a block has an entry younger than 15 seconds. |
| Runs.TablesInAnyRun | src/scheduler/scheduler.rs:29-57 | The piece tables are consistent in every state of a run if and only if no partly received piece is confirmed in it. |
| Runs.TablesInEveryEngineRun | src/scheduler/scheduler.rs:29-57 | In a run of scheduler and disk they are consistent in every state without a condition: the disk confirms only what it was handed. |
| Runs.ConnectionsInAnyRun | src/scheduler/scheduler.rs:104-183 | In every run the invariants of the connections and of the registry hold. |
| Runs.FlagsInAnyRun | src/scheduler/scheduler.rs:335-367 | In every run the choke and interest flags of each connection tell what its last messages said. |
| Runs.RequestsOnlyWhenUnchoked | src/scheduler/scheduler.rs:343-409 | In every run, requests are sent only when the last choke message of the peer was an unchoke and interest was declared before; the window of 40 is respected. |
| Runs.InventoriesInAnyRun | src/scheduler/scheduler.rs:319-386 | In every run the recorded bitfield of a connection has a bit exactly if its last bitfield had it or a have has named it since; we are interested exactly in the peers that have said anything. |
| Runs.OnlyVerifiedBytesAreWritten | src/disk/disk.rs:66-149 | In every step of every run of scheduler and disk, torn writes included, the bytes of a piece stay or are replaced, from the front, by data with its digest. |
| Runs.EveryByteIsFoundOrVerified | src/disk/disk.rs:66-149 | So in every state each byte of the files was there at the start or belongs to data with the digest of its piece. |
| Runs.StopTearsTheWrite | src/disk/disk.rs:101-149 | A stop in the middle of a write leaves the part written so far and no record. |
| Runs.SessionsResumeWhatIsRecorded | src/scheduler/scheduler.rs:186-197 | A session starts with exactly the recorded pieces complete and counted. |
| Runs.DurableResume | src/disk/disk.rs:66-149 | In every run of scheduler and disk, over failed and interrupted writes and restarts, each recorded piece has the right digest, and from then on its record and its bytes never change. |
| Runs.RecordedIsNeverQueued | src/scheduler/scheduler.rs:186-193 | Across failures and restarts a recorded piece counts as complete and is in no job. |
| Runs.RecordedIsNeverRequested | src/scheduler/scheduler.rs:431-433 | Across failures and restarts no event makes the scheduler request a recorded piece. |
| Runs.OneJobPerPiece | src/scheduler/scheduler.rs:499-508 | In every state at most one job or answer per piece is under way, always for a complete piece. |
| Runs.ConfirmedForever | src/scheduler/scheduler.rs:516-519 | Once a success is handled the piece stays complete, with no job or answer under way, to the end of the session. |
| Runs.ConfirmedIsNotRequested | src/scheduler/scheduler.rs:431-433 | No event makes the scheduler send a request for a confirmed piece. |
| Runs.AnnouncedOnceAfterConfirmation | src/scheduler/scheduler.rs:525-531 | A piece is announced to a connection at most once, and only if its success was handled before in the same session; pieces resumed from the disk are not announced. |
| Runs.PiecesAreConserved | src/scheduler/scheduler.rs:499-519 | The number of complete pieces is the counter plus the pieces under way; the counter never exceeds the number of pieces and never decreases in a session. |
| Runs.OnlyTilesAreRequested | src/scheduler/scheduler.rs:447-457 | In every run, all requests sent and all entries in flight are blocks of the tiling. |
| Runs.EveryCommandIsSendable | src/peers/peers.rs:82-113 | In every run, every command fits the 32-bit fields of the wire. |
| Runs.OwnershipInAnyRun | src/scheduler/scheduler.rs:199-308 | Ownership is exact in every state of a run, through failures, timeouts, disconnects and restarts, if and only if no stored delivery of the run is contested. |
| Runs.ExactOwnership | src/scheduler/scheduler.rs:199-308 | In such a run a block has one ledger entry if it is requested and its piece incomplete, and none otherwise. |
| Runs.JobsAreConcatenations | src/scheduler/scheduler.rs:499-508 | A queued job has the length of its piece and is the in-order concatenation of the payloads stored for it, if every delivery stored for that piece since it was last started was a whole block, asked for or not; other pieces, and what came before, do not matter. |
| Runs.AllJobsAreConcatenations | src/scheduler/scheduler.rs:499-508 | So all jobs of a run are, if all its stored deliveries are whole blocks. |
| Runs.SolicitedIsEnough | src/scheduler/scheduler.rs:467-512 | A run in which peers send only what they are asked has no contested delivery, and only whole blocks. |
| Runs.HaveIsSafe | src/scheduler/scheduler.rs:319-332 | A have is handled without a panic if and only if the peer's bitfield has a bit for the piece. |
| Runs.DeliveryIsSafe | src/scheduler/scheduler.rs:467-512 | A delivery is handled without a panic if and only if it names a cell of a table, and there is room for it unless it is redundant. |
| Runs.LeavingIsSafe | src/scheduler/scheduler.rs:285-300 | A disconnect is handled without a panic if and only if no entry of the peer is for an incomplete piece without a table. |
| Runs.ScanningIsSafe | src/scheduler/scheduler.rs:199-229 | A timeout scan is handled without a panic if and only if no stale entry of any peer is. |
| Runs.NoPanic | src/scheduler/scheduler.rs:104-183 | In every state of every run, contested deliveries included, what a correct environment offers is handled without a panic (no index out of range, no failed unwrap or assertion) if and only if it stays within bounds and, for a disconnect or a timeout scan, none of the entries it frees is for an incomplete piece without a table. |
| Runs.NoPanicUncontested | src/scheduler/scheduler.rs:104-183 | So in a run without contested deliveries timeouts and disconnects never panic, and the bounds alone decide. |
| Runs.SolicitedIsWithinBounds | src/scheduler/scheduler.rs:472-499 | In such a run a solicited block is within bounds. |
| Limits.GrantsGoToOwners | src/scheduler/scheduler.rs:435-444 | A pass asks a peer only for pieces it has if and only if every unrequested block in a table of a piece it lacks has at least as many eligible blocks before it as the quota allows. |
| Limits.GrantsAlwaysGoToOwners | src/scheduler/scheduler.rs:435-444 | However large the quota, this is so if and only if there is no such block. |
| Limits.ReportIsExact | src/scheduler/scheduler.rs:186-193 | A report of resumed pieces keeps the counter exact exactly when it names no piece that is complete already. |
| Limits.DeliveryKeepsEntriesLive | src/scheduler/scheduler.rs:472-499 | Even where ownership was not exact, a stored delivery keeps all ledger entries in step with the tables if and only if it is uncontested. |
| Limits.ContestedCanPanic | src/scheduler/scheduler.rs:285-300 | After any contested delivery, should its piece fail next, the disconnect of some connected peer is a panic. |
| FailingRuns.HaveWithoutBitfieldPanics | src/scheduler/scheduler.rs:319-321 | A run: a peer connects and sends a have without a bitfield, as BEP 3 allows; the lookup of the bit panics. |
| FailingRuns.NonOwnersAreAsked | src/scheduler/scheduler.rs:435-457 | A run: a request times out, and the block is asked of a peer that has said it does not have the piece. |
| FailingRuns.LateAnswersCanPanic | src/scheduler/scheduler.rs:285-300 | A run: a request times out, the block is asked of a second peer, the first answers after all (a contested delivery), the piece fails its hash, and the second peer's disconnect indexes an empty table. |
| FailingRuns.LateAnswersCanPanicTheEngine | src/scheduler/scheduler.rs:285-300 | The same in a run of scheduler and disk. |
| FailingRuns.LateReportCountsTwice | src/scheduler/scheduler.rs:186-193 | A run: a piece that is on disk is fetched again and handed over before the disk's report of it is handled, and confirmed after; the one complete piece is counted twice. |
| FailingRuns.PartialConfirmationBreaksTables | src/scheduler/scheduler.rs:40-48 | Why the scheduler by itself needs the condition on the disk: against an arbitrary disk, which confirms a piece of which one of two blocks has arrived, the counter no longer fits the table. |
| FailingRuns.OversizedBreaksAssembly | src/scheduler/scheduler.rs:490-508 | A run of scheduler and disk: a payload as long as the piece is delivered for its first block, and the piece goes to the disk with a byte that differs from the one delivered for the second. |
| Scheduling.FreeBlock | src/scheduler/scheduler.rs:294-299 | Frees the block of an entry if its piece is incomplete and shows it as requested. |
| Scheduling.ScanLedger | src/scheduler/scheduler.rs:204-227 | The scanning loop leaves the swept ledger and frees exactly the blocks of the stale entries. |
| Scheduling.RequestOpenBlocks | src/scheduler/scheduler.rs:439-460 | The inner loop grants and marks the first unrequested blocks of a table, up to the quota. |
| Scheduling.RequestPieces | src/scheduler/scheduler.rs:414-463 | The nested loops return the first `request` eligible blocks and mark exactly those, despite lazy tables and two early exits. |
| Scheduling.Scheduler.constructor | src/scheduler/scheduler.rs:60-76 | A new scheduler knows no peers and has all pieces empty. |
| Scheduling.Scheduler.ParseCompletedPieces | src/scheduler/scheduler.rs:186-197 | The loop sets the flags and the counter as the model says. |
| Scheduling.Scheduler.ScanTimeouts | src/scheduler/scheduler.rs:199-229 | The scan over all peers, in any order, has the effect of freeing all stale blocks at once. |
| Scheduling.Scheduler.DedupAndStartPeers | src/scheduler/scheduler.rs:231-262 | A list of addresses, with repetitions, starts each unknown one once. |
| Scheduling.Scheduler.RemovePeer | src/scheduler/scheduler.rs:285-308 | The loop frees the peer's blocks; its slot and address are released. |
| Scheduling.Scheduler.PushBlocks | src/scheduler/scheduler.rs:414-463 | Returns the granted blocks, marks them and appends them to the peer's ledger, and nothing else. |
| Scheduling.Scheduler.MaybePushBlocks | src/scheduler/scheduler.rs:388-409 | Asks for blocks behind the gate, without underflow of the window. |
| Scheduling.Scheduler.HandleData | src/scheduler/scheduler.rs:467-512 | Settles the ledger, drops redundant blocks, stores the others, hands over a full piece and asks for more. |
| Scheduling.Scheduler.OnCompletePiece | src/scheduler/scheduler.rs:516-532 | Frees the memory, counts the piece and tells every peer. |
| Scheduling.Scheduler.HandleEvent | src/scheduler/scheduler.rs:104-183 | One turn of the loop, in place, is one step of the model, for every event and through every handler; what the steps keep is in the rows above. |
| Bytes.BigEndianValue | src/peers/peers.rs:231 | Of four bytes on the wire the first counts 2^24, the last 1. |
| Bytes.LittleEndianValue | src/disk/disk.rs:55 | Of four bytes in the resume file the first counts 1, the last 2^24. |
| Bytes.BigEndianRoundTrip | src/peers/peers.rs:231 | Four bytes, most significant first, give the number back. |
| Bytes.LittleEndianRoundTrip | src/disk/disk.rs:55 | Four bytes, least significant first, give the number back. |
| Bitfields.UnpackPack | src/peers/peers.rs:304-323 | Unpacking inverts most-significant-bit-first packing, for every number of pieces. |
| Bitfields.PackUnpack | src/peers/peers.rs:304-323 | Packing inverts unpacking exactly on payloads whose spare bits are zero; the parser accepts others too. |
| Wire.TryFromInvertsCode | src/peers/peers.rs:19-37 | Exactly the ten codes are recognised, each as its own id. |
| Wire.FrameIsRead | src/peers/peers.rs:165-180 | Reading a frame consumes exactly the frame. |
| Wire.MessageIsRead | src/peers/peers.rs:180-299 | Reading the encoding of a message reports its meaning and leaves the rest of the stream. |
| Wire.DecodeInvertsEncode | src/peers/peers.rs:159-302 | Any concatenation of readable messages (ids 0 to 5 and 7, unknown ids, short pieces, keep-alives) is reported as exactly their meanings, in order. |
| Wire.BrokenStream | src/peers/peers.rs:165-178 | A stream that breaks off anywhere reports a prefix of what it would have reported. |
| Wire.DecodeForIsPrefix | src/peers/peers.rs:353-361 | A reader that is aborted has reported a prefix, and everything if there was time for the whole stream. |
| Wire.WhatStopsAReader | src/peers/peers.rs:230-299 | A message stops the reader if and only if it is a have without an index, a bitfield of the wrong length, a request, a cancellation or a port; unknown messages are skipped. |
| Wire.DecodedAreWellFormed | src/peers/peers.rs:165-302 | Whatever a peer sends, reported bitfields have one bit per piece and blocks carry the header they are reported with. |
| Wire.RequestsRoundTrip | src/peers/peers.rs:82-103 | The 17 n bytes of a batch of n requests split back into exactly that batch. |
| Handshakes.AcceptedAreForThisTorrent | src/peers/peers.rs:388-402 | Exactly the handshakes of BEP 3 for this torrent are accepted, whatever their reserved bytes and sender. |
| Handshakes.OurHandshakeIsAccepted | src/peers/peers.rs:365-376 | Our handshake, byte for byte, with zero reserved bytes; a peer that checks like we do accepts it. |
| Peers.PeerReader.ParseBitfield | src/peers/peers.rs:304-323 | The nested loops yield exactly n bits, bit i being bit 7 - i mod 8 of byte i / 8, or the length error. |
| Peers.PeerReader.ReadMessage | src/peers/peers.rs:165-302 | One message as the model reads it; every success has consumed exactly the length field and the length it announces. |
| Peers.PeerReader.Run | src/peers/peers.rs:159-163 | The loop reports the decoding of as many messages as it has time for, and of the whole stream if it ends by itself. |
| Peers.PeerWriter.Download | src/peers/peers.rs:82-103 | The buffer filled by the moving counter is the encoding of the requests, sent with one write as far as there is room. |
| Peers.PeerWriter.SendHave | src/peers/peers.rs:105-113 | Sends the encoding of a have message, as far as there is room. |
| Peers.PeerWriter.SendInterested | src/peers/peers.rs:115-122 | Sends the encoding of an interested message, as far as there is room. |
| Peers.PeerWriter.SendUnchoke | src/peers/peers.rs:124-131 | Sends the encoding of an unchoke message, as far as there is room. |
| Peers.PeerWriter.SendChoke | src/peers/peers.rs:133-140 | Sends the encoding of a choke message, as far as there is room. |
| Peers.PeerWriter.SendHandshake | src/peers/peers.rs:365-376 | Sends our handshake, as far as there is room. |
| Peers.PeerWriter.Run | src/peers/peers.rs:47-80 | The loop sends the messages of all commands, in order, cut off only where no more bytes get through, and reports success exactly if all did. |
| Peers.DoHandshake | src/peers/peers.rs:365-386 | Succeeds if and only if our whole handshake went out and, unless the connection is incoming, the stream starts with a handshake for this torrent; the rest of the stream is what comes behind it. |
| Peers.RunPeer | src/peers/peers.rs:326-386 | A connection opens under exactly that condition. Then the scheduler gets the decoding of the rest, for as many messages as there was time for, all well-formed, and the peer gets our handshake and the messages of all commands, as far as there was room; otherwise the scheduler gets nothing and the peer at most our handshake. Last, and once, the scheduler gets a disconnect. |
| Peers.DeliveredAreLegitimate | src/peers/peers.rs:165-302 | What a connection delivers is what the scheduler's invariants rely on. |
| Peers.CommandsAreSendable | src/scheduler/scheduler.rs:447-451 | Commands about the blocks and pieces of the torrent fit the wire. |
| Hearing.CommandsAreHeard | src/peers/peers.rs:47-122 | Reading the bytes of the commands as BEP 3 says gives one interested for each declaration, one have for each announcement and the blocks of each batch, in order. |
| Hearing.CutIsHeard | src/peers/peers.rs:47-122 | If the bytes break off, a prefix of that. |
| Hearing.PeerHears | src/peers/peers.rs:326-386 | So a peer hears our handshake and then a prefix of what the commands say, and all of it if there was room. |
| Hearing.FlagsAreUnderstood | src/peers/peers.rs:181-228 | The bytes of the four messages about choking and interest, each with the event the scheduler is told of. |
| Hearing.HavesAreUnderstood | src/peers/peers.rs:230-243 | A have tells the scheduler the index, most significant byte first. |
| Hearing.BitfieldsAreUnderstood | src/peers/peers.rs:245-260 | A bitfield tells it that piece i is bit 7 - i mod 8 of byte i / 8. |
| Hearing.BlocksAreUnderstood | src/peers/peers.rs:266-286 | A block tells it piece, offset and bytes, which still have both in front. |

## Left out

- Task scheduling, fairness, channel capacities and back-pressure: an event is handled in one step and channels keep order.
- Aliasing of piece buffers and peer records: the vector and the slab own them inline, so they are values inside a sequence and a map that the scheduler's methods reassign.
- The clock: a handler reads it once, as a parameter; inside an allocation pass the source reads it once per block.
- The choice of slot numbers by the slab: a parameter that must be free.
- The assertion on a connect event is checked in debug builds only; here it is always required, and proved.
- The digest function: any function from bytes to digests.
- File handles, paths, directories, buffering and flushing; a file is its bytes, and an operation on it may fail.
- Disks.Disk.TryHashAndWritePiece: is a step of the model only while the resume file holds whole entries, because behind a torn entry the source appends to that entry (`Files.WholeEntriesAreNeeded`); the engine of engine.dfy starts from whole entries.
- Runs.DurableResume: does not cover a stop in the middle of the four bytes of a record (src/disk/disk.rs:87-92), after which the resume file no longer holds whole entries and may come to name a piece that is not on disk (`Files.TornRecordNamesAnotherPiece`; the exact condition is `Files.WholeEntriesAreNeeded`).
- The gap between the disk's answer (src/disk/disk.rs:82-85) and its record (src/disk/disk.rs:87-92): the disk does both in one step. A stop in the gap leaves the files and the resume file as a `Restart` after the whole piece is written leaves them.
- A resume file that cannot be opened or written to, which ends the disk, is not modelled.
- Sorting the files by offset is not modelled as a step, because they are sorted already (`Disks.OffsetsAreSorted`).
- When one half of a connection ends and the other is aborted: `room` and `turns` are arbitrary and independent, which includes every such end.
- Requests, cancellations and ports sent by a peer (unfinished in the source) stop the reader, like a have message that is too short.
- Commands the scheduler never sends (shutdown, resume, piece, cancel) and requests of the session that are unfinished in the source (shutdown of peers, statistics).
- Progress: nothing is proved about a download finishing; the source asks for no new blocks after a timeout scan or a redundant block.
- That requests go only to peers that have the piece, that data nobody asked for is harmless, that a late report of the resumed pieces is counted right and that a have needs no bitfield are not true of the source: limits.dfy, ownership.dfy, assembly.dfy and runs.dfy state exactly when they are, and failing_runs.dfy has the runs.
- Metainfo.WellFormed: also asks for fewer than 2^32 pieces, because the source casts piece indices to 32 bits.
- The user interface, the session, the trackers, and the parsers of torrent files and tracker answers.
