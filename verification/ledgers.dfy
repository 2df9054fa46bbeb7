/** The requests a peer has not answered yet, and giving their blocks back to the piece tables. */
module Ledgers {
  import opened Metainfo
  import opened Pieces

  datatype InFlightBlock = InFlightBlock(request: BlockRequest, sentAt: nat)

  /** In nanoseconds, the resolution of the clock. */
  const REQUEST_TIMEOUT: nat := 15_000_000_000

  /** Elapsed time saturates at zero, so an entry from the future is fresh. */
  predicate Stale(e: InFlightBlock, now: nat) {
    e.sentAt + REQUEST_TIMEOUT <= now
  }

  /** Remove by moving the last entry into the gap. */
  function SwapRemove<T>(s: seq<T>, i: nat): (r: seq<T>)
    requires i < |s|
    ensures multiset(r) == multiset(s) - multiset{s[i]}
  {
    var last := |s| - 1;
    assert s == s[..i] + [s[i]] + s[i + 1..];
    if i == last then
      s[..last]
    else
      assert s[i + 1..] == s[i + 1..last] + [s[last]];
      assert s[..last][i := s[last]] == s[..i] + [s[last]] + s[i + 1..last];
      s[..last][i := s[last]]
  }

  /** The others keep their places, but for the last, which takes the place of the one removed. */
  lemma SwapRemoveMovesTheLast<T>(s: seq<T>, i: nat, j: nat)
    requires i < |s| && j < |s| - 1
    ensures |SwapRemove(s, i)| == |s| - 1
    ensures SwapRemove(s, i)[j] == if j == i then s[|s| - 1] else s[j]
  {
  }

  /** The timeout scan of one ledger from position `i` on. */
  function Sweep(ledger: seq<InFlightBlock>, i: nat, now: nat): seq<InFlightBlock>
    decreases |ledger| - i
  {
    if |ledger| <= i then ledger
    else if Stale(ledger[i], now) then Sweep(SwapRemove(ledger, i), i, now)
    else Sweep(ledger, i + 1, now)
  }

  lemma {:induction false} SweepMultiplicity(ledger: seq<InFlightBlock>, i: nat, now: nat, e: InFlightBlock)
    requires i <= |ledger| && forall j :: 0 <= j < i ==> !Stale(ledger[j], now)
    ensures multiset(Sweep(ledger, i, now))[e] == if Stale(e, now) then 0 else multiset(ledger)[e]
    decreases |ledger| - i
  {
    if i == |ledger| {
      assert e in multiset(ledger) ==> e in ledger;
    } else if Stale(ledger[i], now) {
      SweepMultiplicity(SwapRemove(ledger, i), i, now, e);
    } else {
      SweepMultiplicity(ledger, i + 1, now, e);
    }
  }

  /** The scan terminates with exactly the entries younger than 15 seconds, each as often as before, though it reorders
      them. */
  lemma SweepKeepsTheFresh(ledger: seq<InFlightBlock>, now: nat)
    ensures forall e :: multiset(Sweep(ledger, 0, now))[e] ==
                          if now < e.sentAt + 15_000_000_000 then multiset(ledger)[e] else 0
    ensures forall e :: e in Sweep(ledger, 0, now) <==> e in ledger && now < e.sentAt + 15_000_000_000
  {
    forall e
      ensures multiset(Sweep(ledger, 0, now))[e] == if Stale(e, now) then 0 else multiset(ledger)[e]
      ensures e in Sweep(ledger, 0, now) <==> e in ledger && !Stale(e, now)
    {
      SweepMultiplicity(ledger, 0, now, e);
      assert e in Sweep(ledger, 0, now) <==> e in multiset(Sweep(ledger, 0, now));
      assert e in ledger <==> e in multiset(ledger);
    }
  }

  lemma SwapRemoveMembers<T>(s: seq<T>, i: nat)
    requires i < |s|
    ensures forall x :: x in SwapRemove(s, i) ==> x in s
    ensures forall x :: x in s && x != s[i] ==> x in SwapRemove(s, i)
  {
  }

  /** The first entry for a request; the length of the ledger if there is none. */
  function Position(ledger: seq<InFlightBlock>, r: BlockRequest): (pos: nat)
    ensures pos <= |ledger|
    ensures pos < |ledger| ==> ledger[pos].request == r
    ensures forall j :: 0 <= j < pos ==> ledger[j].request != r
  {
    if ledger == [] then 0
    else if ledger[0].request == r then 0
    else 1 + Position(ledger[1..], r)
  }

  /** The ledger after an answer to `r`. */
  function Settle(ledger: seq<InFlightBlock>, r: BlockRequest): seq<InFlightBlock> {
    var pos := Position(ledger, r);
    if pos < |ledger| then SwapRemove(ledger, pos) else ledger
  }

  /** An answer takes exactly one entry out of the ledger, the first for its request, or none if there is none. */
  lemma SettleMembers(ledger: seq<InFlightBlock>, r: BlockRequest)
    ensures var pos := Position(ledger, r);
            multiset(Settle(ledger, r)) ==
              if pos < |ledger| then multiset(ledger) - multiset{ledger[pos]} else multiset(ledger)
    ensures Position(ledger, r) == |ledger| <==> forall e :: e in ledger ==> e.request != r
    ensures forall e :: e in Settle(ledger, r) ==> e in ledger
    ensures forall e :: e in ledger && e.request != r ==> e in Settle(ledger, r)
  {
    var pos := Position(ledger, r);
    if pos < |ledger| {
      SwapRemoveMembers(ledger, pos);
    }
  }

  /** No two entries for the same block. */
  ghost predicate NoDuplicates(ledger: seq<InFlightBlock>) {
    forall i, j :: 0 <= i < j < |ledger| ==> KeyOf(ledger[i].request) != KeyOf(ledger[j].request)
  }

  lemma SwapRemoveKeepsDistinct(ledger: seq<InFlightBlock>, i: nat)
    requires i < |ledger| && NoDuplicates(ledger)
    ensures NoDuplicates(SwapRemove(ledger, i))
    ensures forall e :: e in SwapRemove(ledger, i) ==> KeyOf(e.request) != KeyOf(ledger[i].request)
  {
  }

  lemma {:induction false} SweepKeepsDistinct(ledger: seq<InFlightBlock>, i: nat, now: nat)
    requires NoDuplicates(ledger)
    ensures NoDuplicates(Sweep(ledger, i, now))
    decreases |ledger| - i
  {
    if |ledger| <= i {
    } else if Stale(ledger[i], now) {
      SwapRemoveKeepsDistinct(ledger, i);
      SweepKeepsDistinct(SwapRemove(ledger, i), i, now);
    } else {
      SweepKeepsDistinct(ledger, i + 1, now);
    }
  }

  lemma {:induction false} SweepShrinks(ledger: seq<InFlightBlock>, i: nat, now: nat)
    ensures |Sweep(ledger, i, now)| <= |ledger|
    decreases |ledger| - i
  {
    if i < |ledger| {
      if Stale(ledger[i], now) {
        SweepShrinks(SwapRemove(ledger, i), i, now);
      } else {
        SweepShrinks(ledger, i + 1, now);
      }
    }
  }

  // Giving blocks back

  function Keys(ledger: seq<InFlightBlock>): set<BlockKey> {
    set e | e in ledger :: KeyOf(e.request)
  }

  function ReleasedPiece(piece: PieceBuffer, p: nat, keys: set<BlockKey>): PieceBuffer {
    if piece.complete then piece
    else piece.(blockStatus := seq(|piece.blockStatus|, b requires 0 <= b < |piece.blockStatus| =>
      if piece.blockStatus[b] == Requested && BlockKey(p, b) in keys then NotRequested else piece.blockStatus[b]))
  }

  /** Requested blocks of incomplete pieces named in `keys` become unrequested. */
  function Released(pieces: seq<PieceBuffer>, keys: set<BlockKey>): (r: seq<PieceBuffer>)
    ensures |r| == |pieces|
  {
    seq(|pieces|, p requires 0 <= p < |pieces| => ReleasedPiece(pieces[p], p, keys))
  }

  /** The table cell named by `key` exists, or is not looked at. */
  predicate InTable(pieces: seq<PieceBuffer>, key: BlockKey) {
    && key.piece < |pieces|
    && (!pieces[key.piece].complete ==> key.block < |pieces[key.piece].blockStatus|)
  }

  lemma ReleaseInSteps(pieces: seq<PieceBuffer>, keys: set<BlockKey>, more: set<BlockKey>)
    ensures Released(Released(pieces, keys), more) == Released(pieces, keys + more)
  {
    var once, twice := Released(pieces, keys + more), Released(Released(pieces, keys), more);
    forall p | 0 <= p < |pieces|
      ensures once[p] == twice[p]
    {
      assert once[p].blockStatus == twice[p].blockStatus;
    }
  }

  lemma ReleaseNothing(pieces: seq<PieceBuffer>)
    ensures Released(pieces, {}) == pieces
  {
    forall p | 0 <= p < |pieces|
      ensures Released(pieces, {})[p] == pieces[p]
    {
      assert ReleasedPiece(pieces[p], p, {}).blockStatus == pieces[p].blockStatus;
    }
  }
}
