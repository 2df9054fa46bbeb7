/** What the scheduler believes a peer to have, and that it wants it, follow what the peer has said. */
module Inventories {
  import opened Metainfo
  import opened SchedulerModel
  import opened Connections

  /** Whether the last bitfield of the connection in slot `k` had the piece, or it has announced the piece since. */
  function SaidToHave(events: seq<Event>, k: nat, p: nat): bool {
    if events == [] then false
    else match events[|events| - 1]
      case Bitfield(l, bits, _) =>
        if l == k then p < |bits| && bits[p] else SaidToHave(events[..|events| - 1], k, p)
      case Have(l, piece, _) => (l == k && piece == p) || SaidToHave(events[..|events| - 1], k, p)
      case Connect(_, l) => l != k && SaidToHave(events[..|events| - 1], k, p)
      case _ => SaidToHave(events[..|events| - 1], k, p)
  }

  /** Whether the connection in slot `k` has said anything about what it has. */
  function SaidAnything(events: seq<Event>, k: nat): bool {
    if events == [] then false
    else match events[|events| - 1]
      case Bitfield(l, _, _) => l == k || SaidAnything(events[..|events| - 1], k)
      case Have(l, _, _) => l == k || SaidAnything(events[..|events| - 1], k)
      case Connect(_, l) => l != k && SaidAnything(events[..|events| - 1], k)
      case _ => SaidAnything(events[..|events| - 1], k)
  }

  predicate IsMarked(h: PeerHandle, p: nat) {
    p < |h.bitfield| && h.bitfield[p]
  }

  /** The recorded bitfields are what the peers have said, and we are interested in those that have said anything. */
  ghost predicate InventoriesTracked(s: SchedulerState, events: seq<Event>) {
    forall k :: k in s.slots ==>
      && s.slots[k].amInterested == SaidAnything(events, k)
      && forall p: nat :: IsMarked(s.slots[k], p) <==> SaidToHave(events, k, p)
  }

  /** The record of a connection before and after an event. */
  ghost predicate InventoryFollows(h: PeerHandle, g: PeerHandle, e: Event, k: nat) {
    if e.Bitfield? && e.slot == k then g.amInterested && g.bitfield == e.bitfield
    else if e.Have? && e.slot == k then
      && g.amInterested
      && e.piece < |h.bitfield| && |g.bitfield| == |h.bitfield|
      && forall p: nat :: IsMarked(g, p) <==> p == e.piece || IsMarked(h, p)
    else g.amInterested == h.amInterested && g.bitfield == h.bitfield
  }

  lemma UpdateFollows(m: Torrent, s: SchedulerState, e: Event, k: nat)
    requires IsUpdate(e) && IsSafe(m, s, e) && k in Handle(m, s, e).slots
    ensures k in s.slots && InventoryFollows(s.slots[k], Handle(m, s, e).slots[k], e, k)
  {
    UpdateThenPush(m, s, e);
    var t := WithPeer(s, e.slot, Updated(s, e));
    PushKeepsRecords(m, t, e.slot, e.now, e.slot);
    PushKeepsRecords(m, t, e.slot, e.now, k);
  }

  lemma DeliveryFollows(m: Torrent, s: SchedulerState, e: Event, k: nat)
    requires e.Data? && IsSafe(m, s, e) && k in Handle(m, s, e).slots
    ensures k in s.slots && InventoryFollows(s.slots[k], Handle(m, s, e).slots[k], e, k)
  {
    DataThenPush(m, s, e);
    if IsStored(m, s, e) {
      var stored := StoredState(m, s, e);
      StoringKeepsRecords(m, s, e, k);
      PushKeepsRecords(m, stored, e.slot, e.now, e.slot);
      PushKeepsRecords(m, stored, e.slot, e.now, k);
    }
  }

  lemma InventoryAfter(m: Torrent, s: SchedulerState, e: Event, k: nat)
    requires IsSafe(m, s, e) && k in Handle(m, s, e).slots && !(e.Connect? && e.slot == k)
    ensures k in s.slots && InventoryFollows(s.slots[k], Handle(m, s, e).slots[k], e, k)
  {
    if e.Data? {
      DeliveryFollows(m, s, e, k);
    } else if IsUpdate(e) {
      UpdateFollows(m, s, e, k);
    } else {
      QuietEvents(m, s, e, k);
    }
  }

  lemma InventoriesStep(m: Torrent, s: SchedulerState, e: Event, before: seq<Event>)
    requires IsSafe(m, s, e) && InventoriesTracked(s, before)
    ensures InventoriesTracked(Handle(m, s, e), before + [e])
  {
    var t := Handle(m, s, e);
    var events := before + [e];
    assert events[..|events| - 1] == before;
    forall k | k in t.slots
      ensures t.slots[k].amInterested == SaidAnything(events, k)
      ensures forall p: nat :: IsMarked(t.slots[k], p) <==> SaidToHave(events, k, p)
    {
      if !(e.Connect? && e.slot == k) {
        InventoryAfter(m, s, e, k);
      }
    }
  }
}
