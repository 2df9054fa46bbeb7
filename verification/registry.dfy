/** The registry of known addresses: each is either being connected to or connected, once. */
module Registry {
  import opened Metainfo
  import opened SchedulerModel

  ghost predicate IsConnected(s: SchedulerState, addr: SocketAddr) {
    exists k :: k in s.slots && s.slots[k].addr == addr
  }

  ghost predicate RegistryOk(s: SchedulerState) {
    && (forall a :: s.connecting[a] <= 1)
    && (forall a :: a in s.existingPeers <==> a in s.connecting || IsConnected(s, a))
    && (forall k :: k in s.slots ==> s.slots[k].addr !in s.connecting)
    && (forall k, l :: k in s.slots && l in s.slots && k != l ==> s.slots[k].addr != s.slots[l].addr)
  }

  ghost predicate SameConnections(s: SchedulerState, t: SchedulerState) {
    && t.existingPeers == s.existingPeers
    && t.connecting == s.connecting
    && t.slots.Keys == s.slots.Keys
    && forall k :: k in s.slots ==> t.slots[k].addr == s.slots[k].addr
  }

  lemma SameConnectionsKeepRegistry(s: SchedulerState, t: SchedulerState)
    requires RegistryOk(s) && SameConnections(s, t)
    ensures RegistryOk(t)
  {
  }

  lemma PushKeepsConnections(m: Torrent, s: SchedulerState, t: SchedulerState, k: nat, now: nat)
    requires k in t.slots && SameConnections(s, t)
    ensures SameConnections(s, MaybePushBlocks(m, t, k, now))
  {
  }

  predicate ChangesConnections(e: Event) {
    e.LaunchPeers? || e.IncomingPeer? || e.Connect? || e.ConnectFailed? || e.Disconnect?
  }

  lemma SettlingKeepsConnections(s: SchedulerState, k: nat, r: BlockRequest)
    requires k in s.slots
    ensures SameConnections(s, SettleAt(s, k, r))
  {
  }

  lemma DataKeepsConnections(m: Torrent, s: SchedulerState, e: Event)
    requires e.Data? && IsSafe(m, s, e)
    ensures SameConnections(s, Handle(m, s, e))
  {
    DataThenPush(m, s, e);
    SettlingKeepsConnections(s, e.slot, Answered(e));
    if IsStored(m, s, e) {
      PushKeepsConnections(m, s, StoredState(m, s, e), e.slot, e.now);
    }
  }

  lemma UpdateKeepsConnections(m: Torrent, s: SchedulerState, e: Event)
    requires IsUpdate(e) && IsSafe(m, s, e)
    ensures SameConnections(s, Handle(m, s, e))
  {
    UpdateThenPush(m, s, e);
    UpdatesAreMinor(s, e);
    PushKeepsConnections(m, s, WithPeer(s, e.slot, Updated(s, e)), e.slot, e.now);
  }

  lemma QuietEventsKeepConnections(m: Torrent, s: SchedulerState, e: Event)
    requires IsSafe(m, s, e) && !ChangesConnections(e) && !e.Data? && !IsUpdate(e)
    ensures SameConnections(s, Handle(m, s, e))
  {
  }

  lemma OthersKeepConnections(m: Torrent, s: SchedulerState, e: Event)
    requires IsSafe(m, s, e) && !ChangesConnections(e)
    ensures SameConnections(s, Handle(m, s, e))
  {
    if e.Data? {
      DataKeepsConnections(m, s, e);
    } else if IsUpdate(e) {
      UpdateKeepsConnections(m, s, e);
    } else {
      QuietEventsKeepConnections(m, s, e);
    }
  }

  lemma StartKeepsRegistry(s: SchedulerState, addr: SocketAddr)
    requires RegistryOk(s)
    ensures RegistryOk(StartPeer(s, addr))
  {
  }

  lemma {:induction false} DedupKeepsRegistry(s: SchedulerState, list: seq<SocketAddr>)
    requires RegistryOk(s)
    ensures RegistryOk(DedupAndStartPeers(s, list))
  {
    if list != [] {
      DedupKeepsRegistry(s, list[..|list| - 1]);
      StartKeepsRegistry(DedupAndStartPeers(s, list[..|list| - 1]), list[|list| - 1]);
    }
  }

  // What each event does to the registry

  /** These addresses are known afterwards, and those among them that were not are being connected to, once. */
  ghost predicate StartedOnce(s: SchedulerState, t: SchedulerState, addrs: set<SocketAddr>) {
    && t.existingPeers == s.existingPeers + addrs
    && forall a :: t.connecting[a] == s.connecting[a] + (if a in addrs && a !in s.existingPeers then 1 else 0)
  }

  lemma OneMoreStarted(s: SchedulerState, t: SchedulerState, addrs: set<SocketAddr>, addr: SocketAddr)
    requires StartedOnce(s, t, addrs)
    ensures StartedOnce(s, StartPeer(t, addr), addrs + {addr})
  {
  }

  lemma {:induction false} DedupStartsOnce(s: SchedulerState, list: seq<SocketAddr>)
    ensures StartedOnce(s, DedupAndStartPeers(s, list), (set a | a in list))
  {
    if list == [] {
      assert (set a | a in list) == {};
    } else {
      var front, final := list[..|list| - 1], list[|list| - 1];
      DedupStartsOnce(s, front);
      OneMoreStarted(s, DedupAndStartPeers(s, front), (set a | a in front), final);
      assert list == front + [final];
      assert (set a | a in list) == (set a | a in front) + {final};
    }
  }

  /** The addresses an event asks to connect to, or to accept. */
  function Wished(e: Event): seq<SocketAddr>
    requires e.LaunchPeers? || e.IncomingPeer?
  {
    if e.LaunchPeers? then e.peers else [e.addr]
  }

  /** Every address of the list is known afterwards; exactly one attempt is started for each that was not known before,
      however often it is listed, and none for the others. Nothing else changes. */
  lemma UnknownAreStartedOnce(m: Torrent, s: SchedulerState, e: Event)
    requires e.LaunchPeers? || e.IncomingPeer?
    ensures var t := Handle(m, s, e);
            && t == s.(existingPeers := t.existingPeers, connecting := t.connecting)
            && StartedOnce(s, t, (set a | a in Wished(e)))
  {
    if e.LaunchPeers? {
      StartingPeersIsRegistryOnly(s, e.peers);
      DedupStartsOnce(s, e.peers);
    } else {
      assert (set a | a in Wished(e)) == {e.addr};
    }
  }

  /** The attempt to connect to `addr` has ended, and no other. */
  ghost predicate AttemptEnded(s: SchedulerState, t: SchedulerState, addr: SocketAddr) {
    forall a :: t.connecting[a] == if a == addr then 0 else s.connecting[a]
  }

  lemma ConnectingConnects(s: SchedulerState, t: SchedulerState, addr: SocketAddr, k: nat, a: SocketAddr)
    requires k !in s.slots && t.slots == s.slots[k := NewPeer(addr)]
    ensures IsConnected(t, a) <==> IsConnected(s, a) || a == addr
  {
    if IsConnected(s, a) {
      var l :| l in s.slots && s.slots[l].addr == a;
      assert l in t.slots && t.slots[l].addr == a;
    }
    if a == addr {
      assert k in t.slots && t.slots[k].addr == a;
    }
  }

  lemma MovingKeepsRegistry(s: SchedulerState, t: SchedulerState, addr: SocketAddr, k: nat)
    requires RegistryOk(s) && addr in s.connecting && k !in s.slots
    requires t.existingPeers == s.existingPeers && AttemptEnded(s, t, addr) && t.slots == s.slots[k := NewPeer(addr)]
    ensures RegistryOk(t)
  {
    forall a
      ensures a in t.existingPeers <==> a in t.connecting || IsConnected(t, a)
    {
      ConnectingConnects(s, t, addr, k, a);
    }
  }

  /** A connection that succeeds moves its address from pending to a new slot, whose record is blank: choked, without
      interest on either side, nothing known, owed or sent. */
  lemma ConnectKeepsRegistry(m: Torrent, s: SchedulerState, e: Event)
    requires RegistryOk(s) && e.Connect? && IsSafe(m, s, e) && IsLegitimate(m, s, e)
    ensures var t := Handle(m, s, e);
            && RegistryOk(t)
            && t.existingPeers == s.existingPeers && AttemptEnded(s, t, e.addr)
            && t.slots == s.slots[e.slot := PeerHandle([], [], e.addr, true, true, false, false, [])]
  {
    var t := Handle(m, s, e);
    assert AttemptEnded(s, t, e.addr);
    MovingKeepsRegistry(s, t, e.addr, e.slot);
  }

  /** Exactly one address is freed when a connection attempt fails ... */
  lemma ConnectFailedFreesOne(m: Torrent, s: SchedulerState, e: Event)
    requires RegistryOk(s) && e.ConnectFailed? && IsLegitimate(m, s, e)
    ensures var t := Handle(m, s, e);
            && RegistryOk(t) && t.slots == s.slots
            && e.addr in s.existingPeers && t.existingPeers == s.existingPeers - {e.addr}
            && AttemptEnded(s, t, e.addr)
  {
  }

  /** ... and when a connection ends, with its slot. */
  lemma DisconnectFreesOne(m: Torrent, s: SchedulerState, e: Event)
    requires RegistryOk(s) && e.Disconnect? && IsSafe(m, s, e)
    ensures var t := Handle(m, s, e);
            && RegistryOk(t) && t.connecting == s.connecting && t.slots == s.slots - {e.slot}
            && s.slots[e.slot].addr in s.existingPeers
            && t.existingPeers == s.existingPeers - {s.slots[e.slot].addr}
  {
    var t, addr := Handle(m, s, e), s.slots[e.slot].addr;
    assert IsConnected(s, addr);
    forall a
      ensures IsConnected(t, a) <==> IsConnected(s, a) && a != addr
    {
      if IsConnected(s, a) && a != addr {
        var l :| l in s.slots && s.slots[l].addr == a;
        assert l in t.slots;
      }
    }
  }

  lemma ConnectionEventsKeepRegistry(m: Torrent, s: SchedulerState, e: Event)
    requires RegistryOk(s) && IsSafe(m, s, e) && IsLegitimate(m, s, e) && ChangesConnections(e)
    ensures RegistryOk(Handle(m, s, e))
  {
    if e.LaunchPeers? {
      DedupKeepsRegistry(s, e.peers);
    } else if e.IncomingPeer? {
      StartKeepsRegistry(s, e.addr);
    } else if e.Connect? {
      ConnectKeepsRegistry(m, s, e);
    } else if e.ConnectFailed? {
      ConnectFailedFreesOne(m, s, e);
    } else {
      DisconnectFreesOne(m, s, e);
    }
  }

  lemma RegistryStep(m: Torrent, s: SchedulerState, e: Event)
    requires RegistryOk(s) && IsSafe(m, s, e) && IsLegitimate(m, s, e)
    ensures RegistryOk(Handle(m, s, e))
  {
    if ChangesConnections(e) {
      ConnectionEventsKeepRegistry(m, s, e);
    } else {
      OthersKeepConnections(m, s, e);
      SameConnectionsKeepRegistry(s, Handle(m, s, e));
    }
  }
}
