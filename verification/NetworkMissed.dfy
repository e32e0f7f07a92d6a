/** What the first client of a node can miss of the answer to its query: exactly whose name comes late. */
module NetworkMissed {
  import opened Types
  import Lexicographic
  import opened Sequences
  import opened Messages
  import opened StoreModel
  import opened Gossip
  import opened Network
  import opened NetworkSafety
  import opened NetworkTermination
  import opened NetworkFlood
  import opened NetworkConnections
  import opened NetworkLessons
  import opened NetworkCompleteness
  import opened NetworkSecondWave
  import opened NetworkCatchUp

  // ---------- the wave of a first client ----------

  // A connection h, the only made one of its node, to another node v.
  predicate SoleLink(t: Topology, h: Hop, v: nat) {
    && ValidHop(t, h) && h.up && LinkOf(t, h).dest == Some(v) && v != h.client && v < |t|
    && forall i :: 0 <= i < |t[h.client]| && i != h.index ==> t[h.client][i].dest.None?
  }

  // What the wave may carry: questions and answers on h only, and upwards the new client, or on h what
  // the other end knew before.
  predicate Carried(s: Net, h: Hop, v: nat, own: Key, hop: Hop, m: Message) {
    match m
    case Query(service) => hop == h && service == own.service
    case PeerUpdate(_, _, _, _) =>
      if hop.up then MessageKey(m) == own || (hop == h && Holds(s, v, MessageKey(m))) else hop == Back(h)
  }

  predicate Sendable(t: Topology, s: Net, h: Hop, v: nat, own: Key, a: Action) {
    && a.Send? && ValidHop(t, a.hop)
    && (Line(a.hop) in s.closed || Receiver(t, a.hop).None? || Carried(s, h, v, own, a.hop, a.m))
  }

  predicate SendableAll(t: Topology, s: Net, h: Hop, v: nat, own: Key, thread: seq<Action>) {
    forall a :: a in thread ==> Sendable(t, s, h, v, own, a)
  }

  // What the nodes know: the others at most the new client more than in s.
  predicate Waved(s: Net, c: Net, h: Hop, own: Key) {
    && |c.nodes| == |s.nodes| && h.client < |s.nodes| && Holds(c, h.client, own)
    && c.nodes[h.client].started == {own}
    && (forall x :: 0 <= x < |s.nodes| && x != h.client ==>
          c.nodes[x].peers.Keys <= s.nodes[x].peers.Keys + {own} && c.nodes[x].started == s.nodes[x].started)
    && (forall x :: 0 <= x < |s.nodes| ==> s.nodes[x].peers.Keys <= c.nodes[x].peers.Keys)
  }

  // The client own was started at the near end of h in the resting state s, and by now the network is in
  // state c.
  ghost predicate Wave(t: Topology, s: Net, c: Net, h: Hop, v: nat, own: Key) {
    && Waved(s, c, h, own) && s.closed <= c.closed
    && (forall p :: p in c.flights ==> Carried(s, h, v, own, p.hop, p.m))
    && (forall thread :: thread in c.threads ==> SendableAll(t, s, h, v, own, thread))
  }

  ghost predicate Rested(t: Topology, s: Net) {
    InOrder(t, s) && Quiescent(s) && |s.nodes| == |t|
  }

  lemma SpawnWave(t: Topology, s: Net, c: Net, h: Hop, v: nat, own: Key, actions: seq<Action>)
    requires Wave(t, s, c, h, v, own) && SendableAll(t, s, h, v, own, actions)
    ensures Wave(t, s, Spawn(c, actions), h, v, own)
  {
    assert forall thread :: thread in Spawn(c, actions).threads ==> thread in c.threads || thread == actions;
  }

  lemma NodesWave(t: Topology, s: Net, c: Net, c': Net, h: Hop, v: nat, own: Key)
    requires Wave(t, s, c, h, v, own) && Waved(s, c', h, own) && c.closed <= c'.closed
    requires c'.threads == c.threads && forall p :: p in c'.flights ==> p in c.flights
    ensures Wave(t, s, c', h, v, own)
  {
  }

  // Broadcasts of the new client, from anywhere.
  lemma OwnSendable(t: Topology, s: Net, h: Hop, v: nat, own: Key, x: nat, m: Message, previousHop: string)
    requires x < |t| && m.PeerUpdate? && MessageKey(m) == own
    ensures SendableAll(t, s, h, v, own, Broadcast(t, x, m, previousHop))
  {
    BroadcastActions(t, x, m, previousHop);
    var sends := Broadcast(t, x, m, previousHop);
    forall a | a in sends ensures Sendable(t, s, h, v, own, a) {
      var i :| 0 <= i < |sends| && sends[i] == a;
    }
  }

  // Broadcasts of the node itself, of its question or of what the other end knew.
  lemma NearSendable(t: Topology, s: Net, h: Hop, v: nat, own: Key, m: Message, previousHop: string)
    requires SoleLink(t, h, v)
    requires if m.Query? then m.service == own.service else Holds(s, v, MessageKey(m))
    ensures SendableAll(t, s, h, v, own, Broadcast(t, h.client, m, previousHop))
  {
    var sends := Broadcast(t, h.client, m, previousHop);
    BroadcastActions(t, h.client, m, previousHop);
    forall a | a in sends ensures Sendable(t, s, h, v, own, a) {
      var i :| 0 <= i < |sends| && sends[i] == a;
      assert a.hop.index == h.index ==> a.hop == h;
    }
  }

  // Broadcasts of a node with a client find its connections closed.
  lemma StartedSendable(t: Topology, s: Net, h: Hop, v: nat, own: Key, x: nat, m: Message, previousHop: string)
    requires Rested(t, s) && x < |t| && s.nodes[x].started != {}
    ensures SendableAll(t, s, h, v, own, Broadcast(t, x, m, previousHop))
  {
    BroadcastActions(t, x, m, previousHop);
    var sends := Broadcast(t, x, m, previousHop);
    forall a | a in sends ensures Sendable(t, s, h, v, own, a) {
      var i :| 0 <= i < |sends| && sends[i] == a;
      assert a.hop == Hop(x, a.hop.index, true) && Line(a.hop) == a.hop;
      if Receiver(t, a.hop).Some? {
        RestingClosed(t, s, x, a.hop.index);
      }
    }
  }

  lemma StartWaves(t: Topology, s: Net, e: Event, c: Net, h: Hop, v: nat, own: Key)
    requires ValidNet(t, s) && Enabled(s, e) && e.Start? && Starts(e, h.client, own) && c == StepStart(t, s, e)
    requires Rested(t, s) && SoleLink(t, h, v) && s.nodes[h.client].started == {}
    ensures Wave(t, s, c, h, v, own)
  {
    var m := Announced(PeerInfo(e.service, e.endpoint, e.seen, false));
    var announce, ask := Broadcast(t, e.node, m, LOCAL_NODE), Broadcast(t, e.node, Query(e.service), LOCAL_NODE);
    var s1 := s.(nodes := c.nodes);
    StartChangesOne(t, s, e, own);
    assert Waved(s, s1, h, own);
    assert Wave(t, s, s1, h, v, own);
    OwnSendable(t, s, h, v, own, e.node, m, LOCAL_NODE);
    NearSendable(t, s, h, v, own, Query(e.service), LOCAL_NODE);
    SpawnWave(t, s, s1, h, v, own, announce + ask);
  }

  lemma RefreshWaves(t: Topology, s: Net, c: Net, h: Hop, v: nat, own: Key, x: nat)
    requires Rested(t, s) && SoleLink(t, h, v) && Wave(t, s, c, h, v, own)
    requires ValidNet(t, c) && Enabled(c, Refresh(x)) && Taught(t, c)
    ensures Wave(t, s, StepRefresh(t, c, x), h, v, own)
  {
    var m := Announced(c.nodes[x].self.value.(isRemoved := false));
    assert Schooled(c.nodes[x]);
    if x == h.client {
      OwnSendable(t, s, h, v, own, x, m, LOCAL_NODE);
    } else {
      StartedSendable(t, s, h, v, own, x, m, LOCAL_NODE);
    }
    SpawnWave(t, s, c, h, v, own, Broadcast(t, x, m, LOCAL_NODE));
  }

  lemma AdvanceWaves(t: Topology, s: Net, c: Net, h: Hop, v: nat, own: Key, i: nat)
    requires Wave(t, s, c, h, v, own) && ValidNet(t, c) && Enabled(c, Advance(i)) && CleanNet(c)
    ensures Wave(t, s, StepAdvance(t, c, i), h, v, own)
  {
    var c', first := StepAdvance(t, c, i), c.threads[i][0];
    assert c.threads[i] in c.threads && first in c.threads[i] && SendableAll(t, s, h, v, own, c.threads[i]);
    AdvanceMovesNoNode(t, c, i);
    SentArrives(t, c, first.hop, first.m);
    forall p | p in c'.flights ensures Carried(s, h, v, own, p.hop, p.m) {
      if p !in c.flights {
        assert p == Packet(first.hop, Normal(first.m)) && Sendable(t, s, h, v, own, first);
      }
    }
    forall th | th in c'.threads ensures SendableAll(t, s, h, v, own, th) {
      forall a | a in th ensures Sendable(t, s, h, v, own, a) {
        RestComesFrom(c.threads, i, th, a);
        var thread :| thread in c.threads && a in thread;
        assert SendableAll(t, s, h, v, own, thread);
      }
    }
  }

  // ---------- a delivery of the wave ----------

  // The landing packet is one of the wave's.
  ghost predicate LandsInWave(t: Topology, s: Net, c: Net, h: Hop, v: nat, own: Key, p: Packet) {
    && Lands(t, c, p.hop) && CleanNet(c) && SenderHolds(t, c, p.hop, p.m) && OffTheWire(p.m)
    && Wave(t, s, c, h, v, own) && Carried(s, h, v, own, p.hop, p.m)
  }

  // What is news comes to the near end from what the other end knew before, or is the new client.
  lemma NewsIsKnown(t: Topology, s: Net, c: Net, h: Hop, v: nat, own: Key, p: Packet, r: nat)
    requires SoleLink(t, h, v) && LandsInWave(t, s, c, h, v, own, p) && p.m.PeerUpdate?
    requires Receiver(t, p.hop) == Some(r) && !Holds(c, r, MessageKey(p.m))
    ensures if r == h.client then p.hop == Back(h) && Holds(s, v, MessageKey(p.m)) else MessageKey(p.m) == own
  {
    if !p.hop.up {
      assert Sender(t, p.hop) == Some(v) && Holds(c, v, MessageKey(p.m));
    }
  }

  lemma ToldWaved(s: Net, c: Net, c1: Net, h: Hop, own: Key, r: nat, k: Key)
    requires Waved(s, c, h, own) && Grew(c, c1, r, k) && (r != h.client ==> k == own)
    requires c1.nodes[r].started == c.nodes[r].started
    ensures Waved(s, c1, h, own)
  {
  }

  lemma NewsWaves(t: Topology, s: Net, c: Net, h: Hop, v: nat, own: Key, p: Packet, now: Timestamp, r: nat)
    requires Rested(t, s) && SoleLink(t, h, v) && LandsInWave(t, s, c, h, v, own, p) && p.m.PeerUpdate?
    requires Receiver(t, p.hop) == Some(r) && !Holds(c, r, MessageKey(p.m))
    ensures Wave(t, s, Handled(t, c, p, now), h, v, own)
  {
    var sends := Broadcast(t, r, p.m, PeerAddress(t, p.hop));
    assert SoundNode(c.nodes[r]);
    NewsIsKnown(t, s, c, h, v, own, p, r);
    NewsIsTold(t, c, r, p.m, p.hop, now, sends);
    ToldGrows(t, c, r, p.m, p.hop, now, AsPackets(sends));
    var c1 := Told(c, r, p.m, p.hop, now, AsPackets(sends));
    ToldWaved(s, c, c1, h, own, r, MessageKey(p.m));
    NodesWave(t, s, c, c1, h, v, own);
    if r == h.client {
      NearSendable(t, s, h, v, own, p.m, PeerAddress(t, p.hop));
    } else {
      OwnSendable(t, s, h, v, own, r, p.m, PeerAddress(t, p.hop));
    }
    SpawnWave(t, s, c1, h, v, own, sends);
  }

  lemma KnownWaves(t: Topology, s: Net, c: Net, h: Hop, v: nat, own: Key, p: Packet, now: Timestamp, r: nat)
    requires LandsInWave(t, s, c, h, v, own, p) && p.m.PeerUpdate?
    requires Receiver(t, p.hop) == Some(r) && Holds(c, r, MessageKey(p.m))
    ensures Wave(t, s, Handled(t, c, p, now), h, v, own)
  {
    var c' := Handled(t, c, p, now);
    KnownStays(t, c, p, now, r);
    SameWaved(s, c, c', h, own);
    NodesWave(t, s, c, c', h, v, own);
  }

  // An announcement of what its receiver knows changes nobody's keys and sends nothing.
  lemma KnownStays(t: Topology, c: Net, p: Packet, now: Timestamp, r: nat)
    requires Lands(t, c, p.hop) && CleanNet(c) && p.m.PeerUpdate? && OffTheWire(p.m)
    requires Receiver(t, p.hop) == Some(r) && Holds(c, r, MessageKey(p.m))
    ensures var c' := Handled(t, c, p, now);
            && c'.flights == c.flights && c'.threads == c.threads && c'.closed == c.closed && SameKeys(c, c')
  {
    assert SoundNode(c.nodes[r]);
    StoredNode(c.nodes[r], p.m, now);
    assert Handled(t, c, p, now).nodes[r].peers.Keys == c.nodes[r].peers.Keys;
  }

  predicate SameKeys(c: Net, c': Net) {
    && |c'.nodes| == |c.nodes|
    && forall x :: 0 <= x < |c.nodes| ==>
         c'.nodes[x].peers.Keys == c.nodes[x].peers.Keys && c'.nodes[x].started == c.nodes[x].started
  }

  lemma SameWaved(s: Net, c: Net, c': Net, h: Hop, own: Key)
    requires Waved(s, c, h, own) && SameKeys(c, c')
    ensures Waved(s, c', h, own)
  {
  }

  lemma AnswerSendable(t: Topology, s: Net, h: Hop, v: nat, own: Key, replies: seq<Message>)
    requires SoleLink(t, h, v) && forall j :: 0 <= j < |replies| ==> replies[j].PeerUpdate?
    ensures SendableAll(t, s, h, v, own, Map(ReplyOn(h), replies))
  {
    var sends := Map(ReplyOn(h), replies);
    forall a | a in sends ensures Sendable(t, s, h, v, own, a) {
      var j :| 0 <= j < |sends| && sends[j] == a;
    }
  }

  lemma HandledWaves(t: Topology, s: Net, c: Net, h: Hop, v: nat, own: Key, p: Packet, now: Timestamp)
    requires Rested(t, s) && SoleLink(t, h, v) && LandsInWave(t, s, c, h, v, own, p)
    ensures Wave(t, s, Handled(t, c, p, now), h, v, own)
  {
    var r := Receiver(t, p.hop).value;
    if p.m.Query? {
      AnswerSendable(t, s, h, v, own, Replies(c.nodes[r].peers, p.m.service));
      SpawnWave(t, s, c, h, v, own, Map(ReplyOn(h), Replies(c.nodes[r].peers, p.m.service)));
    } else if Holds(c, r, MessageKey(p.m)) {
      KnownWaves(t, s, c, h, v, own, p, now, r);
    } else {
      NewsWaves(t, s, c, h, v, own, p, now, r);
    }
  }

  lemma TakenOffInWave(t: Topology, s: Net, c: Net, h: Hop, v: nat, own: Key, j: nat)
    requires Wave(t, s, c, h, v, own) && ValidNet(t, c) && j < |c.flights| && InOrder(t, c)
    ensures LandsInWave(t, s, c.(flights := RemoveAt(c.flights, j)), h, v, own, c.flights[j])
  {
    LandedInOrder(t, c, j);
    NodesWave(t, s, c, c.(flights := RemoveAt(c.flights, j)), h, v, own);
  }

  lemma DeliverWaves(t: Topology, s: Net, c: Net, h: Hop, v: nat, own: Key, e: Event)
    requires Rested(t, s) && SoleLink(t, h, v) && Wave(t, s, c, h, v, own)
    requires ValidNet(t, c) && Enabled(c, e) && e.Deliver? && InOrder(t, c)
    ensures Wave(t, s, StepDeliver(t, c, e), h, v, own)
  {
    TakenOffInWave(t, s, c, h, v, own, e.flight);
    LandWaves(t, s, c.(flights := RemoveAt(c.flights, e.flight)), h, v, own, c.flights[e.flight], e.now, e.ends);
  }

  lemma LandWaves(t: Topology, s: Net, landed: Net, h: Hop, v: nat, own: Key, p: Packet, now: Timestamp, ends: bool)
    requires Rested(t, s) && SoleLink(t, h, v) && LandsInWave(t, s, landed, h, v, own, p)
    ensures Wave(t, s, Land(t, landed, p, now, ends), h, v, own)
  {
    if IsUnread(landed, p.hop) {
      NodesWave(t, s, landed, Land(t, landed, p, now, ends), h, v, own);
    } else {
      HandledWaves(t, s, landed, h, v, own, p, now);
      NodesWave(t, s, Handled(t, landed, p, now), Land(t, landed, p, now, ends), h, v, own);
    }
  }

  lemma NextWaves(t: Topology, s: Net, c: Net, h: Hop, v: nat, own: Key, e: Event)
    requires Rested(t, s) && SoleLink(t, h, v) && Wave(t, s, c, h, v, own)
    requires ValidNet(t, c) && Enabled(c, e) && Keeps(e) && !e.Start? && InOrder(t, c) && Taught(t, c)
    ensures Wave(t, s, Next(t, c, e), h, v, own)
  {
    match e
    case Refresh(x) => RefreshWaves(t, s, c, h, v, own, x);
    case Advance(i) => AdvanceWaves(t, s, c, h, v, own, i);
    case Deliver(_, _, _) => DeliverWaves(t, s, c, h, v, own, e);
  }

  // ---------- what comes down the connection first ----------

  // The message announces this key, or another one, as asked.
  predicate Suits(m: Message, k: Key, first: bool) {
    m.PeerUpdate? && (MessageKey(m) == k) == first
  }

  // Among the first n packets in flight one on the hop fits.
  ghost predicate FitFlies(flights: seq<Packet>, n: nat, hop: Hop, k: Key, first: bool)
    requires n <= |flights|
  {
    exists i :: 0 <= i < n && flights[i].hop == hop && Suits(flights[i].m, k, first)
  }

  ghost predicate FitPends(thread: seq<Action>, n: nat, hop: Hop, k: Key, first: bool)
    requires n <= |thread|
  {
    exists i :: 0 <= i < n && thread[i].Send? && thread[i].hop == hop && Suits(thread[i].m, k, first)
  }

  ghost predicate FrontedThread(flights: seq<Packet>, thread: seq<Action>, hop: Hop, k: Key, first: bool) {
    forall y :: 0 <= y < |thread| && thread[y].Send? && thread[y].hop == hop ==>
      FitFlies(flights, |flights|, hop, k, first) || FitPends(thread, y + 1, hop, k, first)
  }

  // Whatever is on the hop, or will be, one that fits is the first of it.
  ghost predicate Fronted(c: Net, hop: Hop, k: Key, first: bool) {
    && (forall j :: 0 <= j < |c.flights| && c.flights[j].hop == hop ==> FitFlies(c.flights, j + 1, hop, k, first))
    && (forall thread :: thread in c.threads ==> FrontedThread(c.flights, thread, hop, k, first))
  }

  lemma OldestFits(c: Net, hop: Hop, k: Key, first: bool, j: nat)
    requires Fronted(c, hop, k, first) && j < |c.flights| && c.flights[j].hop == hop && IsOldest(c, j)
    ensures Suits(c.flights[j].m, k, first)
  {
    var i :| 0 <= i < j + 1 && c.flights[i].hop == hop && Suits(c.flights[i].m, k, first);
    assert i == j;
  }

  lemma SpawnFronted(c: Net, actions: seq<Action>, hop: Hop, k: Key, first: bool)
    requires Fronted(c, hop, k, first) && FrontedThread(c.flights, actions, hop, k, first)
    ensures Fronted(Spawn(c, actions), hop, k, first)
  {
    assert forall thread :: thread in Spawn(c, actions).threads ==> thread in c.threads || thread == actions;
  }

  lemma UpwardsFronted(flights: seq<Packet>, t: Topology, x: nat, m: Message, previousHop: string, hop: Hop, k: Key,
                       first: bool)
    requires x < |t| && !hop.up
    ensures FrontedThread(flights, Broadcast(t, x, m, previousHop), hop, k, first)
  {
    BroadcastActions(t, x, m, previousHop);
  }

  // Taking off a packet of another hop.
  lemma TakenOffFronted(c: Net, j: nat, hop: Hop, k: Key, first: bool)
    requires Fronted(c, hop, k, first) && j < |c.flights| && c.flights[j].hop != hop
    ensures Fronted(c.(flights := RemoveAt(c.flights, j)), hop, k, first)
  {
    var rest := RemoveAt(c.flights, j);
    forall i | 0 <= i < |rest| && rest[i].hop == hop ensures FitFlies(rest, i + 1, hop, k, first) {
      FitFliesOn(c.flights, j, if i < j then i + 1 else i + 2, hop, k, first);
    }
    forall thread | thread in c.threads ensures FrontedThread(rest, thread, hop, k, first) {
      if FitFlies(c.flights, |c.flights|, hop, k, first) {
        FitFliesOn(c.flights, j, |c.flights|, hop, k, first);
      }
    }
  }

  lemma FitFliesOn(flights: seq<Packet>, j: nat, n: nat, hop: Hop, k: Key, first: bool)
    requires j < |flights| && flights[j].hop != hop && n <= |flights| && FitFlies(flights, n, hop, k, first)
    ensures FitFlies(RemoveAt(flights, j), if j < n then n - 1 else n, hop, k, first)
  {
    var i :| 0 <= i < n && flights[i].hop == hop && Suits(flights[i].m, k, first);
    assert RemoveAt(flights, j)[if i < j then i else i - 1] == flights[i];
  }

  lemma FitFliesMore(flights: seq<Packet>, more: seq<Packet>, n: nat, hop: Hop, k: Key, first: bool)
    requires n <= |flights| && FitFlies(flights, n, hop, k, first)
    ensures FitFlies(flights + more, n, hop, k, first) && FitFlies(flights + more, |flights + more|, hop, k, first)
  {
    var i :| 0 <= i < n && flights[i].hop == hop && Suits(flights[i].m, k, first);
    assert (flights + more)[i] == flights[i];
  }

  // The packets in flight after a send that arrives, or does not.
  lemma SentFronted(flights: seq<Packet>, first: Action, arrives: bool, flights': seq<Packet>, hop: Hop, k: Key,
                    fit: bool)
    requires first.Send? && FrontedThread(flights, [first], hop, k, fit)
    requires forall j :: 0 <= j < |flights| && flights[j].hop == hop ==> FitFlies(flights, j + 1, hop, k, fit)
    requires flights' == flights + if arrives then [Packet(first.hop, Normal(first.m))] else []
    ensures forall j :: 0 <= j < |flights'| && flights'[j].hop == hop ==> FitFlies(flights', j + 1, hop, k, fit)
  {
    var more := if arrives then [Packet(first.hop, Normal(first.m))] else [];
    forall j | 0 <= j < |flights'| && flights'[j].hop == hop ensures FitFlies(flights', j + 1, hop, k, fit) {
      if j < |flights| {
        FitFliesMore(flights, more, j + 1, hop, k, fit);
      } else if FitFlies(flights, |flights|, hop, k, fit) {
        FitFliesMore(flights, more, |flights|, hop, k, fit);
      } else {
        assert [first][0] == first;
        assert FitPends([first], 1, hop, k, fit);
        assert flights'[j] == Packet(first.hop, Normal(first.m)) && Suits(flights'[j].m, k, fit);
      }
    }
  }

  // The rest of a thread once its first send arrived, if it is on the hop.
  lemma RestFronted(flights: seq<Packet>, thread: seq<Action>, flights': seq<Packet>, more: seq<Packet>, hop: Hop, k: Key,
                    fit: bool)
    requires thread != [] && FrontedThread(flights, thread, hop, k, fit) && flights' == flights + more
    requires thread[0].Send? && thread[0].hop == hop ==> more == [Packet(hop, Normal(thread[0].m))]
    ensures FrontedThread(flights', thread[1..], hop, k, fit)
  {
    var rest := thread[1..];
    forall y | 0 <= y < |rest| && rest[y].Send? && rest[y].hop == hop
      ensures FitFlies(flights', |flights'|, hop, k, fit) || FitPends(rest, y + 1, hop, k, fit)
    {
      assert rest[y] == thread[y + 1];
      if FitFlies(flights, |flights|, hop, k, fit) {
        FitFliesMore(flights, more, |flights|, hop, k, fit);
      } else {
        FitPendsOn(thread, y + 1, hop, k, fit);
        assert !FitPends(rest, y + 1, hop, k, fit) ==> flights'[|flights|] == Packet(hop, Normal(thread[0].m));
      }
    }
  }

  // What fits in a thread is its first send or in the rest of it.
  lemma FitPendsOn(thread: seq<Action>, n: nat, hop: Hop, k: Key, fit: bool)
    requires n < |thread| && FitPends(thread, n + 1, hop, k, fit)
    ensures FitPends(thread[1..], n, hop, k, fit)
            || (thread[0].Send? && thread[0].hop == hop && Suits(thread[0].m, k, fit))
  {
    var x :| 0 <= x < n + 1 && thread[x].Send? && thread[x].hop == hop && Suits(thread[x].m, k, fit);
    if x > 0 {
      assert thread[1..][x - 1] == thread[x];
    }
  }

  lemma OtherThreadFronted(flights: seq<Packet>, thread: seq<Action>, more: seq<Packet>, hop: Hop, k: Key, fit: bool)
    requires FrontedThread(flights, thread, hop, k, fit)
    ensures FrontedThread(flights + more, thread, hop, k, fit)
  {
    if FitFlies(flights, |flights|, hop, k, fit) {
      FitFliesMore(flights, more, |flights|, hop, k, fit);
    }
  }

  lemma HeadFronted(flights: seq<Packet>, thread: seq<Action>, hop: Hop, k: Key, fit: bool)
    requires thread != [] && FrontedThread(flights, thread, hop, k, fit)
    ensures FrontedThread(flights, [thread[0]], hop, k, fit)
  {
    var one := [thread[0]];
    if one[0].Send? && one[0].hop == hop && !FitFlies(flights, |flights|, hop, k, fit) {
      var x :| 0 <= x < 1 && thread[x].Send? && thread[x].hop == hop && Suits(thread[x].m, k, fit);
      assert one[x] == thread[x];
    }
  }

  lemma AdvanceFronted(t: Topology, c: Net, i: nat, hop: Hop, k: Key, fit: bool)
    requires ValidNet(t, c) && Enabled(c, Advance(i)) && CleanNet(c) && Fronted(c, hop, k, fit)
    requires ValidHop(t, hop) && Receiver(t, hop).Some? && Line(hop) !in c.closed
    ensures Fronted(StepAdvance(t, c, i), hop, k, fit)
  {
    var c', thread := StepAdvance(t, c, i), c.threads[i];
    var first := thread[0];
    assert thread in c.threads && first in thread;
    SentArrives(t, c, first.hop, first.m);
    var arrives := Line(first.hop) !in c.closed && Receiver(t, first.hop).Some?;
    var more := if arrives then [Packet(first.hop, Normal(first.m))] else [];
    assert c'.flights == c.flights + more;
    HeadFronted(c.flights, thread, hop, k, fit);
    SentFronted(c.flights, first, arrives, c'.flights, hop, k, fit);
    RestFronted(c.flights, thread, c'.flights, more, hop, k, fit);
    forall th | th in c'.threads ensures FrontedThread(c'.flights, th, hop, k, fit) {
      if th in c.threads {
        OtherThreadFronted(c.flights, th, more, hop, k, fit);
      } else {
        assert th == thread[1..];
      }
    }
  }

  // ---------- the answer, in ascending order ----------

  // An endpoint of the service that the node knows comes before this one.
  ghost predicate Preceded(peers: Peers, k: Key) {
    exists d :: Key(k.service, d) in peers && Lexicographic.Before(d, k.endpoint)
  }

  // The first entry of an answer is this key exactly when no known endpoint precedes it.
  lemma FirstListed(peers: Peers, k: Key)
    requires WellKeyed(peers) && AllLive(peers) && k in peers
    ensures |Listing(peers, k.service)| > 0
    ensures Listing(peers, k.service)[0] == peers[k] <==> !Preceded(peers, k)
  {
    var listing := Listing(peers, k.service);
    var x := ListedAt(peers, k);
    ListingExact(peers, k.service);
    assert listing[0] in listing;
    if d :| Key(k.service, d) in peers && Lexicographic.Before(d, k.endpoint) {
      var y := ListedAt(peers, Key(k.service, d));
      assert listing[0] == peers[k] && y > 0 ==> Lexicographic.Before(k.endpoint, d);
      if Lexicographic.Before(k.endpoint, d) {
        Lexicographic.BeforeTransitive(d, k.endpoint, d);
      }
      Lexicographic.BeforeIrreflexive(d);
    }
    if x > 0 {
      assert Key(k.service, listing[0].endpoint) in peers;
    }
  }

  // So the answer starts with the key, or with another one, accordingly.
  lemma AnswerFronted(flights: seq<Packet>, peers: Peers, h: Hop, k: Key, fit: bool)
    requires WellKeyed(peers) && AllLive(peers) && k in peers && h.up
    requires fit <==> !Preceded(peers, k)
    ensures FrontedThread(flights, Map(ReplyOn(h), Replies(peers, k.service)), Back(h), k, fit)
  {
    var sends := Map(ReplyOn(h), Replies(peers, k.service));
    FirstListed(peers, k);
    ListingExact(peers, k.service);
    var e := Listing(peers, k.service)[0];
    assert e in Listing(peers, k.service);
    assert sends[0] == Send(Back(h), AsReply(e));
    assert e == peers[k] <==> MessageKey(AsReply(e)) == k;
    assert Suits(sends[0].m, k, fit);
  }

  // ---------- one step of the wave ----------

  // Some endpoint of the answer, as it will be when the new client is known, precedes this one.
  ghost predicate Early(s: Net, v: nat, own: Key, k: Key) {
    exists d :: (Key(k.service, d) == own || Holds(s, v, Key(k.service, d))) && Lexicographic.Before(d, k.endpoint)
  }

  // The other end knows k, of the new client's service, and the near end does not.
  predicate Wanted(t: Topology, s: Net, h: Hop, v: nat, own: Key, k: Key) {
    SoleLink(t, h, v) && Holds(s, v, k) && k.service == own.service && k != own
  }

  // When the question is answered, the other end knows what it knew and the new client.
  lemma AnswerIsAsExpected(t: Topology, s: Net, c: Net, h: Hop, v: nat, own: Key, k: Key)
    requires Wanted(t, s, h, v, own, k) && Waved(s, c, h, own) && IntroducedFor(t, c, h, own.service)
    ensures k in c.nodes[v].peers && (Preceded(c.nodes[v].peers, k) <==> Early(s, v, own, k))
  {
    var mine :| mine in Own(c, h) && mine.service == own.service && Holds(c, LinkOf(t, Line(h)).dest.value, mine);
    assert Line(h) == h && mine == own && v < |s.nodes|;
    assert c.nodes[v].peers.Keys == s.nodes[v].peers.Keys + {own};
  }

  lemma HandledFronted(t: Topology, s: Net, c: Net, h: Hop, v: nat, own: Key, k: Key, fit: bool, p: Packet,
                       now: Timestamp)
    requires Wanted(t, s, h, v, own, k) && LandsInWave(t, s, c, h, v, own, p)
    requires fit <==> !Early(s, v, own, k)
    requires p.m.Query? ==> IntroducedFor(t, c, h, own.service)
    requires Fronted(c, Back(h), k, fit)
    ensures Fronted(Handled(t, c, p, now), Back(h), k, fit)
  {
    var r, c' := Receiver(t, p.hop).value, Handled(t, c, p, now);
    assert SoundNode(c.nodes[r]);
    if p.m.Query? {
      AnswerIsAsExpected(t, s, c, h, v, own, k);
      AnswerFronted(c.flights, c.nodes[v].peers, h, k, fit);
      SpawnFronted(c, Map(ReplyOn(h), Replies(c.nodes[v].peers, k.service)), Back(h), k, fit);
    } else {
      var sends := Broadcast(t, r, p.m, PeerAddress(t, p.hop));
      UpwardsFronted(c.flights, t, r, p.m, PeerAddress(t, p.hop), Back(h), k, fit);
      SpawnFronted(c, sends, Back(h), k, fit);
      UpdateThreads(t, c, r, p.m, p.hop, now, sends);
    }
  }

  lemma UpdateThreads(t: Topology, c: Net, r: nat, m: Message, h: Hop, now: Timestamp, sends: seq<Action>)
    requires ValidNet(t, c) && r < |t| && m.PeerUpdate? && ValidHop(t, h)
    requires sends == Broadcast(t, r, m, PeerAddress(t, h))
    ensures var c' := OnPeerUpdate(t, c, r, m, h, now);
            c'.flights == c.flights && (c'.threads == c.threads || c'.threads == Spawn(c, sends).threads)
  {
  }

  lemma DeliverFronted(t: Topology, s: Net, c: Net, h: Hop, v: nat, own: Key, k: Key, fit: bool, e: Event)
    requires Wanted(t, s, h, v, own, k) && Wave(t, s, c, h, v, own) && InOrder(t, c)
    requires ValidNet(t, c) && Enabled(c, e) && e.Deliver? && c.flights[e.flight].hop != Back(h)
    requires (fit <==> !Early(s, v, own, k)) && Fronted(c, Back(h), k, fit)
    ensures Fronted(StepDeliver(t, c, e), Back(h), k, fit) && StepDeliver(t, c, e).closed == c.closed
  {
    var j, p, landed := e.flight, c.flights[e.flight], c.(flights := RemoveAt(c.flights, e.flight));
    TakenOffInWave(t, s, c, h, v, own, j);
    TakenOffFronted(c, j, Back(h), k, fit);
    if p.m.Query? {
      OldestIsIntroduced(t, c, j);
      assert Remembers(c, landed);
      StillIntroduced(t, c, landed, h, p.m.service);
    }
    assert p.hop.up;
    HandledFronted(t, s, landed, h, v, own, k, fit, p, e.now);
    HandledRemembers(t, landed, p, e.now);
  }

  lemma NextFronted(t: Topology, s: Net, c: Net, h: Hop, v: nat, own: Key, k: Key, fit: bool, e: Event)
    requires Wanted(t, s, h, v, own, k) && Wave(t, s, c, h, v, own) && InOrder(t, c)
    requires ValidNet(t, c) && Enabled(c, e) && Keeps(e) && !e.Start? && h !in c.closed
    requires e.Deliver? ==> c.flights[e.flight].hop != Back(h)
    requires (fit <==> !Early(s, v, own, k)) && Fronted(c, Back(h), k, fit)
    ensures Fronted(Next(t, c, e), Back(h), k, fit) && h !in Next(t, c, e).closed
  {
    match e
    case Refresh(x) =>
      var m := Announced(c.nodes[x].self.value.(isRemoved := false));
      UpwardsFronted(c.flights, t, x, m, LOCAL_NODE, Back(h), k, fit);
      SpawnFronted(c, Broadcast(t, x, m, LOCAL_NODE), Back(h), k, fit);
    case Advance(i) =>
      AdvanceMovesNoNode(t, c, i);
      assert Line(Back(h)) == h && ValidHop(t, Back(h));
      AdvanceFronted(t, c, i, Back(h), k, fit);
    case Deliver(_, _, _) => DeliverFronted(t, s, c, h, v, own, k, fit, e);
  }

  // The near end can learn the key over its own connection only.
  lemma LearnsDownOnly(t: Topology, s: Net, c: Net, h: Hop, v: nat, own: Key, k: Key, e: Event)
    requires Wanted(t, s, h, v, own, k) && Wave(t, s, c, h, v, own) && InOrder(t, c)
    requires ValidNet(t, c) && Enabled(c, e) && Keeps(e) && !e.Start? && !Holds(c, h.client, k)
    ensures Holds(Next(t, c, e), h.client, k) ==>
              e.Deliver? && c.flights[e.flight].hop == Back(h) && c.flights[e.flight].m.PeerUpdate?
              && MessageKey(c.flights[e.flight].m) == k
  {
    NextTeaches(t, c, e);
    if Holds(Next(t, c, e), h.client, k) {
      var p := c.flights[e.flight];
      assert LearnedFrom(t, c, Next(t, c, e), p, h.client, k);
      assert p in c.flights && Carried(s, h, v, own, p.hop, p.m);
    }
  }

  // All of this holds throughout the wave.
  ghost predicate Going(t: Topology, s: Net, c: Net, h: Hop, v: nat, own: Key, k: Key) {
    && Rested(t, s) && Wanted(t, s, h, v, own, k) && Wave(t, s, c, h, v, own)
    && InOrder(t, c) && Taught(t, c) && OutAddressesOnly(t)
  }

  lemma NextGoing(t: Topology, s: Net, c: Net, h: Hop, v: nat, own: Key, k: Key, e: Event)
    requires Going(t, s, c, h, v, own, k) && ValidNet(t, c) && Enabled(c, e) && Keeps(e) && !e.Start?
    ensures Going(t, s, Next(t, c, e), h, v, own, k)
  {
    NextWaves(t, s, c, h, v, own, e);
    NextTaught(t, c, e);
    NextInOrder(t, c, e);
  }

  // ---------- the first name of the answer is always learned ----------

  ghost predicate Learning(c: Net, h: Hop, k: Key) {
    CatchingUp(c, h, k) && (Holds(c, h.client, k) || Fronted(c, Back(h), k, true))
  }

  lemma FirstAnswerHeld(t: Topology, c: Net, h: Hop, k: Key, e: Event)
    requires ValidNet(t, c) && Enabled(c, e) && e.Deliver? && InOrder(t, c) && h.up && h !in c.closed
    requires Fronted(c, Back(h), k, true) && c.flights[e.flight].hop == Back(h)
    ensures Holds(StepDeliver(t, c, e), h.client, k)
  {
    var p, landed := c.flights[e.flight], c.(flights := RemoveAt(c.flights, e.flight));
    OldestFits(c, Back(h), k, true, e.flight);
    LandedValid(t, c, e.flight);
    assert Line(p.hop) == h;
    AnswerHeld(t, landed, p, e.now, h, k);
  }

  lemma NextLearning(t: Topology, s: Net, c: Net, h: Hop, v: nat, own: Key, k: Key, e: Event)
    requires Going(t, s, c, h, v, own, k) && ValidNet(t, c) && Enabled(c, e) && Keeps(e) && !e.Start?
    requires !Early(s, v, own, k) && Learning(c, h, k)
    ensures Learning(Next(t, c, e), h, k)
  {
    NextRemembers(t, c, e);
    if !Holds(c, h.client, k) {
      if e.Deliver? && c.flights[e.flight].hop == Back(h) {
        FirstAnswerHeld(t, c, h, k, e);
      } else {
        NextFronted(t, s, c, h, v, own, k, true, e);
        assert e.Deliver? ==> c.flights[e.flight] in c.flights && c.flights[e.flight].hop.up;
        NextCatchesUp(t, c, e, h, k);
      }
    }
  }

  // The two together, for an induction over runs.
  ghost predicate GoesLearning(t: Topology, s: Net, c: Net, h: Hop, v: nat, own: Key, k: Key) {
    Going(t, s, c, h, v, own, k) && !Early(s, v, own, k) && Learning(c, h, k)
  }

  lemma NextGoesLearning(t: Topology, s: Net, c: Net, h: Hop, v: nat, own: Key, k: Key, e: Event)
    requires GoesLearning(t, s, c, h, v, own, k) && ValidNet(t, c) && Enabled(c, e) && Keeps(e) && !e.Start?
    ensures GoesLearning(t, s, Next(t, c, e), h, v, own, k)
  {
    NextLearning(t, s, c, h, v, own, k, e);
    NextGoing(t, s, c, h, v, own, k, e);
  }

  lemma LearnedAtRest(c: Net, h: Hop, k: Key)
    requires Learning(c, h, k) && Quiescent(c)
    ensures Holds(c, h.client, k)
  {
  }

  lemma StaysLearning(t: Topology, s: Net, c: Net, h: Hop, v: nat, own: Key, k: Key, es: seq<Event>)
    requires GoesLearning(t, s, c, h, v, own, k) && IsRun(t, c, es) && AllKeep(es) && NoStart(es)
    ensures Learning(After(t, c, es), h, k)
  {
    var inv := (x: Net) => GoesLearning(t, s, x, h, v, own, k);
    var allowed := (e: Event) => Keeps(e) && !e.Start?;
    forall x, e | ValidNet(t, x) && Enabled(x, e) && allowed(e) && inv(x) ensures inv(Next(t, x, e)) {
      NextGoesLearning(t, s, x, h, v, own, k, e);
    }
    RunKeeps(t, c, es, inv, allowed);
  }

  // ---------- every later name can be missed ----------

  // The near end does not know the key, and will not learn it if every read ends with its first message.
  ghost predicate Ignorant(c: Net, h: Hop, k: Key) {
    !Holds(c, h.client, k) && (h in c.closed || Fronted(c, Back(h), k, false))
  }

  predicate AllSingleReads(es: seq<Event>) {
    forall i :: 0 <= i < |es| ==> SingleRead(es[i])
  }

  // A read that ends with an answer closes the connection.
  lemma AnswerCloses(t: Topology, c: Net, h: Hop, e: Event)
    requires ValidNet(t, c) && Enabled(c, e) && e.Deliver? && e.ends && InOrder(t, c) && h.up
    requires c.flights[e.flight].hop == Back(h)
    ensures h in StepDeliver(t, c, e).closed
  {
    LandedInOrder(t, c, e.flight);
    assert Line(Back(h)) == h && c.flights[e.flight].m.PeerUpdate?;
  }

  lemma UnreadTeachesNothing(t: Topology, c: Net, h: Hop, e: Event)
    requires ValidNet(t, c) && Enabled(c, e) && e.Deliver? && h.up && h in c.closed
    requires c.flights[e.flight].hop == Back(h)
    ensures StepDeliver(t, c, e).nodes == c.nodes
  {
    LandedValid(t, c, e.flight);
    assert Line(Back(h)) == h;
  }

  lemma NextIgnorant(t: Topology, s: Net, c: Net, h: Hop, v: nat, own: Key, k: Key, e: Event)
    requires Going(t, s, c, h, v, own, k) && ValidNet(t, c) && Enabled(c, e) && SingleRead(e)
    requires Early(s, v, own, k) && Ignorant(c, h, k)
    ensures Ignorant(Next(t, c, e), h, k)
  {
    NextRemembers(t, c, e);
    LearnsDownOnly(t, s, c, h, v, own, k, e);
    if e.Deliver? && c.flights[e.flight].hop == Back(h) {
      AnswerCloses(t, c, h, e);
      if h in c.closed {
        UnreadTeachesNothing(t, c, h, e);
      } else {
        OldestFits(c, Back(h), k, false, e.flight);
      }
    } else if h !in c.closed {
      NextFronted(t, s, c, h, v, own, k, false, e);
    }
  }

  ghost predicate GoesIgnorant(t: Topology, s: Net, c: Net, h: Hop, v: nat, own: Key, k: Key) {
    Going(t, s, c, h, v, own, k) && Early(s, v, own, k) && Ignorant(c, h, k)
  }

  lemma NextGoesIgnorant(t: Topology, s: Net, c: Net, h: Hop, v: nat, own: Key, k: Key, e: Event)
    requires GoesIgnorant(t, s, c, h, v, own, k) && ValidNet(t, c) && Enabled(c, e) && SingleRead(e)
    ensures GoesIgnorant(t, s, Next(t, c, e), h, v, own, k)
  {
    NextIgnorant(t, s, c, h, v, own, k, e);
    NextGoing(t, s, c, h, v, own, k, e);
  }

  lemma RemainsIgnorant(t: Topology, s: Net, c: Net, h: Hop, v: nat, own: Key, k: Key, es: seq<Event>)
    requires GoesIgnorant(t, s, c, h, v, own, k) && IsRun(t, c, es) && AllSingleReads(es)
    ensures Ignorant(After(t, c, es), h, k)
  {
    var inv := (x: Net) => GoesIgnorant(t, s, x, h, v, own, k);
    var allowed := (e: Event) => SingleRead(e);
    forall x, e | ValidNet(t, x) && Enabled(x, e) && allowed(e) && inv(x) ensures inv(Next(t, x, e)) {
      NextGoesIgnorant(t, s, x, h, v, own, k, e);
    }
    RunKeeps(t, c, es, inv, allowed);
  }

  // ---------- exactly which names can be missed ----------

  lemma StartsGoing(t: Topology, before: seq<Event>, s: Net, e: Event, c: Net, h: Hop, v: nat, own: Key, k: Key)
    requires Reaches(t, before, s) && AllKeep(before) && OutAddressesOnly(t) && Quiescent(s)
    requires Enabled(s, e) && e.Start? && Keeps(e) && Starts(e, h.client, own) && c == Next(t, s, e)
    requires Wanted(t, s, h, v, own, k) && s.nodes[h.client].started == {} && !Holds(s, h.client, k)
    ensures Going(t, s, c, h, v, own, k)
    ensures !Holds(c, h.client, k) && h !in c.closed && Coming(c, h, k) && Consults(t, c, h, k)
    ensures forall fit :: Fronted(c, Back(h), k, fit)
  {
    EveryKeyWasTaught(t, before, s);
    StartedInOrder(t, s, e, c, own);
    StartWaves(t, s, e, c, h, v, own);
    FirstFindsOpen(t, before, s, h);
    assert h == Hop(e.node, h.index, true);
    StartCatchesUp(t, s, e, h.index, k);
    StartIsFronted(t, s, e, h, k);
  }

  // Nothing comes down the connection yet.
  lemma StartIsFronted(t: Topology, s: Net, e: Event, h: Hop, k: Key)
    requires ValidNet(t, s) && Enabled(s, e) && e.Start? && Quiescent(s) && h.up
    ensures forall fit :: Fronted(StepStart(t, s, e), Back(h), k, fit)
  {
    var m := Announced(PeerInfo(e.service, e.endpoint, e.seen, false));
    var announce, ask := Broadcast(t, e.node, m, LOCAL_NODE), Broadcast(t, e.node, Query(e.service), LOCAL_NODE);
    BroadcastActions(t, e.node, m, LOCAL_NODE);
    BroadcastActions(t, e.node, Query(e.service), LOCAL_NODE);
    var c, thread := StepStart(t, s, e), announce + ask;
    assert c.threads == [] || c.threads == [thread];
    assert forall y :: 0 <= y < |thread| ==> thread[y].Send? && thread[y].hop.up;
  }

  // This continuation loses and starts nothing, and leaves the network at rest and the node without the key.
  ghost predicate Misses(t: Topology, c: Net, after: seq<Event>, s': Net, u: nat, k: Key) {
    && IsRun(t, c, after) && AllKeep(after) && NoStart(after)
    && s' == After(t, c, after) && Quiescent(s') && !Holds(s', u, k)
  }

  lemma FirstIsNeverMissed(t: Topology, s: Net, c: Net, h: Hop, v: nat, own: Key, k: Key, after: seq<Event>, s': Net)
    requires GoesLearning(t, s, c, h, v, own, k)
    ensures !Misses(t, c, after, s', h.client, k)
  {
    if IsRun(t, c, after) && AllKeep(after) && NoStart(after) && s' == After(t, c, after) && Quiescent(s') {
      StaysLearning(t, s, c, h, v, own, k, after);
      LearnedAtRest(s', h, k);
    }
  }

  lemma LaterCanBeMissed(t: Topology, es: seq<Event>, s: Net, c: Net, h: Hop, v: nat, own: Key, k: Key)
    returns (after: seq<Event>, s': Net)
    requires Reaches(t, es, c) && AllKeep(es)
    requires GoesIgnorant(t, s, c, h, v, own, k)
    ensures Misses(t, c, after, s', h.client, k)
  {
    RunDies(t, es, c);
    after := CanSettle(t, c);
    SettlingKeeps(t, c, after);
    s' := After(t, c, after);
    RemainsIgnorant(t, s, c, h, v, own, k, after);
  }

  lemma StartReaches(t: Topology, before: seq<Event>, s: Net, e: Event, c: Net)
    requires Reaches(t, before, s) && AllKeep(before) && Enabled(s, e) && Keeps(e) && c == Next(t, s, e)
    ensures Reaches(t, before + [e], c) && AllKeep(before + [e])
  {
    NextValid(t, s, e);
    RunOneMore(t, s, e, []);
    NothingAdded([e]);
    ReachesFurther(t, before, s, [e], c);
  }

  lemma EarlyIsMissed(t: Topology, es: seq<Event>, s: Net, c: Net, h: Hop, v: nat, own: Key, k: Key)
    requires Reaches(t, es, c) && AllKeep(es) && GoesIgnorant(t, s, c, h, v, own, k)
    ensures exists after: seq<Event>, s': Net :: Misses(t, c, after, s', h.client, k)
  {
    var after, s' := LaterCanBeMissed(t, es, s, c, h, v, own, k);
  }

  lemma FirstIsSafe(t: Topology, s: Net, c: Net, h: Hop, v: nat, own: Key, k: Key)
    requires GoesLearning(t, s, c, h, v, own, k)
    ensures !exists after: seq<Event>, s': Net :: Misses(t, c, after, s', h.client, k)
  {
    forall after: seq<Event>, s': Net ensures !Misses(t, c, after, s', h.client, k) {
      FirstIsNeverMissed(t, s, c, h, v, own, k, after, s');
    }
  }

  // The first client of a node with one made connection, started on a network at rest, can stay
  // ignorant of a peer of its service that the other end knows, although nothing is lost, if and only
  // if some endpoint of the answer, those the other end knows and the client's own, precedes the
  // peer's. Only the name that comes first in the answer is safe.
  lemma MissedExactly(t: Topology, before: seq<Event>, s: Net, e: Event, h: Hop, v: nat, own: Key, k: Key)
    requires Reaches(t, before, s) && AllKeep(before) && OutAddressesOnly(t) && Quiescent(s)
    requires Enabled(s, e) && e.Start? && Keeps(e) && Starts(e, h.client, own)
    requires Wanted(t, s, h, v, own, k) && s.nodes[h.client].started == {} && !Holds(s, h.client, k)
    ensures (exists after: seq<Event>, s': Net :: Misses(t, Next(t, s, e), after, s', h.client, k))
            <==> Early(s, v, own, k)
  {
    StartsGoing(t, before, s, e, Next(t, s, e), h, v, own, k);
    if Early(s, v, own, k) {
      StartReaches(t, before, s, e, Next(t, s, e));
      EarlyIsMissed(t, before + [e], s, Next(t, s, e), h, v, own, k);
    } else {
      FirstIsSafe(t, s, Next(t, s, e), h, v, own, k);
    }
  }

  // ---------- an answer cut for good ----------

  lemma PairIsSole(t: Topology, address: string, seen: string)
    requires t == Pair(address, seen) && IsOutAddress(address)
    ensures ValidTopology(t) && OutAddressesOnly(t) && SoleLink(t, Hop(0, 0, true), 1)
  {
  }

  // After a client was started at the accepting node and the network came to rest.
  ghost predicate FarKnows(t: Topology, before: seq<Event>, s: Net, far: Event, k: Key) {
    && Reaches(t, before, s) && AllKeep(before) && Quiescent(s) && |s.nodes| == 2
    && Holds(s, 1, k) && s.nodes[0].started == {} && !Holds(s, 0, k)
  }

  lemma FarStarts(t: Topology, address: string, seen: string, far: Event, k: Key) returns (before: seq<Event>, s: Net)
    requires t == Pair(address, seen) && IsOutAddress(address)
    requires far.Start? && Keeps(far) && Starts(far, 1, k)
    ensures FarKnows(t, before, s, far, k)
  {
    PairIsSole(t, address, seen);
    before, s := StartAndSettle(t, [], Initial(t), far);
    ReachesFurther(t, [], Initial(t), before, s);
    NothingAdded(before);
    FarAlone(t, before, s, far, k);
  }

  // A node with a connection, but no client and nobody connected to it, was taught nothing.
  lemma NobodyTaught(t: Topology, s: Net, k: Key)
    requires |t| == 2 && t[1] == [] && |s.nodes| == 2 && s.nodes[0].started == {}
    requires forall i :: 0 <= i < |t[0]| && t[0][i].dest.Some? ==> t[0][i].dest.value == 1
    requires Schooled(s.nodes[0]) && (k in s.nodes[0].learned ==> SoundLesson(t, s, 0, k))
    ensures !Holds(s, 0, k)
  {
  }

  // The accepting node has nobody to tell.
  lemma FarAlone(t: Topology, before: seq<Event>, s: Net, far: Event, k: Key)
    requires |t| == 2 && t[1] == [] && OutAddressesOnly(t)
    requires forall i :: 0 <= i < |t[0]| && t[0][i].dest.Some? ==> t[0][i].dest.value == 1
    requires Reaches(t, before, s) && AllKeep(before) && Quiescent(s) && Starts(far, 1, k)
    requires before != [] && before[0] == far && forall i :: 0 < i < |before| ==> !before[i].Start?
    ensures FarKnows(t, before, s, far, k)
  {
    EveryKeyWasTaught(t, before, s);
    StartedIsRecorded(t, Initial(t), before, 1, k);
    StartsAreRecorded(t, before, s, 0);
    assert Schooled(s.nodes[0]) && Schooled(s.nodes[1]);
    NobodyTaught(t, s, k);
  }

  // A run without losses in which an answer is cut: the accepting node of a pair knows k, the other
  // one starts a client of the service with a name before it, asks, reads its own name back first,
  // and never learns of k, unless it is started there itself.
  lemma AnswerCutForGood(t: Topology, address: string, seen: string, far: Event, near: Event, k: Key)
    returns (es: seq<Event>, s: Net)
    requires t == Pair(address, seen) && IsOutAddress(address)
    requires far.Start? && Keeps(far) && Starts(far, 1, k)
    requires near.Start? && Keeps(near) && near.node == 0 && near.service == k.service
    requires Lexicographic.Before(near.endpoint, k.endpoint)
    ensures Reaches(t, es, s) && AllKeep(es) && Quiescent(s) && Holds(s, 1, k) && near in es
    ensures forall more :: IsRun(t, s, more) && (forall i :: 0 <= i < |more| ==> !Starts(more[i], 0, k)) ==>
              !Holds(After(t, s, more), 0, k)
  {
    PairIsSole(t, address, seen);
    var before, s0 := FarStarts(t, address, seen, far, k);
    es, s := NearMisses(t, before, s0, far, near, k);
    forall more | IsRun(t, s, more) && (forall i :: 0 <= i < |more| ==> !Starts(more[i], 0, k))
      ensures !Holds(After(t, s, more), 0, k)
    {
      CutOffForGood(t, es, s, more, 0, k);
    }
  }

  lemma NearMisses(t: Topology, before: seq<Event>, s0: Net, far: Event, near: Event, k: Key)
    returns (es: seq<Event>, s: Net)
    requires ValidTopology(t) && OutAddressesOnly(t) && SoleLink(t, Hop(0, 0, true), 1) && |t| == 2 && t[1] == []
    requires FarKnows(t, before, s0, far, k)
    requires near.Start? && Keeps(near) && near.node == 0 && near.service == k.service
    requires Lexicographic.Before(near.endpoint, k.endpoint)
    ensures Reaches(t, es, s) && AllKeep(es) && Quiescent(s) && Holds(s, 1, k) && near in es
    ensures !Holds(s, 0, k) && Surrounded(t, s, 0)
  {
    var after, s1 := NearMissesAfter(t, before, s0, far, near, k);
    RunOneMore(t, s0, near, after);
    assert AllKeep([near] + after);
    ReachesFurther(t, before, s0, [near] + after, s1);
    es, s := before + ([near] + after), s1;
    assert es[|before|] == near;
    RunInOrder(t, before, s0);
    StaysRemembered(t, s0, [near] + after);
    NearSurrounded(t, es, s, near);
  }

  lemma NearMissesAfter(t: Topology, before: seq<Event>, s0: Net, far: Event, near: Event, k: Key)
    returns (after: seq<Event>, s1: Net)
    requires ValidTopology(t) && OutAddressesOnly(t) && SoleLink(t, Hop(0, 0, true), 1) && |t| == 2
    requires FarKnows(t, before, s0, far, k)
    requires near.Start? && Keeps(near) && near.node == 0 && near.service == k.service
    requires Lexicographic.Before(near.endpoint, k.endpoint)
    ensures ValidNet(t, s0) && Enabled(s0, near) && Misses(t, Next(t, s0, near), after, s1, 0, k)
  {
    var own := Key(near.service, near.endpoint);
    Lexicographic.BeforeIrreflexive(near.endpoint);
    assert Early(s0, 1, own, k);
    MissedExactly(t, before, s0, near, Hop(0, 0, true), 1, own, k);
    after, s1 :| Misses(t, Next(t, s0, near), after, s1, 0, k);
  }

  lemma NearSurrounded(t: Topology, es: seq<Event>, s: Net, near: Event)
    requires |t| == 2 && t[1] == [] && Reaches(t, es, s) && near in es && near.Start? && near.node == 0
    ensures Surrounded(t, s, 0)
  {
    StartsAreRecorded(t, es, s, 0);
    var j :| 0 <= j < |es| && es[j] == near;
    forall h: Hop | ValidHop(t, h) && h.up && Touches(t, h, 0) && h.client < |s.nodes|
      ensures s.nodes[h.client].started != {}
    {
      assert h.client == 0;
    }
  }

  lemma {:induction false} StaysRemembered(t: Topology, s: Net, es: seq<Event>)
    requires IsRun(t, s, es) && AllKeep(es) && OutAddressesOnly(t) && InOrder(t, s)
    ensures Remembers(s, After(t, s, es))
    decreases es
  {
    if es != [] {
      NextRemembers(t, s, es[0]);
      NextInOrder(t, s, es[0]);
      StaysRemembered(t, Next(t, s, es[0]), es[1..]);
    }
  }
}
