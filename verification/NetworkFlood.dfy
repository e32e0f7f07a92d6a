/** The invariant of flooding: what a node holds its out-peers hold, or it is on its way, or why not. */
module NetworkFlood {
  import opened Types
  import opened Sequences
  import opened Tokens
  import opened Messages
  import opened Framing
  import opened StoreModel
  import opened Gossip
  import opened Network
  import opened NetworkSafety
  import opened NetworkTermination

  // ---------- the invariant ----------

  predicate Holds(s: Net, u: nat, k: Key) {
    u < |s.nodes| && k in s.nodes[u].peers
  }

  predicate Carries(h: Hop, m: Message, hop: Hop, k: Key) {
    h == hop && m.PeerUpdate? && MessageKey(m) == k
  }

  ghost predicate InFlight(s: Net, h: Hop, k: Key) {
    exists p :: p in s.flights && Carries(p.hop, p.m, h, k)
  }

  ghost predicate InThread(thread: seq<Action>, h: Hop, k: Key) {
    exists a :: a in thread && a.Send? && Carries(a.hop, a.m, h, k)
  }

  ghost predicate OnItsWay(s: Net, h: Hop, k: Key) {
    InFlight(s, h, k) || exists thread :: thread in s.threads && InThread(thread, h, k)
  }

  // The node skipped this out-peer when it relayed the key, as the key's previous hop.
  predicate Skipped(t: Topology, s: Net, u: nat, i: nat, k: Key)
    requires u < |t| && u < |s.nodes| && i < |t[u]|
  {
    && k in s.nodes[u].learned && ValidHop(t, s.nodes[u].learned[k].hop)
    && PeerAddress(t, s.nodes[u].learned[k].hop) == t[u][i].address
  }

  // An announcement of the key was not sent because the connection was closed before.
  ghost predicate Refused(s: Net, h: Hop, k: Key) {
    exists p :: p in s.refused && Carries(p.hop, p.m, h, k)
  }

  // A key one node holds is held by the out-peer, or on its way there, or was skipped for it, or
  // found the connection closed.
  ghost predicate EdgeServed(t: Topology, s: Net, u: nat, i: nat, k: Key)
    requires u < |t| && u < |s.nodes| && i < |t[u]| && t[u][i].dest.Some?
  {
    Holds(s, t[u][i].dest.value, k) || OnItsWay(s, Hop(u, i, true), k) || Skipped(t, s, u, i, k)
    || Refused(s, Hop(u, i, true), k)
  }

  ghost predicate Spreads(t: Topology, s: Net) {
    && |s.nodes| == |t|
    && forall u: nat, i: nat, k {:trigger EdgeServed(t, s, u, i, k)} ::
         u < |t| && i < |t[u]| && t[u][i].dest.Some? && Holds(s, u, k) ==> EdgeServed(t, s, u, i, k)
  }

  predicate SenderHolds(t: Topology, s: Net, h: Hop, m: Message) {
    ValidHop(t, h) && (m.PeerUpdate? ==> Sender(t, h).Some? && Holds(s, Sender(t, h).value, MessageKey(m)))
  }

  // Nobody announces what it does not hold.
  predicate Honest(t: Topology, s: Net) {
    && (forall p :: p in s.flights ==> SenderHolds(t, s, p.hop, p.m))
    && (forall thread, a :: thread in s.threads && a in thread ==> a.Send? && SenderHolds(t, s, a.hop, a.m))
  }

  predicate SoundNode(n: Node) {
    && n.started <= n.peers.Keys && n.learned.Keys <= n.peers.Keys
    && WellKeyed(n.peers) && AllLive(n.peers) && CleanKeys(n.peers)
    && (n.self.Some? ==> KeyOf(n.self.value) in n.peers)
  }

  // All names are single words.
  predicate CleanNet(s: Net) {
    && (forall u :: 0 <= u < |s.nodes| ==> SoundNode(s.nodes[u]))
    && (forall p :: p in s.flights ==> OffTheWire(p.m))
    && (forall thread, a :: thread in s.threads && a in thread ==> a.Send? && CleanMessage(a.m))
  }

  predicate RefusedAreClosed(s: Net) {
    forall p :: p in s.refused ==> Line(p.hop) in s.closed
  }

  ghost predicate Flooding(t: Topology, s: Net) {
    Spreads(t, s) && Honest(t, s) && CleanNet(s) && RefusedAreClosed(s)
  }

  // The oldest packet on the hop of this one.
  lemma OldestOn(s: Net, h: Hop, p: Packet) returns (j: nat)
    requires p in s.flights && p.hop == h
    ensures j < |s.flights| && s.flights[j].hop == h && IsOldest(s, j)
    ensures forall i :: 0 <= i < |s.flights| && s.flights[i].hop == h ==> j <= i
  {
    j := 0;
    while s.flights[j].hop != h
      invariant j < |s.flights| && forall i :: 0 <= i < j ==> s.flights[i].hop != h
      decreases |s.flights| - j
    {
      j := j + 1;
    }
  }

  // ---------- events that lose and forget nothing ----------

  predicate Keeps(e: Event) {
    !e.Stop? && !e.Drop? && (e.Start? ==> Clean(e.service) && Clean(e.endpoint))
  }

  predicate AllKeep(es: seq<Event>) {
    forall i :: 0 <= i < |es| ==> Keeps(es[i])
  }

  // ---------- spawning a loop ----------

  predicate ReadyToSend(t: Topology, s: Net, actions: seq<Action>) {
    forall a :: a in actions ==> a.Send? && CleanMessage(a.m) && SenderHolds(t, s, a.hop, a.m)
  }

  lemma SpawnedOnItsWay(s: Net, actions: seq<Action>, h: Hop, k: Key)
    ensures OnItsWay(s, h, k) ==> OnItsWay(Spawn(s, actions), h, k)
    ensures InThread(actions, h, k) ==> OnItsWay(Spawn(s, actions), h, k)
  {
    var s' := Spawn(s, actions);
    if InFlight(s, h, k) {
      assert InFlight(s', h, k);
    } else if thread :| thread in s.threads && InThread(thread, h, k) {
      assert thread in s'.threads;
    }
    if InThread(actions, h, k) {
      assert actions in s'.threads;
    }
  }

  lemma SpawnFloods(t: Topology, s: Net, actions: seq<Action>)
    requires Flooding(t, s) && ReadyToSend(t, s, actions)
    ensures Flooding(t, Spawn(s, actions))
  {
    var s' := Spawn(s, actions);
    forall u: nat, i: nat, k | u < |t| && i < |t[u]| && t[u][i].dest.Some? && Holds(s', u, k)
      ensures EdgeServed(t, s', u, i, k)
    {
      assert Holds(s, u, k) && EdgeServed(t, s, u, i, k);
      SpawnedOnItsWay(s, actions, Hop(u, i, true), k);
    }
    assert forall thread :: thread in s'.threads ==> thread in s.threads || thread == actions;
  }

  // ---------- one node's store grows by one key, which is announced to all but the skipped ----------

  lemma BroadcastServes(t: Topology, u: nat, m: Message, previousHop: string, i: nat)
    requires u < |t| && i < |t[u]| && m.PeerUpdate? && t[u][i].address != previousHop
    ensures InThread(Broadcast(t, u, m, previousHop), Hop(u, i, true), MessageKey(m))
  {
    BroadcastActions(t, u, m, previousHop);
    assert Send(Hop(u, i, true), m) in Broadcast(t, u, m, previousHop);
  }

  lemma BroadcastReady(t: Topology, s: Net, u: nat, m: Message, previousHop: string)
    requires u < |t| && CleanMessage(m) && (m.PeerUpdate? ==> Holds(s, u, MessageKey(m)))
    ensures ReadyToSend(t, s, Broadcast(t, u, m, previousHop))
  {
    BroadcastActions(t, u, m, previousHop);
    var sends := Broadcast(t, u, m, previousHop);
    forall a | a in sends ensures a.Send? && CleanMessage(a.m) && SenderHolds(t, s, a.hop, a.m) {
      var i :| 0 <= i < |sends| && sends[i] == a;
    }
  }

  // s1 is s with the node u replaced; it holds at most one key more.
  ghost predicate Grew(s: Net, s1: Net, u: nat, k: Key) {
    && u < |s.nodes| && |s1.nodes| == |s.nodes|
    && s1.flights == s.flights && s1.threads == s.threads && s1.refused == s.refused && s1.closed == s.closed
    && s1.nodes == s.nodes[u := s1.nodes[u]]
    && s1.nodes[u].peers.Keys == s.nodes[u].peers.Keys + {k}
    && (forall x :: x in s.nodes[u].learned ==>
          x in s1.nodes[u].learned && s1.nodes[u].learned[x] == s.nodes[u].learned[x])
  }

  lemma GrewHonest(t: Topology, s: Net, s1: Net, u: nat, k: Key)
    requires Honest(t, s) && Grew(s, s1, u, k)
    ensures Honest(t, s1)
  {
    assert forall x: nat, y :: Holds(s, x, y) ==> Holds(s1, x, y);
  }

  lemma GrewClean(s: Net, s1: Net, u: nat, k: Key)
    requires CleanNet(s) && Grew(s, s1, u, k) && SoundNode(s1.nodes[u])
    ensures CleanNet(s1)
  {
  }

  lemma GrewServed(t: Topology, s: Net, s1: Net, u: nat, k: Key, x: nat, i: nat, y: Key)
    requires Grew(s, s1, u, k) && |s.nodes| == |t|
    requires x < |t| && i < |t[x]| && t[x][i].dest.Some? && EdgeServed(t, s, x, i, y)
    ensures EdgeServed(t, s1, x, i, y)
  {
    if OnItsWay(s, Hop(x, i, true), y) {
      if InFlight(s, Hop(x, i, true), y) {
        assert InFlight(s1, Hop(x, i, true), y);
      }
    }
  }

  // A key that a node comes to hold and announces to every out-peer it does not skip.
  lemma AnnouncedFloods(t: Topology, s: Net, s1: Net, u: nat, k: Key, actions: seq<Action>)
    requires Flooding(t, s) && Grew(s, s1, u, k) && SoundNode(s1.nodes[u])
    requires ReadyToSend(t, s1, actions)
    requires forall i: nat :: u < |t| && i < |t[u]| && t[u][i].dest.Some? ==>
               Skipped(t, s1, u, i, k) || InThread(actions, Hop(u, i, true), k)
    ensures Flooding(t, Spawn(s1, actions))
  {
    var s' := Spawn(s1, actions);
    GrewHonest(t, s, s1, u, k);
    GrewClean(s, s1, u, k);
    forall x: nat, i: nat, y | x < |t| && i < |t[x]| && t[x][i].dest.Some? && Holds(s', x, y)
      ensures EdgeServed(t, s', x, i, y)
    {
      SpawnedOnItsWay(s1, actions, Hop(x, i, true), y);
      if Holds(s, x, y) {
        assert EdgeServed(t, s, x, i, y);
        GrewServed(t, s, s1, u, k, x, i, y);
      }
    }
    assert forall thread :: thread in s'.threads ==> thread in s.threads || thread == actions;
  }

  function StartedNode(n: Node, e: Event): Node
    requires e.Start?
  {
    var k := Key(e.service, e.endpoint);
    n.(peers := Apply(n.peers, Update(k, false, e.seen, e.now)),
       self := Some(PeerInfo(e.service, e.endpoint, e.seen, false)), started := n.started + {k})
  }

  lemma StartedSound(n: Node, e: Event)
    requires SoundNode(n) && e.Start? && Keeps(e)
    ensures SoundNode(StartedNode(n, e))
    ensures StartedNode(n, e).peers.Keys == n.peers.Keys + {Key(e.service, e.endpoint)}
  {
  }

  // A started client is announced to every out-peer: none has the address of the local node.
  lemma StartServes(t: Topology, u: nat, m: Message, ask: seq<Action>, i: nat)
    requires u < |t| && i < |t[u]| && m.PeerUpdate? && OutAddressesOnly(t)
    ensures InThread(Broadcast(t, u, m, LOCAL_NODE) + ask, Hop(u, i, true), MessageKey(m))
  {
    OutAddressIsNotLocal(t[u][i].address);
    BroadcastServes(t, u, m, LOCAL_NODE, i);
    var announce := Broadcast(t, u, m, LOCAL_NODE);
    var a :| a in announce && a.Send? && Carries(a.hop, a.m, Hop(u, i, true), MessageKey(m));
    assert a in announce + ask;
  }

  lemma StartFloods(t: Topology, s: Net, e: Event)
    requires ValidNet(t, s) && Enabled(s, e) && e.Start? && Keeps(e)
    requires OutAddressesOnly(t) && Flooding(t, s)
    ensures Flooding(t, StepStart(t, s, e))
  {
    var u, k := e.node, Key(e.service, e.endpoint);
    var m := Announced(PeerInfo(e.service, e.endpoint, e.seen, false));
    var announce, ask := Broadcast(t, u, m, LOCAL_NODE), Broadcast(t, u, Query(e.service), LOCAL_NODE);
    assert SoundNode(s.nodes[u]);
    StartedSound(s.nodes[u], e);
    var s1 := s.(nodes := s.nodes[u := StartedNode(s.nodes[u], e)]);
    BroadcastReady(t, s1, u, m, LOCAL_NODE);
    BroadcastReady(t, s1, u, Query(e.service), LOCAL_NODE);
    forall i: nat | i < |t[u]| && t[u][i].dest.Some? ensures InThread(announce + ask, Hop(u, i, true), k) {
      StartServes(t, u, m, ask, i);
    }
    AnnouncedFloods(t, s, s1, u, k, announce + ask);
  }

  lemma RefreshFloods(t: Topology, s: Net, u: nat)
    requires ValidNet(t, s) && Enabled(s, Refresh(u)) && Flooding(t, s)
    ensures Flooding(t, StepRefresh(t, s, u))
  {
    var m := Announced(s.nodes[u].self.value.(isRemoved := false));
    assert SoundNode(s.nodes[u]);
    BroadcastReady(t, s, u, m, LOCAL_NODE);
    SpawnFloods(t, s, Broadcast(t, u, m, LOCAL_NODE));
  }

  // ---------- advancing a loop ----------

  lemma RestKeeps(threads: seq<seq<Action>>, i: nat, thread: seq<Action>, a: Action)
    requires i < |threads| && threads[i] != []
    requires thread in threads && a in thread
    ensures a == threads[i][0] || exists th :: th in Rest(threads, i) && a in th
  {
    var rest := Rest(threads, i);
    var x :| 0 <= x < |threads| && threads[x] == thread;
    if x == i {
      if a != threads[i][0] {
        var y :| 0 <= y < |thread| && thread[y] == a;
        assert threads[i][1..][y - 1] == a;
        assert rest[i] == threads[i][1..];
        assert rest[i] in rest && a in rest[i];
      }
    } else {
      assert thread in rest by {
        if |threads[i]| == 1 {
          assert rest[if x < i then x else x - 1] == thread;
        } else {
          assert rest[x] == thread;
        }
      }
    }
  }

  lemma RestComesFrom(threads: seq<seq<Action>>, i: nat, th: seq<Action>, a: Action)
    requires i < |threads| && threads[i] != []
    requires th in Rest(threads, i) && a in th
    ensures exists thread :: thread in threads && a in thread
  {
    if |threads[i]| > 1 && th == threads[i][1..] {
      assert threads[i] in threads && a in threads[i];
    } else {
      assert th in threads;
    }
  }

  lemma AdvanceKeepsWay(t: Topology, s: Net, i: nat, h: Hop, k: Key)
    requires ValidNet(t, s) && Enabled(s, Advance(i)) && CleanNet(s)
    requires ValidHop(t, h) && Receiver(t, h).Some? && OnItsWay(s, h, k)
    ensures OnItsWay(StepAdvance(t, s, i), h, k) || Refused(StepAdvance(t, s, i), h, k)
  {
    var s' := StepAdvance(t, s, i);
    var first := s.threads[i][0];
    assert s.threads[i] in s.threads && first in s.threads[i];
    if InFlight(s, h, k) {
      var p :| p in s.flights && Carries(p.hop, p.m, h, k);
      assert p in s'.flights;
    } else {
      var thread :| thread in s.threads && InThread(thread, h, k);
      var a :| a in thread && a.Send? && Carries(a.hop, a.m, h, k);
      RestKeeps(s.threads, i, thread, a);
      if a == first && Line(h) in s.closed {
        assert Packet(h, a.m) in s'.refused;
      } else if a == first {
        WireExact(a.m);
        NormalIsNormal(a.m);
        var p := Packet(h, Normal(a.m));
        assert Arrivals(t, h, a.m) == [p];
        assert p in s'.flights && Carries(p.hop, p.m, h, k);
      } else {
        var th :| th in Rest(s.threads, i) && a in th;
        assert InThread(th, h, k);
      }
    }
  }

  lemma ArrivalsKeepKey(t: Topology, h: Hop, m: Message, p: Packet)
    requires ValidHop(t, h) && CleanMessage(m) && p in Arrivals(t, h, m)
    ensures p == Packet(h, Normal(m)) && OffTheWire(p.m)
  {
    WireExact(m);
    NormalIsNormal(m);
  }

  lemma AdvanceHonest(t: Topology, s: Net, i: nat)
    requires ValidNet(t, s) && Enabled(s, Advance(i)) && Honest(t, s) && CleanNet(s)
    ensures Honest(t, StepAdvance(t, s, i)) && CleanNet(StepAdvance(t, s, i))
  {
    var s' := StepAdvance(t, s, i);
    var first := s.threads[i][0];
    assert s.threads[i] in s.threads && first in s.threads[i];
    forall p | p in s'.flights ensures SenderHolds(t, s', p.hop, p.m) && OffTheWire(p.m) {
      if p in s.flights {
        assert SenderHolds(t, s, p.hop, p.m);
      } else {
        ArrivalsKeepKey(t, first.hop, first.m, p);
        assert SenderHolds(t, s, first.hop, first.m);
      }
    }
    forall th, a | th in s'.threads && a in th
      ensures a.Send? && SenderHolds(t, s', a.hop, a.m) && CleanMessage(a.m)
    {
      RestComesFrom(s.threads, i, th, a);
      var thread :| thread in s.threads && a in thread;
      assert SenderHolds(t, s, a.hop, a.m);
    }
  }

  lemma AdvanceKeepsRefused(t: Topology, s: Net, i: nat, h: Hop, k: Key)
    requires ValidNet(t, s) && Enabled(s, Advance(i))
    ensures Refused(s, h, k) ==> Refused(StepAdvance(t, s, i), h, k)
    ensures RefusedAreClosed(s) ==> RefusedAreClosed(StepAdvance(t, s, i))
  {
    var s' := StepAdvance(t, s, i);
    if Refused(s, h, k) {
      var p :| p in s.refused && Carries(p.hop, p.m, h, k);
      assert p in s'.refused;
    }
    assert forall p :: p in s'.refused ==> p in s.refused || Line(p.hop) in s.closed;
  }

  lemma AdvanceFloods(t: Topology, s: Net, i: nat)
    requires ValidNet(t, s) && Enabled(s, Advance(i)) && Flooding(t, s)
    ensures Flooding(t, StepAdvance(t, s, i))
  {
    var s' := StepAdvance(t, s, i);
    assert s.threads[i] in s.threads && s.threads[i][0] in s.threads[i];
    AdvanceHonest(t, s, i);
    assert s'.nodes == s.nodes;
    forall u: nat, x: nat, k | u < |t| && x < |t[u]| && t[u][x].dest.Some? && Holds(s', u, k)
      ensures EdgeServed(t, s', u, x, k)
    {
      assert Holds(s, u, k) && EdgeServed(t, s, u, x, k);
      if OnItsWay(s, Hop(u, x, true), k) {
        AdvanceKeepsWay(t, s, i, Hop(u, x, true), k);
      } else {
        AdvanceKeepsRefused(t, s, i, Hop(u, x, true), k);
      }
    }
  }

  // ---------- delivering ----------

  // Without its packet the flood still holds, but for the edge the packet was on.
  ghost predicate FloodingBut(t: Topology, s: Net, p: Packet) {
    && |s.nodes| == |t| && Honest(t, s) && CleanNet(s)
    && RefusedAreClosed(s) && SenderHolds(t, s, p.hop, p.m) && OffTheWire(p.m)
    && forall u: nat, i: nat, k :: u < |t| && i < |t[u]| && t[u][i].dest.Some? && Holds(s, u, k) ==>
         EdgeServed(t, s, u, i, k) || Carries(p.hop, p.m, Hop(u, i, true), k)
  }

  lemma StillFlies(flights: seq<Packet>, j: nat)
    requires j < |flights|
    ensures forall q :: q in RemoveAt(flights, j) ==> q in flights
    ensures forall q :: q in flights && q != flights[j] ==> q in RemoveAt(flights, j)
  {
    forall q | q in flights && q != flights[j] ensures q in RemoveAt(flights, j) {
      var x :| 0 <= x < |flights| && flights[x] == q;
      assert RemoveAt(flights, j)[if x < j then x else x - 1] == q;
    }
  }

  lemma TakenOffEdge(t: Topology, s: Net, j: nat, u: nat, i: nat, k: Key)
    requires j < |s.flights| && u < |t| && u < |s.nodes| && i < |t[u]| && t[u][i].dest.Some?
    requires EdgeServed(t, s, u, i, k)
    ensures EdgeServed(t, s.(flights := RemoveAt(s.flights, j)), u, i, k)
            || Carries(s.flights[j].hop, s.flights[j].m, Hop(u, i, true), k)
  {
    var h, p, s1 := Hop(u, i, true), s.flights[j], s.(flights := RemoveAt(s.flights, j));
    StillFlies(s.flights, j);
    if InFlight(s, h, k) && !Carries(p.hop, p.m, h, k) {
      var q :| q in s.flights && Carries(q.hop, q.m, h, k);
      assert q in s1.flights;
    }
  }

  lemma TakenOff(t: Topology, s: Net, j: nat)
    requires ValidNet(t, s) && j < |s.flights| && Flooding(t, s)
    ensures FloodingBut(t, s.(flights := RemoveAt(s.flights, j)), s.flights[j])
  {
    var p, s1 := s.flights[j], s.(flights := RemoveAt(s.flights, j));
    assert p in s.flights;
    StillFlies(s.flights, j);
    forall u: nat, i: nat, k | u < |t| && i < |t[u]| && t[u][i].dest.Some? && Holds(s1, u, k)
      ensures EdgeServed(t, s1, u, i, k) || Carries(p.hop, p.m, Hop(u, i, true), k)
    {
      assert Holds(s, u, k);
      TakenOffEdge(t, s, j, u, i, k);
    }
    assert Honest(t, s1) by {
      assert forall h, m :: SenderHolds(t, s, h, m) ==> SenderHolds(t, s1, h, m);
    }
  }

  // Once the receiver holds the packet's key, the packet's own edge needs nothing more.
  lemma EdgeDone(t: Topology, s: Net, p: Packet)
    requires FloodingBut(t, s, p)
    requires ValidHop(t, p.hop) && Receiver(t, p.hop).Some?
    requires p.m.PeerUpdate? ==> Holds(s, Receiver(t, p.hop).value, MessageKey(p.m))
    ensures Flooding(t, s)
  {
    forall u: nat, i: nat, k | u < |t| && i < |t[u]| && t[u][i].dest.Some? && Holds(s, u, k)
      ensures EdgeServed(t, s, u, i, k)
    {
      assert EdgeServed(t, s, u, i, k) || Carries(p.hop, p.m, Hop(u, i, true), k);
    }
  }

  lemma GrewButOne(t: Topology, s: Net, s1: Net, p: Packet, r: nat)
    requires FloodingBut(t, s, p) && p.m.PeerUpdate?
    requires ValidHop(t, p.hop) && Receiver(t, p.hop) == Some(r)
    requires Grew(s, s1, r, MessageKey(p.m)) && SoundNode(s1.nodes[r])
    ensures Honest(t, s1) && CleanNet(s1) && SenderHolds(t, s1, p.hop, p.m)
    ensures forall u: nat, i: nat, k ::
              u < |t| && i < |t[u]| && t[u][i].dest.Some? && Holds(s, u, k) ==> EdgeServed(t, s1, u, i, k)
  {
    var k0 := MessageKey(p.m);
    GrewHonest(t, s, s1, r, k0);
    GrewClean(s, s1, r, k0);
    forall u: nat, i: nat, k | u < |t| && i < |t[u]| && t[u][i].dest.Some? && Holds(s, u, k)
      ensures EdgeServed(t, s1, u, i, k)
    {
      if EdgeServed(t, s, u, i, k) {
        GrewServed(t, s, s1, r, k0, u, i, k);
      } else {
        assert Carries(p.hop, p.m, Hop(u, i, true), k);
        assert Holds(s1, r, k0);
      }
    }
  }

  lemma StoredNode(n: Node, m: Message, now: Timestamp)
    requires SoundNode(n) && m.PeerUpdate? && OffTheWire(m)
    ensures SoundNode(n.(peers := Apply(n.peers, AsUpdate(m, now))))
    ensures Apply(n.peers, AsUpdate(m, now)).Keys == n.peers.Keys + {MessageKey(m)}
    ensures IsNews(Classify(n.peers, AsUpdate(m, now))) <==> MessageKey(m) !in n.peers
  {
  }

  lemma KnownPeerFloods(t: Topology, s: Net, p: Packet, r: nat, now: Timestamp)
    requires ValidNet(t, s) && FloodingBut(t, s, p) && p.m.PeerUpdate?
    requires ValidHop(t, p.hop) && Receiver(t, p.hop) == Some(r) && r < |t|
    requires Holds(s, r, MessageKey(p.m))
    ensures Flooding(t, OnPeerUpdate(t, s, r, p.m, p.hop, now))
    ensures OnPeerUpdate(t, s, r, p.m, p.hop, now).nodes[r].learned == s.nodes[r].learned
  {
    assert SoundNode(s.nodes[r]);
    StoredNode(s.nodes[r], p.m, now);
    var s1 := OnPeerUpdate(t, s, r, p.m, p.hop, now);
    GrewButOne(t, s, s1, p, r);
    assert forall u: nat, k :: Holds(s1, u, k) ==> Holds(s, u, k);
  }

  // The network once a node has stored and noted a message that is news to it, before it relays it.
  function Told(s: Net, r: nat, m: Message, h: Hop, now: Timestamp, sent: seq<Packet>): Net
    requires r < |s.nodes| && m.PeerUpdate?
  {
    var n := s.nodes[r];
    var told := n.(peers := Apply(n.peers, AsUpdate(m, now)), notices := n.notices + [AsInfo(m)],
                   learned := n.learned[MessageKey(m) := Lesson(h, s.news + 1)]);
    s.(nodes := s.nodes[r := told], relays := s.relays + sent, news := s.news + 1)
  }

  lemma NewsIsTold(t: Topology, s: Net, r: nat, m: Message, h: Hop, now: Timestamp, sends: seq<Action>)
    requires ValidNet(t, s) && r < |t| && m.PeerUpdate? && ValidHop(t, h) && OffTheWire(m)
    requires SoundNode(s.nodes[r]) && !Holds(s, r, MessageKey(m))
    requires sends == Broadcast(t, r, m, PeerAddress(t, h))
    ensures forall i :: 0 <= i < |sends| ==> sends[i].Send?
    ensures OnPeerUpdate(t, s, r, m, h, now) == Spawn(Told(s, r, m, h, now, AsPackets(sends)), sends)
  {
    StoredNode(s.nodes[r], m, now);
    BroadcastActions(t, r, m, PeerAddress(t, h));
  }

  lemma ToldGrows(t: Topology, s: Net, r: nat, m: Message, h: Hop, now: Timestamp, sent: seq<Packet>)
    requires r < |s.nodes| && m.PeerUpdate? && OffTheWire(m)
    requires SoundNode(s.nodes[r]) && !Holds(s, r, MessageKey(m))
    ensures var s1 := Told(s, r, m, h, now, sent);
            && Grew(s, s1, r, MessageKey(m)) && SoundNode(s1.nodes[r])
            && Holds(s1, r, MessageKey(m))
            && s1.nodes[r].learned == s.nodes[r].learned[MessageKey(m) := Lesson(h, s.news + 1)]
  {
    StoredNode(s.nodes[r], m, now);
  }

  lemma NewPeerFloods(t: Topology, s: Net, p: Packet, r: nat, now: Timestamp)
    requires ValidNet(t, s) && FloodingBut(t, s, p) && p.m.PeerUpdate?
    requires ValidHop(t, p.hop) && Receiver(t, p.hop) == Some(r) && r < |t|
    requires !Holds(s, r, MessageKey(p.m))
    ensures Flooding(t, OnPeerUpdate(t, s, r, p.m, p.hop, now))
    ensures OnPeerUpdate(t, s, r, p.m, p.hop, now).nodes[r].learned ==
            s.nodes[r].learned[MessageKey(p.m) := Lesson(p.hop, s.news + 1)]
  {
    var m, from := p.m, PeerAddress(t, p.hop);
    var sends := Broadcast(t, r, m, from);
    assert SoundNode(s.nodes[r]);
    NewsIsTold(t, s, r, m, p.hop, now, sends);
    var s1 := Told(s, r, m, p.hop, now, AsPackets(sends));
    ToldGrows(t, s, r, m, p.hop, now, AsPackets(sends));
    GrewButOne(t, s, s1, p, r);
    BroadcastReady(t, s1, r, m, from);
    NewlyHeldFloods(t, s, s1, r, MessageKey(m), p.hop, m, sends);
  }

  lemma NewlyHeldFloods(t: Topology, s: Net, s1: Net, r: nat, k: Key, h: Hop, m: Message, sends: seq<Action>)
    requires |s.nodes| == |t| && r < |t| && Grew(s, s1, r, k) && m.PeerUpdate? && MessageKey(m) == k
    requires Honest(t, s1) && CleanNet(s1) && RefusedAreClosed(s1) && ValidHop(t, h)
    requires forall u: nat, i: nat, y ::
               u < |t| && i < |t[u]| && t[u][i].dest.Some? && Holds(s, u, y) ==> EdgeServed(t, s1, u, i, y)
    requires k in s1.nodes[r].learned && s1.nodes[r].learned[k].hop == h
    requires sends == Broadcast(t, r, m, PeerAddress(t, h)) && ReadyToSend(t, s1, sends)
    ensures Flooding(t, Spawn(s1, sends))
  {
    forall u: nat, i: nat, y | u < |t| && i < |t[u]| && t[u][i].dest.Some? && Holds(s1, u, y)
      ensures EdgeServed(t, Spawn(s1, sends), u, i, y)
    {
      SpawnedOnItsWay(s1, sends, Hop(u, i, true), y);
      if Holds(s, u, y) {
        assert EdgeServed(t, s1, u, i, y);
      } else if t[r][i].address != PeerAddress(t, h) {
        BroadcastServes(t, r, m, PeerAddress(t, h), i);
      }
    }
    assert forall thread :: thread in Spawn(s1, sends).threads ==> thread in s1.threads || thread == sends;
  }

  lemma ReplyReady(t: Topology, s: Net, r: nat, h: Hop, e: Entry)
    requires CleanNet(s) && r < |s.nodes| && ValidHop(t, h) && Receiver(t, h) == Some(r)
    requires IsListed(s.nodes[r].peers, e.service, e)
    ensures CleanMessage(AsReply(e)) && SenderHolds(t, s, Back(h), AsReply(e))
  {
    assert SoundNode(s.nodes[r]);
    assert Holds(s, r, Key(e.service, e.endpoint));
  }

  lemma AnswerReady(t: Topology, s: Net, r: nat, h: Hop, service: string)
    requires CleanNet(s) && r < |s.nodes| && ValidHop(t, h) && Receiver(t, h) == Some(r)
    ensures ReadyToSend(t, s, Map(ReplyOn(h), Replies(s.nodes[r].peers, service)))
  {
    var listing := Listing(s.nodes[r].peers, service);
    var sends := Map(ReplyOn(h), Replies(s.nodes[r].peers, service));
    assert SoundNode(s.nodes[r]);
    ListingExact(s.nodes[r].peers, service);
    forall i | 0 <= i < |sends|
      ensures sends[i].Send? && CleanMessage(sends[i].m) && SenderHolds(t, s, sends[i].hop, sends[i].m)
    {
      assert listing[i] in listing;
      ReplyReady(t, s, r, h, listing[i]);
    }
  }

  lemma HandledFloods(t: Topology, s: Net, p: Packet, now: Timestamp)
    requires Lands(t, s, p.hop) && FloodingBut(t, s, p)
    ensures Flooding(t, Handled(t, s, p, now))
  {
    var r := Receiver(t, p.hop).value;
    if p.m.Query? {
      EdgeDone(t, s, p);
      AnswerReady(t, s, r, p.hop, p.m.service);
      SpawnFloods(t, s, Map(ReplyOn(p.hop), Replies(s.nodes[r].peers, p.m.service)));
    } else if Holds(s, r, MessageKey(p.m)) {
      KnownPeerFloods(t, s, p, r, now);
    } else {
      NewPeerFloods(t, s, p, r, now);
    }
  }

  // An answer that is not read any more is missed by no out-peer: answers travel the other way.
  lemma UnreadFloods(t: Topology, s: Net, p: Packet)
    requires FloodingBut(t, s, p) && !p.hop.up
    ensures Flooding(t, s)
  {
    forall u: nat, i: nat, k | u < |t| && i < |t[u]| && t[u][i].dest.Some? && Holds(s, u, k)
      ensures EdgeServed(t, s, u, i, k)
    {
      assert !Carries(p.hop, p.m, Hop(u, i, true), k);
    }
  }

  // What happens to connections alone: they close, or something on them is not read.
  lemma ClosingFloods(t: Topology, s: Net, s': Net)
    requires Flooding(t, s) && s.closed <= s'.closed && s'.refused == s.refused
    requires s'.nodes == s.nodes && s'.threads == s.threads && s'.flights == s.flights
    ensures Flooding(t, s')
  {
    forall u: nat, i: nat, k | u < |t| && i < |t[u]| && t[u][i].dest.Some? && Holds(s', u, k)
      ensures EdgeServed(t, s', u, i, k)
    {
      assert Holds(s, u, k) && EdgeServed(t, s, u, i, k);
      assert InFlight(s, Hop(u, i, true), k) ==> InFlight(s', Hop(u, i, true), k);
      assert forall thread :: thread in s.threads ==> thread in s'.threads;
      assert Refused(s, Hop(u, i, true), k) ==> Refused(s', Hop(u, i, true), k);
    }
    assert Honest(t, s') && CleanNet(s') && RefusedAreClosed(s');
  }

  lemma DeliverFloods(t: Topology, s: Net, e: Event)
    requires ValidNet(t, s) && Enabled(s, e) && e.Deliver? && Flooding(t, s)
    ensures Flooding(t, StepDeliver(t, s, e))
  {
    var p, landed := s.flights[e.flight], s.(flights := RemoveAt(s.flights, e.flight));
    LandedValid(t, s, e.flight);
    TakenOff(t, s, e.flight);
    if IsUnread(landed, p.hop) {
      UnreadFloods(t, landed, p);
      ClosingFloods(t, landed, StepDeliver(t, s, e));
    } else {
      HandledFloods(t, landed, p, e.now);
      ClosingFloods(t, Handled(t, landed, p, e.now), StepDeliver(t, s, e));
    }
  }

  // Every step that loses and forgets nothing keeps the flood going.
  lemma NextFloods(t: Topology, s: Net, e: Event)
    requires ValidNet(t, s) && Enabled(s, e) && Keeps(e) && OutAddressesOnly(t)
    requires Flooding(t, s)
    ensures Flooding(t, Next(t, s, e))
  {
    match e
    case Start(_, _, _, _, _) => StartFloods(t, s, e);
    case Refresh(u) => RefreshFloods(t, s, u);
    case Advance(i) => AdvanceFloods(t, s, i);
    case Deliver(_, _, _) => DeliverFloods(t, s, e);
  }

  // ---------- nothing is forgotten ----------

  predicate Remembers(s: Net, s': Net) {
    && |s'.nodes| == |s.nodes|
    && forall u :: 0 <= u < |s.nodes| ==>
         s.nodes[u].peers.Keys <= s'.nodes[u].peers.Keys && s.nodes[u].started <= s'.nodes[u].started
  }

  lemma AdvanceMovesNoNode(t: Topology, s: Net, i: nat)
    requires ValidNet(t, s) && Enabled(s, Advance(i)) && CleanNet(s)
    ensures StepAdvance(t, s, i).nodes == s.nodes && StepAdvance(t, s, i).closed == s.closed
  {
    assert s.threads[i] in s.threads && s.threads[i][0] in s.threads[i];
  }

  lemma StoringRemembers(t: Topology, s: Net, r: nat, m: Message, h: Hop, now: Timestamp)
    requires ValidNet(t, s) && r < |t| && m.PeerUpdate? && ValidHop(t, h)
    ensures var s' := OnPeerUpdate(t, s, r, m, h, now);
            && Remembers(s, s') && s'.closed == s.closed && s'.flights == s.flights
            && (forall u :: 0 <= u < |s.nodes| && u != r ==> s'.nodes[u] == s.nodes[u])
            && s'.nodes[r].started == s.nodes[r].started
  {
  }

  lemma AnsweringRemembers(s: Net, r: nat, h: Hop, service: string)
    requires r < |s.nodes|
    ensures var s' := OnQuery(s, r, h, service);
            && Remembers(s, s') && s'.closed == s.closed && s'.flights == s.flights
            && forall u :: 0 <= u < |s.nodes| ==> s'.nodes[u].started == s.nodes[u].started
  {
  }

  lemma HandledRemembers(t: Topology, s: Net, p: Packet, now: Timestamp)
    requires Lands(t, s, p.hop)
    ensures var s' := Handled(t, s, p, now);
            && Remembers(s, s') && s'.closed == s.closed && s'.flights == s.flights
            && forall u :: 0 <= u < |s.nodes| ==> s'.nodes[u].started == s.nodes[u].started
  {
    if p.m.PeerUpdate? {
      StoringRemembers(t, s, Receiver(t, p.hop).value, p.m, p.hop, now);
    } else {
      AnsweringRemembers(s, Receiver(t, p.hop).value, p.hop, p.m.service);
    }
  }

  lemma StartRemembers(t: Topology, s: Net, e: Event)
    requires ValidNet(t, s) && Enabled(s, e) && e.Start?
    ensures Remembers(s, StepStart(t, s, e)) && StepStart(t, s, e).closed == s.closed
  {
  }

  lemma DeliverRemembers(t: Topology, s: Net, e: Event)
    requires ValidNet(t, s) && Enabled(s, e) && e.Deliver?
    ensures var s' := StepDeliver(t, s, e);
            && Remembers(s, s') && s.closed <= s'.closed
            && forall u :: 0 <= u < |s.nodes| ==> s'.nodes[u].started == s.nodes[u].started
  {
    LandedValid(t, s, e.flight);
    HandledRemembers(t, s.(flights := RemoveAt(s.flights, e.flight)), s.flights[e.flight], e.now);
  }

  lemma NextRemembers(t: Topology, s: Net, e: Event)
    requires ValidNet(t, s) && Enabled(s, e) && Keeps(e) && CleanNet(s)
    ensures Remembers(s, Next(t, s, e)) && s.closed <= Next(t, s, e).closed
    ensures !e.Start? ==> forall u :: 0 <= u < |s.nodes| ==> Next(t, s, e).nodes[u].started == s.nodes[u].started
  {
    match e
    case Start(_, _, _, _, _) => StartRemembers(t, s, e);
    case Refresh(u) =>
    case Advance(i) => AdvanceMovesNoNode(t, s, i);
    case Deliver(_, _, _) => DeliverRemembers(t, s, e);
  }

  // ---------- whole runs ----------

  lemma InitiallyFlooding(t: Topology)
    requires ValidTopology(t)
    ensures Flooding(t, Initial(t))
  {
  }

  lemma {:induction false} StaysFlooding(t: Topology, s: Net, es: seq<Event>)
    requires IsRun(t, s, es) && AllKeep(es) && OutAddressesOnly(t) && Flooding(t, s)
    ensures Flooding(t, After(t, s, es))
    decreases es
  {
    if es != [] {
      NextFloods(t, s, es[0]);
      StaysFlooding(t, Next(t, s, es[0]), es[1..]);
    }
  }

  lemma RunFloods(t: Topology, es: seq<Event>, s: Net)
    requires Reaches(t, es, s) && AllKeep(es) && OutAddressesOnly(t)
    ensures Flooding(t, s)
  {
    InitiallyFlooding(t);
    StaysFlooding(t, Initial(t), es);
  }

  // With any addresses and any closed connections: once a run that lost nothing is at rest, a holder
  // has passed its key to every out-peer, but for one whose address is the address it learned the
  // key from, and but for a connection it had closed before.
  lemma QuietEdges(t: Topology, es: seq<Event>, s: Net, u: nat, i: nat, k: Key)
    requires Reaches(t, es, s) && AllKeep(es) && OutAddressesOnly(t) && Quiescent(s)
    requires u < |t| && i < |t[u]| && t[u][i].dest.Some? && Holds(s, u, k)
    ensures Holds(s, t[u][i].dest.value, k) || Skipped(t, s, u, i, k) || Refused(s, Hop(u, i, true), k)
    ensures Refused(s, Hop(u, i, true), k) ==> Hop(u, i, true) in s.closed
  {
    RunFloods(t, es, s);
    assert EdgeServed(t, s, u, i, k);
    if Refused(s, Hop(u, i, true), k) {
      var p :| p in s.refused && Carries(p.hop, p.m, Hop(u, i, true), k);
      assert Line(p.hop) == Hop(u, i, true);
    }
  }
}
