/** A client started on a network at rest: exactly where it becomes known, and who stays ignorant for good. */
module NetworkSecondWave {
  import opened Types
  import opened Sequences
  import opened Messages
  import opened Gossip
  import opened Network
  import opened NetworkTermination
  import opened NetworkFlood
  import opened NetworkConnections
  import opened NetworkLessons
  import opened NetworkCompleteness

  // ---------- the nodes a new client can reach ----------

  // A path of nodes at which no client was started, but for the last.
  ghost predicate OpenPath(t: Topology, s: Net, path: seq<nat>) {
    && IsPath(t, path)
    && forall i :: 0 <= i < |path| - 1 ==> path[i] < |s.nodes| && s.nodes[path[i]].started == {}
  }

  ghost predicate Leads(t: Topology, s: Net, u: nat, path: seq<nat>, v: nat) {
    OpenPath(t, s, path) && path[0] == u && path[|path| - 1] == v
  }

  ghost predicate Reachable(t: Topology, s: Net, u: nat, v: nat) {
    exists path :: Leads(t, s, u, path, v)
  }

  lemma ReachesItself(t: Topology, s: Net, u: nat)
    ensures Reachable(t, s, u, u)
  {
    assert Leads(t, s, u, [u], u);
  }

  lemma ReachesOutPeer(t: Topology, s: Net, u: nat, w: nat, i: nat, v: nat)
    requires Reachable(t, s, u, w) && w < |t| && w < |s.nodes| && i < |t[w]| && t[w][i].dest == Some(v)
    requires s.nodes[w].started == {}
    ensures Reachable(t, s, u, v)
  {
    var path :| Leads(t, s, u, path, w);
    var longer := path + [v];
    assert Linked(t, w, v);
    forall x | 0 <= x < |longer| - 1
      ensures Linked(t, longer[x], longer[x + 1]) && longer[x] < |s.nodes| && s.nodes[longer[x]].started == {}
    {
      assert x < |path| - 1 ==> Linked(t, path[x], path[x + 1]);
    }
    assert Leads(t, s, u, longer, v);
  }

  // ---------- the wave stays within them ----------

  // Only node u asks and is answered.
  predicate AsksOnly(h: Hop, m: Message, u: nat) {
    m.Query? || !h.up ==> h.client == u
  }

  predicate AsksOnlyAll(thread: seq<Action>, u: nat) {
    forall a :: a in thread && a.Send? ==> AsksOnly(a.hop, a.m, u)
  }

  // Node u started the client k in the resting state s; by now only reachable nodes know it, and only
  // connections that were open in s carry anything.
  ghost predicate Confined(t: Topology, s: Net, c: Net, u: nat, k: Key) {
    && (forall v: nat :: Holds(c, v, k) ==> Reachable(t, s, u, v))
    && s.closed <= c.closed
    && (forall p :: p in c.flights ==> AsksOnly(p.hop, p.m, u) && Line(p.hop) !in s.closed)
    && (forall thread :: thread in c.threads ==> AsksOnlyAll(thread, u))
  }

  lemma SpawnConfined(t: Topology, s: Net, c: Net, u: nat, k: Key, actions: seq<Action>)
    requires Confined(t, s, c, u, k) && AsksOnlyAll(actions, u)
    ensures Confined(t, s, Spawn(c, actions), u, k)
  {
    assert forall thread :: thread in Spawn(c, actions).threads ==> thread in c.threads || thread == actions;
    assert forall v: nat :: Holds(Spawn(c, actions), v, k) ==> Holds(c, v, k);
  }

  lemma BroadcastAsksNobody(t: Topology, x: nat, m: Message, previousHop: string, u: nat)
    requires x < |t| && (m.Query? ==> x == u)
    ensures AsksOnlyAll(Broadcast(t, x, m, previousHop), u)
  {
    BroadcastActions(t, x, m, previousHop);
    var sends := Broadcast(t, x, m, previousHop);
    forall a | a in sends ensures a.Send? && AsksOnly(a.hop, a.m, u) {
      var i :| 0 <= i < |sends| && sends[i] == a;
    }
  }

  // The start itself.
  lemma StartConfined(t: Topology, s: Net, e: Event, k: Key)
    requires ValidNet(t, s) && Enabled(s, e) && e.Start? && Starts(e, e.node, k) && Quiescent(s)
    requires forall x: nat :: !Holds(s, x, k)
    ensures Confined(t, s, StepStart(t, s, e), e.node, k)
  {
    var u, s1 := e.node, s.(nodes := StepStart(t, s, e).nodes);
    ReachesItself(t, s, u);
    assert forall v: nat :: v != u && Holds(s1, v, k) ==> Holds(s, v, k);
    assert Confined(t, s, s1, u, k);
    BroadcastAsksNobody(t, u, Announced(PeerInfo(e.service, e.endpoint, e.seen, false)), LOCAL_NODE, u);
    BroadcastAsksNobody(t, u, Query(e.service), LOCAL_NODE, u);
    SpawnConfined(t, s, s1, u, k,
                  Broadcast(t, u, Announced(PeerInfo(e.service, e.endpoint, e.seen, false)), LOCAL_NODE)
                  + Broadcast(t, u, Query(e.service), LOCAL_NODE));
  }

  lemma AdvanceConfined(t: Topology, s: Net, c: Net, u: nat, k: Key, i: nat)
    requires ValidNet(t, c) && Enabled(c, Advance(i)) && CleanNet(c) && Confined(t, s, c, u, k)
    ensures Confined(t, s, StepAdvance(t, c, i), u, k)
  {
    var c', first := StepAdvance(t, c, i), c.threads[i][0];
    AdvanceMovesNoNode(t, c, i);
    assert c.threads[i] in c.threads && first in c.threads[i] && AsksOnlyAll(c.threads[i], u);
    SentArrives(t, c, first.hop, first.m);
    forall p | p in c'.flights ensures AsksOnly(p.hop, p.m, u) && Line(p.hop) !in s.closed {
      assert p in c.flights || p == Packet(first.hop, Normal(first.m));
    }
    forall th | th in c'.threads ensures AsksOnlyAll(th, u) {
      forall a | a in th && a.Send? ensures AsksOnly(a.hop, a.m, u) {
        RestComesFrom(c.threads, i, th, a);
        var thread :| thread in c.threads && a in thread;
        assert AsksOnlyAll(thread, u);
      }
    }
    assert forall v: nat :: Holds(c', v, k) ==> Holds(c, v, k);
  }

  // A node that hears of the client over a connection that was open is reachable itself.
  lemma HearerIsReachable(t: Topology, s: Net, c: Net, u: nat, k: Key, p: Packet, r: nat)
    requires InOrder(t, s) && Quiescent(s) && |s.nodes| == |t| && Confined(t, s, c, u, k)
    requires p.m.PeerUpdate? && MessageKey(p.m) == k && SenderHolds(t, c, p.hop, p.m) && Receiver(t, p.hop) == Some(r)
    requires AsksOnly(p.hop, p.m, u) && Line(p.hop) !in s.closed
    ensures Reachable(t, s, u, r)
  {
    if p.hop.up {
      var w, i := p.hop.client, p.hop.index;
      assert Holds(c, w, k) && Hop(w, i, true) == Line(p.hop);
      RestingClosed(t, s, w, i);
      ReachesOutPeer(t, s, u, w, i, r);
    } else {
      ReachesItself(t, s, u);
    }
  }

  lemma HandledConfined(t: Topology, s: Net, c: Net, u: nat, k: Key, p: Packet, now: Timestamp)
    requires InOrder(t, s) && Quiescent(s) && |s.nodes| == |t| && Confined(t, s, c, u, k)
    requires Lands(t, c, p.hop) && SenderHolds(t, c, p.hop, p.m) && (p.m.Query? ==> p.hop.up)
    requires AsksOnly(p.hop, p.m, u) && Line(p.hop) !in s.closed
    ensures Confined(t, s, Handled(t, c, p, now), u, k)
  {
    var r, c' := Receiver(t, p.hop).value, Handled(t, c, p, now);
    HandledRemembers(t, c, p, now);
    if p.m.PeerUpdate? {
      StoringRemembers(t, c, r, p.m, p.hop, now);
      var c1 := c'.(threads := c.threads);
      var sends := Broadcast(t, r, p.m, PeerAddress(t, p.hop));
      forall v: nat | Holds(c1, v, k) ensures Reachable(t, s, u, v) {
        if !Holds(c, v, k) {
          assert v == r && k == MessageKey(p.m);
          HearerIsReachable(t, s, c, u, k, p, r);
        }
      }
      assert Confined(t, s, c1, u, k);
      BroadcastAsksNobody(t, r, p.m, PeerAddress(t, p.hop), u);
      SpawnConfined(t, s, c1, u, k, sends);
      assert c' == c1 || c' == Spawn(c1, sends);
    } else {
      SpawnConfined(t, s, c, u, k, Map(ReplyOn(p.hop), Replies(c.nodes[r].peers, p.m.service)));
    }
  }

  lemma StillConfined(t: Topology, s: Net, c: Net, c': Net, u: nat, k: Key)
    requires Confined(t, s, c, u, k) && c'.nodes == c.nodes && c'.threads == c.threads && c.closed <= c'.closed
    requires forall p :: p in c'.flights ==> p in c.flights
    ensures Confined(t, s, c', u, k)
  {
    assert forall v: nat :: Holds(c', v, k) ==> Holds(c, v, k);
  }

  lemma DeliverConfined(t: Topology, s: Net, c: Net, u: nat, k: Key, e: Event, landed: Net, p: Packet)
    requires InOrder(t, s) && Quiescent(s) && |s.nodes| == |t| && Confined(t, s, c, u, k)
    requires ValidNet(t, c) && Enabled(c, e) && e.Deliver?
    requires p == c.flights[e.flight] && landed == c.(flights := RemoveAt(c.flights, e.flight)) && p in c.flights
    requires Lands(t, landed, p.hop) && SenderHolds(t, landed, p.hop, p.m) && (p.m.Query? ==> p.hop.up)
    requires forall q :: q in landed.flights ==> q in c.flights
    ensures Confined(t, s, StepDeliver(t, c, e), u, k)
  {
    StillConfined(t, s, c, landed, u, k);
    if !IsUnread(landed, p.hop) {
      HandledConfined(t, s, landed, u, k, p, e.now);
      StillConfined(t, s, Handled(t, landed, p, e.now), StepDeliver(t, c, e), u, k);
    }
  }

  lemma NextConfined(t: Topology, s: Net, c: Net, u: nat, k: Key, e: Event)
    requires InOrder(t, s) && Quiescent(s) && |s.nodes| == |t| && Confined(t, s, c, u, k)
    requires ValidNet(t, c) && Enabled(c, e) && Keeps(e) && !e.Start? && InOrder(t, c)
    ensures Confined(t, s, Next(t, c, e), u, k)
  {
    match e
    case Refresh(x) =>
      var m := Announced(c.nodes[x].self.value.(isRemoved := false));
      BroadcastAsksNobody(t, x, m, LOCAL_NODE, u);
      SpawnConfined(t, s, c, u, k, Broadcast(t, x, m, LOCAL_NODE));
    case Advance(i) => AdvanceConfined(t, s, c, u, k, i);
    case Deliver(j, _, _) =>
      LandedInOrder(t, c, j);
      DeliverConfined(t, s, c, u, k, e, c.(flights := RemoveAt(c.flights, j)), c.flights[j]);
  }

  lemma {:induction false} StaysConfined(t: Topology, s: Net, c: Net, u: nat, k: Key, es: seq<Event>)
    requires InOrder(t, s) && Quiescent(s) && |s.nodes| == |t| && Confined(t, s, c, u, k)
    requires IsRun(t, c, es) && AllKeep(es) && NoStart(es) && OutAddressesOnly(t) && InOrder(t, c)
    ensures Confined(t, s, After(t, c, es), u, k)
    decreases es
  {
    if es != [] {
      NextConfined(t, s, c, u, k, es[0]);
      NextInOrder(t, c, es[0]);
      StaysConfined(t, s, Next(t, c, es[0]), u, k, es[1..]);
    }
  }

  // ---------- and fills them ----------

  lemma WaveStarts(t: Topology, s: Net, c: Net, u: nat, k: Key, path: seq<nat>)
    requires StartedAt(s, c, u, k) && InOrder(t, c) && Taught(t, c) && u < |s.nodes|
    requires OpenPath(t, s, path) && path[0] == u
    ensures Spreading(t, c, path, k)
  {
    forall x | 0 <= x < |path| - 1 ensures path[x] < |c.nodes| && c.nodes[path[x]].started <= {k} {
      assert s.nodes[path[x]].started == {};
    }
  }

  lemma WaveArrives(t: Topology, s: Net, e: Event, after: seq<Event>, s': Net, k: Key, path: seq<nat>)
    requires ValidNet(t, s) && Enabled(s, e) && e.Start? && Keeps(e) && Starts(e, e.node, k) && OutAddressesOnly(t)
    requires InOrder(t, s) && Taught(t, s) && AddressesAgree(t)
    requires IsRun(t, Next(t, s, e), after) && AllKeep(after) && NoStart(after)
    requires s' == After(t, Next(t, s, e), after) && Quiescent(s')
    requires OpenPath(t, s, path) && path[0] == e.node
    ensures Holds(s', path[|path| - 1], k)
  {
    StartedInOrder(t, s, e, Next(t, s, e), k);
    WaveStarts(t, s, Next(t, s, e), e.node, k, path);
    StillSpreads(t, Next(t, s, e), after, s', path, k);
    RestIsComplete(t, s', path, k);
  }

  // When a client nobody knows is started on a network at rest and the network comes to rest again,
  // nothing having been lost or forgotten, then only nodes know it that can be reached over nodes at
  // which no client was started before; and if no addresses collide, exactly those.
  lemma SecondWave(t: Topology, before: seq<Event>, s: Net, e: Event, after: seq<Event>, s': Net, k: Key, v: nat)
    requires Reaches(t, before, s) && AllKeep(before) && Quiescent(s) && OutAddressesOnly(t)
    requires Enabled(s, e) && e.Start? && Keeps(e) && Starts(e, e.node, k) && forall x: nat :: !Holds(s, x, k)
    requires IsRun(t, Next(t, s, e), after) && AllKeep(after) && NoStart(after)
    requires s' == After(t, Next(t, s, e), after) && Quiescent(s')
    ensures Holds(s', v, k) ==> Reachable(t, s, e.node, v)
    ensures AddressesAgree(t) ==> (Holds(s', v, k) <==> Reachable(t, s, e.node, v))
  {
    EveryKeyWasTaught(t, before, s);
    StartConfined(t, s, e, k);
    NextInOrder(t, s, e);
    StaysConfined(t, s, Next(t, s, e), e.node, k, after);
    if AddressesAgree(t) && Reachable(t, s, e.node, v) {
      var path :| Leads(t, s, e.node, path, v);
      WaveArrives(t, s, e, after, s', k, path);
    }
  }

  // ---------- a node that hears nothing any more ----------

  // A made connection to the node or of the node.
  predicate Touches(t: Topology, h: Hop, v: nat)
    requires ValidHop(t, h)
  {
    LinkOf(t, h).dest.Some? && (LinkOf(t, h).dest.value == v || h.client == v)
  }

  // Every connection to the node and of the node is closed, and nothing is on its way to it.
  ghost predicate Severed(t: Topology, s: Net, v: nat) {
    && (forall h: Hop :: ValidHop(t, h) && h.up && Touches(t, h, v) ==> h in s.closed)
    && (forall p :: p in s.flights && p.hop.up && ValidHop(t, p.hop) ==> Receiver(t, p.hop) != Some(v))
  }

  lemma SeveredAdvance(t: Topology, s: Net, i: nat, v: nat)
    requires ValidNet(t, s) && Enabled(s, Advance(i)) && Severed(t, s, v)
    ensures Severed(t, StepAdvance(t, s, i), v)
  {
    var s', a := StepAdvance(t, s, i), s.threads[i][0];
    assert ValidAction(t, a);
    forall p | p in s'.flights && p.hop.up && ValidHop(t, p.hop) ensures Receiver(t, p.hop) != Some(v) {
      if p !in s.flights {
        assert p in Arrivals(t, a.hop, a.m);
        assert p.hop == a.hop && Line(a.hop) == a.hop;
      }
    }
  }

  lemma SeveredDeliver(t: Topology, s: Net, e: Event, v: nat)
    requires ValidNet(t, s) && Enabled(s, e) && e.Deliver? && Severed(t, s, v) && v < |t|
    ensures Severed(t, StepDeliver(t, s, e), v)
    ensures StepDeliver(t, s, e).nodes[v] == s.nodes[v]
  {
    var p, landed := s.flights[e.flight], s.(flights := RemoveAt(s.flights, e.flight));
    LandedValid(t, s, e.flight);
    assert p in s.flights;
    assert forall q :: q in landed.flights ==> q in s.flights;
    if !p.hop.up && p.hop.client == v {
      assert ValidHop(t, Line(p.hop)) && Line(p.hop) in s.closed;
    }
    if !IsUnread(landed, p.hop) {
      assert Receiver(t, p.hop) != Some(v);
      HandledRemembers(t, landed, p, e.now);
      if p.m.PeerUpdate? {
        StoringRemembers(t, landed, Receiver(t, p.hop).value, p.m, p.hop, e.now);
      }
    }
  }

  lemma SeveredNext(t: Topology, s: Net, e: Event, v: nat, k: Key)
    requires ValidNet(t, s) && Enabled(s, e) && Severed(t, s, v) && v < |t| && !Starts(e, v, k) && !Holds(s, v, k)
    ensures Severed(t, Next(t, s, e), v) && !Holds(Next(t, s, e), v, k)
  {
    match e
    case Start(_, _, _, _, _) =>
    case Refresh(_) =>
    case Stop(_) =>
    case Advance(i) => SeveredAdvance(t, s, i, v);
    case Deliver(_, _, _) => SeveredDeliver(t, s, e, v);
    case Drop(j) => assert forall q :: q in RemoveAt(s.flights, j) ==> q in s.flights;
  }

  lemma {:induction false} StaysSevered(t: Topology, s: Net, es: seq<Event>, v: nat, k: Key)
    requires IsRun(t, s, es) && Severed(t, s, v) && v < |t| && !Holds(s, v, k)
    requires forall i :: 0 <= i < |es| ==> !Starts(es[i], v, k)
    ensures !Holds(After(t, s, es), v, k)
    decreases es
  {
    if es != [] {
      SeveredNext(t, s, es[0], v, k);
      StaysSevered(t, Next(t, s, es[0]), es[1..], v, k);
    }
  }

  // A client was started at every node that has a connection to this one, and at the node itself if
  // it has connections.
  ghost predicate Surrounded(t: Topology, s: Net, v: nat) {
    forall h: Hop :: ValidHop(t, h) && h.up && Touches(t, h, v) && h.client < |s.nodes| ==>
      s.nodes[h.client].started != {}
  }

  lemma SurroundedIsSevered(t: Topology, es: seq<Event>, s: Net, v: nat)
    requires Reaches(t, es, s) && AllKeep(es) && OutAddressesOnly(t) && Quiescent(s)
    requires Surrounded(t, s, v)
    ensures Severed(t, s, v)
  {
    RunInOrder(t, es, s);
    forall h: Hop | ValidHop(t, h) && h.up && Touches(t, h, v) ensures h in s.closed
    {
      RestingClosed(t, s, h.client, h.index);
      assert h == Hop(h.client, h.index, true);
    }
  }

  // Such a node is cut off for good when the network comes to rest: whatever happens afterwards, with
  // or without losses and stops, it never holds a key it did not hold, but one it is started with.
  lemma CutOffForGood(t: Topology, es: seq<Event>, s: Net, more: seq<Event>, v: nat, k: Key)
    requires Reaches(t, es, s) && AllKeep(es) && OutAddressesOnly(t) && Quiescent(s)
    requires v < |t| && Surrounded(t, s, v) && !Holds(s, v, k)
    requires IsRun(t, s, more) && forall i :: 0 <= i < |more| ==> !Starts(more[i], v, k)
    ensures !Holds(After(t, s, more), v, k)
  {
    SurroundedIsSevered(t, es, s, v);
    StaysSevered(t, s, more, v, k);
  }

  // ---------- flooding fails without any fault ----------

  // Three nodes in a row.
  function Row(first: string, second: string, seenFirst: string, seenSecond: string): Topology {
    [[Link(first, Some(1), seenFirst)], [Link(second, Some(2), seenSecond)], []]
  }

  lemma RowHopAgrees(t: Topology, first: string, second: string, seenFirst: string, seenSecond: string, h: Hop, j: nat)
    requires t == Row(first, second, seenFirst, seenSecond) && seenFirst != second && ValidHop(t, h)
    ensures AddressAgrees(t, h, j)
  {
    assert h.index == 0 && (h.client == 0 || h.client == 1);
  }

  lemma RowIsFair(t: Topology, first: string, second: string, seenFirst: string, seenSecond: string)
    requires t == Row(first, second, seenFirst, seenSecond)
    requires IsOutAddress(first) && IsOutAddress(second) && seenFirst != second
    ensures ValidTopology(t) && OutAddressesOnly(t) && AddressesAgree(t) && IsPath(t, [0, 1, 2])
  {
    assert t[0][0].dest == Some(1) && t[1][0].dest == Some(2);
    assert Linked(t, 0, 1) && Linked(t, 1, 2);
    forall h: Hop, j: nat | ValidHop(t, h) ensures AddressAgrees(t, h, j) {
      RowHopAgrees(t, first, second, seenFirst, seenSecond, h, j);
    }
  }

  // Start a client in the middle of the row, let the network come to rest, start another one at the
  // head, let it come to rest again: nothing was lost and no addresses collide, but the last node
  // does not know the second client, and never will unless it is started there.
  lemma FaultFreeFloodingFails(t: Topology, first: string, second: string, seenFirst: string, seenSecond: string,
                               middle: Event, head: Event, k: Key) returns (es: seq<Event>, s: Net)
    requires t == Row(first, second, seenFirst, seenSecond)
    requires IsOutAddress(first) && IsOutAddress(second) && seenFirst != second
    requires middle.Start? && middle.node == 1 && Keeps(middle) && !Starts(middle, 1, k)
    requires head.Start? && Starts(head, 0, k) && Keeps(head)
    ensures OutAddressesOnly(t) && AddressesAgree(t) && IsPath(t, [0, 1, 2])
    ensures Reaches(t, es, s) && AllKeep(es) && Quiescent(s) && head in es
    ensures forall more :: IsRun(t, s, more) && (forall i :: 0 <= i < |more| ==> !Starts(more[i], 2, k)) ==>
              !Holds(After(t, s, more), 2, k)
  {
    RowIsFair(t, first, second, seenFirst, seenSecond);
    assert ValidTopology(t);
    var wave, s1 := MiddleSettles(t, middle);
    RowIsSurrounded(t, wave, s1, first, second, seenFirst, seenSecond, k);
    es, s := SecondFails(t, wave, s1, head, k);
  }

  lemma MiddleSettles(t: Topology, middle: Event) returns (wave: seq<Event>, s: Net)
    requires ValidTopology(t) && |t| == 3 && middle.Start? && middle.node == 1 && Keeps(middle)
    ensures Reaches(t, wave, s) && AllKeep(wave) && Quiescent(s)
    ensures wave != [] && wave[0] == middle && forall i :: 0 < i < |wave| ==> !wave[i].Start?
  {
    wave, s := StartAndSettle(t, [], Initial(t), middle);
    ReachesFurther(t, [], Initial(t), wave, s);
    NothingAdded(wave);
  }

  lemma SecondFails(t: Topology, wave: seq<Event>, s1: Net, head: Event, k: Key) returns (es: seq<Event>, s: Net)
    requires Reaches(t, wave, s1) && AllKeep(wave) && OutAddressesOnly(t) && Quiescent(s1) && |t| == 3
    requires Surrounded(t, s1, 2) && !Holds(s1, 2, k)
    requires head.Start? && Starts(head, 0, k) && Keeps(head)
    ensures Reaches(t, es, s) && AllKeep(es) && Quiescent(s) && head in es
    ensures forall more :: IsRun(t, s, more) && (forall i :: 0 <= i < |more| ==> !Starts(more[i], 2, k)) ==>
              !Holds(After(t, s, more), 2, k)
  {
    var second, s2 := StartAndSettle(t, wave, s1, head);
    ReachesFurther(t, wave, s1, second, s2);
    es, s := wave + second, s2;
    assert es[|wave|] == head;
    forall more | IsRun(t, s, more) && (forall i :: 0 <= i < |more| ==> !Starts(more[i], 2, k))
      ensures !Holds(After(t, s, more), 2, k)
    {
      RunsJoin(t, s1, second, more);
      CutOffForGood(t, wave, s1, second + more, 2, k);
    }
  }

  lemma RowIsSurrounded(t: Topology, wave: seq<Event>, s: Net, first: string, second: string,
                        seenFirst: string, seenSecond: string, k: Key)
    requires t == Row(first, second, seenFirst, seenSecond) && OutAddressesOnly(t)
    requires Reaches(t, wave, s) && AllKeep(wave) && wave != [] && wave[0].Start? && wave[0].node == 1
    requires !Starts(wave[0], 1, k) && forall i :: 0 < i < |wave| ==> !wave[i].Start?
    ensures Surrounded(t, s, 2) && !Holds(s, 2, k)
  {
    StartsAreRecorded(t, wave, s, 1);
    if Holds(s, 2, k) {
      KnownWasStarted(t, wave, s, 2, k);
    }
  }
}
