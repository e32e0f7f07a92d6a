/** How a key reached a node: every key was started there or came along a chain that leads back to a start. */
module NetworkLessons {
  import opened Types
  import opened Sequences
  import opened Messages
  import opened Gossip
  import opened Network
  import opened NetworkSafety
  import opened NetworkTermination
  import opened NetworkFlood
  import opened NetworkConnections

  // The node at the near end was started with the key, or relays it and did not skip this out-peer.
  predicate Unskipped(t: Topology, s: Net, h: Hop, k: Key) {
    && ValidHop(t, h) && h.client < |s.nodes|
    && (k in s.nodes[h.client].started
        || (&& k in s.nodes[h.client].learned && ValidHop(t, s.nodes[h.client].learned[k].hop)
            && LinkOf(t, h).address != PeerAddress(t, s.nodes[h.client].learned[k].hop)))
  }

  // A lesson came from a node that holds the key and, if it was taught itself, was taught earlier; an
  // answer was a lesson only to a node that had introduced itself.
  ghost predicate SoundLesson(t: Topology, s: Net, u: nat, k: Key)
    requires u < |s.nodes| && k in s.nodes[u].learned
  {
    var l := s.nodes[u].learned[k];
    && ValidHop(t, l.hop) && Receiver(t, l.hop) == Some(u) && Sender(t, l.hop).Some?
    && Holds(s, Sender(t, l.hop).value, k) && l.rank <= s.news
    && (k in s.nodes[Sender(t, l.hop).value].learned ==> s.nodes[Sender(t, l.hop).value].learned[k].rank < l.rank)
    && (if l.hop.up then Unskipped(t, s, l.hop, k) else Introduced(t, s, l.hop))
  }

  // A node holds what it was taught and what it was started with.
  predicate Schooled(n: Node) {
    && n.peers.Keys == n.learned.Keys + n.started
    && (n.self.Some? ==> KeyOf(n.self.value) in n.started)
  }

  ghost predicate SoundLessons(t: Topology, s: Net) {
    forall u, k {:trigger SoundLesson(t, s, u, k)} ::
      0 <= u < |s.nodes| && k in s.nodes[u].learned ==> SoundLesson(t, s, u, k)
  }

  predicate Rightly(t: Topology, s: Net, h: Hop, m: Message) {
    h.up && m.PeerUpdate? ==> Unskipped(t, s, h, MessageKey(m))
  }

  predicate RightlyAll(t: Topology, s: Net, thread: seq<Action>) {
    forall a :: a in thread ==> a.Send? && Rightly(t, s, a.hop, a.m)
  }

  ghost predicate Taught(t: Topology, s: Net) {
    && (forall u :: 0 <= u < |s.nodes| ==> Schooled(s.nodes[u]))
    && SoundLessons(t, s)
    && (forall p :: p in s.flights ==> Rightly(t, s, p.hop, p.m))
    && (forall thread :: thread in s.threads ==> RightlyAll(t, s, thread))
  }

  // What was learned stays; what is newly learned was not held before.
  predicate LearnsNode(n: Node, n': Node) {
    && n.peers.Keys <= n'.peers.Keys && n.started <= n'.started
    && (forall k :: k in n.learned ==> k in n'.learned && n'.learned[k] == n.learned[k])
    && (forall k :: k in n'.learned && k in n.peers ==> k in n.learned)
  }

  predicate LearnsMore(s: Net, s': Net) {
    && |s'.nodes| == |s.nodes| && s.news <= s'.news
    && forall u :: 0 <= u < |s.nodes| ==> LearnsNode(s.nodes[u], s'.nodes[u])
  }

  lemma OneLearns(s: Net, s': Net, r: nat)
    requires r < |s.nodes| == |s'.nodes| && s'.nodes == s.nodes[r := s'.nodes[r]] && s.news <= s'.news
    requires LearnsNode(s.nodes[r], s'.nodes[r])
    ensures LearnsMore(s, s')
  {
    forall u | 0 <= u < |s.nodes| ensures LearnsNode(s.nodes[u], s'.nodes[u]) {
      assert u != r ==> s'.nodes[u] == s.nodes[u];
    }
  }

  lemma StillUnskipped(t: Topology, s: Net, s': Net, h: Hop, k: Key)
    requires LearnsMore(s, s') && Unskipped(t, s, h, k)
    ensures Unskipped(t, s', h, k)
  {
    assert LearnsNode(s.nodes[h.client], s'.nodes[h.client]);
  }

  lemma LearningRemembers(s: Net, s': Net)
    requires LearnsMore(s, s')
    ensures Remembers(s, s')
  {
    forall u | 0 <= u < |s.nodes|
      ensures s.nodes[u].peers.Keys <= s'.nodes[u].peers.Keys && s.nodes[u].started <= s'.nodes[u].started
    {
      assert LearnsNode(s.nodes[u], s'.nodes[u]);
    }
  }

  lemma StillSound(t: Topology, s: Net, s': Net, u: nat, k: Key)
    requires LearnsMore(s, s') && u < |s.nodes| && k in s.nodes[u].learned && SoundLesson(t, s, u, k)
    ensures SoundLesson(t, s', u, k)
  {
    var l := s.nodes[u].learned[k];
    var w := Sender(t, l.hop).value;
    assert LearnsNode(s.nodes[u], s'.nodes[u]) && LearnsNode(s.nodes[w], s'.nodes[w]);
    if l.hop.up {
      StillUnskipped(t, s, s', l.hop, k);
    } else {
      LearningRemembers(s, s');
      StillKnown(t, s, s', l.hop);
    }
  }

  lemma StillRightly(t: Topology, s: Net, s': Net, thread: seq<Action>)
    requires LearnsMore(s, s') && RightlyAll(t, s, thread)
    ensures RightlyAll(t, s', thread)
  {
    forall a | a in thread ensures a.Send? && Rightly(t, s', a.hop, a.m) {
      if a.hop.up && a.m.PeerUpdate? {
        StillUnskipped(t, s, s', a.hop, MessageKey(a.m));
      }
    }
  }

  lemma StillTaught(t: Topology, s: Net, s': Net)
    requires Taught(t, s) && LearnsMore(s, s') && s'.threads == s.threads
    requires forall p :: p in s'.flights ==> p in s.flights
    requires forall u :: 0 <= u < |s'.nodes| ==> Schooled(s'.nodes[u])
    requires SoundLessons(t, s')
    ensures Taught(t, s')
  {
    forall p | p in s'.flights ensures Rightly(t, s', p.hop, p.m) {
      if p.hop.up && p.m.PeerUpdate? {
        StillUnskipped(t, s, s', p.hop, MessageKey(p.m));
      }
    }
    forall thread | thread in s'.threads ensures RightlyAll(t, s', thread) {
      StillRightly(t, s, s', thread);
    }
  }

  // A node that changes without learning.
  lemma UntaughtNode(t: Topology, s: Net, s': Net, r: nat)
    requires Taught(t, s) && r < |s.nodes| == |s'.nodes| && s'.nodes == s.nodes[r := s'.nodes[r]]
    requires s.news <= s'.news && s'.threads == s.threads && forall p :: p in s'.flights ==> p in s.flights
    requires s.nodes[r].peers.Keys <= s'.nodes[r].peers.Keys && s.nodes[r].started <= s'.nodes[r].started
    requires s'.nodes[r].learned == s.nodes[r].learned && Schooled(s'.nodes[r])
    ensures Taught(t, s')
  {
    OneLearns(s, s', r);
    forall u, k | 0 <= u < |s'.nodes| && k in s'.nodes[u].learned ensures SoundLesson(t, s', u, k) {
      assert k in s.nodes[u].learned;
      StillSound(t, s, s', u, k);
    }
    forall u | 0 <= u < |s'.nodes| ensures Schooled(s'.nodes[u]) {
      assert Schooled(s.nodes[u]);
    }
    StillTaught(t, s, s');
  }

  lemma FewerFlightsTaught(t: Topology, s: Net, s': Net)
    requires Taught(t, s) && s'.nodes == s.nodes && s'.news == s.news && s'.threads == s.threads
    requires forall p :: p in s'.flights ==> p in s.flights
    ensures Taught(t, s')
  {
    if s.nodes == [] {
      assert LearnsMore(s, s');
      StillTaught(t, s, s');
    } else {
      assert Schooled(s.nodes[0]);
      UntaughtNode(t, s, s', 0);
    }
  }

  lemma SameNodesTaught(t: Topology, s: Net, s': Net)
    requires SoundLessons(t, s) && s'.nodes == s.nodes && s'.news == s.news
    ensures SoundLessons(t, s') && LearnsMore(s, s')
  {
    forall u, k | 0 <= u < |s'.nodes| && k in s'.nodes[u].learned ensures SoundLesson(t, s', u, k) {
      StillSound(t, s, s', u, k);
    }
  }

  lemma SpawnTaught(t: Topology, s: Net, actions: seq<Action>)
    requires Taught(t, s) && RightlyAll(t, s, actions)
    ensures Taught(t, Spawn(s, actions))
  {
    var s' := Spawn(s, actions);
    SameNodesTaught(t, s, s');
    forall thread | thread in s'.threads ensures RightlyAll(t, s', thread) {
      assert thread in s.threads || thread == actions;
      StillRightly(t, s, s', thread);
    }
    forall p | p in s'.flights ensures Rightly(t, s', p.hop, p.m) {
      assert Rightly(t, s, p.hop, p.m);
    }
  }

  // ---------- starting and refreshing ----------

  lemma OwnBroadcastRightly(t: Topology, s: Net, u: nat, m: Message)
    requires u < |t| && u < |s.nodes| && (m.PeerUpdate? ==> MessageKey(m) in s.nodes[u].started)
    ensures RightlyAll(t, s, Broadcast(t, u, m, LOCAL_NODE))
  {
    BroadcastActions(t, u, m, LOCAL_NODE);
    var sends := Broadcast(t, u, m, LOCAL_NODE);
    forall a | a in sends ensures a.Send? && Rightly(t, s, a.hop, a.m) {
      var i :| 0 <= i < |sends| && sends[i] == a;
    }
  }

  lemma StartSchooled(n: Node, n': Node, e: Event)
    requires e.Start? && n' == StartedNode(n, e) && Schooled(n)
    ensures Schooled(n') && n.peers.Keys <= n'.peers.Keys && n.started <= n'.started && n'.learned == n.learned
  {
    assert n'.peers.Keys == n.peers.Keys + {Key(e.service, e.endpoint)};
  }

  // What a start does to the nodes.
  predicate StartedAt(s: Net, c: Net, u: nat, k: Key) {
    && |c.nodes| == |s.nodes|
    && forall x :: 0 <= x < |s.nodes| ==>
         && c.nodes[x].started == s.nodes[x].started + (if x == u then {k} else {})
         && c.nodes[x].peers.Keys == s.nodes[x].peers.Keys + (if x == u then {k} else {})
         && c.nodes[x].learned == s.nodes[x].learned
  }

  lemma StartChangesOne(t: Topology, s: Net, e: Event, k: Key)
    requires ValidNet(t, s) && Enabled(s, e) && e.Start? && Starts(e, e.node, k)
    ensures StartedAt(s, StepStart(t, s, e), e.node, k)
  {
    var n := s.nodes[e.node];
    assert StepStart(t, s, e).nodes[e.node] == StartedNode(n, e);
    assert StartedNode(n, e).peers.Keys == n.peers.Keys + {k};
  }

  lemma StartTaught(t: Topology, s: Net, e: Event)
    requires ValidNet(t, s) && Enabled(s, e) && e.Start? && Taught(t, s)
    ensures Taught(t, StepStart(t, s, e))
  {
    var u, m := e.node, Announced(PeerInfo(e.service, e.endpoint, e.seen, false));
    var s1 := s.(nodes := StepStart(t, s, e).nodes);
    StartSchooled(s.nodes[u], s1.nodes[u], e);
    UntaughtNode(t, s, s1, u);
    OwnBroadcastRightly(t, s1, u, m);
    OwnBroadcastRightly(t, s1, u, Query(e.service));
    SpawnTaught(t, s1, Broadcast(t, u, m, LOCAL_NODE) + Broadcast(t, u, Query(e.service), LOCAL_NODE));
  }

  lemma RefreshTaught(t: Topology, s: Net, u: nat)
    requires ValidNet(t, s) && Enabled(s, Refresh(u)) && Taught(t, s)
    ensures Taught(t, StepRefresh(t, s, u))
  {
    var m := Announced(s.nodes[u].self.value.(isRemoved := false));
    assert Schooled(s.nodes[u]);
    OwnBroadcastRightly(t, s, u, m);
    SpawnTaught(t, s, Broadcast(t, u, m, LOCAL_NODE));
  }

  // ---------- advancing ----------

  lemma AdvanceTaught(t: Topology, s: Net, i: nat)
    requires ValidNet(t, s) && Enabled(s, Advance(i)) && CleanNet(s) && Taught(t, s)
    ensures Taught(t, StepAdvance(t, s, i))
  {
    var s', first := StepAdvance(t, s, i), s.threads[i][0];
    AdvanceMovesNoNode(t, s, i);
    SameNodesTaught(t, s, s');
    assert s.threads[i] in s.threads && first in s.threads[i] && RightlyAll(t, s, s.threads[i]);
    forall p | p in s'.flights ensures Rightly(t, s', p.hop, p.m) {
      if p !in s.flights {
        ArrivalsKeepKey(t, first.hop, first.m, p);
      }
      assert Rightly(t, s, p.hop, p.m);
      if p.hop.up && p.m.PeerUpdate? {
        StillUnskipped(t, s, s', p.hop, MessageKey(p.m));
      }
    }
    forall th | th in s'.threads ensures RightlyAll(t, s', th) {
      RestRightly(t, s, i, th);
      StillRightly(t, s, s', th);
    }
  }

  lemma RestRightly(t: Topology, s: Net, i: nat, th: seq<Action>)
    requires Taught(t, s) && i < |s.threads| && s.threads[i] != [] && th in Rest(s.threads, i)
    ensures RightlyAll(t, s, th)
  {
    forall a | a in th ensures a.Send? && Rightly(t, s, a.hop, a.m) {
      RestComesFrom(s.threads, i, th, a);
      var thread :| thread in s.threads && a in thread;
      assert RightlyAll(t, s, thread);
    }
  }

  // ---------- delivering ----------

  lemma KnownPeerTaught(t: Topology, s: Net, r: nat, m: Message, h: Hop, now: Timestamp)
    requires ValidNet(t, s) && CleanNet(s) && Taught(t, s)
    requires r < |t| && m.PeerUpdate? && OffTheWire(m) && ValidHop(t, h) && Holds(s, r, MessageKey(m))
    ensures Taught(t, OnPeerUpdate(t, s, r, m, h, now))
  {
    assert SoundNode(s.nodes[r]) && Schooled(s.nodes[r]);
    StoredNode(s.nodes[r], m, now);
    UntaughtNode(t, s, OnPeerUpdate(t, s, r, m, h, now), r);
  }

  lemma RelayRightly(t: Topology, s: Net, r: nat, m: Message, h: Hop)
    requires r < |t| && r < |s.nodes| && m.PeerUpdate? && ValidHop(t, h)
    requires MessageKey(m) in s.nodes[r].learned && s.nodes[r].learned[MessageKey(m)].hop == h
    ensures RightlyAll(t, s, Broadcast(t, r, m, PeerAddress(t, h)))
  {
    BroadcastActions(t, r, m, PeerAddress(t, h));
    var sends := Broadcast(t, r, m, PeerAddress(t, h));
    forall a | a in sends ensures a.Send? && Rightly(t, s, a.hop, a.m) {
      var i :| 0 <= i < |sends| && sends[i] == a;
    }
  }

  lemma ToldTaught(t: Topology, s: Net, p: Packet, r: nat, now: Timestamp, sent: seq<Packet>)
    requires CleanNet(s) && Taught(t, s) && Rightly(t, s, p.hop, p.m) && SenderHolds(t, s, p.hop, p.m)
    requires !p.hop.up ==> Introduced(t, s, p.hop)
    requires p.m.PeerUpdate? && OffTheWire(p.m) && r < |s.nodes| && !Holds(s, r, MessageKey(p.m))
    requires ValidHop(t, p.hop) && Receiver(t, p.hop) == Some(r)
    ensures Taught(t, Told(s, r, p.m, p.hop, now, sent))
  {
    var k, s1 := MessageKey(p.m), Told(s, r, p.m, p.hop, now, sent);
    assert SoundNode(s.nodes[r]) && Schooled(s.nodes[r]);
    ToldGrows(t, s, r, p.m, p.hop, now, sent);
    OneLearns(s, s1, r);
    forall u, y | 0 <= u < |s1.nodes| && y in s1.nodes[u].learned ensures SoundLesson(t, s1, u, y) {
      if y in s.nodes[u].learned {
        StillSound(t, s, s1, u, y);
      } else {
        FirstLessonSound(t, s, s1, p, r);
      }
    }
    forall u | 0 <= u < |s1.nodes| ensures Schooled(s1.nodes[u]) {
      assert Schooled(s.nodes[u]);
    }
    StillTaught(t, s, s1);
  }

  lemma FirstLessonSound(t: Topology, s: Net, s1: Net, p: Packet, r: nat)
    requires SoundLessons(t, s) && Rightly(t, s, p.hop, p.m) && SenderHolds(t, s, p.hop, p.m)
    requires !p.hop.up ==> Introduced(t, s, p.hop)
    requires p.m.PeerUpdate? && r < |s.nodes| && !Holds(s, r, MessageKey(p.m))
    requires ValidHop(t, p.hop) && Receiver(t, p.hop) == Some(r)
    requires LearnsMore(s, s1) && s1.nodes == s.nodes[r := s1.nodes[r]] && s1.news == s.news + 1
    requires s1.nodes[r].learned == s.nodes[r].learned[MessageKey(p.m) := Lesson(p.hop, s.news + 1)]
    ensures SoundLesson(t, s1, r, MessageKey(p.m))
  {
    var k, w := MessageKey(p.m), Sender(t, p.hop).value;
    assert w != r && s1.nodes[w] == s.nodes[w];
    assert k in s.nodes[w].learned ==> SoundLesson(t, s, w, k);
    if p.hop.up {
      StillUnskipped(t, s, s1, p.hop, k);
    } else {
      LearningRemembers(s, s1);
      StillKnown(t, s, s1, p.hop);
    }
  }

  lemma NewPeerTaught(t: Topology, s: Net, p: Packet, r: nat, now: Timestamp)
    requires ValidNet(t, s) && CleanNet(s) && Taught(t, s) && Rightly(t, s, p.hop, p.m) && SenderHolds(t, s, p.hop, p.m)
    requires !p.hop.up ==> Introduced(t, s, p.hop)
    requires p.m.PeerUpdate? && OffTheWire(p.m) && r < |t| && !Holds(s, r, MessageKey(p.m))
    requires ValidHop(t, p.hop) && Receiver(t, p.hop) == Some(r)
    ensures Taught(t, OnPeerUpdate(t, s, r, p.m, p.hop, now))
  {
    var sends := Broadcast(t, r, p.m, PeerAddress(t, p.hop));
    assert SoundNode(s.nodes[r]);
    NewsIsTold(t, s, r, p.m, p.hop, now, sends);
    ToldTaught(t, s, p, r, now, AsPackets(sends));
    var s1 := Told(s, r, p.m, p.hop, now, AsPackets(sends));
    RelayRightly(t, s1, r, p.m, p.hop);
    SpawnTaught(t, s1, sends);
  }

  lemma AnswerRightly(t: Topology, s: Net, h: Hop, replies: seq<Message>)
    requires h.up
    ensures RightlyAll(t, s, Map(ReplyOn(h), replies))
  {
    var sends := Map(ReplyOn(h), replies);
    forall a | a in sends ensures a.Send? && Rightly(t, s, a.hop, a.m) {
      var j :| 0 <= j < |sends| && sends[j] == a;
    }
  }

  // Whoever holds more than before received this packet, and learned its key from it.
  predicate LearnedFrom(t: Topology, s: Net, s': Net, p: Packet, x: nat, k: Key) {
    && p.m.PeerUpdate? && k == MessageKey(p.m) && ValidHop(t, p.hop) && Receiver(t, p.hop) == Some(x)
    && x < |s'.nodes| && k in s'.nodes[x].learned && s'.nodes[x].learned[k].hop == p.hop
  }

  ghost predicate TeachesOnly(t: Topology, s: Net, s': Net, p: Packet) {
    && LearnsMore(s, s')
    && forall x: nat, k :: Holds(s', x, k) && !Holds(s, x, k) ==> LearnedFrom(t, s, s', p, x, k)
  }

  lemma KnownTeachesNothing(t: Topology, s: Net, p: Packet, r: nat, now: Timestamp)
    requires ValidNet(t, s) && r < |t| && SoundNode(s.nodes[r]) && OffTheWire(p.m) && p.m.PeerUpdate?
    requires ValidHop(t, p.hop) && Receiver(t, p.hop) == Some(r) && Holds(s, r, MessageKey(p.m))
    ensures TeachesOnly(t, s, OnPeerUpdate(t, s, r, p.m, p.hop, now), p)
  {
    var s' := OnPeerUpdate(t, s, r, p.m, p.hop, now);
    StoredNode(s.nodes[r], p.m, now);
    OneLearns(s, s', r);
    assert forall x: nat, k :: Holds(s', x, k) ==> Holds(s, x, k);
  }

  lemma NewTeachesReceiver(t: Topology, s: Net, p: Packet, r: nat, now: Timestamp)
    requires ValidNet(t, s) && r < |t| && SoundNode(s.nodes[r]) && OffTheWire(p.m) && p.m.PeerUpdate?
    requires ValidHop(t, p.hop) && Receiver(t, p.hop) == Some(r) && !Holds(s, r, MessageKey(p.m))
    ensures TeachesOnly(t, s, OnPeerUpdate(t, s, r, p.m, p.hop, now), p)
  {
    var sends := Broadcast(t, r, p.m, PeerAddress(t, p.hop));
    var s', s1 := OnPeerUpdate(t, s, r, p.m, p.hop, now), Told(s, r, p.m, p.hop, now, AsPackets(sends));
    NewsIsTold(t, s, r, p.m, p.hop, now, sends);
    ToldGrows(t, s, r, p.m, p.hop, now, AsPackets(sends));
    assert s'.nodes == s1.nodes && s'.news == s1.news;
    OneLearns(s, s', r);
    assert forall x: nat, k :: Holds(s', x, k) && !Holds(s, x, k) ==> x == r && k == MessageKey(p.m);
  }

  lemma HandledTeaches(t: Topology, s: Net, p: Packet, now: Timestamp)
    requires Lands(t, s, p.hop) && CleanNet(s) && OffTheWire(p.m)
    ensures TeachesOnly(t, s, Handled(t, s, p, now), p)
  {
    var r := Receiver(t, p.hop).value;
    assert SoundNode(s.nodes[r]);
    if p.m.Query? {
      assert Handled(t, s, p, now).nodes == s.nodes;
    } else if Holds(s, r, MessageKey(p.m)) {
      KnownTeachesNothing(t, s, p, r, now);
    } else {
      NewTeachesReceiver(t, s, p, r, now);
    }
  }

  lemma HandledTaught(t: Topology, s: Net, p: Packet, now: Timestamp)
    requires Lands(t, s, p.hop) && CleanNet(s) && Taught(t, s)
    requires OffTheWire(p.m) && Rightly(t, s, p.hop, p.m) && SenderHolds(t, s, p.hop, p.m)
    requires p.m.Query? ==> p.hop.up
    requires !p.hop.up ==> Introduced(t, s, p.hop)
    ensures Taught(t, Handled(t, s, p, now))
  {
    var r := Receiver(t, p.hop).value;
    if p.m.Query? {
      AnswerRightly(t, s, p.hop, Replies(s.nodes[r].peers, p.m.service));
      SpawnTaught(t, s, Map(ReplyOn(p.hop), Replies(s.nodes[r].peers, p.m.service)));
    } else if Holds(s, r, MessageKey(p.m)) {
      KnownPeerTaught(t, s, r, p.m, p.hop, now);
    } else {
      NewPeerTaught(t, s, p, r, now);
    }
  }

  lemma DeliverTaught(t: Topology, s: Net, e: Event, landed: Net, p: Packet)
    requires ValidNet(t, s) && Enabled(s, e) && e.Deliver? && Taught(t, s)
    requires p == s.flights[e.flight] && landed == s.(flights := RemoveAt(s.flights, e.flight))
    requires Lands(t, landed, p.hop) && FloodingBut(t, landed, p) && (p.m.Query? ==> p.hop.up)
    requires !p.hop.up ==> Introduced(t, landed, p.hop)
    requires p in s.flights && forall q :: q in landed.flights ==> q in s.flights
    ensures Taught(t, StepDeliver(t, s, e))
  {
    if IsUnread(landed, p.hop) {
      FewerFlightsTaught(t, s, StepDeliver(t, s, e));
    } else {
      FewerFlightsTaught(t, s, landed);
      assert Rightly(t, s, p.hop, p.m) && Rightly(t, landed, p.hop, p.m);
      HandledTaught(t, landed, p, e.now);
      FewerFlightsTaught(t, Handled(t, landed, p, e.now), StepDeliver(t, s, e));
    }
  }

  lemma NextTaught(t: Topology, s: Net, e: Event)
    requires ValidNet(t, s) && Enabled(s, e) && Keeps(e) && InOrder(t, s) && Taught(t, s)
    ensures Taught(t, Next(t, s, e))
  {
    match e
    case Start(_, _, _, _, _) => StartTaught(t, s, e);
    case Refresh(u) => RefreshTaught(t, s, u);
    case Advance(i) => AdvanceTaught(t, s, i);
    case Deliver(j, _, _) =>
      LandedInOrder(t, s, j);
      DeliverTaught(t, s, e, s.(flights := RemoveAt(s.flights, j)), s.flights[j]);
  }

  lemma StartedInOrder(t: Topology, s: Net, e: Event, c: Net, k: Key)
    requires ValidNet(t, s) && Enabled(s, e) && e.Start? && Keeps(e) && Starts(e, e.node, k) && OutAddressesOnly(t)
    requires InOrder(t, s) && Taught(t, s) && c == Next(t, s, e)
    ensures InOrder(t, c) && Taught(t, c) && StartedAt(s, c, e.node, k)
  {
    NextInOrder(t, s, e);
    NextTaught(t, s, e);
    StartChangesOne(t, s, e, k);
  }

  lemma InitiallyTaught(t: Topology)
    requires ValidTopology(t)
    ensures InOrder(t, Initial(t)) && Taught(t, Initial(t))
  {
    InitiallyFlooding(t);
  }

  lemma DeliverTeaches(t: Topology, s: Net, e: Event, landed: Net, p: Packet)
    requires ValidNet(t, s) && Enabled(s, e) && e.Deliver?
    requires p == s.flights[e.flight] && landed == s.(flights := RemoveAt(s.flights, e.flight))
    requires Lands(t, landed, p.hop) && CleanNet(landed) && OffTheWire(p.m)
    ensures TeachesOnly(t, s, StepDeliver(t, s, e), p)
  {
    var s' := StepDeliver(t, s, e);
    if IsUnread(landed, p.hop) {
      assert s'.nodes == s.nodes && LearnsMore(s, s');
    } else {
      var handled := Handled(t, landed, p, e.now);
      HandledTeaches(t, landed, p, e.now);
      assert s'.nodes == handled.nodes && s'.news == handled.news;
      assert LearnsMore(s, s');
      forall x: nat, k | Holds(s', x, k) && !Holds(s, x, k) ensures LearnedFrom(t, s, s', p, x, k) {
        assert Holds(handled, x, k) && !Holds(landed, x, k);
      }
    }
  }

  // A step without a start teaches at most the receiver of a delivered packet.
  lemma NextTeaches(t: Topology, s: Net, e: Event)
    requires ValidNet(t, s) && Enabled(s, e) && Keeps(e) && !e.Start? && InOrder(t, s)
    ensures LearnsMore(s, Next(t, s, e))
    ensures forall x: nat, k :: Holds(Next(t, s, e), x, k) && !Holds(s, x, k) ==>
              e.Deliver? && LearnedFrom(t, s, Next(t, s, e), s.flights[e.flight], x, k)
  {
    match e
    case Refresh(_) =>
      assert Next(t, s, e).nodes == s.nodes && LearnsMore(s, Next(t, s, e));
    case Advance(i) =>
      AdvanceMovesNoNode(t, s, i);
      assert LearnsMore(s, Next(t, s, e));
    case Deliver(j, _, _) =>
      LandedInOrder(t, s, j);
      DeliverTeaches(t, s, e, s.(flights := RemoveAt(s.flights, j)), s.flights[j]);
  }

  lemma {:induction false} StaysTaught(t: Topology, s: Net, es: seq<Event>)
    requires IsRun(t, s, es) && AllKeep(es) && OutAddressesOnly(t) && InOrder(t, s) && Taught(t, s)
    ensures InOrder(t, After(t, s, es)) && Taught(t, After(t, s, es))
    decreases es
  {
    if es != [] {
      NextTaught(t, s, es[0]);
      NextInOrder(t, s, es[0]);
      StaysTaught(t, Next(t, s, es[0]), es[1..]);
    }
  }

  // In every state of a run that loses and forgets nothing, a node holds what it was started with and
  // what it was taught, each lesson came from a node that holds the key, was taught it earlier if at
  // all, and did not skip the pupil.
  lemma EveryKeyWasTaught(t: Topology, es: seq<Event>, s: Net)
    requires Reaches(t, es, s) && AllKeep(es) && OutAddressesOnly(t)
    ensures InOrder(t, s) && Taught(t, s)
  {
    InitiallyTaught(t);
    StaysTaught(t, Initial(t), es);
  }

  // An answer was a lesson only at a node with a client of its own.
  lemma LessonOfOwner(t: Topology, s: Net, x: nat, k: Key)
    requires SoundLessons(t, s) && x < |s.nodes| && k in s.nodes[x].learned
    ensures SoundLesson(t, s, x, k)
    ensures var h := s.nodes[x].learned[k].hop; !h.up ==> h.client == x && Own(s, h) != {}
  {
    assert SoundLesson(t, s, x, k);
    var h := s.nodes[x].learned[k].hop;
    assert !h.up ==> Introduced(t, s, h);
  }

  // Following lessons back leads to a start.
  lemma {:induction false} WasStartedSomewhere(t: Topology, s: Net, u: nat, k: Key) returns (origin: nat)
    requires Taught(t, s) && Holds(s, u, k)
    ensures origin < |s.nodes| && k in s.nodes[origin].started
    decreases if k in s.nodes[u].learned then s.nodes[u].learned[k].rank + 1 else 0
  {
    assert Schooled(s.nodes[u]);
    origin := u;
    if k !in s.nodes[u].started {
      assert SoundLesson(t, s, u, k);
      origin := WasStartedSomewhere(t, s, Sender(t, s.nodes[u].learned[k].hop).value, k);
    }
  }

  // Nobody knows a client that was not started: in such a run every key held anywhere was started
  // at some node.
  lemma KnownWasStarted(t: Topology, es: seq<Event>, s: Net, u: nat, k: Key)
    requires Reaches(t, es, s) && AllKeep(es) && OutAddressesOnly(t) && Holds(s, u, k)
    ensures exists i :: 0 <= i < |es| && es[i].Start? && Starts(es[i], es[i].node, k)
  {
    EveryKeyWasTaught(t, es, s);
    var origin := WasStartedSomewhere(t, s, u, k);
    StartedIsRecorded(t, Initial(t), es, origin, k);
    var i :| 0 <= i < |es| && Starts(es[i], origin, k);
    assert Starts(es[i], es[i].node, k);
  }
}
