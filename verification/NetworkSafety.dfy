/** What holds in every state of every run: no removals, one notice per key, few relays. */
module NetworkSafety {
  import opened Types
  import opened Sequences
  import opened Messages
  import opened Framing
  import opened StoreModel
  import opened Gossip
  import opened Network

  // ---------- nothing is ever stored as removed ----------

  predicate LiveNode(n: Node) {
    AllLive(n.peers) && WellKeyed(n.peers)
  }

  predicate OffTheWire(m: Message) {
    CleanMessage(m) && (m.PeerUpdate? ==> !m.isRemoved)
  }

  predicate LiveNet(s: Net) {
    && (forall u :: 0 <= u < |s.nodes| ==> LiveNode(s.nodes[u]))
    && (forall j :: 0 <= j < |s.flights| ==> OffTheWire(s.flights[j].m))
  }

  lemma ArrivalsOffTheWire(t: Topology, h: Hop, m: Message)
    requires ValidHop(t, h)
    ensures forall i :: 0 <= i < |Arrivals(t, h, m)| ==> OffTheWire(Arrivals(t, h, m)[i].m)
  {
    forall i | 0 <= i < |Arrivals(t, h, m)| ensures OffTheWire(Arrivals(t, h, m)[i].m) {
      assert Arrivals(t, h, m)[i].m == Wire(m)[i];
      ReceivedIsClean(Encode(m), Wire(m)[i]);
    }
  }

  lemma ApplyLive(s: Peers, u: Update)
    requires AllLive(s) && WellKeyed(s) && !u.isRemoved
    ensures AllLive(Apply(s, u)) && WellKeyed(Apply(s, u))
  {
  }

  lemma AdvanceLive(t: Topology, s: Net, a: Action)
    requires ValidNet(t, s) && ValidAction(t, a) && LiveNet(s)
    ensures LiveNet(Perform(t, s, a))
  {
    if a.Send? {
      ArrivalsOffTheWire(t, a.hop, a.m);
    }
  }

  lemma PeerUpdateLive(t: Topology, s: Net, r: nat, m: Message, h: Hop, now: Timestamp)
    requires ValidNet(t, s) && LiveNet(s) && r < |t| && m.PeerUpdate? && OffTheWire(m) && ValidHop(t, h)
    ensures LiveNet(OnPeerUpdate(t, s, r, m, h, now))
  {
    assert LiveNode(s.nodes[r]);
    ApplyLive(s.nodes[r].peers, AsUpdate(m, now));
  }

  lemma HandledLive(t: Topology, s: Net, p: Packet, now: Timestamp)
    requires Lands(t, s, p.hop) && LiveNet(s) && OffTheWire(p.m)
    ensures LiveNet(Handled(t, s, p, now))
  {
    if p.m.PeerUpdate? {
      PeerUpdateLive(t, s, Receiver(t, p.hop).value, p.m, p.hop, now);
    }
  }

  lemma DeliverLive(t: Topology, s: Net, e: Event)
    requires ValidNet(t, s) && Enabled(s, e) && e.Deliver? && LiveNet(s)
    ensures LiveNet(StepDeliver(t, s, e))
  {
    LandedValid(t, s, e.flight);
    HandledLive(t, s.(flights := RemoveAt(s.flights, e.flight)), s.flights[e.flight], e.now);
  }

  lemma StartLive(t: Topology, s: Net, e: Event)
    requires ValidNet(t, s) && Enabled(s, e) && e.Start? && LiveNet(s)
    ensures LiveNet(StepStart(t, s, e))
  {
    assert LiveNode(s.nodes[e.node]);
    ApplyLive(s.nodes[e.node].peers, Update(Key(e.service, e.endpoint), false, e.seen, e.now));
  }

  lemma NextLive(t: Topology, s: Net, e: Event)
    requires ValidNet(t, s) && Enabled(s, e) && LiveNet(s)
    ensures LiveNet(Next(t, s, e))
  {
    match e
    case Start(_, _, _, _, _) => StartLive(t, s, e);
    case Refresh(_) =>
    case Stop(_) =>
    case Advance(i) =>
      assert ValidAction(t, s.threads[i][0]);
      AdvanceLive(t, s, s.threads[i][0]);
    case Deliver(_, _, _) => DeliverLive(t, s, e);
    case Drop(_) =>
  }

  // In every run from a live state, whatever the clients are called and however messages are
  // delayed, reordered or lost, no node ever stores a removed peer.
  lemma {:induction false} NothingRemoved(t: Topology, s: Net, es: seq<Event>)
    requires IsRun(t, s, es) && LiveNet(s)
    ensures LiveNet(After(t, s, es))
    decreases es
  {
    if es != [] {
      NextLive(t, s, es[0]);
      NothingRemoved(t, Next(t, s, es[0]), es[1..]);
    }
  }

  // So a delivery never flips a value, and a query lists every entry stored for its service, although
  // stopping clients announce removals.
  lemma WireNeverRemoves(t: Topology, es: seq<Event>, s: Net)
    requires Reaches(t, es, s)
    ensures forall u, k :: 0 <= u < |s.nodes| && k in s.nodes[u].peers ==> !s.nodes[u].peers[k].isRemoved
    ensures forall j, now :: 0 <= j < |s.flights| && s.flights[j].m.PeerUpdate? ==>
              var r := Receiver(t, s.flights[j].hop).value;
              Classify(s.nodes[r].peers, AsUpdate(s.flights[j].m, now)) != UpdatedValue
    ensures forall u, k: Key :: 0 <= u < |s.nodes| && k in s.nodes[u].peers ==>
              s.nodes[u].peers[k] in Listing(s.nodes[u].peers, k.service)
  {
    NothingRemoved(t, Initial(t), es);
    forall u, k: Key | 0 <= u < |s.nodes| && k in s.nodes[u].peers
      ensures s.nodes[u].peers[k] in Listing(s.nodes[u].peers, k.service)
    {
      assert LiveNode(s.nodes[u]);
      ListingExact(s.nodes[u].peers, k.service);
      assert IsListed(s.nodes[u].peers, k.service, s.nodes[u].peers[k]);
    }
  }

  // ---------- one notice per key, and a bound on relays ----------

  function KeyOf(p: PeerInfo): Key {
    Key(p.service, p.endpoint)
  }

  function NoticedKeys(notices: seq<PeerInfo>): set<Key> {
    set i | 0 <= i < |notices| :: KeyOf(notices[i])
  }

  predicate NoticedOnce(notices: seq<PeerInfo>) {
    forall i, j :: 0 <= i < j < |notices| ==> KeyOf(notices[i]) != KeyOf(notices[j])
  }

  // A node stores exactly what it was told about and what it was started with.
  predicate Accounted(n: Node) {
    && NoticedOnce(n.notices)
    && n.peers.Keys == NoticedKeys(n.notices) + n.started
    && n.learned.Keys == NoticedKeys(n.notices)
  }

  predicate NeverClears(s: Net) {
    forall i, j :: 0 <= i < |s.threads| && 0 <= j < |s.threads[i]| ==> s.threads[i][j].Send?
  }

  predicate NoStop(es: seq<Event>) {
    forall i :: 0 <= i < |es| ==> !es[i].Stop?
  }

  // How many forwarding decisions were made for a key.
  function RelayCount(relays: seq<Packet>, k: Key): nat {
    if relays == [] then 0
    else
      var m := relays[|relays| - 1].m;
      RelayCount(relays[..|relays| - 1], k) + (if m.PeerUpdate? && Key(m.service, m.endpoint) == k then 1 else 0)
  }

  // The out-degrees of the first n nodes that were told about the key.
  function Budget(t: Topology, nodes: seq<Node>, k: Key, n: nat): nat
    requires n <= |t| && n <= |nodes|
  {
    if n == 0 then 0
    else Budget(t, nodes, k, n - 1) + (if k in NoticedKeys(nodes[n - 1].notices) then |t[n - 1]| else 0)
  }

  function TotalDegree(t: Topology): nat {
    if t == [] then 0 else TotalDegree(t[..|t| - 1]) + |t[|t| - 1]|
  }

  ghost predicate Frugal(t: Topology, s: Net) {
    && |s.nodes| == |t|
    && (forall u :: 0 <= u < |s.nodes| ==> Accounted(s.nodes[u]))
    && (forall k :: RelayCount(s.relays, k) <= Budget(t, s.nodes, k, |t|))
    && NeverClears(s)
  }

  lemma {:induction false} RelayCountAppend(a: seq<Packet>, b: seq<Packet>, k: Key)
    ensures RelayCount(a + b, k) == RelayCount(a, k) + RelayCount(b, k)
  {
    if b == [] {
      assert a + b == a;
    } else {
      assert (a + b)[..|a + b| - 1] == a + b[..|b| - 1];
      RelayCountAppend(a, b[..|b| - 1], k);
    }
  }

  lemma {:induction false} RelayCountBounded(relays: seq<Packet>, k: Key)
    ensures RelayCount(relays, k) <= |relays|
    ensures (forall i :: 0 <= i < |relays| ==>
               relays[i].m.PeerUpdate? && Key(relays[i].m.service, relays[i].m.endpoint) != k)
            ==> RelayCount(relays, k) == 0
  {
    if relays != [] {
      RelayCountBounded(relays[..|relays| - 1], k);
    }
  }

  lemma {:induction false} BudgetSame(t: Topology, a: seq<Node>, b: seq<Node>, k: Key, n: nat)
    requires n <= |t| && n <= |a| && n <= |b|
    requires forall u :: 0 <= u < n ==> (k in NoticedKeys(a[u].notices) <==> k in NoticedKeys(b[u].notices))
    ensures Budget(t, a, k, n) == Budget(t, b, k, n)
  {
    if n > 0 {
      BudgetSame(t, a, b, k, n - 1);
    }
  }

  lemma {:induction false} BudgetOneMore(t: Topology, a: seq<Node>, r: nat, node: Node, k: Key, n: nat)
    requires n <= |t| && n <= |a| && r < n
    requires k !in NoticedKeys(a[r].notices) && k in NoticedKeys(node.notices)
    ensures Budget(t, a[r := node], k, n) == Budget(t, a, k, n) + |t[r]|
  {
    if r == n - 1 {
      BudgetSame(t, a[r := node], a, k, n - 1);
    } else {
      BudgetOneMore(t, a, r, node, k, n - 1);
    }
  }

  lemma {:induction false} BudgetWithinDegrees(t: Topology, nodes: seq<Node>, k: Key, n: nat)
    requires n <= |t| && n <= |nodes|
    ensures Budget(t, nodes, k, n) <= TotalDegree(t[..n])
  {
    if n > 0 {
      BudgetWithinDegrees(t, nodes, k, n - 1);
      assert t[..n][..n - 1] == t[..n - 1];
    }
  }

  lemma NoticedOneMore(notices: seq<PeerInfo>, p: PeerInfo)
    requires NoticedOnce(notices) && KeyOf(p) !in NoticedKeys(notices)
    ensures NoticedOnce(notices + [p])
    ensures NoticedKeys(notices + [p]) == NoticedKeys(notices) + {KeyOf(p)}
  {
    var all := notices + [p];
    forall k | k in NoticedKeys(notices) + {KeyOf(p)} ensures k in NoticedKeys(all) {
      if k == KeyOf(p) {
        assert KeyOf(all[|notices|]) == k;
      } else {
        var i :| 0 <= i < |notices| && KeyOf(notices[i]) == k;
        assert KeyOf(all[i]) == k;
      }
    }
  }

  lemma RelaysOfBroadcast(t: Topology, r: nat, m: Message, previousHop: string, k: Key)
    requires r < |t| && m.PeerUpdate?
    ensures var sends := Broadcast(t, r, m, previousHop);
            && (forall i :: 0 <= i < |sends| ==> sends[i].Send?)
            && RelayCount(AsPackets(sends), k) <= if k == Key(m.service, m.endpoint) then |t[r]| else 0
  {
    BroadcastActions(t, r, m, previousHop);
    RelayCountBounded(AsPackets(Broadcast(t, r, m, previousHop)), k);
  }

  lemma NewsWithinBudget(t: Topology, s: Net, s': Net, r: nat, key: Key, sent: seq<Packet>, k: Key)
    requires |s.nodes| == |s'.nodes| == |t| && r < |t|
    requires RelayCount(s.relays, k) <= Budget(t, s.nodes, k, |t|)
    requires s'.relays == s.relays + sent && RelayCount(sent, k) <= if k == key then |t[r]| else 0
    requires s'.nodes == s.nodes[r := s'.nodes[r]]
    requires key !in NoticedKeys(s.nodes[r].notices)
    requires NoticedKeys(s'.nodes[r].notices) == NoticedKeys(s.nodes[r].notices) + {key}
    ensures RelayCount(s'.relays, k) <= Budget(t, s'.nodes, k, |t|)
  {
    RelayCountAppend(s.relays, sent, k);
    if k == key {
      BudgetOneMore(t, s.nodes, r, s'.nodes[r], k, |t|);
    } else {
      BudgetSame(t, s.nodes, s'.nodes, k, |t|);
    }
  }

  // What news does to the network.
  predicate NewsTo(s: Net, s': Net, r: nat, m: Message, sends: seq<Action>)
    requires r < |s.nodes| && m.PeerUpdate?
  {
    && |s'.nodes| == |s.nodes| && s'.nodes == s.nodes[r := s'.nodes[r]]
    && (forall i :: 0 <= i < |sends| ==> sends[i].Send?)
    && s'.relays == s.relays + AsPackets(sends) && s'.threads == Spawn(s, sends).threads
    && s'.nodes[r].notices == s.nodes[r].notices + [AsInfo(m)] && s'.nodes[r].started == s.nodes[r].started
    && s'.nodes[r].peers.Keys == s.nodes[r].peers.Keys + {Key(m.service, m.endpoint)}
    && s'.nodes[r].learned.Keys == s.nodes[r].learned.Keys + {Key(m.service, m.endpoint)}
  }

  lemma NewsHappens(t: Topology, s: Net, r: nat, m: Message, h: Hop, now: Timestamp)
    requires ValidNet(t, s) && r < |t| && ValidHop(t, h)
    requires m.PeerUpdate? && Key(m.service, m.endpoint) !in s.nodes[r].peers
    ensures NewsTo(s, OnPeerUpdate(t, s, r, m, h, now), r, m, Broadcast(t, r, m, PeerAddress(t, h)))
  {
    BroadcastActions(t, r, m, PeerAddress(t, h));
  }

  lemma NewsAccounted(t: Topology, s: Net, s': Net, r: nat, m: Message, sends: seq<Action>)
    requires Frugal(t, s) && r < |s.nodes| && m.PeerUpdate? && NewsTo(s, s', r, m, sends)
    requires Key(m.service, m.endpoint) !in s.nodes[r].peers
    ensures forall u :: 0 <= u < |s'.nodes| ==> Accounted(s'.nodes[u])
    ensures NoticedKeys(s'.nodes[r].notices) == NoticedKeys(s.nodes[r].notices) + {Key(m.service, m.endpoint)}
    ensures Key(m.service, m.endpoint) !in NoticedKeys(s.nodes[r].notices)
    ensures NeverClears(s')
  {
    assert Accounted(s.nodes[r]);
    NoticedOneMore(s.nodes[r].notices, AsInfo(m));
  }

  // News reaches a node that was not told before; it relays at most once per out-peer.
  lemma NewsFrugal(t: Topology, s: Net, r: nat, m: Message, h: Hop, now: Timestamp)
    requires ValidNet(t, s) && Frugal(t, s) && r < |t| && ValidHop(t, h)
    requires m.PeerUpdate? && Key(m.service, m.endpoint) !in s.nodes[r].peers
    ensures Frugal(t, OnPeerUpdate(t, s, r, m, h, now))
  {
    NewsHappens(t, s, r, m, h, now);
    ToldFrugal(t, s, OnPeerUpdate(t, s, r, m, h, now), r, m, PeerAddress(t, h));
  }

  lemma ToldFrugal(t: Topology, s: Net, s': Net, r: nat, m: Message, previousHop: string)
    requires Frugal(t, s) && r < |t| && m.PeerUpdate? && Key(m.service, m.endpoint) !in s.nodes[r].peers
    requires NewsTo(s, s', r, m, Broadcast(t, r, m, previousHop))
    ensures Frugal(t, s')
  {
    var key, sends := Key(m.service, m.endpoint), Broadcast(t, r, m, previousHop);
    NewsAccounted(t, s, s', r, m, sends);
    forall k ensures RelayCount(s'.relays, k) <= Budget(t, s'.nodes, k, |t|) {
      RelaysOfBroadcast(t, r, m, previousHop, k);
      NewsWithinBudget(t, s, s', r, key, AsPackets(sends), k);
    }
  }

  lemma SameNoticesFrugal(t: Topology, s: Net, s': Net)
    requires Frugal(t, s) && |s'.nodes| == |s.nodes| && s'.relays == s.relays
    requires NeverClears(s')
    requires forall u :: 0 <= u < |s.nodes| ==> s'.nodes[u].notices == s.nodes[u].notices && Accounted(s'.nodes[u])
    ensures Frugal(t, s')
  {
    forall k ensures RelayCount(s'.relays, k) <= Budget(t, s'.nodes, k, |t|) {
      BudgetSame(t, s.nodes, s'.nodes, k, |t|);
    }
  }

  lemma OldNewsFrugal(t: Topology, s: Net, r: nat, m: Message, h: Hop, now: Timestamp)
    requires ValidNet(t, s) && LiveNet(s) && Frugal(t, s) && r < |t| && ValidHop(t, h)
    requires m.PeerUpdate? && OffTheWire(m) && Key(m.service, m.endpoint) in s.nodes[r].peers
    ensures Frugal(t, OnPeerUpdate(t, s, r, m, h, now))
  {
    assert LiveNode(s.nodes[r]) && Accounted(s.nodes[r]);
    SameNoticesFrugal(t, s, OnPeerUpdate(t, s, r, m, h, now));
  }

  lemma AnswerFrugal(t: Topology, s: Net, r: nat, h: Hop, service: string)
    requires ValidNet(t, s) && Frugal(t, s) && r < |t|
    ensures Frugal(t, OnQuery(s, r, h, service))
  {
    SameNoticesFrugal(t, s, OnQuery(s, r, h, service));
  }

  lemma HandledFrugal(t: Topology, s: Net, p: Packet, now: Timestamp)
    requires Lands(t, s, p.hop) && LiveNet(s) && Frugal(t, s) && OffTheWire(p.m)
    ensures Frugal(t, Handled(t, s, p, now))
  {
    var r := Receiver(t, p.hop).value;
    if p.m.Query? {
      AnswerFrugal(t, s, r, p.hop, p.m.service);
    } else if Key(p.m.service, p.m.endpoint) in s.nodes[r].peers {
      OldNewsFrugal(t, s, r, p.m, p.hop, now);
    } else {
      NewsFrugal(t, s, r, p.m, p.hop, now);
    }
  }

  lemma DeliverFrugal(t: Topology, s: Net, e: Event)
    requires ValidNet(t, s) && Enabled(s, e) && e.Deliver?
    requires LiveNet(s) && Frugal(t, s)
    ensures Frugal(t, StepDeliver(t, s, e))
  {
    var landed := s.(flights := RemoveAt(s.flights, e.flight));
    LandedValid(t, s, e.flight);
    assert Frugal(t, landed) && LiveNet(landed);
    HandledFrugal(t, landed, s.flights[e.flight], e.now);
    LandFrugal(t, landed, s.flights[e.flight], e.now, e.ends);
  }

  lemma LandFrugal(t: Topology, s: Net, p: Packet, now: Timestamp, ends: bool)
    requires Lands(t, s, p.hop) && Frugal(t, s) && Frugal(t, Handled(t, s, p, now))
    ensures Frugal(t, Land(t, s, p, now, ends))
  {
  }

  lemma StartFrugal(t: Topology, s: Net, e: Event)
    requires ValidNet(t, s) && Enabled(s, e) && e.Start? && LiveNet(s) && Frugal(t, s)
    ensures Frugal(t, StepStart(t, s, e))
  {
    StartNeverClears(t, s, e);
    assert Accounted(s.nodes[e.node]);
    SameNoticesFrugal(t, s, StepStart(t, s, e));
  }

  lemma StartNeverClears(t: Topology, s: Net, e: Event)
    requires ValidNet(t, s) && Enabled(s, e) && e.Start? && NeverClears(s)
    ensures NeverClears(StepStart(t, s, e))
  {
    BroadcastActions(t, e.node, Announced(PeerInfo(e.service, e.endpoint, e.seen, false)), LOCAL_NODE);
    BroadcastActions(t, e.node, Query(e.service), LOCAL_NODE);
  }

  lemma NextFrugal(t: Topology, s: Net, e: Event)
    requires ValidNet(t, s) && Enabled(s, e) && !e.Stop?
    requires LiveNet(s) && Frugal(t, s)
    ensures Frugal(t, Next(t, s, e))
  {
    match e
    case Start(_, _, _, _, _) => StartFrugal(t, s, e);
    case Refresh(u) =>
      BroadcastActions(t, u, Announced(s.nodes[u].self.value.(isRemoved := false)), LOCAL_NODE);
      SameNoticesFrugal(t, s, Next(t, s, e));
    case Advance(i) =>
      assert s.threads[i][0].Send?;
      SameNoticesFrugal(t, s, Next(t, s, e));
    case Deliver(_, _, _) => DeliverFrugal(t, s, e);
    case Drop(j) =>
  }

  lemma {:induction false} StaysFrugal(t: Topology, s: Net, es: seq<Event>)
    requires IsRun(t, s, es) && NoStop(es)
    requires LiveNet(s) && Frugal(t, s)
    ensures Frugal(t, After(t, s, es))
    decreases es
  {
    if es != [] {
      NextFrugal(t, s, es[0]);
      NextLive(t, s, es[0]);
      StaysFrugal(t, Next(t, s, es[0]), es[1..]);
    }
  }

  // In every run without stops each client is told about a key once, a node stores what it was told
  // and what it was started with, and the whole network relays a key at most once per connection,
  // however often it is announced again.
  lemma NotifyOnceAndRelayBound(t: Topology, es: seq<Event>, s: Net)
    requires Reaches(t, es, s)
    requires NoStop(es)
    ensures forall u :: 0 <= u < |s.nodes| ==> NoticedOnce(s.nodes[u].notices)
    ensures forall u :: 0 <= u < |s.nodes| ==>
              s.nodes[u].peers.Keys == NoticedKeys(s.nodes[u].notices) + s.nodes[u].started
    ensures forall k :: RelayCount(s.relays, k) <= TotalDegree(t)
  {
    StaysFrugal(t, Initial(t), es);
    forall k ensures RelayCount(s.relays, k) <= TotalDegree(t) {
      BudgetWithinDegrees(t, s.nodes, k, |t|);
      assert t[..|t|] == t;
    }
  }
}
