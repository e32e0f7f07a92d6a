/** The whole network: many nodes, the messages between them, and the steps they take. */
module Network {
  import opened Types
  import opened Sequences
  import opened Messages
  import opened Framing
  import opened StoreModel
  import opened Gossip

  // An outgoing connection: the address it was made to, the node that accepted it if any did, and
  // the address that node sees it come from.
  datatype Link = Link(address: string, dest: Option<nat>, seenAs: string)

  // The out-peers of every node.
  type Topology = seq<seq<Link>>

  predicate ValidTopology(t: Topology) {
    forall u, i :: 0 <= u < |t| && 0 <= i < |t[u]| && t[u][i].dest.Some? ==> t[u][i].dest.value < |t|
  }

  ghost predicate OutAddressesOnly(t: Topology) {
    forall u, i :: 0 <= u < |t| && 0 <= i < |t[u]| ==> IsOutAddress(t[u][i].address)
  }

  function AddressesOf(links: seq<Link>): (r: seq<string>)
    ensures |r| == |links| && forall i :: 0 <= i < |links| ==> r[i] == links[i].address
  {
    seq(|links|, i requires 0 <= i < |links| => links[i].address)
  }

  // One direction of a connection: from the node that made it (up) or back to that node.
  datatype Hop = Hop(client: nat, index: nat, up: bool)

  predicate ValidHop(t: Topology, h: Hop) {
    && h.client < |t| && h.index < |t[h.client]|
    && (h.up || t[h.client][h.index].dest.Some?)
  }

  function LinkOf(t: Topology, h: Hop): Link
    requires ValidHop(t, h)
  {
    t[h.client][h.index]
  }

  function Sender(t: Topology, h: Hop): Option<nat>
    requires ValidHop(t, h)
  {
    if h.up then Some(h.client) else LinkOf(t, h).dest
  }

  function Receiver(t: Topology, h: Hop): Option<nat>
    requires ValidHop(t, h)
  {
    if h.up then LinkOf(t, h).dest else Some(h.client)
  }

  // What the receiver calls the peer a message comes from.
  function PeerAddress(t: Topology, h: Hop): string
    requires ValidHop(t, h)
  {
    if h.up then LinkOf(t, h).seenAs else LinkOf(t, h).address
  }

  function Back(h: Hop): Hop {
    h.(up := !h.up)
  }

  // The connection of a hop, named by its upward direction.
  function Line(h: Hop): Hop {
    h.(up := true)
  }

  // A message in flight, as the receiving side will parse it.
  datatype Packet = Packet(hop: Hop, m: Message)

  // Two nodes, the first connected to the second.
  function Pair(address: string, seen: string): Topology {
    [[Link(address, Some(1), seen)], []]
  }

  // What a running broadcast, reply loop or stop has still to do.
  datatype Action = Send(hop: Hop, m: Message) | ClearStore(node: nat)

  datatype Node = Node(
    peers: Peers,                // the store
    notices: seq<PeerInfo>,      // what the client was told
    self: Option<PeerInfo>,      // the client, once it was started
    started: set<Key>,           // every client this node was ever started with
    learned: map<Key, Lesson>)   // where every key that came as news came from

  // The hop a key came on, and how many news there had been in the network before, counted from one.
  datatype Lesson = Lesson(hop: Hop, rank: nat)

  datatype Net = Net(
    nodes: seq<Node>,
    threads: seq<seq<Action>>,   // each in program order
    flights: seq<Packet>,        // in order on each hop, in any order otherwise
    closed: set<Hop>,            // the connections their client has closed
    relays: seq<Packet>,         // every forwarding decision so far
    refused: seq<Packet>,        // every send so far that found its connection closed
    unread: seq<Packet>,         // every message so far that came on a connection its client had closed
    news: nat)                   // how often a message was news so far

  predicate ValidAction(t: Topology, a: Action) {
    match a
    case Send(h, _) => ValidHop(t, h)
    case ClearStore(u) => u < |t|
  }

  predicate ValidNet(t: Topology, s: Net) {
    && ValidTopology(t)
    && |s.nodes| == |t|
    && (forall i, j :: 0 <= i < |s.threads| && 0 <= j < |s.threads[i]| ==> ValidAction(t, s.threads[i][j]))
    && (forall i :: 0 <= i < |s.threads| ==> s.threads[i] != [])
    && (forall i :: 0 <= i < |s.flights| ==>
          ValidHop(t, s.flights[i].hop) && Receiver(t, s.flights[i].hop).Some?)
  }

  const FRESH_NODE := Node(map[], [], None, {}, map[])

  function Initial(t: Topology): Net {
    Net(seq(|t|, i => FRESH_NODE), [], [], {}, [], [], [], 0)
  }

  // ---------- steps ----------

  datatype Event =
    | Start(node: nat, service: string, endpoint: string, seen: Timestamp, now: Timestamp)
    | Refresh(node: nat)
    | Stop(node: nat)
    | Advance(thread: nat)                // the next action of a running loop
    | Deliver(flight: nat, now: Timestamp, ends: bool)   // ends: no further message in the same read
    | Drop(flight: nat)

  // Nothing sent earlier on the same hop is still in flight.
  predicate IsOldest(s: Net, j: nat)
    requires j < |s.flights|
  {
    forall i :: 0 <= i < j ==> s.flights[i].hop != s.flights[j].hop
  }

  predicate MoreFollows(s: Net, j: nat)
    requires j < |s.flights|
  {
    exists i :: j < i < |s.flights| && s.flights[i].hop == s.flights[j].hop
  }

  predicate Enabled(s: Net, e: Event) {
    match e
    case Start(u, _, _, _, _) => u < |s.nodes|
    case Refresh(u) => u < |s.nodes| && s.nodes[u].self.Some?
    case Stop(u) => u < |s.nodes| && s.nodes[u].self.Some?
    case Advance(i) => i < |s.threads|
    case Deliver(j, _, ends) => j < |s.flights| && IsOldest(s, j) && (ends || MoreFollows(s, j))
    case Drop(j) => j < |s.flights|
  }

  // The steps the network takes by itself.
  predicate IsInternal(e: Event) {
    e.Advance? || e.Deliver? || e.Drop?
  }

  function SendTo(u: nat, m: Message): nat -> Action {
    (i: nat) => Send(Hop(u, i, true), m)
  }

  // A broadcast: one send per out-peer whose address is not the previous hop's.
  function Broadcast(t: Topology, u: nat, m: Message, previousHop: string): seq<Action>
    requires u < |t|
  {
    Map(SendTo(u, m), Targets(AddressesOf(t[u]), previousHop))
  }

  function ReplyOn(h: Hop): Message -> Action {
    (m: Message) => Send(Back(h), m)
  }

  function OnHop(h: Hop): Message -> Packet {
    (m: Message) => Packet(h, m)
  }

  function HopOf(a: Action): Packet
    requires a.Send?
  {
    Packet(a.hop, a.m)
  }

  function AsPackets(actions: seq<Action>): seq<Packet>
    requires forall i :: 0 <= i < |actions| ==> actions[i].Send?
  {
    seq(|actions|, i requires 0 <= i < |actions| => HopOf(actions[i]))
  }

  function Spawn(s: Net, actions: seq<Action>): Net {
    if actions == [] then s else s.(threads := s.threads + [actions])
  }

  function StepStart(t: Topology, s: Net, e: Event): Net
    requires ValidNet(t, s) && Enabled(s, e) && e.Start?
  {
    var u, k := e.node, Key(e.service, e.endpoint);
    var me := PeerInfo(e.service, e.endpoint, e.seen, false);
    var node := s.nodes[u].(peers := Apply(s.nodes[u].peers, Update(k, false, e.seen, e.now)),
                            self := Some(me), started := s.nodes[u].started + {k});
    Spawn(s.(nodes := s.nodes[u := node]),
          Broadcast(t, u, Announced(me), LOCAL_NODE) + Broadcast(t, u, Query(e.service), LOCAL_NODE))
  }

  function StepRefresh(t: Topology, s: Net, u: nat): Net
    requires ValidNet(t, s) && Enabled(s, Refresh(u))
  {
    Spawn(s, Broadcast(t, u, Announced(s.nodes[u].self.value.(isRemoved := false)), LOCAL_NODE))
  }

  function StepStop(t: Topology, s: Net, u: nat): Net
    requires ValidNet(t, s) && Enabled(s, Stop(u))
  {
    Spawn(s, Broadcast(t, u, Announced(s.nodes[u].self.value.(isRemoved := true)), LOCAL_NODE) + [ClearStore(u)])
  }

  function Arrivals(t: Topology, h: Hop, m: Message): seq<Packet>
    requires ValidHop(t, h)
  {
    if Receiver(t, h).None? then [] else Map(OnHop(h), Wire(m))
  }

  function Perform(t: Topology, s: Net, a: Action): Net
    requires ValidNet(t, s) && ValidAction(t, a)
  {
    match a
    case Send(h, m) =>
      if Line(h) in s.closed then s.(refused := s.refused + [Packet(h, m)])
      else s.(flights := s.flights + Arrivals(t, h, m))
    case ClearStore(u) => s.(nodes := s.nodes[u := s.nodes[u].(peers := map[])])
  }

  // The threads after thread i did its first action; a thread with nothing left to do ends.
  function Rest(threads: seq<seq<Action>>, i: nat): seq<seq<Action>>
    requires i < |threads| && threads[i] != []
  {
    if |threads[i]| == 1 then RemoveAt(threads, i) else threads[i := threads[i][1..]]
  }

  function StepAdvance(t: Topology, s: Net, i: nat): Net
    requires ValidNet(t, s) && Enabled(s, Advance(i))
  {
    Perform(t, s, s.threads[i][0]).(threads := Rest(s.threads, i))
  }

  // A peer update is stored; news is notified and relayed, with the previous hop skipped.
  function OnPeerUpdate(t: Topology, s: Net, r: nat, m: Message, h: Hop, now: Timestamp): Net
    requires ValidNet(t, s) && r < |t| && m.PeerUpdate? && ValidHop(t, h)
  {
    var u := AsUpdate(m, now);
    var node := s.nodes[r].(peers := Apply(s.nodes[r].peers, u));
    if !IsNews(Classify(s.nodes[r].peers, u)) then s.(nodes := s.nodes[r := node])
    else
      var lesson := Lesson(h, s.news + 1);
      var told := node.(notices := node.notices + [AsInfo(m)],
                        learned := if u.key in node.learned then node.learned else node.learned[u.key := lesson]);
      var sends := Broadcast(t, r, m, PeerAddress(t, h));
      Spawn(s.(nodes := s.nodes[r := told], relays := s.relays + AsPackets(sends), news := s.news + 1), sends)
  }

  // A query is answered from the store, to the peer it came from only.
  ghost function OnQuery(s: Net, r: nat, h: Hop, service: string): Net
    requires r < |s.nodes|
  {
    Spawn(s, Map(ReplyOn(h), Replies(s.nodes[r].peers, service)))
  }

  predicate Lands(t: Topology, s: Net, h: Hop) {
    && ValidNet(t, s)
    && ValidHop(t, h) && Receiver(t, h).Some? && Receiver(t, h).value < |t|
  }

  // The receiver of a message handles it.
  ghost function Handled(t: Topology, s: Net, p: Packet, now: Timestamp): Net
    requires Lands(t, s, p.hop)
  {
    var r := Receiver(t, p.hop).value;
    if p.m.PeerUpdate? then OnPeerUpdate(t, s, r, p.m, p.hop, now)
    else OnQuery(s, r, p.hop, p.m.service)
  }

  // The client of a connection closes it at the end of a read that ends the conversation.
  function AfterRead(s: Net, h: Hop, concluded: bool): Net {
    if !h.up && concluded then s.(closed := s.closed + {Line(h)}) else s
  }

  // A client that has closed a connection does not read from it any more.
  predicate IsUnread(s: Net, h: Hop) {
    !h.up && Line(h) in s.closed
  }

  // A message arrives.
  ghost function Land(t: Topology, s: Net, p: Packet, now: Timestamp, ends: bool): Net
    requires Lands(t, s, p.hop)
  {
    if IsUnread(s, p.hop) then s.(unread := s.unread + [p])
    else
      var concluded := ends && Concludes(s.nodes[Receiver(t, p.hop).value].peers, p.m);
      AfterRead(Handled(t, s, p, now), p.hop, concluded)
  }

  ghost function StepDeliver(t: Topology, s: Net, e: Event): Net
    requires ValidNet(t, s) && Enabled(s, e) && e.Deliver?
  {
    LandedValid(t, s, e.flight);
    Land(t, s.(flights := RemoveAt(s.flights, e.flight)), s.flights[e.flight], e.now, e.ends)
  }

  lemma LandedValid(t: Topology, s: Net, j: nat)
    requires ValidNet(t, s) && j < |s.flights|
    ensures Lands(t, s.(flights := RemoveAt(s.flights, j)), s.flights[j].hop)
  {
  }

  ghost function Next(t: Topology, s: Net, e: Event): Net
    requires ValidNet(t, s) && Enabled(s, e)
  {
    match e
    case Start(_, _, _, _, _) => StepStart(t, s, e)
    case Refresh(u) => StepRefresh(t, s, u)
    case Stop(u) => StepStop(t, s, u)
    case Advance(i) => StepAdvance(t, s, i)
    case Deliver(_, _, _) => StepDeliver(t, s, e)
    case Drop(j) => s.(flights := RemoveAt(s.flights, j))
  }

  // ---------- steps keep the network well formed ----------

  lemma SpawnValid(t: Topology, s: Net, actions: seq<Action>)
    requires ValidNet(t, s)
    requires forall i :: 0 <= i < |actions| ==> ValidAction(t, actions[i])
    ensures ValidNet(t, Spawn(s, actions))
  {
  }

  lemma BroadcastActions(t: Topology, u: nat, m: Message, previousHop: string)
    requires u < |t|
    ensures var sends := Broadcast(t, u, m, previousHop);
            && |sends| <= |t[u]|
            && (forall i :: 0 <= i < |sends| ==>
                  sends[i].Send? && sends[i].m == m && sends[i].hop.up && sends[i].hop.client == u
                  && sends[i].hop.index < |t[u]| && t[u][sends[i].hop.index].address != previousHop)
            && (forall i :: 0 <= i < |t[u]| && t[u][i].address != previousHop ==> Send(Hop(u, i, true), m) in sends)
  {
    var targets := Targets(AddressesOf(t[u]), previousHop);
    TargetsExact(AddressesOf(t[u]), previousHop);
    TargetsShort(AddressesOf(t[u]), previousHop);
    SendsToTargets(u, m, targets, Broadcast(t, u, m, previousHop));
    forall i | 0 <= i < |targets| ensures targets[i] < |t[u]| && t[u][targets[i]].address != previousHop {
      assert targets[i] in targets;
    }
  }

  lemma SendsToTargets(u: nat, m: Message, targets: seq<nat>, sends: seq<Action>)
    requires sends == Map(SendTo(u, m), targets)
    ensures |sends| == |targets| && forall i :: 0 <= i < |sends| ==> sends[i] == Send(Hop(u, targets[i], true), m)
    ensures forall i :: i in targets ==> Send(Hop(u, i, true), m) in sends
  {
    forall i | i in targets ensures Send(Hop(u, i, true), m) in sends {
      var j :| 0 <= j < |targets| && targets[j] == i;
      assert sends[j] == Send(Hop(u, i, true), m);
    }
  }

  lemma {:induction false} TargetsShort(addresses: seq<string>, previousHop: string)
    ensures |Targets(addresses, previousHop)| <= |addresses|
  {
    if addresses != [] {
      TargetsShort(addresses[..|addresses| - 1], previousHop);
    }
  }

  lemma BroadcastValid(t: Topology, u: nat, m: Message, previousHop: string)
    requires u < |t|
    ensures forall i :: 0 <= i < |Broadcast(t, u, m, previousHop)| ==> ValidAction(t, Broadcast(t, u, m, previousHop)[i])
  {
    BroadcastActions(t, u, m, previousHop);
  }

  lemma HandledValid(t: Topology, s: Net, p: Packet, now: Timestamp)
    requires Lands(t, s, p.hop)
    ensures ValidNet(t, Handled(t, s, p, now))
  {
    var r := Receiver(t, p.hop).value;
    if p.m.PeerUpdate? {
      BroadcastValid(t, r, p.m, PeerAddress(t, p.hop));
    } else {
      SpawnValid(t, s, Map(ReplyOn(p.hop), Replies(s.nodes[r].peers, p.m.service)));
    }
  }

  lemma DeliverValid(t: Topology, s: Net, e: Event)
    requires ValidNet(t, s) && Enabled(s, e) && e.Deliver?
    ensures ValidNet(t, StepDeliver(t, s, e))
  {
    LandedValid(t, s, e.flight);
    HandledValid(t, s.(flights := RemoveAt(s.flights, e.flight)), s.flights[e.flight], e.now);
  }

  lemma AdvanceValid(t: Topology, s: Net, i: nat)
    requires ValidNet(t, s) && Enabled(s, Advance(i))
    ensures ValidNet(t, StepAdvance(t, s, i))
  {
    var thread := s.threads[i];
    assert ValidAction(t, thread[0]);
    assert forall j :: 0 <= j < |thread| - 1 ==> thread[1..][j] == thread[j + 1];
  }

  lemma NextValid(t: Topology, s: Net, e: Event)
    requires ValidNet(t, s) && Enabled(s, e)
    ensures ValidNet(t, Next(t, s, e))
  {
    match e
    case Start(u, service, endpoint, seen, now) =>
      BroadcastValid(t, u, Announced(PeerInfo(service, endpoint, seen, false)), LOCAL_NODE);
      BroadcastValid(t, u, Query(service), LOCAL_NODE);
    case Refresh(u) =>
      BroadcastValid(t, u, Announced(s.nodes[u].self.value.(isRemoved := false)), LOCAL_NODE);
    case Stop(u) =>
      BroadcastValid(t, u, Announced(s.nodes[u].self.value.(isRemoved := true)), LOCAL_NODE);
    case Advance(i) => AdvanceValid(t, s, i);
    case Deliver(_, _, _) => DeliverValid(t, s, e);
    case Drop(j) =>
  }

  // ---------- the step of the network is the step of a node ----------

  // What a thread sends when a node handles this much.
  ghost function Outgoing(t: Topology, r: nat, h: Hop, q: Progress): seq<Action>
    requires r < |t| && ValidHop(t, h)
  {
    if q.relays != [] then Broadcast(t, r, q.relays[0], PeerAddress(t, h)) else Map(ReplyOn(h), q.replies)
  }

  // The network around node r is the same but for its store, its notices and one thread.
  ghost predicate OnlyAt(t: Topology, s: Net, s': Net, r: nat, h: Hop, q: Progress)
    requires r < |t| && r < |s.nodes| && ValidHop(t, h)
  {
    && |s'.nodes| == |s.nodes| && s'.nodes == s.nodes[r := s'.nodes[r]]
    && s'.nodes[r].peers == q.peers && s'.nodes[r].notices == q.notices
    && s'.threads == Spawn(s, Outgoing(t, r, h, q)).threads
    && s'.flights == s.flights && s'.refused == s.refused && s'.unread == s.unread
  }

  lemma UpdateHandledAsByNode(t: Topology, s: Net, r: nat, m: Message, h: Hop, clock: Clock, q: Progress)
    requires ValidNet(t, s) && ValidHop(t, h) && r < |t| && m.PeerUpdate?
    requires q == Handle(Progress(s.nodes[r].peers, 0, s.nodes[r].notices, [], []), m, clock)
    ensures OnlyAt(t, s, OnPeerUpdate(t, s, r, m, h, clock(0)), r, h, q)
  {
  }

  lemma QueryProgress(p: Progress, service: string, clock: Clock)
    requires p.replies == []
    ensures Handle(p, Query(service), clock) == p.(replies := Replies(p.peers, service))
  {
    NothingAdded(Replies(p.peers, service));
  }

  lemma QueryHandledAsByNode(t: Topology, s: Net, r: nat, h: Hop, service: string, clock: Clock, q: Progress)
    requires ValidNet(t, s) && ValidHop(t, h) && r < |t|
    requires q == Handle(Progress(s.nodes[r].peers, 0, s.nodes[r].notices, [], []), Query(service), clock)
    ensures OnlyAt(t, s, OnQuery(s, r, h, service), r, h, q)
  {
    QueryProgress(Progress(s.nodes[r].peers, 0, s.nodes[r].notices, [], []), service, clock);
    AnsweredOnlyAt(t, s, r, h, service, q);
  }

  lemma AnsweredOnlyAt(t: Topology, s: Net, r: nat, h: Hop, service: string, q: Progress)
    requires r < |t| && r < |s.nodes| && ValidHop(t, h)
    requires q == Progress(s.nodes[r].peers, 0, s.nodes[r].notices, [], Replies(s.nodes[r].peers, service))
    ensures OnlyAt(t, s, OnQuery(s, r, h, service), r, h, q)
  {
    UpdatedWithSame(s.nodes, r);
  }

  lemma OneMessageEnds(p: Progress, m: Message, clock: Clock)
    ensures EndsConversation(p, [m], clock) <==> Concludes(p.peers, m)
  {
    assert [m][..0] == [];
  }

  lemma HandledAsByNode(t: Topology, s: Net, p: Packet, clock: Clock, q: Progress)
    requires Lands(t, s, p.hop)
    requires var n := s.nodes[Receiver(t, p.hop).value]; q == Handle(Progress(n.peers, 0, n.notices, [], []), p.m, clock)
    ensures OnlyAt(t, s, Handled(t, s, p, clock(0)), Receiver(t, p.hop).value, p.hop, q)
    ensures Handled(t, s, p, clock(0)).closed == s.closed
  {
    if p.m.PeerUpdate? {
      UpdateHandledAsByNode(t, s, Receiver(t, p.hop).value, p.m, p.hop, clock, q);
    } else {
      QueryHandledAsByNode(t, s, Receiver(t, p.hop).value, p.hop, p.m.service, clock, q);
    }
  }

  lemma LandIsHandledThenClosed(t: Topology, s: Net, p: Packet, now: Timestamp, ends: bool, handled: Net, concluded: bool)
    requires Lands(t, s, p.hop) && !IsUnread(s, p.hop)
    requires handled == Handled(t, s, p, now) && handled.closed == s.closed
    requires concluded <==> Concludes(s.nodes[Receiver(t, p.hop).value].peers, p.m)
    ensures Land(t, s, p, now, ends) ==
            handled.(closed := s.closed + if !p.hop.up && ends && concluded then {Line(p.hop)} else {})
  {
    assert s.closed + {} == s.closed;
  }

  // A landing message does to its receiver, and sets going, what the node's own handling of it does;
  // and its connection is closed afterwards exactly when the node's own end of the read closes it.
  lemma LandingIsHandling(t: Topology, s: Net, p: Packet, clock: Clock, ends: bool, before: Progress, q: Progress)
    requires Lands(t, s, p.hop) && !IsUnread(s, p.hop)
    requires var n := s.nodes[Receiver(t, p.hop).value]; before == Progress(n.peers, 0, n.notices, [], [])
    requires q == Handle(before, p.m, clock)
    ensures OnlyAt(t, s, Land(t, s, p, clock(0), ends), Receiver(t, p.hop).value, p.hop, q)
    ensures Land(t, s, p, clock(0), ends).closed ==
            s.closed + if !p.hop.up && ends && EndsConversation(before, [p.m], clock) then {Line(p.hop)} else {}
  {
    OneMessageEnds(before, p.m, clock);
    HandledAsByNode(t, s, p, clock, q);
    LandIsHandledThenClosed(t, s, p, clock(0), ends, Handled(t, s, p, clock(0)), EndsConversation(before, [p.m], clock));
  }

  // ---------- runs ----------

  // These events can happen one after the other.
  ghost predicate IsRun(t: Topology, s: Net, es: seq<Event>)
    decreases es
  {
    ValidNet(t, s) && (es == [] || (Enabled(s, es[0]) && IsRun(t, Next(t, s, es[0]), es[1..])))
  }

  ghost function After(t: Topology, s: Net, es: seq<Event>): (r: Net)
    requires IsRun(t, s, es)
    ensures ValidNet(t, r)
    decreases es
  {
    if es == [] then s else After(t, Next(t, s, es[0]), es[1..])
  }

  // The network is in state s after these events, having started empty.
  ghost predicate Reaches(t: Topology, es: seq<Event>, s: Net) {
    ValidTopology(t) && IsRun(t, Initial(t), es) && s == After(t, Initial(t), es)
  }

  lemma RunOneMore(t: Topology, s: Net, e: Event, rest: seq<Event>)
    requires ValidNet(t, s) && Enabled(s, e) && IsRun(t, Next(t, s, e), rest)
    ensures IsRun(t, s, [e] + rest)
    ensures After(t, s, [e] + rest) == After(t, Next(t, s, e), rest)
  {
    assert ([e] + rest)[1..] == rest;
  }

  // The state after the first event of a run.
  lemma FirstEvent(t: Topology, s: Net, es: seq<Event>) returns (s1: Net)
    requires es != [] && IsRun(t, s, es)
    ensures Happens(t, s, es[0], s1) && IsRun(t, s1, es[1..]) && After(t, s, es) == After(t, s1, es[1..])
  {
    s1 := Next(t, s, es[0]);
  }

  ghost predicate Happens(t: Topology, s: Net, e: Event, s1: Net) {
    ValidNet(t, s) && Enabled(s, e) && s1 == Next(t, s, e)
  }

  lemma EventFirst(t: Topology, s: Net, e: Event, s1: Net, rest: seq<Event>, es: seq<Event>)
    requires Happens(t, s, e, s1) && IsRun(t, s1, rest) && es == [e] + rest
    ensures IsRun(t, s, es) && After(t, s, es) == After(t, s1, rest)
  {
    RunOneMore(t, s, e, rest);
  }

  lemma {:induction false} RunsJoin(t: Topology, s: Net, first: seq<Event>, second: seq<Event>)
    requires IsRun(t, s, first) && IsRun(t, After(t, s, first), second)
    ensures IsRun(t, s, first + second)
    ensures After(t, s, first + second) == After(t, After(t, s, first), second)
    decreases first
  {
    if first == [] {
      NothingAdded(second);
    } else {
      var s1 := FirstEvent(t, s, first);
      RunsJoin(t, s1, first[1..], second);
      FirstAndRest(first, second);
      EventFirst(t, s, first[0], s1, first[1..] + second, first + second);
    }
  }

  // What every allowed step keeps, every run of allowed steps keeps.
  lemma {:induction false} RunKeeps(t: Topology, s: Net, es: seq<Event>, inv: Net -> bool, allowed: Event -> bool)
    requires IsRun(t, s, es) && inv(s) && forall i :: 0 <= i < |es| ==> allowed(es[i])
    requires forall x, e :: ValidNet(t, x) && Enabled(x, e) && allowed(e) && inv(x) ==> inv(Next(t, x, e))
    ensures inv(After(t, s, es))
    decreases es
  {
    if es != [] {
      RunKeeps(t, Next(t, s, es[0]), es[1..], inv, allowed);
    }
  }

  predicate Quiescent(s: Net) {
    s.threads == [] && s.flights == []
  }
}
