/** Gossip comes to an end: on every topology, cycles included, only finitely many steps follow without new
 *  input, unless the names of clients make answers read as questions. */
module NetworkTermination {
  import opened Types
  import opened Decimal
  import opened Sequences
  import opened Tokens
  import opened Messages
  import opened Framing
  import opened StoreModel
  import opened Gossip
  import opened Network
  import opened NetworkSafety

  function MessageKey(m: Message): Key
    requires m.PeerUpdate?
  {
    Key(m.service, m.endpoint)
  }

  // ---------- a measure ----------

  // What the measure is taken by: the keys that can be announced, a bound on out-degrees, a bound on
  // what one stored answer can arrive as, and a rank for every service whose answers may hold
  // questions, above the ranks of the services they ask for.
  datatype Scale = Scale(keys: set<Key>, degree: nat, width: nat, rank: map<string, nat>)

  function RankOf(w: Scale, service: string): nat {
    if service in w.rank then w.rank[service] else 0
  }

  function Times(n: nat, b: nat): nat {
    if n == 0 then 0 else Times(n - 1, b) + b
  }

  // What a node with this many keys missing may still cause: per key, two steps for every out-peer.
  function Debt(degree: nat, missing: nat): nat {
    Times(missing, 2 * degree)
  }

  // A question costs its own delivery and an answer of one send per key.
  function AskWeight(w: Scale, rank: nat): (weight: nat)
    ensures weight >= 1
    decreases rank, 2
  {
    1 + Times(|w.keys|, ReplyCost(w, rank))
  }

  // A reply costs its send and what it arrives as.
  function ReplyCost(w: Scale, rank: nat): nat
    decreases rank, 1
  {
    1 + Times(w.width, ArrivalCost(w, rank))
  }

  // What a reply under this rank arrives as costs at most as much as a question of the rank below.
  function ArrivalCost(w: Scale, rank: nat): (cost: nat)
    ensures cost >= 1
    decreases rank, 0
  {
    if rank == 0 then 1 else AskWeight(w, rank - 1)
  }

  function Weight(w: Scale, m: Message): (weight: nat)
    ensures weight >= 1
  {
    if m.PeerUpdate? then 1 else AskWeight(w, RankOf(w, m.service))
  }

  function MessageWeight(w: Scale): Message -> nat {
    (m: Message) => Weight(w, m)
  }

  function PacketWeight(w: Scale): Packet -> nat {
    (p: Packet) => Weight(w, p.m)
  }

  function SendWeight(w: Scale, m: Message): nat {
    1 + SumBy(MessageWeight(w), Wire(m))
  }

  function ActionWeight(w: Scale): Action -> nat {
    (a: Action) =>
      match a
      case Send(_, m) => SendWeight(w, m)
      case ClearStore(_) => Debt(w.degree, |w.keys|) + 1
  }

  function ThreadWeight(w: Scale): seq<Action> -> nat {
    (thread: seq<Action>) => SumBy(ActionWeight(w), thread)
  }

  // The keys a node does not hold yet, or holds as removed.
  function Missing(keys: set<Key>, n: Node): set<Key> {
    keys - LiveKeys(n.peers)
  }

  function NodeWeight(w: Scale): Node -> nat {
    (n: Node) => Debt(w.degree, |Missing(w.keys, n)|)
  }

  function Measure(s: Net, w: Scale): nat {
    SumBy(NodeWeight(w), s.nodes) + SumBy(ThreadWeight(w), s.threads) + SumBy(PacketWeight(w), s.flights)
  }

  lemma {:induction false} TimesMonotone(n: nat, m: nat, b: nat, c: nat)
    requires n <= m && b <= c
    ensures Times(n, b) <= Times(m, c)
  {
    if m > 0 {
      TimesMonotone(if n == m then n - 1 else n, m - 1, b, c);
    }
  }

  lemma {:induction false} SumByAtMost<A>(f: A -> nat, xs: seq<A>, b: nat)
    requires forall i :: 0 <= i < |xs| ==> f(xs[i]) <= b
    ensures SumBy(f, xs) <= Times(|xs|, b)
  {
    if xs != [] {
      SumByAtMost(f, xs[1..], b);
    }
  }

  lemma AskWeightStep(w: Scale, low: nat, high: nat)
    requires ArrivalCost(w, low) <= ArrivalCost(w, high)
    ensures AskWeight(w, low) <= AskWeight(w, high)
  {
    TimesMonotone(w.width, w.width, ArrivalCost(w, low), ArrivalCost(w, high));
    TimesMonotone(|w.keys|, |w.keys|, ReplyCost(w, low), ReplyCost(w, high));
  }

  lemma {:induction false} AskWeightGrows(w: Scale, low: nat, high: nat)
    requires low <= high
    ensures AskWeight(w, low) <= AskWeight(w, high)
    decreases high
  {
    if low > 0 {
      AskWeightGrows(w, low - 1, high - 1);
    }
    AskWeightStep(w, low, high);
  }

  // ---------- states within a scale ----------

  // A message that arrived, about one of these keys.
  predicate Incoming(m: Message, w: Scale) {
    OffTheWire(m) && (m.PeerUpdate? ==> MessageKey(m) in w.keys)
  }

  // What a message can arrive as announces only these keys.
  predicate TameMessage(m: Message, w: Scale) {
    forall i :: 0 <= i < |Wire(m)| && Wire(m)[i].PeerUpdate? ==> MessageKey(Wire(m)[i]) in w.keys
  }

  // An answer that is not too wide and asks only for services of lower rank.
  predicate TameReply(m: Message, w: Scale) {
    && TameMessage(m, w) && |Wire(m)| <= w.width
    && forall i :: 0 <= i < |Wire(m)| && Wire(m)[i].Query? ==> RankOf(w, Wire(m)[i].service) < RankOf(w, m.service)
  }

  predicate TameNode(n: Node, w: Scale) {
    && n.peers.Keys <= w.keys && WellKeyed(n.peers)
    && forall k :: k in n.peers ==> TameReply(AsReply(n.peers[k]), w)
  }

  predicate TameAction(a: Action, w: Scale) {
    a.Send? ==> TameMessage(a.m, w)
  }

  predicate TameThread(thread: seq<Action>, w: Scale) {
    forall j :: 0 <= j < |thread| ==> TameAction(thread[j], w)
  }

  predicate Tame(s: Net, w: Scale) {
    && w.width >= 1
    && (forall u :: 0 <= u < |s.nodes| ==> TameNode(s.nodes[u], w))
    && (forall i :: 0 <= i < |s.threads| ==> TameThread(s.threads[i], w))
    && (forall j :: 0 <= j < |s.flights| ==> Incoming(s.flights[j].m, w))
  }

  predicate DegreesWithin(t: Topology, degree: nat) {
    forall u :: 0 <= u < |t| ==> |t[u]| <= degree
  }

  predicate Fits(t: Topology, s: Net, w: Scale) {
    Tame(s, w) && DegreesWithin(t, w.degree)
  }

  // ---------- every internal step is a step down ----------

  lemma CleanUpdateWeight(m: Message, w: Scale)
    requires Incoming(m, w) && m.PeerUpdate? && w.width >= 1
    ensures TameReply(m, w) && SendWeight(w, m) == 2
  {
    WireExact(m);
    SumByOne(MessageWeight(w), Normal(m));
  }

  lemma SpawnWeight(s: Net, actions: seq<Action>, w: Scale)
    requires Tame(s, w) && TameThread(actions, w)
    ensures Tame(Spawn(s, actions), w)
    ensures Measure(Spawn(s, actions), w) == Measure(s, w) + SumBy(ActionWeight(w), actions)
  {
    if actions != [] {
      SumByAppend(ThreadWeight(w), s.threads, [actions]);
      SumByOne(ThreadWeight(w), actions);
    }
  }

  lemma LandingWeight(s: Net, j: nat, w: Scale)
    requires Tame(s, w) && j < |s.flights|
    ensures var landed := s.(flights := RemoveAt(s.flights, j));
            && Tame(landed, w) && Measure(landed, w) + Weight(w, s.flights[j].m) == Measure(s, w)
  {
    SumByRemove(PacketWeight(w), s.flights, j);
  }

  lemma {:induction false} ArrivalWeight(h: Hop, ms: seq<Message>, w: Scale)
    ensures SumBy(PacketWeight(w), Map(OnHop(h), ms)) == SumBy(MessageWeight(w), ms)
  {
    if ms != [] {
      ArrivalWeight(h, ms[1..], w);
      assert Map(OnHop(h), ms)[1..] == Map(OnHop(h), ms[1..]);
    }
  }

  lemma ArrivalsIncoming(t: Topology, h: Hop, m: Message, w: Scale)
    requires ValidHop(t, h) && TameMessage(m, w)
    ensures forall i :: 0 <= i < |Arrivals(t, h, m)| ==> Incoming(Arrivals(t, h, m)[i].m, w)
    ensures SumBy(PacketWeight(w), Arrivals(t, h, m)) < SendWeight(w, m)
  {
    ArrivalsOffTheWire(t, h, m);
    if Receiver(t, h).Some? {
      ArrivalWeight(h, Wire(m), w);
    }
  }

  lemma SendingWeight(t: Topology, s: Net, h: Hop, m: Message, w: Scale)
    requires ValidNet(t, s) && ValidHop(t, h) && Tame(s, w) && TameMessage(m, w)
    ensures Tame(Perform(t, s, Send(h, m)), w)
    ensures Measure(Perform(t, s, Send(h, m)), w) < Measure(s, w) + SendWeight(w, m)
  {
    ArrivalsIncoming(t, h, m, w);
    MoreInFlight(s, Arrivals(t, h, m), w);
    RefusedWeight(s, s.refused + [Packet(h, m)], w);
  }

  lemma MoreInFlight(s: Net, more: seq<Packet>, w: Scale)
    requires Tame(s, w) && forall i :: 0 <= i < |more| ==> Incoming(more[i].m, w)
    ensures Tame(s.(flights := s.flights + more), w)
    ensures Measure(s.(flights := s.flights + more), w) == Measure(s, w) + SumBy(PacketWeight(w), more)
  {
    SumByAppend(PacketWeight(w), s.flights, more);
  }

  lemma RefusedWeight(s: Net, refused: seq<Packet>, w: Scale)
    requires Tame(s, w)
    ensures Tame(s.(refused := refused), w) && Measure(s.(refused := refused), w) == Measure(s, w)
  {
  }

  lemma ReplacedNode(s: Net, s': Net, r: nat, w: Scale)
    requires Tame(s, w) && r < |s.nodes| == |s'.nodes| && TameNode(s'.nodes[r], w)
    requires s'.nodes == s.nodes[r := s'.nodes[r]] && s'.threads == s.threads && s'.flights == s.flights
    ensures Tame(s', w)
    ensures Measure(s', w) + NodeWeight(w)(s.nodes[r]) == Measure(s, w) + NodeWeight(w)(s'.nodes[r])
  {
    SumByUpdate(NodeWeight(w), s.nodes, r, s'.nodes[r]);
  }

  lemma ForgottenNode(n': Node, w: Scale)
    requires n'.peers.Keys == {}
    ensures TameNode(n', w) && NodeWeight(w)(n') == Debt(w.degree, |w.keys|)
  {
    assert LiveKeys(n'.peers) == {};
    assert Missing(w.keys, n') == w.keys;
  }

  lemma ClearWeight(t: Topology, s: Net, u: nat, w: Scale)
    requires ValidNet(t, s) && u < |t| && Tame(s, w)
    ensures Tame(Perform(t, s, ClearStore(u)), w)
    ensures Measure(Perform(t, s, ClearStore(u)), w) < Measure(s, w) + ActionWeight(w)(ClearStore(u))
  {
    var cleared := Perform(t, s, ClearStore(u));
    ForgottenNode(cleared.nodes[u], w);
    ReplacedNode(s, cleared, u, w);
  }

  lemma PerformWeight(t: Topology, s: Net, a: Action, w: Scale)
    requires ValidNet(t, s) && ValidAction(t, a) && Tame(s, w) && TameAction(a, w)
    ensures Tame(Perform(t, s, a), w) && Perform(t, s, a).threads == s.threads
    ensures Measure(Perform(t, s, a), w) < Measure(s, w) + ActionWeight(w)(a)
  {
    match a
    case Send(h, m) => SendingWeight(t, s, h, m, w);
    case ClearStore(u) => ClearWeight(t, s, u, w);
  }

  lemma ThreadMoves(threads: seq<seq<Action>>, i: nat, w: Scale)
    requires i < |threads| && threads[i] != []
    ensures SumBy(ThreadWeight(w), Rest(threads, i)) + ActionWeight(w)(threads[i][0]) ==
            SumBy(ThreadWeight(w), threads)
  {
    if |threads[i]| == 1 {
      assert threads[i] == [threads[i][0]];
      SumByOne(ActionWeight(w), threads[i][0]);
      SumByRemove(ThreadWeight(w), threads, i);
    } else {
      SumByUpdate(ThreadWeight(w), threads, i, threads[i][1..]);
    }
  }

  lemma RestIsTame(threads: seq<seq<Action>>, i: nat, w: Scale)
    requires i < |threads| && threads[i] != []
    requires forall j :: 0 <= j < |threads| ==> TameThread(threads[j], w)
    ensures var rest := Rest(threads, i);
            forall j :: 0 <= j < |rest| ==> TameThread(rest[j], w)
  {
    assert TameThread(threads[i], w);
    assert TameThread(threads[i][1..], w);
  }

  lemma ThreadGoesOn(s: Net, i: nat, w: Scale)
    requires Tame(s, w) && i < |s.threads| && s.threads[i] != []
    ensures var s' := s.(threads := Rest(s.threads, i));
            Tame(s', w) && Measure(s', w) + ActionWeight(w)(s.threads[i][0]) == Measure(s, w)
  {
    ThreadMoves(s.threads, i, w);
    RestIsTame(s.threads, i, w);
  }

  lemma AdvanceDecreases(t: Topology, s: Net, i: nat, w: Scale)
    requires ValidNet(t, s) && Enabled(s, Advance(i)) && Tame(s, w)
    ensures Tame(StepAdvance(t, s, i), w) && Measure(StepAdvance(t, s, i), w) < Measure(s, w)
  {
    var a := s.threads[i][0];
    assert ValidAction(t, a);
    assert TameThread(s.threads[i], w) && TameAction(a, w);
    PerformWeight(t, s, a, w);
    var done := Perform(t, s, a);
    ThreadGoesOn(done, i, w);
    assert StepAdvance(t, s, i) == done.(threads := Rest(done.threads, i));
  }

  lemma BroadcastWeight(t: Topology, u: nat, m: Message, previousHop: string, w: Scale)
    requires u < |t| && DegreesWithin(t, w.degree) && m.PeerUpdate? && Incoming(m, w) && w.width >= 1
    ensures TameThread(Broadcast(t, u, m, previousHop), w)
    ensures SumBy(ActionWeight(w), Broadcast(t, u, m, previousHop)) <= 2 * w.degree
  {
    BroadcastActions(t, u, m, previousHop);
    CleanUpdateWeight(m, w);
    SumByTwos(ActionWeight(w), Broadcast(t, u, m, previousHop));
  }

  lemma MissingOne(before: set<Key>, after: set<Key>, k: Key)
    requires k !in after && before == after + {k}
    ensures |before| == |after| + 1
  {
  }

  lemma OneLessMissing(w: Scale, n: Node, n': Node, k: Key)
    requires k in w.keys && k !in LiveKeys(n.peers) && LiveKeys(n'.peers) == LiveKeys(n.peers) + {k}
    ensures NodeWeight(w)(n') + 2 * w.degree == NodeWeight(w)(n)
  {
    assert Missing(w.keys, n) == Missing(w.keys, n') + {k};
    MissingOne(Missing(w.keys, n), Missing(w.keys, n'), k);
  }

  lemma LiveKeysAfter(s: Peers, u: Update)
    requires !u.isRemoved
    ensures LiveKeys(Apply(s, u)) == LiveKeys(s) + {u.key}
    ensures IsNews(Classify(s, u)) <==> u.key !in LiveKeys(s)
  {
  }

  lemma TameApply(n: Node, m: Message, now: Timestamp, w: Scale)
    requires TameNode(n, w) && m.PeerUpdate? && Incoming(m, w) && w.width >= 1
    ensures TameNode(n.(peers := Apply(n.peers, AsUpdate(m, now))), w)
  {
    CleanUpdateWeight(m, w);
  }

  lemma OldNewsWeight(t: Topology, s: Net, r: nat, m: Message, h: Hop, now: Timestamp, w: Scale)
    requires ValidNet(t, s) && Tame(s, w)
    requires r < |t| && ValidHop(t, h) && m.PeerUpdate? && Incoming(m, w)
    requires !IsNews(Classify(s.nodes[r].peers, AsUpdate(m, now)))
    ensures Tame(OnPeerUpdate(t, s, r, m, h, now), w)
    ensures Measure(OnPeerUpdate(t, s, r, m, h, now), w) == Measure(s, w)
  {
    assert TameNode(s.nodes[r], w);
    OldNewsNode(s.nodes[r], AsUpdate(m, now), w);
    TameApply(s.nodes[r], m, now, w);
    ReplacedNode(s, OnPeerUpdate(t, s, r, m, h, now), r, w);
  }

  lemma OldNewsNode(n: Node, u: Update, w: Scale)
    requires !u.isRemoved && !IsNews(Classify(n.peers, u))
    ensures NodeWeight(w)(n.(peers := Apply(n.peers, u))) == NodeWeight(w)(n)
  {
    LiveKeysAfter(n.peers, u);
    assert LiveKeys(Apply(n.peers, u)) == LiveKeys(n.peers);
  }

  lemma NewsWeight(t: Topology, s: Net, r: nat, m: Message, h: Hop, now: Timestamp, w: Scale)
    requires ValidNet(t, s) && Fits(t, s, w)
    requires r < |t| && ValidHop(t, h) && m.PeerUpdate? && Incoming(m, w)
    requires IsNews(Classify(s.nodes[r].peers, AsUpdate(m, now)))
    ensures Tame(OnPeerUpdate(t, s, r, m, h, now), w)
    ensures Measure(OnPeerUpdate(t, s, r, m, h, now), w) <= Measure(s, w)
  {
    var n, u, s' := s.nodes[r], AsUpdate(m, now), OnPeerUpdate(t, s, r, m, h, now);
    var n' := s'.nodes[r];
    assert TameNode(n, w);
    LiveKeysAfter(n.peers, u);
    TameApply(n, m, now, w);
    var stored := s'.(threads := s.threads);
    ReplacedNode(s, stored, r, w);
    OneLessMissing(w, n, n', u.key);
    BroadcastWeight(t, r, m, PeerAddress(t, h), w);
    SpawnWeight(stored, Broadcast(t, r, m, PeerAddress(t, h)), w);
  }

  // A stored update is paid for by its own packet; news also by the key that is no longer missing.
  lemma PeerUpdateWeight(t: Topology, s: Net, r: nat, m: Message, h: Hop, now: Timestamp, w: Scale)
    requires ValidNet(t, s) && Fits(t, s, w)
    requires r < |t| && ValidHop(t, h) && m.PeerUpdate? && Incoming(m, w)
    ensures Tame(OnPeerUpdate(t, s, r, m, h, now), w)
    ensures Measure(OnPeerUpdate(t, s, r, m, h, now), w) <= Measure(s, w)
  {
    if IsNews(Classify(s.nodes[r].peers, AsUpdate(m, now))) {
      NewsWeight(t, s, r, m, h, now, w);
    } else {
      OldNewsWeight(t, s, r, m, h, now, w);
    }
  }

  lemma QueryWeight(s: Net, r: nat, h: Hop, service: string, w: Scale)
    requires Tame(s, w) && r < |s.nodes|
    ensures Tame(OnQuery(s, r, h, service), w)
    ensures Measure(OnQuery(s, r, h, service), w) < Measure(s, w) + AskWeight(w, RankOf(w, service))
  {
    assert TameNode(s.nodes[r], w);
    AnswerWeight(s.nodes[r].peers, service, h, w);
    SpawnWeight(s, Map(ReplyOn(h), Replies(s.nodes[r].peers, service)), w);
  }

  lemma ListingFits(s: Peers, service: string, keys: set<Key>)
    requires WellKeyed(s) && s.Keys <= keys
    ensures |Listing(s, service)| <= |keys|
  {
    var mine := set k | k in LiveKeys(s) && k.service == service;
    ImageSize(mine, service);
    assert LiveEndpoints(s, service) == set k | k in mine :: k.endpoint;
    SubsetSize(mine, keys);
  }

  lemma SubsetSize<T>(a: set<T>, b: set<T>)
    requires a <= b
    ensures |a| <= |b|
  {
    assert b == a + (b - a);
  }

  lemma WeightUnderRank(w: Scale, m: Message, rank: nat)
    requires m.Query? ==> RankOf(w, m.service) < rank
    ensures Weight(w, m) <= ArrivalCost(w, rank)
  {
    if m.Query? {
      AskWeightGrows(w, RankOf(w, m.service), rank - 1);
    }
  }

  lemma ReplyArrivalCost(m: Message, i: nat, w: Scale)
    requires TameReply(m, w) && i < |Wire(m)|
    ensures MessageWeight(w)(Wire(m)[i]) <= ArrivalCost(w, RankOf(w, m.service))
  {
    WeightUnderRank(w, Wire(m)[i], RankOf(w, m.service));
  }

  lemma ReplyWeight(m: Message, w: Scale)
    requires TameReply(m, w)
    ensures SendWeight(w, m) <= ReplyCost(w, RankOf(w, m.service))
  {
    var b := ArrivalCost(w, RankOf(w, m.service));
    forall i | 0 <= i < |Wire(m)| ensures MessageWeight(w)(Wire(m)[i]) <= b {
      ReplyArrivalCost(m, i, w);
    }
    SumByAtMost(MessageWeight(w), Wire(m), b);
    TimesMonotone(|Wire(m)|, w.width, b, b);
  }

  // Sends of tame replies for one service, one per key at most.
  lemma RepliesWeight(h: Hop, replies: seq<Message>, service: string, w: Scale)
    requires |replies| <= |w.keys|
    requires forall i :: 0 <= i < |replies| ==> TameReply(replies[i], w) && replies[i].service == service
    ensures TameThread(Map(ReplyOn(h), replies), w)
    ensures SumBy(ActionWeight(w), Map(ReplyOn(h), replies)) < AskWeight(w, RankOf(w, service))
  {
    var sends, b := Map(ReplyOn(h), replies), ReplyCost(w, RankOf(w, service));
    forall i | 0 <= i < |sends| ensures TameAction(sends[i], w) && ActionWeight(w)(sends[i]) <= b {
      ReplyWeight(replies[i], w);
    }
    SumByAtMost(ActionWeight(w), sends, b);
    TimesMonotone(|sends|, |w.keys|, b, b);
  }

  lemma AnswerWeight(s: Peers, service: string, h: Hop, w: Scale)
    requires WellKeyed(s) && s.Keys <= w.keys
    requires forall k :: k in s ==> TameReply(AsReply(s[k]), w)
    ensures TameThread(Map(ReplyOn(h), Replies(s, service)), w)
    ensures SumBy(ActionWeight(w), Map(ReplyOn(h), Replies(s, service))) < AskWeight(w, RankOf(w, service))
  {
    var replies := Replies(s, service);
    ListingExact(s, service);
    ListingFits(s, service, w.keys);
    forall i | 0 <= i < |replies| ensures TameReply(replies[i], w) && replies[i].service == service {
      assert Listing(s, service)[i] in Listing(s, service);
    }
    RepliesWeight(h, replies, service, w);
  }

  // What a message sets off costs less than the message did.
  lemma HandledWeight(t: Topology, s: Net, p: Packet, now: Timestamp, w: Scale)
    requires Lands(t, s, p.hop) && Fits(t, s, w) && Incoming(p.m, w)
    ensures Tame(Handled(t, s, p, now), w)
    ensures Measure(Handled(t, s, p, now), w) < Measure(s, w) + Weight(w, p.m)
  {
    var r := Receiver(t, p.hop).value;
    if p.m.PeerUpdate? {
      PeerUpdateWeight(t, s, r, p.m, p.hop, now, w);
    } else {
      QueryWeight(s, r, p.hop, p.m.service, w);
    }
  }

  lemma SameWeight(s: Net, s': Net, w: Scale)
    requires Tame(s, w) && s'.nodes == s.nodes && s'.threads == s.threads && s'.flights == s.flights
    ensures Tame(s', w) && Measure(s', w) == Measure(s, w)
  {
  }

  lemma DeliverDecreases(t: Topology, s: Net, e: Event, w: Scale)
    requires ValidNet(t, s) && Enabled(s, e) && e.Deliver? && Fits(t, s, w)
    ensures Tame(StepDeliver(t, s, e), w) && Measure(StepDeliver(t, s, e), w) < Measure(s, w)
  {
    var p, landed, s' := s.flights[e.flight], s.(flights := RemoveAt(s.flights, e.flight)), StepDeliver(t, s, e);
    LandingWeight(s, e.flight, w);
    LandedValid(t, s, e.flight);
    if IsUnread(landed, p.hop) {
      SameWeight(landed, s', w);
    } else {
      assert Incoming(p.m, w);
      HandledWeight(t, landed, p, e.now, w);
      SameWeight(Handled(t, landed, p, e.now), s', w);
    }
  }

  lemma InternalStepDecreases(t: Topology, s: Net, e: Event, w: Scale)
    requires ValidNet(t, s) && Enabled(s, e) && IsInternal(e) && Fits(t, s, w)
    ensures Fits(t, Next(t, s, e), w) && Measure(Next(t, s, e), w) < Measure(s, w)
  {
    match e
    case Advance(i) => AdvanceDecreases(t, s, i, w);
    case Deliver(_, _, _) => DeliverDecreases(t, s, e, w);
    case Drop(j) => LandingWeight(s, j, w);
  }

  lemma {:induction false} InternalRunBounded(t: Topology, s: Net, es: seq<Event>, w: Scale)
    requires IsRun(t, s, es) && AllInternal(es) && Fits(t, s, w)
    ensures |es| <= Measure(s, w)
    decreases es
  {
    if es != [] {
      InternalStepDecreases(t, s, es[0], w);
      InternalRunBounded(t, Next(t, s, es[0]), es[1..], w);
    }
  }

  predicate AllInternal(es: seq<Event>) {
    forall i :: 0 <= i < |es| ==> IsInternal(es[i])
  }

  // ---------- answers that read as questions ----------

  // A stored answer for service x can arrive as a question for service y.
  ghost predicate Asks(s: Net, x: string, y: string) {
    exists u, k: Key :: 0 <= u < |s.nodes| && k in s.nodes[u].peers && k.service == x
                        && Query(y) in Wire(AsReply(s.nodes[u].peers[k]))
  }

  // For each of these services some stored answer asks for one of them again.
  ghost predicate Sustains(s: Net, services: set<string>) {
    services != {} && forall x {:trigger AsksAgain(s, x, services)} :: x in services ==> AsksAgain(s, x, services)
  }

  ghost predicate AsksAgain(s: Net, x: string, services: set<string>) {
    exists y :: y in services && Asks(s, x, y)
  }

  // Entries are stored under their own names, what is in flight came off the wire, and no stored
  // answers keep asking each other.
  ghost predicate Dying(s: Net) {
    && (forall u :: 0 <= u < |s.nodes| ==> WellKeyed(s.nodes[u].peers))
    && (forall j :: 0 <= j < |s.flights| ==> OffTheWire(s.flights[j].m))
    && forall services :: !Sustains(s, services)
  }

  ghost predicate Ranked(s: Net, services: set<string>, rank: map<string, nat>) {
    && rank.Keys == services && (forall x :: x in services ==> rank[x] >= 1)
    && forall x, y :: x in services && y in services && Asks(s, x, y) ==> rank[y] < rank[x]
  }

  // Take off a service whose answers ask for none of the others, and rank the rest above it.
  lemma {:induction false} RanksExist(s: Net, services: set<string>) returns (rank: map<string, nat>)
    requires forall some :: !Sustains(s, some)
    ensures Ranked(s, services, rank)
    decreases |services|
  {
    rank := map[];
    if services == {} {
      assert rank.Keys == services;
    } else {
      assert !Sustains(s, services);
      var x :| x in services && !AsksAgain(s, x, services);
      var rest := RanksExist(s, services - {x});
      rank := map y | y in services :: if y == x then 1 else rest[y] + 1;
      RankedAbove(s, services, x, rest, rank);
    }
  }

  lemma RankedAbove(s: Net, services: set<string>, x: string, rest: map<string, nat>, rank: map<string, nat>)
    requires x in services && !AsksAgain(s, x, services) && Ranked(s, services - {x}, rest)
    requires rank == map y | y in services :: if y == x then 1 else rest[y] + 1
    ensures Ranked(s, services, rank)
  {
    assert rank.Keys == services;
    forall a, b | a in services && b in services && Asks(s, a, b) ensures rank[b] < rank[a] {
      assert a != x && a in services - {x};
      assert b != x ==> b in services - {x} && rest[b] < rest[a];
    }
  }

  // ---------- a scale for a given state ----------

  function MaxDegree(t: Topology): nat {
    if t == [] then 0
    else
      var rest, last := MaxDegree(t[..|t| - 1]), |t[|t| - 1]|;
      if rest < last then last else rest
  }

  lemma {:induction false} MaxDegreeBounds(t: Topology)
    ensures DegreesWithin(t, MaxDegree(t))
  {
    if t != [] {
      MaxDegreeBounds(t[..|t| - 1]);
      assert forall u :: 0 <= u < |t| - 1 ==> t[..|t| - 1][u] == t[u];
    }
  }

  // The keys a message may be taken to announce.
  function ArrivingKeys(m: Message): set<Key> {
    set i | 0 <= i < |Wire(m)| && Wire(m)[i].PeerUpdate? :: MessageKey(Wire(m)[i])
  }

  function StoredKeys(s: Net): set<Key> {
    set u, k | 0 <= u < |s.nodes| && k in s.nodes[u].peers :: k
  }

  function AnsweredKeys(s: Net): set<Key> {
    set u, k, a | 0 <= u < |s.nodes| && k in s.nodes[u].peers && a in ArrivingKeys(AsReply(s.nodes[u].peers[k])) :: a
  }

  function FlyingKeys(s: Net): set<Key> {
    set j | 0 <= j < |s.flights| && s.flights[j].m.PeerUpdate? :: MessageKey(s.flights[j].m)
  }

  function SentKeys(a: Action): set<Key> {
    if a.Send? then ArrivingKeys(a.m) else {}
  }

  function PendingKeys(s: Net): set<Key> {
    set i, j, a | 0 <= i < |s.threads| && 0 <= j < |s.threads[i]| && a in SentKeys(s.threads[i][j]) :: a
  }

  function AllKeys(s: Net): set<Key> {
    StoredKeys(s) + AnsweredKeys(s) + FlyingKeys(s) + PendingKeys(s)
  }

  function Widths(s: Net): set<nat> {
    set u, k | 0 <= u < |s.nodes| && k in s.nodes[u].peers :: |Wire(AsReply(s.nodes[u].peers[k]))|
  }

  function Services(s: Net): set<string> {
    set k | k in StoredKeys(s) :: k.service
  }

  lemma {:induction false} BoundExists(numbers: set<nat>) returns (b: nat)
    ensures b >= 1 && forall n :: n in numbers ==> n <= b
    decreases |numbers|
  {
    b := 1;
    if numbers != {} {
      var n :| n in numbers;
      var rest := BoundExists(numbers - {n});
      b := if n < rest then rest else n + 1;
      assert forall m :: m in numbers ==> m == n || m in numbers - {n};
    }
  }

  lemma KeysCover(m: Message, w: Scale)
    requires ArrivingKeys(m) <= w.keys
    ensures TameMessage(m, w)
  {
    forall i | 0 <= i < |Wire(m)| && Wire(m)[i].PeerUpdate? ensures MessageKey(Wire(m)[i]) in w.keys {
      assert MessageKey(Wire(m)[i]) in ArrivingKeys(m);
    }
  }

  lemma StoredIsTame(s: Net, u: nat, k: Key, w: Scale)
    requires u < |s.nodes| && k in s.nodes[u].peers && WellKeyed(s.nodes[u].peers)
    requires AllKeys(s) <= w.keys && Ranked(s, Services(s), w.rank)
    requires forall n :: n in Widths(s) ==> n <= w.width
    ensures k in w.keys && TameReply(AsReply(s.nodes[u].peers[k]), w)
  {
    var m := AsReply(s.nodes[u].peers[k]);
    assert k in StoredKeys(s) && k.service in Services(s);
    assert ArrivingKeys(m) <= AnsweredKeys(s);
    KeysCover(m, w);
    assert |Wire(m)| in Widths(s);
    AsksForLower(s, u, k, w);
  }

  // The questions that a stored announcement is taken for rank below its own service.
  lemma AsksForLower(s: Net, u: nat, k: Key, w: Scale)
    requires u < |s.nodes| && k in s.nodes[u].peers && WellKeyed(s.nodes[u].peers)
    requires Ranked(s, Services(s), w.rank)
    ensures var m := AsReply(s.nodes[u].peers[k]);
            forall i :: 0 <= i < |Wire(m)| && Wire(m)[i].Query? ==> RankOf(w, Wire(m)[i].service) < RankOf(w, m.service)
  {
    var m := AsReply(s.nodes[u].peers[k]);
    assert k in StoredKeys(s) && k.service in Services(s);
    forall i | 0 <= i < |Wire(m)| && Wire(m)[i].Query? ensures RankOf(w, Wire(m)[i].service) < RankOf(w, m.service) {
      assert Query(Wire(m)[i].service) in Wire(m);
      assert Asks(s, k.service, Wire(m)[i].service);
    }
  }

  lemma ScaleFits(t: Topology, s: Net, w: Scale)
    requires Dying(s) && DegreesWithin(t, w.degree) && w.width >= 1
    requires AllKeys(s) <= w.keys && Ranked(s, Services(s), w.rank)
    requires forall n :: n in Widths(s) ==> n <= w.width
    ensures Fits(t, s, w)
  {
    forall u | 0 <= u < |s.nodes| ensures TameNode(s.nodes[u], w) {
      forall k | k in s.nodes[u].peers ensures k in w.keys && TameReply(AsReply(s.nodes[u].peers[k]), w) {
        StoredIsTame(s, u, k, w);
      }
    }
    forall i, j | 0 <= i < |s.threads| && 0 <= j < |s.threads[i]| ensures TameAction(s.threads[i][j], w) {
      if s.threads[i][j].Send? {
        assert SentKeys(s.threads[i][j]) <= PendingKeys(s);
        KeysCover(s.threads[i][j].m, w);
      }
    }
    forall j | 0 <= j < |s.flights| ensures Incoming(s.flights[j].m, w) {
      if s.flights[j].m.PeerUpdate? {
        assert MessageKey(s.flights[j].m) in FlyingKeys(s);
      }
    }
  }

  lemma ScaleExists(t: Topology, s: Net) returns (w: Scale)
    requires Dying(s)
    ensures Fits(t, s, w)
  {
    MaxDegreeBounds(t);
    var width := BoundExists(Widths(s));
    var rank := RanksExist(s, Services(s));
    w := Scale(AllKeys(s), MaxDegree(t), width, rank);
    ScaleFits(t, s, w);
  }

  lemma SomeScaleFits(t: Topology, s: Net)
    requires Dying(s)
    ensures exists w :: Fits(t, s, w)
  {
    var w := ScaleExists(t, s);
  }

  ghost function StepBound(t: Topology, s: Net): nat
    requires Dying(s)
  {
    SomeScaleFits(t, s);
    var w :| Fits(t, s, w);
    Measure(s, w)
  }

  // From any state of any network, however connected, in which no stored answers keep asking each
  // other, only a bounded number of steps can follow without a client doing something: flooding
  // stops, and so does answering queries.
  lemma NetworkTerminates(t: Topology, s: Net, es: seq<Event>)
    requires Dying(s) && IsRun(t, s, es) && AllInternal(es)
    ensures |es| <= StepBound(t, s)
  {
    SomeScaleFits(t, s);
    var w :| Fits(t, s, w) && StepBound(t, s) == Measure(s, w);
    InternalRunBounded(t, s, es, w);
  }

  // ---------- coming to rest ----------

  lemma SomethingToDo(t: Topology, s: Net, w: Scale) returns (e: Event)
    requires ValidNet(t, s) && Fits(t, s, w) && !Quiescent(s)
    ensures Enabled(s, e) && SingleRead(e)
    ensures ValidNet(t, Next(t, s, e)) && Fits(t, Next(t, s, e), w) && Measure(Next(t, s, e), w) < Measure(s, w)
  {
    e := if s.threads != [] then Advance(0) else Deliver(0, 0, true);
    InternalStepDecreases(t, s, e, w);
    NextValid(t, s, e);
  }

  // A step that loses nothing, in which every read ends with its first message.
  predicate SingleRead(e: Event) {
    e.Advance? || (e.Deliver? && e.ends)
  }

  // These events happen, lose nothing on the way, and leave nothing to do.
  ghost predicate Settles(t: Topology, s: Net, es: seq<Event>) {
    && IsRun(t, s, es) && Quiescent(After(t, s, es))
    && forall i :: 0 <= i < |es| ==> SingleRead(es[i])
  }

  lemma SettlesOneMore(t: Topology, s: Net, e: Event, rest: seq<Event>)
    requires ValidNet(t, s) && Enabled(s, e) && SingleRead(e)
    requires Settles(t, Next(t, s, e), rest)
    ensures Settles(t, s, [e] + rest)
  {
    RunOneMore(t, s, e, rest);
  }

  lemma SettlesWithin(t: Topology, s: Net, w: Scale) returns (es: seq<Event>)
    requires ValidNet(t, s) && Fits(t, s, w)
    ensures Settles(t, s, es)
    decreases Measure(s, w)
  {
    es := [];
    if !Quiescent(s) {
      var e := SomethingToDo(t, s, w);
      var rest := SettlesWithin(t, Next(t, s, e), w);
      SettlesOneMore(t, s, e, rest);
      es := [e] + rest;
    }
  }

  // The network can always come to rest without losing a message; what its nodes do not send any
  // more, because they closed the connection, is not lost on the way.
  lemma CanSettle(t: Topology, s: Net) returns (es: seq<Event>)
    requires ValidNet(t, s) && Dying(s)
    ensures Settles(t, s, es) && |es| <= StepBound(t, s)
  {
    var w := ScaleExists(t, s);
    es := SettlesWithin(t, s, w);
    NetworkTerminates(t, s, es);
  }

  // ---------- which names let it die, in every run ----------

  // The announcement of this client at this time can arrive as a question for the service.
  predicate TakenForQuery(k: Key, time: Timestamp, service: string) {
    Query(service) in Wire(PeerUpdate(k.service, k.endpoint, time, false))
  }

  ghost predicate AsksAmong(clients: set<Key>, x: string, services: set<string>) {
    exists k: Key, time: Timestamp, y :: k in clients && k.service == x && y in services && TakenForQuery(k, time, y)
  }

  // For each of these services there is a client whose announcement asks for one of them again.
  ghost predicate Sustaining(clients: set<Key>, services: set<string>) {
    && services != {}
    && forall x {:trigger AsksAmong(clients, x, services)} :: x in services ==> AsksAmong(clients, x, services)
  }

  // Every stored name is a client's or came over the wire.
  predicate KnownNames(s: Net, clients: set<Key>) {
    && (forall u :: 0 <= u < |s.nodes| ==> KnownNode(s.nodes[u], clients))
    && (forall j :: 0 <= j < |s.flights| ==> OffTheWire(s.flights[j].m))
  }

  predicate KnownNode(n: Node, clients: set<Key>) {
    WellKeyed(n.peers) && forall k :: k in n.peers ==> k in clients || CleanKey(k)
  }

  predicate CleanKey(k: Key) {
    Clean(k.service) && Clean(k.endpoint)
  }

  function StartedKeys(es: seq<Event>): set<Key> {
    set i | 0 <= i < |es| && es[i].Start? :: Key(es[i].service, es[i].endpoint)
  }

  predicate StartsAmong(e: Event, clients: set<Key>) {
    e.Start? ==> Key(e.service, e.endpoint) in clients
  }

  lemma KnownApply(n: Node, u: Update, clients: set<Key>)
    requires KnownNode(n, clients) && (u.key in clients || CleanKey(u.key))
    ensures KnownNode(n.(peers := Apply(n.peers, u)), clients)
  {
  }

  // One node changes, to one with known names.
  lemma OneNodeNames(s: Net, s': Net, r: nat, clients: set<Key>)
    requires KnownNames(s, clients) && r < |s.nodes| == |s'.nodes| && s'.nodes == s.nodes[r := s'.nodes[r]]
    requires KnownNode(s'.nodes[r], clients) && s'.flights == s.flights
    ensures KnownNames(s', clients)
  {
  }

  lemma HandledNames(t: Topology, s: Net, p: Packet, now: Timestamp, clients: set<Key>)
    requires Lands(t, s, p.hop) && KnownNames(s, clients) && OffTheWire(p.m)
    ensures KnownNames(Handled(t, s, p, now), clients)
  {
    var r := Receiver(t, p.hop).value;
    if p.m.PeerUpdate? {
      KnownApply(s.nodes[r], AsUpdate(p.m, now), clients);
      OneNodeNames(s, Handled(t, s, p, now), r, clients);
    }
  }

  lemma AdvanceNames(t: Topology, s: Net, i: nat, clients: set<Key>)
    requires ValidNet(t, s) && Enabled(s, Advance(i)) && KnownNames(s, clients)
    ensures KnownNames(StepAdvance(t, s, i), clients)
  {
    var a := s.threads[i][0];
    assert ValidAction(t, a);
    if a.Send? {
      ArrivalsOffTheWire(t, a.hop, a.m);
    } else {
      OneNodeNames(s, StepAdvance(t, s, i), a.node, clients);
    }
  }

  lemma DeliverNames(t: Topology, s: Net, e: Event, clients: set<Key>)
    requires ValidNet(t, s) && Enabled(s, e) && e.Deliver? && KnownNames(s, clients)
    ensures KnownNames(StepDeliver(t, s, e), clients)
  {
    var landed := s.(flights := RemoveAt(s.flights, e.flight));
    LandedValid(t, s, e.flight);
    HandledNames(t, landed, s.flights[e.flight], e.now, clients);
  }

  lemma StartNames(t: Topology, s: Net, e: Event, clients: set<Key>)
    requires ValidNet(t, s) && Enabled(s, e) && e.Start? && StartsAmong(e, clients) && KnownNames(s, clients)
    ensures KnownNames(StepStart(t, s, e), clients)
  {
    KnownApply(s.nodes[e.node], Update(Key(e.service, e.endpoint), false, e.seen, e.now), clients);
    OneNodeNames(s, StepStart(t, s, e), e.node, clients);
  }

  lemma NextNames(t: Topology, s: Net, e: Event, clients: set<Key>)
    requires ValidNet(t, s) && Enabled(s, e) && StartsAmong(e, clients) && KnownNames(s, clients)
    ensures KnownNames(Next(t, s, e), clients)
  {
    match e
    case Start(_, _, _, _, _) => StartNames(t, s, e, clients);
    case Refresh(_) =>
    case Stop(_) =>
    case Advance(i) => AdvanceNames(t, s, i, clients);
    case Deliver(_, _, _) => DeliverNames(t, s, e, clients);
    case Drop(_) =>
  }

  lemma {:induction false} RunNames(t: Topology, s: Net, es: seq<Event>, clients: set<Key>)
    requires IsRun(t, s, es) && KnownNames(s, clients)
    requires forall i :: 0 <= i < |es| ==> StartsAmong(es[i], clients)
    ensures KnownNames(After(t, s, es), clients)
    decreases es
  {
    if es != [] {
      NextNames(t, s, es[0], clients);
      RunNames(t, Next(t, s, es[0]), es[1..], clients);
    }
  }

  lemma FlagIsNotSent(m: Message)
    requires m.PeerUpdate?
    ensures Wire(m) == Wire(m.(isRemoved := false))
  {
  }

  // An answer that asks is a client's.
  lemma AskerIsClient(s: Net, clients: set<Key>, u: nat, k: Key, y: string)
    requires KnownNames(s, clients) && u < |s.nodes| && k in s.nodes[u].peers
    requires Query(y) in Wire(AsReply(s.nodes[u].peers[k]))
    ensures k in clients && TakenForQuery(k, s.nodes[u].peers[k].lastSeen, y)
  {
    var m := AsReply(s.nodes[u].peers[k]);
    assert KnownNode(s.nodes[u], clients);
    FlagIsNotSent(m);
    WireExact(m);
    assert CleanKey(k) ==> Wire(m) == [Normal(m)];
  }

  lemma AskIsClients(s: Net, clients: set<Key>, x: string, y: string, services: set<string>)
    requires KnownNames(s, clients) && Asks(s, x, y) && y in services
    ensures AsksAmong(clients, x, services)
  {
    var u, k: Key :| 0 <= u < |s.nodes| && k in s.nodes[u].peers && k.service == x
                     && Query(y) in Wire(AsReply(s.nodes[u].peers[k]));
    AskerIsClient(s, clients, u, k, y);
  }

  lemma SustainedByClient(s: Net, clients: set<Key>, services: set<string>, x: string)
    requires KnownNames(s, clients) && Sustains(s, services) && x in services
    ensures AsksAmong(clients, x, services)
  {
    assert AsksAgain(s, x, services);
    var y :| y in services && Asks(s, x, y);
    AskIsClients(s, clients, x, y, services);
  }

  lemma SustainingClients(s: Net, clients: set<Key>, services: set<string>)
    requires KnownNames(s, clients) && Sustains(s, services)
    ensures Sustaining(clients, services)
  {
    forall x | x in services ensures AsksAmong(clients, x, services) {
      SustainedByClient(s, clients, services, x);
    }
  }

  lemma KnownNamesDie(s: Net, clients: set<Key>)
    requires KnownNames(s, clients) && forall services :: !Sustaining(clients, services)
    ensures Dying(s)
  {
    assert forall u :: 0 <= u < |s.nodes| ==> KnownNode(s.nodes[u], clients);
    forall services ensures !Sustains(s, services) {
      if Sustains(s, services) {
        SustainingClients(s, clients, services);
      }
    }
  }

  lemma ReachedNames(t: Topology, es: seq<Event>, s: Net)
    requires Reaches(t, es, s)
    ensures KnownNames(s, StartedKeys(es))
  {
    forall i | 0 <= i < |es| ensures StartsAmong(es[i], StartedKeys(es)) {
    }
    RunNames(t, Initial(t), es, StartedKeys(es));
  }

  // Whatever happened before, stops and losses included: if no announcements of the clients started so
  // far keep asking for each other's services, the network comes to an end within the bound of its state.
  lemma EveryRunTerminates(t: Topology, es: seq<Event>, s: Net, more: seq<Event>)
    requires Reaches(t, es, s) && forall services :: !Sustaining(StartedKeys(es), services)
    requires IsRun(t, s, more) && AllInternal(more)
    ensures Dying(s) && |more| <= StepBound(t, s)
  {
    ReachedNames(t, es, s);
    KnownNamesDie(s, StartedKeys(es));
    NetworkTerminates(t, s, more);
  }

  // The names of a message hold no line break, so it is written as one line.
  predicate OneLine(m: Message) {
    IsLine(m.service) && (m.PeerUpdate? ==> IsLine(m.endpoint))
  }

  // A line keeps its kind, whatever white space the names in it hold.
  lemma KindIsKept(m: Message)
    ensures ParseLine(ToString(m)).Some? ==> (ParseLine(ToString(m)).value.PeerUpdate? <==> m.PeerUpdate?)
  {
    KeywordsAreClean();
    match m
    case PeerUpdate(service, endpoint, lastSeen, _) =>
      var rest := service + " " + endpoint + " " + IntToString(lastSeen);
      assert ToString(m) == PREFIX + " " + "PEER" + " " + rest;
      FirstTwoWords(PREFIX, "PEER", rest);
    case Query(service) =>
      FirstTwoWords(PREFIX, "QUERY", service);
  }

  lemma OneLineArrives(m: Message)
    requires OneLine(m)
    ensures Wire(m) == Accept(ToString(m))
  {
    if m.PeerUpdate? {
      IntNumeralIsClean(m.lastSeen);
      assert IsSpace(NEWLINE);
      assert IsLine(IntToString(m.lastSeen));
    }
    assert IsLine(ToString(m));
    assert Encode(m) == ToString(m) + [NEWLINE] + "";
    FirstLine(ToString(m), "");
    assert Lines("") == [];
    FlatMapOne(Accept, ToString(m));
  }

  // Names without line breaks are never taken for a query, whatever other white space they hold.
  lemma LineIsNoQuery(k: Key, time: Timestamp, y: string)
    requires IsLine(k.service) && IsLine(k.endpoint)
    ensures !TakenForQuery(k, time, y)
  {
    var m := PeerUpdate(k.service, k.endpoint, time, false);
    OneLineArrives(m);
    KindIsKept(m);
  }

  lemma LineNamesDie(clients: set<Key>, services: set<string>)
    requires forall k: Key :: k in clients ==> IsLine(k.service) && IsLine(k.endpoint)
    ensures !Sustaining(clients, services)
  {
    if Sustaining(clients, services) {
      var x :| x in services;
      assert AsksAmong(clients, x, services);
      var k: Key, time: Timestamp, y :| k in clients && k.service == x && y in services && TakenForQuery(k, time, y);
      LineIsNoQuery(k, time, y);
    }
  }
}
