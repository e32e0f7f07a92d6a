/** Answers that read as questions: exactly which client names can keep a network going for ever. */
module NetworkEndless {
  import opened Types
  import opened Decimal
  import opened Sequences
  import opened Tokens
  import opened Messages
  import opened Framing
  import opened StoreModel
  import opened Gossip
  import opened Network
  import opened NetworkSafety
  import opened NetworkTermination
  import opened NetworkFlood

  // ---------- two nodes that keep asking each other ----------

  // What a client is called, and the time it announces.
  datatype Voice = Voice(endpoint: string, time: Timestamp)

  // One client per service, with an announcement that asks for one of the services again.
  type Choir = map<string, Voice>

  ghost predicate Sings(choir: Choir) {
    forall x {:trigger Echoes(choir, x, choir[x])} :: x in choir ==> Echoes(choir, x, choir[x])
  }

  ghost predicate Echoes(choir: Choir, x: string, v: Voice) {
    exists y :: y in choir && TakenForQuery(Key(x, v.endpoint), v.time, y)
  }

  function ReplyOf(x: string, v: Voice): Message {
    PeerUpdate(x, v.endpoint, v.time, false)
  }

  predicate KnowsVoice(peers: Peers, x: string, v: Voice) {
    && Key(x, v.endpoint) in peers && AsReply(peers[Key(x, v.endpoint)]) == ReplyOf(x, v)
  }

  predicate KnowsChoir(n: Node, choir: Choir) {
    WellKeyed(n.peers) && forall x :: x in choir ==> KnowsVoice(n.peers, x, choir[x])
  }

  // A question for one of the services is in flight, or an announcement that arrives as one is pending.
  ghost predicate Asking(s: Net, choir: Choir) {
    || (exists p :: p in s.flights && IsQuestion(p.m, choir))
    || (exists thread, a :: thread in s.threads && a in thread && AsksLater(a, choir))
  }

  predicate IsQuestion(m: Message, choir: Choir) {
    m.Query? && m.service in choir
  }

  ghost predicate AsksLater(a: Action, choir: Choir) {
    a.Send? && exists m :: m in Wire(a.m) && IsQuestion(m, choir)
  }

  predicate OnlySends(s: Net) {
    forall thread, a :: thread in s.threads && a in thread ==> a.Send?
  }

  // Both nodes know the clients, no connection is closed, and a question is on its way.
  ghost predicate Talking(t: Topology, s: Net, choir: Choir) {
    && ValidNet(t, s) && s.closed == {} && OnlySends(s)
    && (forall u :: 0 <= u < |s.nodes| ==> KnowsChoir(s.nodes[u], choir))
    && (forall p :: p in s.flights ==> OffTheWire(p.m))
    && Asking(s, choir)
  }

  predicate AllMade(t: Topology) {
    forall u, i :: 0 <= u < |t| && 0 <= i < |t[u]| ==> t[u][i].dest.Some?
  }

  // A name that is taken for a query is no single word, so it never comes over the wire.
  lemma VoiceIsUnclean(choir: Choir, x: string)
    requires Sings(choir) && x in choir
    ensures !CleanKey(Key(x, choir[x].endpoint))
  {
    var v := choir[x];
    assert Echoes(choir, x, v);
    var y :| y in choir && TakenForQuery(Key(x, v.endpoint), v.time, y);
    WireExact(ReplyOf(x, v));
    assert [Normal(ReplyOf(x, v))][0] == Normal(ReplyOf(x, v));
  }

  lemma ChoirKept(n: Node, m: Message, now: Timestamp, choir: Choir)
    requires Sings(choir) && KnowsChoir(n, choir) && m.PeerUpdate? && OffTheWire(m)
    ensures KnowsChoir(n.(peers := Apply(n.peers, AsUpdate(m, now))), choir)
  {
    var peers := Apply(n.peers, AsUpdate(m, now));
    forall x | x in choir ensures KnowsVoice(peers, x, choir[x]) {
      VoiceIsUnclean(choir, x);
      assert KnowsVoice(n.peers, x, choir[x]);
    }
  }

  lemma SpawnAsking(s: Net, actions: seq<Action>, choir: Choir)
    ensures Asking(s, choir) ==> Asking(Spawn(s, actions), choir)
    ensures (exists a :: a in actions && AsksLater(a, choir)) ==> Asking(Spawn(s, actions), choir)
  {
    var s' := Spawn(s, actions);
    if thread, a :| thread in s.threads && a in thread && AsksLater(a, choir) {
      assert thread in s'.threads;
    }
    if p :| p in s.flights && IsQuestion(p.m, choir) {
      assert p in s'.flights;
    }
    if a :| a in actions && AsksLater(a, choir) {
      assert actions in s'.threads;
    }
  }

  // ---------- one step keeps them talking ----------

  lemma AdvanceAsks(t: Topology, s: Net, i: nat, choir: Choir)
    requires AllMade(t) && ValidNet(t, s) && Enabled(s, Advance(i)) && OnlySends(s) && s.closed == {} && Asking(s, choir)
    ensures Asking(StepAdvance(t, s, i), choir)
  {
    var s', first := StepAdvance(t, s, i), s.threads[i][0];
    assert s.threads[i] in s.threads && first in s.threads[i] && ValidAction(t, first);
    if p :| p in s.flights && IsQuestion(p.m, choir) {
      assert p in s'.flights;
    } else {
      var thread, a :| thread in s.threads && a in thread && AsksLater(a, choir);
      RestKeeps(s.threads, i, thread, a);
      if a == first {
        var m :| m in Wire(a.m) && IsQuestion(m, choir);
        ArrivesAs(t, a.hop, a.m, m);
        assert Packet(a.hop, m) in s'.flights;
      } else {
        var th :| th in Rest(s.threads, i) && a in th;
        assert th in s'.threads;
      }
    }
  }

  lemma ArrivesAs(t: Topology, h: Hop, m: Message, arrived: Message)
    requires ValidHop(t, h) && Receiver(t, h).Some? && arrived in Wire(m)
    ensures Packet(h, arrived) in Arrivals(t, h, m)
  {
    var j :| 0 <= j < |Wire(m)| && Wire(m)[j] == arrived;
    assert Arrivals(t, h, m)[j] == Packet(h, arrived);
  }

  lemma AdvanceTalks(t: Topology, s: Net, i: nat, choir: Choir)
    requires AllMade(t) && Talking(t, s, choir) && Enabled(s, Advance(i))
    ensures Talking(t, StepAdvance(t, s, i), choir)
  {
    var s', first := StepAdvance(t, s, i), s.threads[i][0];
    assert s.threads[i] in s.threads && first in s.threads[i] && ValidAction(t, first);
    AdvanceAsks(t, s, i, choir);
    AdvanceValid(t, s, i);
    ArrivalsOffTheWire(t, first.hop, first.m);
    forall p | p in s'.flights ensures OffTheWire(p.m) {
      assert p in s.flights || p in Arrivals(t, first.hop, first.m);
    }
    forall th, a | th in s'.threads && a in th ensures a.Send? {
      RestComesFrom(s.threads, i, th, a);
    }
  }

  // The answer to one of these questions asks again.
  lemma AnswerAsks(peers: Peers, h: Hop, x: string, choir: Choir, sends: seq<Action>)
    requires WellKeyed(peers) && Sings(choir) && x in choir && KnowsVoice(peers, x, choir[x])
    requires sends == Map(ReplyOn(h), Replies(peers, x))
    ensures exists a :: a in sends && AsksLater(a, choir)
  {
    var v := choir[x];
    var e := peers[Key(x, v.endpoint)];
    ListingExact(peers, x);
    assert IsListed(peers, x, e);
    var j :| 0 <= j < |Listing(peers, x)| && Listing(peers, x)[j] == e;
    assert sends[j] == Send(Back(h), ReplyOf(x, v)) && sends[j] in sends;
    assert Echoes(choir, x, v);
    var y :| y in choir && TakenForQuery(Key(x, v.endpoint), v.time, y);
    assert Query(y) in Wire(sends[j].m) && IsQuestion(Query(y), choir);
  }

  lemma HandledTalks(t: Topology, s: Net, p: Packet, now: Timestamp, choir: Choir)
    requires Lands(t, s, p.hop) && Sings(choir) && OffTheWire(p.m) && OnlySends(s)
    requires forall u :: 0 <= u < |s.nodes| ==> KnowsChoir(s.nodes[u], choir)
    ensures var s' := Handled(t, s, p, now);
            && OnlySends(s') && s'.flights == s.flights && s'.closed == s.closed
            && forall u :: 0 <= u < |s'.nodes| ==> KnowsChoir(s'.nodes[u], choir)
    ensures Asking(s, choir) || IsQuestion(p.m, choir) ==> Asking(Handled(t, s, p, now), choir)
  {
    var r := Receiver(t, p.hop).value;
    if p.m.PeerUpdate? {
      UpdateTalks(t, s, r, p.m, p.hop, now, choir);
    } else {
      var sends := Map(ReplyOn(p.hop), Replies(s.nodes[r].peers, p.m.service));
      SpawnAsking(s, sends, choir);
      SpawnOnlySends(s, sends);
      if IsQuestion(p.m, choir) {
        AnswerAsks(s.nodes[r].peers, p.hop, p.m.service, choir, sends);
      }
    }
  }

  lemma SpawnOnlySends(s: Net, actions: seq<Action>)
    requires OnlySends(s) && forall a :: a in actions ==> a.Send?
    ensures OnlySends(Spawn(s, actions))
  {
    assert forall thread :: thread in Spawn(s, actions).threads ==> thread in s.threads || thread == actions;
  }

  lemma UpdateTalks(t: Topology, s: Net, r: nat, m: Message, h: Hop, now: Timestamp, choir: Choir)
    requires ValidNet(t, s) && r < |t| && ValidHop(t, h) && m.PeerUpdate? && OffTheWire(m)
    requires Sings(choir) && OnlySends(s) && forall u :: 0 <= u < |s.nodes| ==> KnowsChoir(s.nodes[u], choir)
    ensures var s' := OnPeerUpdate(t, s, r, m, h, now);
            && OnlySends(s') && s'.flights == s.flights && s'.closed == s.closed
            && forall u :: 0 <= u < |s'.nodes| ==> KnowsChoir(s'.nodes[u], choir)
    ensures Asking(s, choir) ==> Asking(OnPeerUpdate(t, s, r, m, h, now), choir)
  {
    var sends := Broadcast(t, r, m, PeerAddress(t, h));
    BroadcastActions(t, r, m, PeerAddress(t, h));
    ChoirKept(s.nodes[r], m, now, choir);
    UpdateMoves(t, s, r, m, h, now, sends);
    MovedTalks(s, OnPeerUpdate(t, s, r, m, h, now), r, sends, choir);
  }

  // What an announcement does to the network: one store changes, and one thread more at most.
  lemma UpdateMoves(t: Topology, s: Net, r: nat, m: Message, h: Hop, now: Timestamp, sends: seq<Action>)
    requires ValidNet(t, s) && r < |t| && ValidHop(t, h) && m.PeerUpdate?
    requires sends == Broadcast(t, r, m, PeerAddress(t, h))
    ensures var s' := OnPeerUpdate(t, s, r, m, h, now);
            && s'.flights == s.flights && s'.closed == s.closed
            && (s'.threads == s.threads || s'.threads == Spawn(s, sends).threads)
            && |s'.nodes| == |s.nodes| && (forall u :: 0 <= u < |s.nodes| && u != r ==> s'.nodes[u] == s.nodes[u])
            && s'.nodes[r].peers == Apply(s.nodes[r].peers, AsUpdate(m, now))
  {
  }

  lemma MovedTalks(s: Net, s': Net, r: nat, sends: seq<Action>, choir: Choir)
    requires r < |s.nodes| == |s'.nodes| && forall u :: 0 <= u < |s.nodes| && u != r ==> s'.nodes[u] == s.nodes[u]
    requires OnlySends(s) && forall a :: a in sends ==> a.Send?
    requires forall u :: 0 <= u < |s.nodes| ==> KnowsChoir(s.nodes[u], choir)
    requires KnowsChoir(s.nodes[r].(peers := s'.nodes[r].peers), choir)
    requires s'.flights == s.flights && (s'.threads == s.threads || s'.threads == Spawn(s, sends).threads)
    ensures OnlySends(s') && forall u :: 0 <= u < |s'.nodes| ==> KnowsChoir(s'.nodes[u], choir)
    ensures Asking(s, choir) ==> Asking(s', choir)
  {
    SpawnAsking(s, sends, choir);
    SpawnOnlySends(s, sends);
    forall u | 0 <= u < |s'.nodes| ensures KnowsChoir(s'.nodes[u], choir) {
      assert KnowsChoir(s.nodes[u], choir);
    }
  }

  // A message that is read, and that ends its read only if it is one of the questions.
  lemma LandTalks(t: Topology, s: Net, p: Packet, ends: bool, choir: Choir)
    requires Lands(t, s, p.hop) && Sings(choir) && OffTheWire(p.m) && OnlySends(s) && s.closed == {}
    requires forall u :: 0 <= u < |s.nodes| ==> KnowsChoir(s.nodes[u], choir)
    requires ends ==> IsQuestion(p.m, choir)
    ensures Land(t, s, p, 0, ends) == Handled(t, s, p, 0)
  {
    var r := Receiver(t, p.hop).value;
    if ends {
      QuestionIsListed(s.nodes[r].peers, p.m, choir);
    }
  }

  lemma TakenOffTalks(t: Topology, s: Net, j: nat, i: nat, choir: Choir, landed: Net)
    requires Talking(t, s, choir) && i <= j < |s.flights| && landed == s.(flights := RemoveAt(s.flights, i))
    requires IsQuestion(s.flights[j].m, choir)
    ensures OffTheWire(s.flights[i].m) && forall q :: q in landed.flights ==> OffTheWire(q.m)
    ensures Asking(landed, choir) || IsQuestion(s.flights[i].m, choir)
  {
    assert s.flights[i] in s.flights;
    assert forall q :: q in landed.flights ==> q in s.flights;
    if i < j {
      assert landed.flights[j - 1] == s.flights[j] && s.flights[j] in landed.flights;
    }
  }

  // Reading on the hop where a question waits, up to the question: the read ends only if nothing
  // follows on the hop, and then it ends with the question, which is answered.
  lemma DeliverTalks(t: Topology, s: Net, j: nat, i: nat, choir: Choir, e: Event)
    requires Talking(t, s, choir) && Sings(choir) && i <= j < |s.flights|
    requires s.flights[i].hop == s.flights[j].hop && IsOldest(s, i) && IsQuestion(s.flights[j].m, choir)
    requires e == Deliver(i, 0, !MoreFollows(s, i))
    ensures Enabled(s, e) && Talking(t, StepDeliver(t, s, e), choir)
  {
    var p, landed := s.flights[i], s.(flights := RemoveAt(s.flights, i));
    LandedValid(t, s, i);
    DeliverValid(t, s, e);
    TakenOffTalks(t, s, j, i, choir, landed);
    assert i < j ==> MoreFollows(s, i);
    HandledTalks(t, landed, p, 0, choir);
    LandTalks(t, landed, p, e.ends, choir);
  }

  lemma QuestionIsListed(peers: Peers, m: Message, choir: Choir)
    requires WellKeyed(peers) && IsQuestion(m, choir) && KnowsVoice(peers, m.service, choir[m.service])
    ensures !Concludes(peers, m)
  {
    var e := peers[Key(m.service, choir[m.service].endpoint)];
    ListingExact(peers, m.service);
    assert IsListed(peers, m.service, e);
  }

  // A step of a loop, or a message that is read: nothing is lost.
  predicate IsWorking(e: Event) {
    e.Advance? || e.Deliver?
  }

  // One such step.
  ghost predicate Works(t: Topology, s: Net, e: Event, s': Net) {
    ValidNet(t, s) && Enabled(s, e) && IsWorking(e) && s' == Next(t, s, e)
  }

  lemma TalkingStep(t: Topology, s: Net, choir: Choir) returns (e: Event, s': Net)
    requires AllMade(t) && Talking(t, s, choir) && Sings(choir)
    ensures Works(t, s, e, s') && Talking(t, s', choir)
  {
    if s.threads != [] {
      e, s' := Advance(0), StepAdvance(t, s, 0);
      AdvanceTalks(t, s, 0, choir);
    } else {
      var p :| p in s.flights && IsQuestion(p.m, choir);
      var j :| 0 <= j < |s.flights| && s.flights[j] == p;
      var i := OldestOn(s, p.hop, p);
      e := Deliver(i, 0, !MoreFollows(s, i));
      DeliverTalks(t, s, j, i, choir, e);
      s' := StepDeliver(t, s, e);
    }
  }

  ghost predicate CanGoOn(t: Topology, s: Net, n: nat) {
    exists more :: WorksFor(t, s, more, n)
  }

  ghost predicate WorksFor(t: Topology, s: Net, more: seq<Event>, n: nat) {
    IsRun(t, s, more) && |more| == n && forall i :: 0 <= i < |more| ==> IsWorking(more[i])
  }

  lemma OneMoreStep(t: Topology, s: Net, e: Event, s': Net, n: nat)
    requires Works(t, s, e, s') && CanGoOn(t, s', n)
    ensures CanGoOn(t, s, n + 1)
  {
    var rest :| WorksFor(t, s', rest, n);
    RunOneMore(t, s, e, rest);
    assert WorksFor(t, s, [e] + rest, n + 1);
  }

  // Some such step keeps the invariant.
  ghost predicate StepsOn(t: Topology, s: Net, inv: Net -> bool) {
    inv(s) ==> exists e, s' :: Works(t, s, e, s') && inv(s')
  }

  lemma NoStep(t: Topology, s: Net)
    requires ValidNet(t, s)
    ensures CanGoOn(t, s, 0)
  {
    assert WorksFor(t, s, [], 0);
  }

  lemma {:induction false} GoesOn(t: Topology, s: Net, inv: Net -> bool, n: nat)
    requires inv(s) && forall x {:trigger StepsOn(t, x, inv)} :: StepsOn(t, x, inv)
    ensures CanGoOn(t, s, n)
    decreases n
  {
    assert StepsOn(t, s, inv);
    var e, s' :| Works(t, s, e, s') && inv(s');
    if n == 0 {
      NoStep(t, s);
    } else {
      GoesOn(t, s', inv, n - 1);
      OneMoreStep(t, s, e, s', n - 1);
    }
  }

  lemma TalkingGoesOn(t: Topology, s: Net, choir: Choir, n: nat)
    requires AllMade(t) && Talking(t, s, choir) && Sings(choir)
    ensures CanGoOn(t, s, n)
  {
    var inv := (x: Net) => Talking(t, x, choir);
    forall x ensures StepsOn(t, x, inv) {
      if Talking(t, x, choir) {
        var e, x' := TalkingStep(t, x, choir);
        assert inv(x');
      }
    }
    GoesOn(t, s, inv, n);
  }

  // ---------- and how they come to that ----------

  predicate KnowsSome(n: Node, choir: Choir, done: set<string>) {
    WellKeyed(n.peers) && forall x :: x in done && x in choir ==> KnowsVoice(n.peers, x, choir[x])
  }

  ghost predicate Announces(s: Net, m: Message) {
    exists thread, a :: thread in s.threads && a in thread && a.Send? && a.m == m
  }

  // Both nodes know these clients, and their announcements wait to be sent.
  ghost predicate Rehearsed(t: Topology, s: Net, choir: Choir, done: set<string>) {
    && ValidNet(t, s) && s.closed == {} && s.flights == [] && OnlySends(s)
    && (forall u :: 0 <= u < |s.nodes| ==> KnowsSome(s.nodes[u], choir, done))
    && (forall x :: x in done && x in choir ==> Announces(s, ReplyOf(x, choir[x])))
  }

  function StartOf(u: nat, x: string, v: Voice): Event {
    Start(u, x, v.endpoint, v.time, 0)
  }

  lemma StartKnows(n: Node, n': Node, choir: Choir, done: set<string>, x: string)
    requires KnowsSome(n, choir, done) && x in choir
    requires n'.peers == Apply(n.peers, Update(Key(x, choir[x].endpoint), false, choir[x].time, 0))
    ensures KnowsSome(n', choir, done) && KnowsSome(n', choir, done + {x})
  {
    forall y | y in done + {x} && y in choir ensures KnowsVoice(n'.peers, y, choir[y]) {
      assert y != x ==> KnowsVoice(n.peers, y, choir[y]);
    }
  }

  // What a start at one of the two nodes does.
  ghost predicate Added(s: Net, s': Net, u: nat, x: string, v: Voice) {
    && s'.flights == s.flights && s'.closed == s.closed && OnlySends(s')
    && u < |s.nodes| == |s'.nodes| && s'.nodes == s.nodes[u := s'.nodes[u]]
    && s'.nodes[u].peers == Apply(s.nodes[u].peers, Update(Key(x, v.endpoint), false, v.time, 0))
    && (forall thread :: thread in s.threads ==> thread in s'.threads)
    && (u == 0 ==> Announces(s', ReplyOf(x, v)))
  }

  lemma StartAdds(t: Topology, s: Net, address: string, seen: string, u: nat, x: string, v: Voice, s': Net)
    requires t == Pair(address, seen) && IsOutAddress(address) && ValidNet(t, s) && u < 2
    requires OnlySends(s) && s' == StepStart(t, s, StartOf(u, x, v))
    ensures Added(s, s', u, x, v)
  {
    var m := ReplyOf(x, v);
    var sends := Broadcast(t, u, m, LOCAL_NODE) + Broadcast(t, u, Query(x), LOCAL_NODE);
    BroadcastActions(t, u, m, LOCAL_NODE);
    BroadcastActions(t, u, Query(x), LOCAL_NODE);
    SpawnOnlySends(s.(nodes := s'.nodes), sends);
    if u == 0 {
      OutAddressIsNotLocal(address);
      assert Send(Hop(0, 0, true), m) in sends;
      assert sends in s'.threads;
    }
  }

  lemma StartRehearses(t: Topology, s: Net, choir: Choir, done: set<string>, x: string, s1: Net, s2: Net)
    requires Rehearsed(t, s, choir, done) && x in choir && |s.nodes| == 2 && ValidNet(t, s2)
    requires Added(s, s1, 1, x, choir[x]) && Added(s1, s2, 0, x, choir[x])
    ensures Rehearsed(t, s2, choir, done + {x})
  {
    StartKnows(s.nodes[1], s1.nodes[1], choir, done, x);
    StartKnows(s1.nodes[0], s2.nodes[0], choir, done, x);
    forall y | y in done + {x} && y in choir ensures Announces(s2, ReplyOf(y, choir[y])) {
      if y != x {
        StillAnnounces(s, s2, ReplyOf(y, choir[y]));
      }
    }
  }

  lemma StillAnnounces(s: Net, s': Net, m: Message)
    requires Announces(s, m) && forall thread :: thread in s.threads ==> thread in s'.threads
    ensures Announces(s', m)
  {
    var thread, a :| thread in s.threads && a in thread && a.Send? && a.m == m;
    assert thread in s'.threads;
  }

  predicate StartsFrom(es: seq<Event>, choir: Choir) {
    forall i :: 0 <= i < |es| && es[i].Start? ==> es[i].service in choir && es[i].endpoint == choir[es[i].service].endpoint
  }

  lemma StillReaches(t: Topology, es: seq<Event>, s: Net, more: seq<Event>, s': Net)
    requires Reaches(t, es, s) && IsRun(t, s, more) && s' == After(t, s, more)
    ensures Reaches(t, es + more, s')
  {
    RunsJoin(t, Initial(t), es, more);
  }

  lemma {:induction false} Rehearse(t: Topology, address: string, seen: string, choir: Choir, todo: set<string>)
    returns (es: seq<Event>, s: Net)
    requires t == Pair(address, seen) && IsOutAddress(address) && todo <= choir.Keys
    ensures Reaches(t, es, s) && StartsFrom(es, choir) && Rehearsed(t, s, choir, todo)
    decreases |todo|
  {
    if todo == {} {
      es, s := [], Initial(t);
      NothingRehearsed(t, address, seen, choir);
    } else {
      var x :| x in todo;
      var before, s0 := Rehearse(t, address, seen, choir, todo - {x});
      assert todo - {x} + {x} == todo;
      es, s := RehearseOneMore(t, address, seen, choir, todo - {x}, x, before, s0);
    }
  }

  lemma RehearseOneMore(t: Topology, address: string, seen: string, choir: Choir, done: set<string>, x: string,
                        before: seq<Event>, s0: Net) returns (es: seq<Event>, s: Net)
    requires t == Pair(address, seen) && IsOutAddress(address) && x in choir
    requires Reaches(t, before, s0) && StartsFrom(before, choir) && Rehearsed(t, s0, choir, done)
    ensures Reaches(t, es, s) && StartsFrom(es, choir) && Rehearsed(t, s, choir, done + {x})
  {
    var both, s2 := BothStart(t, s0, address, seen, choir, done, x);
    StillReaches(t, before, s0, both, s2);
    es, s := before + both, s2;
  }

  lemma NothingRehearsed(t: Topology, address: string, seen: string, choir: Choir)
    requires t == Pair(address, seen)
    ensures Reaches(t, [], Initial(t)) && Rehearsed(t, Initial(t), choir, {})
  {
  }

  lemma BothStart(t: Topology, s: Net, address: string, seen: string, choir: Choir, done: set<string>, x: string)
    returns (es: seq<Event>, s2: Net)
    requires t == Pair(address, seen) && IsOutAddress(address) && Rehearsed(t, s, choir, done) && x in choir
    ensures IsRun(t, s, es) && s2 == After(t, s, es) && StartsFrom(es, choir)
    ensures Rehearsed(t, s2, choir, done + {x})
  {
    var first, s1 := StartRuns(t, s, address, seen, 1, x, choir);
    var second, s3 := StartRuns(t, s1, address, seen, 0, x, choir);
    StartRehearses(t, s, choir, done, x, s1, s3);
    RunsFollow(t, s, first, s1, second, s3, choir);
    es, s2 := first + second, s3;
  }

  lemma RunsFollow(t: Topology, s: Net, first: seq<Event>, s1: Net, second: seq<Event>, s2: Net, choir: Choir)
    requires IsRun(t, s, first) && s1 == After(t, s, first) && StartsFrom(first, choir)
    requires IsRun(t, s1, second) && s2 == After(t, s1, second) && StartsFrom(second, choir)
    ensures IsRun(t, s, first + second) && s2 == After(t, s, first + second) && StartsFrom(first + second, choir)
  {
    RunsJoin(t, s, first, second);
  }

  lemma StartRuns(t: Topology, s: Net, address: string, seen: string, u: nat, x: string, choir: Choir)
    returns (es: seq<Event>, s': Net)
    requires t == Pair(address, seen) && IsOutAddress(address) && ValidNet(t, s) && OnlySends(s) && u < 2 && x in choir
    ensures IsRun(t, s, es) && s' == After(t, s, es) && ValidNet(t, s') && StartsFrom(es, choir)
    ensures Added(s, s', u, x, choir[x])
  {
    var e := StartOf(u, x, choir[x]);
    s' := Next(t, s, e);
    NextValid(t, s, e);
    StartAdds(t, s, address, seen, u, x, choir[x], s');
    RunOneMore(t, s, e, []);
    es := [e];
    NothingAdded([e]);
  }

  lemma RehearsedTalks(t: Topology, s: Net, choir: Choir)
    requires Rehearsed(t, s, choir, choir.Keys) && Sings(choir) && choir != map[]
    ensures Talking(t, s, choir)
  {
    var x :| x in choir;
    assert Announces(s, ReplyOf(x, choir[x]));
    var thread, a :| thread in s.threads && a in thread && a.Send? && a.m == ReplyOf(x, choir[x]);
    VoiceAsks(choir, x, a);
    assert Asking(s, choir);
    forall u | 0 <= u < |s.nodes| ensures KnowsChoir(s.nodes[u], choir) {
      assert KnowsSome(s.nodes[u], choir, choir.Keys);
    }
  }

  lemma VoiceAsks(choir: Choir, x: string, a: Action)
    requires Sings(choir) && x in choir && a.Send? && a.m == ReplyOf(x, choir[x])
    ensures AsksLater(a, choir)
  {
    assert Echoes(choir, x, choir[x]);
    var y :| y in choir && TakenForQuery(Key(x, choir[x].endpoint), choir[x].time, y);
    assert Query(y) in Wire(a.m) && IsQuestion(Query(y), choir);
  }

  // Two connected nodes at which clients were started that ask for each other's services come into a
  // state from which, without a client doing anything more and with nothing lost, the network can take
  // any number of steps.
  lemma ChoirGoesOn(t: Topology, address: string, seen: string, choir: Choir) returns (es: seq<Event>, s: Net)
    requires t == Pair(address, seen) && IsOutAddress(address) && Sings(choir) && choir != map[]
    ensures Reaches(t, es, s) && StartsFrom(es, choir) && forall n: nat :: CanGoOn(t, s, n)
  {
    es, s := Rehearse(t, address, seen, choir, choir.Keys);
    RehearsedTalks(t, s, choir);
    forall n: nat ensures CanGoOn(t, s, n) {
      TalkingGoesOn(t, s, choir, n);
    }
  }

  // ---------- the exact condition ----------

  // One client and one time for every service that sustains itself.
  lemma ChoirExists(clients: set<Key>, services: set<string>) returns (choir: Choir)
    requires Sustaining(clients, services)
    ensures choir.Keys == services && Sings(choir) && choir != map[]
    ensures forall x :: x in choir ==> Key(x, choir[x].endpoint) in clients
  {
    choir := VoicesFor(clients, services, services);
    VoicesSing(clients, services, choir);
    assert choir.Keys != {};
  }

  lemma VoicesSing(clients: set<Key>, services: set<string>, choir: Choir)
    requires AllVoices(clients, services, choir) && choir.Keys == services
    ensures Sings(choir) && forall x :: x in choir ==> Key(x, choir[x].endpoint) in clients
  {
    forall x | x in choir ensures Echoes(choir, x, choir[x]) && Key(x, choir[x].endpoint) in clients {
      VoiceEchoes(clients, services, choir, x);
    }
  }

  ghost predicate HasVoice(clients: set<Key>, services: set<string>, x: string, v: Voice) {
    Key(x, v.endpoint) in clients
    && exists y :: y in services && TakenForQuery(Key(x, v.endpoint), v.time, y)
  }

  ghost predicate AllVoices(clients: set<Key>, services: set<string>, choir: Choir) {
    forall x {:trigger HasVoice(clients, services, x, choir[x])} :: x in choir ==> HasVoice(clients, services, x, choir[x])
  }

  lemma {:induction false} VoicesFor(clients: set<Key>, services: set<string>, some: set<string>) returns (choir: Choir)
    requires Sustaining(clients, services) && some <= services
    ensures choir.Keys == some && AllVoices(clients, services, choir)
    decreases |some|
  {
    choir := map[];
    if some == {} {
      assert choir.Keys == some;
    } else {
      var x :| x in some;
      var rest := VoicesFor(clients, services, some - {x});
      var v := VoiceFor(clients, services, x);
      choir := rest[x := v];
      assert choir.Keys == some;
      forall y | y in choir ensures HasVoice(clients, services, y, choir[y]) {
        assert y != x ==> HasVoice(clients, services, y, rest[y]);
      }
    }
  }

  lemma VoiceEchoes(clients: set<Key>, services: set<string>, choir: Choir, x: string)
    requires AllVoices(clients, services, choir) && x in choir && choir.Keys == services
    ensures Echoes(choir, x, choir[x]) && Key(x, choir[x].endpoint) in clients
  {
    assert HasVoice(clients, services, x, choir[x]);
    var y :| y in services && TakenForQuery(Key(x, choir[x].endpoint), choir[x].time, y);
    assert y in choir;
  }

  lemma VoiceFor(clients: set<Key>, services: set<string>, x: string) returns (v: Voice)
    requires Sustaining(clients, services) && x in services
    ensures HasVoice(clients, services, x, v)
  {
    assert AsksAmong(clients, x, services);
    var k: Key, time: Timestamp, y :| k in clients && k.service == x && y in services && TakenForQuery(k, time, y);
    v := Voice(k.endpoint, time);
    assert Key(x, v.endpoint) == k;
  }

  // A run that starts only these clients leads to where the network can go on for ever.
  ghost predicate LeadsOn(t: Topology, es: seq<Event>, s: Net, clients: set<Key>) {
    Reaches(t, es, s) && StartedKeys(es) <= clients && forall n: nat :: CanGoOn(t, s, n)
  }

  lemma FewerSustain(few: set<Key>, many: set<Key>, services: set<string>)
    requires few <= many && Sustaining(few, services)
    ensures Sustaining(many, services)
  {
    forall x | x in services ensures AsksAmong(many, x, services) {
      assert AsksAmong(few, x, services);
      var k: Key, time: Timestamp, y :| k in few && k.service == x && y in services && TakenForQuery(k, time, y);
      assert k in many;
    }
  }

  lemma LeadingOnSustains(t: Topology, es: seq<Event>, s: Net, clients: set<Key>)
    requires LeadsOn(t, es, s, clients)
    ensures exists services :: Sustaining(clients, services)
  {
    if forall services :: !Sustaining(StartedKeys(es), services) {
      EveryRunTerminates(t, es, s, []);
      assert CanGoOn(t, s, StepBound(t, s) + 1);
      var more :| WorksFor(t, s, more, StepBound(t, s) + 1);
      NetworkTerminates(t, s, more);
    } else {
      var services :| Sustaining(StartedKeys(es), services);
      FewerSustain(StartedKeys(es), clients, services);
    }
  }

  // There is a network that can go on for ever after runs of these clients, whatever else happens in
  // them, if and only if there are services for each of which a client's announcement can be taken for
  // a question for one of them again.
  lemma EndlessExactly(clients: set<Key>)
    ensures (exists t, es, s :: LeadsOn(t, es, s, clients)) <==> (exists services :: Sustaining(clients, services))
  {
    if t, es, s :| LeadsOn(t, es, s, clients) {
      LeadingOnSustains(t, es, s, clients);
    }
    if services :| Sustaining(clients, services) {
      SustainedLeadsOn(clients, services);
    }
  }

  lemma SustainedLeadsOn(clients: set<Key>, services: set<string>)
    requires Sustaining(clients, services)
    ensures exists t, es, s :: LeadsOn(t, es, s, clients)
  {
    var choir := ChoirExists(clients, services);
    var address := OutAddress("", 0);
    var t := Pair(address, "");
    var es, s := ChoirGoesOn(t, address, "", choir);
    assert LeadsOn(t, es, s, clients);
  }

  // With a single client: if and only if its announcement, at some time, can be taken for a question
  // for its own service.
  lemma OneNameEndlessExactly(k: Key)
    ensures (exists t, es, s :: LeadsOn(t, es, s, {k})) <==> (exists time :: TakenForQuery(k, time, k.service))
  {
    EndlessExactly({k});
    if services :| Sustaining({k}, services) {
      OneNameSustains(k, services);
    }
    if time :| TakenForQuery(k, time, k.service) {
      assert AsksAmong({k}, k.service, {k.service});
      assert Sustaining({k}, {k.service});
    }
  }

  lemma OneNameSustains(k: Key, services: set<string>)
    requires Sustaining({k}, services)
    ensures exists time :: TakenForQuery(k, time, k.service)
  {
    var x :| x in services;
    assert AsksAmong({k}, x, services);
    var time, y :| y in services && TakenForQuery(k, time, y);
    assert AsksAmong({k}, y, services);
  }

  // ---------- such names exist ----------

  // A name that closes its own line and goes on with a question.
  function Asker(service: string, name: string): string {
    name + [NEWLINE] + QueryLine(service)
  }

  lemma CleanPartsAreLines(service: string, name: string, numeral: string, first: string, second: string)
    requires Clean(service) && Clean(name) && Clean(numeral)
    requires first == PREFIX + " " + "PEER" + " " + service + " " + name
    requires second == QueryLine(service) + " " + numeral
    ensures IsLine(first) && IsLine(second)
  {
    assert IsSpace(NEWLINE);
    assert IsLine(service) && IsLine(name) && IsLine(numeral);
  }

  // An announcement without a time is no message.
  lemma CutAnnouncementIsSkipped(service: string, name: string, first: string)
    requires Clean(service) && Clean(name)
    requires first == PREFIX + " " + "PEER" + " " + service + " " + name
    ensures Accept(first) == []
  {
    KeywordsAreClean();
    WordsSplitAtSpace(PREFIX + " " + "PEER" + " " + service, ' ', name);
    ThreeWords(PREFIX, "PEER", service);
    WordsOfClean(name);
  }

  // A question with a time behind it is a question.
  lemma LongQuestionIsAccepted(service: string, numeral: string, second: string)
    requires Clean(service) && Clean(numeral)
    requires second == QueryLine(service) + " " + numeral
    ensures Accept(second) == [Query(service)]
  {
    KeywordsAreClean();
    WordsSplitAtSpace(QueryLine(service), ' ', numeral);
    ThreeWords(PREFIX, "QUERY", service);
    WordsOfClean(numeral);
  }

  lemma CutInTwo(m: Message, service: string, name: string, numeral: string, first: string, second: string)
    requires m.PeerUpdate? && m.service == service && m.endpoint == Asker(service, name)
    requires numeral == IntToString(m.lastSeen)
    requires first == PREFIX + " " + "PEER" + " " + service + " " + name
    requires second == QueryLine(service) + " " + numeral
    ensures Encode(m) == first + [NEWLINE] + (second + [NEWLINE] + "")
  {
    var head := PREFIX + " " + "PEER" + " " + service + " ";
    assert ToString(m) == head + (name + [NEWLINE] + QueryLine(service)) + " " + numeral;
    RegroupLines(head, name, QueryLine(service), " ", numeral);
  }

  lemma RegroupLines(head: string, name: string, line: string, space: string, numeral: string)
    ensures head + (name + [NEWLINE] + line) + space + numeral + [NEWLINE] ==
            head + name + [NEWLINE] + (line + space + numeral + [NEWLINE] + "")
  {
  }

  lemma TwoLines(first: string, second: string)
    requires IsLine(first) && IsLine(second)
    ensures Framing.Received(first + [NEWLINE] + (second + [NEWLINE] + "")) == Accept(first) + Accept(second)
  {
    FirstLine(first, second + [NEWLINE] + "");
    FirstLine(second, "");
    assert Lines("") == [];
    assert [second] + [] == [second];
    FlatMapAppend(Accept, [first], [second]);
    FlatMapOne(Accept, first);
    FlatMapOne(Accept, second);
  }

  // The announcement of such a name arrives as nothing but the question in it.
  lemma AnswerReadsAsQuestion(m: Message, service: string, name: string)
    requires m.PeerUpdate? && m.service == service && m.endpoint == Asker(service, name)
    requires Clean(service) && Clean(name)
    ensures Wire(m) == [Query(service)]
  {
    var numeral := IntToString(m.lastSeen);
    var first, second := PREFIX + " " + "PEER" + " " + service + " " + name, QueryLine(service) + " " + numeral;
    IntNumeralIsClean(m.lastSeen);
    CleanPartsAreLines(service, name, numeral, first, second);
    CutInTwo(m, service, name, numeral, first, second);
    TwoLines(first, second);
    CutAnnouncementIsSkipped(service, name, first);
    LongQuestionIsAccepted(service, numeral, second);
  }

  // Two connected nodes at which the same client with such a name was started question each other
  // without end.
  lemma AnswersNeedNotEnd(t: Topology, address: string, seen: string, service: string, name: string)
    returns (es: seq<Event>, s: Net)
    requires t == Pair(address, seen) && IsOutAddress(address) && Clean(service) && Clean(name)
    ensures Reaches(t, es, s) && StartedKeys(es) <= {Key(service, Asker(service, name))}
    ensures !Dying(s) && forall n: nat :: CanGoOn(t, s, n)
  {
    var v := Voice(Asker(service, name), 0);
    var choir: Choir := map[service := v];
    AnswerReadsAsQuestion(ReplyOf(service, v), service, name);
    assert [Query(service)][0] in Wire(ReplyOf(service, v));
    assert service in choir && TakenForQuery(Key(service, v.endpoint), v.time, service);
    assert Echoes(choir, service, v);
    es, s := ChoirGoesOn(t, address, seen, choir);
    GoingOnIsNotDying(t, s);
  }

  lemma GoingOnIsNotDying(t: Topology, s: Net)
    requires forall n: nat :: CanGoOn(t, s, n)
    ensures !Dying(s)
  {
    if Dying(s) {
      assert CanGoOn(t, s, StepBound(t, s) + 1);
      var more :| WorksFor(t, s, more, StepBound(t, s) + 1);
      NetworkTerminates(t, s, more);
    }
  }
}
