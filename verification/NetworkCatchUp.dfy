/** A client that starts late catches up: its query fetches what its node's out-peers already know. */
module NetworkCatchUp {
  import opened Types
  import opened Sequences
  import opened Messages
  import opened StoreModel
  import opened Gossip
  import opened Network
  import opened NetworkFlood
  import opened NetworkConnections

  // The question for a service is in flight, or still to be sent.
  ghost predicate Asked(s: Net, h: Hop, service: string) {
    Packet(h, Query(service)) in s.flights || InAnyThread(s, Send(h, Query(service)))
  }

  ghost predicate InAnyThread(s: Net, a: Action) {
    exists thread :: thread in s.threads && a in thread
  }

  // The question or the answer is on the way.
  ghost predicate Coming(s: Net, h: Hop, k: Key) {
    Asked(s, h, k.service) || OnItsWay(s, Back(h), k)
  }

  // The asking node holds the key, or will get it over its still open connection.
  ghost predicate CatchingUp(s: Net, h: Hop, k: Key) {
    Holds(s, h.client, k) || (h !in s.closed && Coming(s, h, k))
  }

  // A question is asked on this connection, to a node that holds the key.
  ghost predicate Consults(t: Topology, s: Net, h: Hop, k: Key) {
    && ValidHop(t, h) && h.up
    && Receiver(t, h).Some? && Holds(s, Receiver(t, h).value, k)
  }

  // The read that closes the connection does not end before the announcement of this peer.
  ghost predicate EndsLate(s: Net, e: Event, h: Hop, k: Key)
    requires Enabled(s, e)
  {
    e.Deliver? && e.ends && s.flights[e.flight].hop == Back(h) && !Carries(Back(h), s.flights[e.flight].m, Back(h), k)
    ==> !Coming(s.(flights := RemoveAt(s.flights, e.flight)), h, k)
  }

  ghost predicate ReadsFarEnough(t: Topology, s: Net, es: seq<Event>, h: Hop, k: Key)
    requires IsRun(t, s, es)
    decreases es
  {
    es == [] || (EndsLate(s, es[0], h, k) && ReadsFarEnough(t, Next(t, s, es[0]), es[1..], h, k))
  }

  // ---------- events that do not concern the answer ----------

  lemma SpawnComing(s: Net, actions: seq<Action>, h: Hop, k: Key)
    ensures Coming(s, h, k) ==> Coming(Spawn(s, actions), h, k)
    ensures Send(h, Query(k.service)) in actions ==> Coming(Spawn(s, actions), h, k)
    ensures InThread(actions, Back(h), k) ==> Coming(Spawn(s, actions), h, k)
  {
    var s' := Spawn(s, actions);
    SpawnedOnItsWay(s, actions, Back(h), k);
    if InAnyThread(s, Send(h, Query(k.service))) {
      var thread :| thread in s.threads && Send(h, Query(k.service)) in thread;
      assert thread in s'.threads;
    }
    if Send(h, Query(k.service)) in actions {
      assert actions in s'.threads;
    }
  }

  lemma StillComing(s: Net, s': Net, h: Hop, k: Key)
    requires s'.flights == s.flights && s'.threads == s.threads
    ensures Coming(s, h, k) ==> Coming(s', h, k)
  {
    if InFlight(s, Back(h), k) {
      assert InFlight(s', Back(h), k);
    } else if thread :| thread in s.threads && InThread(thread, Back(h), k) {
      assert thread in s'.threads;
    }
    if InAnyThread(s, Send(h, Query(k.service))) {
      assert InAnyThread(s', Send(h, Query(k.service)));
    }
  }

  // Nodes that know more, and one thread more.
  lemma SpawnCatchesUp(s: Net, s': Net, actions: seq<Action>, h: Hop, k: Key)
    requires Remembers(s, s') && s'.flights == s.flights && s'.threads == Spawn(s, actions).threads
    requires CatchingUp(s, h, k) && (h in s'.closed ==> h in s.closed)
    ensures CatchingUp(s', h, k)
  {
    SpawnComing(s, actions, h, k);
    StillComing(Spawn(s, actions), s', h, k);
  }

  lemma AdvanceKeepsQuestion(t: Topology, s: Net, i: nat, h: Hop, service: string)
    requires ValidNet(t, s) && Enabled(s, Advance(i)) && CleanNet(s)
    requires ValidHop(t, h) && h.up && Receiver(t, h).Some? && h !in s.closed && Asked(s, h, service)
    ensures Asked(StepAdvance(t, s, i), h, service)
  {
    var s', q := StepAdvance(t, s, i), Send(h, Query(service));
    var first := s.threads[i][0];
    assert s.threads[i] in s.threads && first in s.threads[i];
    SentArrives(t, s, first.hop, first.m);
    if Packet(h, Query(service)) in s.flights {
      assert Packet(h, Query(service)) in s'.flights;
    } else {
      var thread :| thread in s.threads && q in thread;
      RestKeeps(s.threads, i, thread, q);
      if q == first {
        assert Line(h) == h && Packet(h, Query(service)) in s'.flights;
      } else {
        assert InAnyThread(s', q);
      }
    }
  }

  lemma OpenIsNotRefused(t: Topology, s: Net, h: Hop, k: Key)
    requires RefusedAreClosed(s) && Line(h) !in s.closed
    ensures !Refused(s, h, k)
  {
  }

  lemma AdvanceCatchesUp(t: Topology, s: Net, i: nat, h: Hop, k: Key)
    requires ValidNet(t, s) && Enabled(s, Advance(i)) && CleanNet(s) && RefusedAreClosed(s)
    requires Consults(t, s, h, k) && CatchingUp(s, h, k)
    ensures CatchingUp(StepAdvance(t, s, i), h, k)
  {
    AdvanceMovesNoNode(t, s, i);
    AdvanceKeepsRefused(t, s, i, Back(h), k);
    assert Line(Back(h)) == h;
    if h !in s.closed && Asked(s, h, k.service) {
      AdvanceKeepsQuestion(t, s, i, h, k.service);
    } else if h !in s.closed && OnItsWay(s, Back(h), k) {
      AdvanceKeepsWay(t, s, i, Back(h), k);
      OpenIsNotRefused(t, StepAdvance(t, s, i), Back(h), k);
    }
  }

  // ---------- the question, the answer, and the end of the read ----------

  lemma ListedAt(peers: Peers, k: Key) returns (x: nat)
    requires WellKeyed(peers) && AllLive(peers) && k in peers
    ensures x < |Listing(peers, k.service)| && Listing(peers, k.service)[x] == peers[k]
  {
    ListingExact(peers, k.service);
    assert IsListed(peers, k.service, peers[k]);
    x :| 0 <= x < |Listing(peers, k.service)| && Listing(peers, k.service)[x] == peers[k];
  }

  lemma ReplyIncluded(peers: Peers, h: Hop, k: Key, sends: seq<Action>)
    requires WellKeyed(peers) && AllLive(peers) && k in peers
    requires sends == Map(ReplyOn(h), Replies(peers, k.service))
    ensures InThread(sends, Back(h), k)
  {
    var x := ListedAt(peers, k);
    var a := sends[x];
    assert a == Send(Back(h), AsReply(peers[k]));
    assert a in sends && Carries(a.hop, a.m, Back(h), k);
  }

  // The question reaches a node that holds the key: the answer is on its way.
  lemma QuestionAnswered(t: Topology, s: Net, h: Hop, k: Key)
    requires CleanNet(s) && Consults(t, s, h, k)
    ensures Coming(OnQuery(s, Receiver(t, h).value, h, k.service), h, k)
  {
    var r := Receiver(t, h).value;
    assert SoundNode(s.nodes[r]);
    var sends := Map(ReplyOn(h), Replies(s.nodes[r].peers, k.service));
    ReplyIncluded(s.nodes[r].peers, h, k, sends);
    SpawnComing(s, sends, h, k);
  }

  // Taking a packet off leaves the answer coming, but for what that packet was.
  lemma TakenOffComing(s: Net, j: nat, h: Hop, k: Key)
    requires j < |s.flights| && Coming(s, h, k)
    ensures var p := s.flights[j];
            Coming(s.(flights := RemoveAt(s.flights, j)), h, k)
            || p == Packet(h, Query(k.service)) || Carries(p.hop, p.m, Back(h), k)
  {
    var p, s1 := s.flights[j], s.(flights := RemoveAt(s.flights, j));
    forall q | q in s.flights && q != p ensures q in s1.flights {
      var x :| 0 <= x < |s.flights| && s.flights[x] == q;
      assert s1.flights[if x < j then x else x - 1] == q;
    }
    if InFlight(s, Back(h), k) {
      var q :| q in s.flights && Carries(q.hop, q.m, Back(h), k);
      assert q != p ==> InFlight(s1, Back(h), k);
    } else if thread :| thread in s.threads && InThread(thread, Back(h), k) {
      assert thread in s1.threads;
    }
    if InAnyThread(s, Send(h, Query(k.service))) {
      assert InAnyThread(s1, Send(h, Query(k.service)));
    }
  }

  lemma HandledComing(t: Topology, s: Net, p: Packet, now: Timestamp, h: Hop, k: Key)
    requires Lands(t, s, p.hop)
    ensures Coming(s, h, k) ==> Coming(Handled(t, s, p, now), h, k)
  {
    var r, s' := Receiver(t, p.hop).value, Handled(t, s, p, now);
    var sends := if p.m.PeerUpdate? then Broadcast(t, r, p.m, PeerAddress(t, p.hop))
                 else Map(ReplyOn(p.hop), Replies(s.nodes[r].peers, p.m.service));
    SpawnComing(s, sends, h, k);
    if s'.threads == s.threads {
      StillComing(s, s', h, k);
    } else {
      StillComing(Spawn(s, sends), s', h, k);
    }
  }

  // The answer itself arrives.
  lemma AnswerHeld(t: Topology, s: Net, p: Packet, now: Timestamp, h: Hop, k: Key)
    requires Lands(t, s, p.hop) && Carries(p.hop, p.m, Back(h), k) && h.up
    ensures Holds(Handled(t, s, p, now), h.client, k)
  {
  }

  // What the packet itself was good for.
  lemma DeliveredAnswer(t: Topology, landed: Net, p: Packet, now: Timestamp, ends: bool, h: Hop, k: Key)
    requires Lands(t, landed, p.hop) && CleanNet(landed) && Consults(t, landed, h, k) && h !in landed.closed
    requires p == Packet(h, Query(k.service)) || Carries(p.hop, p.m, Back(h), k)
    ensures CatchingUp(Land(t, landed, p, now, ends), h, k)
  {
    if p.hop == h {
      QuestionAnswered(t, landed, h, k);
    } else {
      assert Line(p.hop) == h;
      AnswerHeld(t, landed, p, now, h, k);
    }
  }

  lemma DeliverCatchesUp(t: Topology, s: Net, e: Event, h: Hop, k: Key)
    requires ValidNet(t, s) && Enabled(s, e) && e.Deliver? && CleanNet(s) && EndsLate(s, e, h, k)
    requires Consults(t, s, h, k) && CatchingUp(s, h, k)
    ensures CatchingUp(StepDeliver(t, s, e), h, k)
  {
    var p, landed := s.flights[e.flight], s.(flights := RemoveAt(s.flights, e.flight));
    if Holds(s, h.client, k) {
      DeliverRemembers(t, s, e);
    } else {
      LandedValid(t, s, e.flight);
      TakenOffComing(s, e.flight, h, k);
      if p == Packet(h, Query(k.service)) || Carries(p.hop, p.m, Back(h), k) {
        assert CleanNet(landed);
        DeliveredAnswer(t, landed, p, e.now, e.ends, h, k);
      } else {
        LandKeepsComing(t, landed, p, e, h, k);
      }
    }
  }

  // A read that ends on another connection closes another connection.
  lemma LandKeepsComing(t: Topology, landed: Net, p: Packet, e: Event, h: Hop, k: Key)
    requires Lands(t, landed, p.hop) && e.Deliver? && h.up && h !in landed.closed
    requires Coming(landed, h, k) && (!e.ends || p.hop != Back(h))
    ensures CatchingUp(Land(t, landed, p, e.now, e.ends), h, k)
  {
    var handled, s' := Handled(t, landed, p, e.now), Land(t, landed, p, e.now, e.ends);
    HandledRemembers(t, landed, p, e.now);
    HandledComing(t, landed, p, e.now, h, k);
    assert !p.hop.up && Line(p.hop) == h ==> p.hop == Back(h) && Back(p.hop) == h;
    if !IsUnread(landed, p.hop) {
      StillComing(handled, s', h, k);
    }
  }

  // ---------- what can become of the answer in any run ----------

  // The question was refused, or the answer was refused or not read: the connection was closed.
  ghost predicate Cut(s: Net, h: Hop, k: Key) {
    || (exists p :: p in s.refused && (p == Packet(h, Query(k.service)) || Carries(p.hop, p.m, Back(h), k)))
    || (exists p :: p in s.unread && Carries(p.hop, p.m, Back(h), k))
  }

  ghost predicate Due(s: Net, h: Hop, k: Key) {
    Holds(s, h.client, k) || Cut(s, h, k) || Coming(s, h, k)
  }

  lemma StillCut(s: Net, s': Net, h: Hop, k: Key)
    requires forall p :: p in s.refused ==> p in s'.refused
    requires forall p :: p in s.unread ==> p in s'.unread
    ensures Cut(s, h, k) ==> Cut(s', h, k)
  {
  }

  lemma SpawnDue(s: Net, s': Net, actions: seq<Action>, h: Hop, k: Key)
    requires Remembers(s, s') && s'.flights == s.flights && s'.threads == Spawn(s, actions).threads
    requires s'.refused == s.refused && s'.unread == s.unread
    requires Due(s, h, k)
    ensures Due(s', h, k)
  {
    StillCut(s, s', h, k);
    SpawnComing(s, actions, h, k);
    StillComing(Spawn(s, actions), s', h, k);
  }

  lemma AdvanceDue(t: Topology, s: Net, i: nat, h: Hop, k: Key)
    requires ValidNet(t, s) && Enabled(s, Advance(i)) && CleanNet(s)
    requires Consults(t, s, h, k) && Due(s, h, k)
    ensures Due(StepAdvance(t, s, i), h, k)
  {
    var s', first := StepAdvance(t, s, i), s.threads[i][0];
    AdvanceMovesNoNode(t, s, i);
    StillCut(s, s', h, k);
    if Asked(s, h, k.service) {
      if h !in s.closed {
        AdvanceKeepsQuestion(t, s, i, h, k.service);
      } else {
        AdvanceRefusesQuestion(t, s, i, h, k);
      }
    } else if OnItsWay(s, Back(h), k) {
      AdvanceKeepsWay(t, s, i, Back(h), k);
      assert Refused(s', Back(h), k) ==> Cut(s', h, k);
    }
  }

  lemma AdvanceRefusesQuestion(t: Topology, s: Net, i: nat, h: Hop, k: Key)
    requires ValidNet(t, s) && Enabled(s, Advance(i)) && CleanNet(s)
    requires h.up && h in s.closed && Asked(s, h, k.service)
    ensures Asked(StepAdvance(t, s, i), h, k.service) || Cut(StepAdvance(t, s, i), h, k)
  {
    var s', q, first := StepAdvance(t, s, i), Send(h, Query(k.service)), s.threads[i][0];
    assert s.threads[i] in s.threads && first in s.threads[i];
    if Packet(h, Query(k.service)) in s.flights {
      assert Packet(h, Query(k.service)) in s'.flights;
    } else {
      var thread :| thread in s.threads && q in thread;
      RestKeeps(s.threads, i, thread, q);
      if q == first {
        assert Line(h) == h && Packet(h, Query(k.service)) in s'.refused;
      } else {
        assert InAnyThread(s', q);
      }
    }
  }

  lemma DeliverDue(t: Topology, s: Net, e: Event, h: Hop, k: Key)
    requires ValidNet(t, s) && Enabled(s, e) && e.Deliver? && CleanNet(s)
    requires Consults(t, s, h, k) && Due(s, h, k)
    ensures Due(StepDeliver(t, s, e), h, k)
  {
    var p, landed, s' := s.flights[e.flight], s.(flights := RemoveAt(s.flights, e.flight)), StepDeliver(t, s, e);
    LandedValid(t, s, e.flight);
    HandledRemembers(t, landed, p, e.now);
    HandledMissesNothing(t, landed, p, e.now);
    StillCut(s, s', h, k);
    if Coming(s, h, k) {
      TakenOffComing(s, e.flight, h, k);
      if IsUnread(landed, p.hop) {
        assert p in s'.unread;
        StillComing(landed, s', h, k);
      } else {
        LandedDue(t, landed, p, e.now, h, k);
        StillComing(Handled(t, landed, p, e.now), s', h, k);
      }
    }
  }

  lemma HandledMissesNothing(t: Topology, s: Net, p: Packet, now: Timestamp)
    requires Lands(t, s, p.hop)
    ensures Handled(t, s, p, now).refused == s.refused && Handled(t, s, p, now).unread == s.unread
  {
  }

  lemma LandedDue(t: Topology, landed: Net, p: Packet, now: Timestamp, h: Hop, k: Key)
    requires Lands(t, landed, p.hop) && CleanNet(landed) && Consults(t, landed, h, k)
    requires Coming(landed, h, k) || p == Packet(h, Query(k.service)) || Carries(p.hop, p.m, Back(h), k)
    ensures Holds(Handled(t, landed, p, now), h.client, k) || Coming(Handled(t, landed, p, now), h, k)
  {
    if Coming(landed, h, k) {
      HandledComing(t, landed, p, now, h, k);
    } else if p.hop == h {
      QuestionAnswered(t, landed, h, k);
    } else {
      AnswerHeld(t, landed, p, now, h, k);
    }
  }

  lemma NextDue(t: Topology, s: Net, e: Event, h: Hop, k: Key)
    requires ValidNet(t, s) && Enabled(s, e) && Keeps(e) && CleanNet(s)
    requires Consults(t, s, h, k) && Due(s, h, k)
    ensures Due(Next(t, s, e), h, k)
  {
    NextRemembers(t, s, e);
    match e
    case Start(u, service, _, _, _) =>
      var m := Announced(PeerInfo(service, e.endpoint, e.seen, false));
      SpawnDue(s, Next(t, s, e), Broadcast(t, u, m, LOCAL_NODE) + Broadcast(t, u, Query(service), LOCAL_NODE), h, k);
    case Refresh(u) =>
      var m := Announced(s.nodes[u].self.value.(isRemoved := false));
      SpawnDue(s, Next(t, s, e), Broadcast(t, u, m, LOCAL_NODE), h, k);
    case Advance(i) => AdvanceDue(t, s, i, h, k);
    case Deliver(_, _, _) => DeliverDue(t, s, e, h, k);
  }

  lemma {:induction false} StaysDue(t: Topology, s: Net, es: seq<Event>, h: Hop, k: Key)
    requires IsRun(t, s, es) && AllKeep(es) && OutAddressesOnly(t) && Flooding(t, s)
    requires Consults(t, s, h, k) && Due(s, h, k)
    ensures Due(After(t, s, es), h, k)
    decreases es
  {
    if es != [] {
      NextDue(t, s, es[0], h, k);
      NextRemembers(t, s, es[0]);
      NextFloods(t, s, es[0]);
      StaysDue(t, Next(t, s, es[0]), es[1..], h, k);
    }
  }

  lemma QuestionComes(t: Topology, s: Net, e: Event, i: nat, k: Key)
    requires ValidNet(t, s) && Enabled(s, e) && e.Start? && OutAddressesOnly(t)
    requires e.node < |t| && i < |t[e.node]| && k.service == e.service
    ensures Coming(StepStart(t, s, e), Hop(e.node, i, true), k)
  {
    var u := e.node;
    var announce := Broadcast(t, u, Announced(PeerInfo(e.service, e.endpoint, e.seen, false)), LOCAL_NODE);
    var ask := Broadcast(t, u, Query(e.service), LOCAL_NODE);
    OutAddressIsNotLocal(t[u][i].address);
    BroadcastActions(t, u, Query(e.service), LOCAL_NODE);
    assert Send(Hop(u, i, true), Query(e.service)) in announce + ask;
    SpawnComing(s.(nodes := StepStart(t, s, e).nodes), announce + ask, Hop(u, i, true), k);
  }

  // After the start the question comes, to a node that still holds the key.
  lemma StartConsults(t: Topology, s: Net, e: Event, i: nat, k: Key)
    requires ValidNet(t, s) && Enabled(s, e) && e.Start? && Keeps(e) && OutAddressesOnly(t) && CleanNet(s)
    requires i < |t[e.node]| && t[e.node][i].dest.Some?
    requires Holds(s, t[e.node][i].dest.value, k) && k.service == e.service
    ensures Coming(Next(t, s, e), Hop(e.node, i, true), k)
    ensures Consults(t, Next(t, s, e), Hop(e.node, i, true), k)
  {
    QuestionComes(t, s, e, i, k);
    NextRemembers(t, s, e);
  }

  // Whenever a client starts in a run that loses and forgets nothing: at rest it knows a peer of its
  // service that an out-peer of its node knew when it started, or the question or the answer was cut
  // off by its own node, which had closed the connection.
  lemma AnswerComesOrIsCut(t: Topology, before: seq<Event>, s: Net, e: Event, after: seq<Event>, s': Net,
                             i: nat, k: Key)
    requires Reaches(t, before, s) && AllKeep(before) && OutAddressesOnly(t)
    requires Enabled(s, e) && e.Start? && Keeps(e)
    requires IsRun(t, Next(t, s, e), after) && AllKeep(after)
    requires s' == After(t, Next(t, s, e), after) && Quiescent(s')
    requires i < |t[e.node]| && t[e.node][i].dest.Some?
    requires Holds(s, t[e.node][i].dest.value, k) && k.service == e.service
    ensures Holds(s', e.node, k) || Cut(s', Hop(e.node, i, true), k)
  {
    RunFloods(t, before, s);
    StartConsults(t, s, e, i, k);
    NextFloods(t, s, e);
    DueAtRest(t, Next(t, s, e), after, s', Hop(e.node, i, true), k);
  }

  lemma DueAtRest(t: Topology, s: Net, es: seq<Event>, s': Net, h: Hop, k: Key)
    requires IsRun(t, s, es) && AllKeep(es) && OutAddressesOnly(t) && Flooding(t, s)
    requires Consults(t, s, h, k) && Due(s, h, k)
    requires s' == After(t, s, es) && Quiescent(s')
    ensures Holds(s', h.client, k) || Cut(s', h, k)
  {
    StaysDue(t, s, es, h, k);
  }

  // ---------- reads that go far enough ----------

  lemma NextCatchesUp(t: Topology, s: Net, e: Event, h: Hop, k: Key)
    requires ValidNet(t, s) && Enabled(s, e) && Keeps(e) && CleanNet(s) && RefusedAreClosed(s) && EndsLate(s, e, h, k)
    requires Consults(t, s, h, k) && CatchingUp(s, h, k)
    ensures CatchingUp(Next(t, s, e), h, k)
  {
    NextRemembers(t, s, e);
    match e
    case Start(u, service, _, _, _) =>
      var m := Announced(PeerInfo(service, e.endpoint, e.seen, false));
      SpawnCatchesUp(s, Next(t, s, e),
                     Broadcast(t, u, m, LOCAL_NODE) + Broadcast(t, u, Query(service), LOCAL_NODE), h, k);
    case Refresh(u) =>
      var m := Announced(s.nodes[u].self.value.(isRemoved := false));
      SpawnCatchesUp(s, Next(t, s, e), Broadcast(t, u, m, LOCAL_NODE), h, k);
    case Advance(i) => AdvanceCatchesUp(t, s, i, h, k);
    case Deliver(_, _, _) => DeliverCatchesUp(t, s, e, h, k);
  }

  lemma {:induction false} KeepsCatchingUp(t: Topology, s: Net, es: seq<Event>, h: Hop, k: Key)
    requires IsRun(t, s, es) && AllKeep(es) && ReadsFarEnough(t, s, es, h, k) && OutAddressesOnly(t) && Flooding(t, s)
    requires Consults(t, s, h, k) && CatchingUp(s, h, k)
    ensures CatchingUp(After(t, s, es), h, k)
    decreases es
  {
    if es != [] {
      NextCatchesUp(t, s, es[0], h, k);
      NextRemembers(t, s, es[0]);
      NextFloods(t, s, es[0]);
      KeepsCatchingUp(t, Next(t, s, es[0]), es[1..], h, k);
    }
  }

  // The first client of a node finds every connection open.
  lemma FirstFindsOpen(t: Topology, es: seq<Event>, s: Net, h: Hop)
    requires Reaches(t, es, s) && AllKeep(es) && OutAddressesOnly(t)
    requires h.client < |t| && s.nodes[h.client].started == {}
    ensures h !in s.closed
  {
    RunInOrder(t, es, s);
  }

  lemma StartCatchesUp(t: Topology, s: Net, e: Event, i: nat, k: Key)
    requires ValidNet(t, s) && Enabled(s, e) && e.Start? && Keeps(e) && OutAddressesOnly(t) && CleanNet(s)
    requires i < |t[e.node]| && t[e.node][i].dest.Some? && Hop(e.node, i, true) !in s.closed
    requires Holds(s, t[e.node][i].dest.value, k) && k.service == e.service
    ensures CatchingUp(Next(t, s, e), Hop(e.node, i, true), k)
    ensures Consults(t, Next(t, s, e), Hop(e.node, i, true), k)
  {
    StartConsults(t, s, e, i, k);
  }

  // A client that starts when a connection of its node is open, such as the first one of the node,
  // knows at rest every peer of its service that the other end knew when it started: in a run that
  // loses and forgets nothing, and in which the read that closes the connection holds that peer.
  lemma LateStarterCatchesUp(t: Topology, before: seq<Event>, s: Net, e: Event, after: seq<Event>, s': Net,
                             i: nat, k: Key)
    requires Reaches(t, before, s) && AllKeep(before) && OutAddressesOnly(t)
    requires Enabled(s, e) && e.Start? && Keeps(e)
    requires IsRun(t, Next(t, s, e), after) && AllKeep(after)
    requires ReadsFarEnough(t, Next(t, s, e), after, Hop(e.node, i, true), k)
    requires s' == After(t, Next(t, s, e), after) && Quiescent(s')
    requires i < |t[e.node]| && t[e.node][i].dest.Some? && Hop(e.node, i, true) !in s.closed
    requires Holds(s, t[e.node][i].dest.value, k) && k.service == e.service
    ensures Holds(s', e.node, k)
  {
    RunFloods(t, before, s);
    StartCatchesUp(t, s, e, i, k);
    NextFloods(t, s, e);
    RestHolds(t, Next(t, s, e), after, s', Hop(e.node, i, true), k);
  }

  lemma RestHolds(t: Topology, s: Net, es: seq<Event>, s': Net, h: Hop, k: Key)
    requires IsRun(t, s, es) && AllKeep(es) && ReadsFarEnough(t, s, es, h, k) && OutAddressesOnly(t) && Flooding(t, s)
    requires Consults(t, s, h, k) && CatchingUp(s, h, k)
    requires s' == After(t, s, es) && Quiescent(s')
    ensures Holds(s', h.client, k)
  {
    KeepsCatchingUp(t, s, es, h, k);
  }
}
