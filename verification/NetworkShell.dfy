/** What the steps of the network come to: starts, refreshes, stops and deliveries, run to their end. */
module NetworkShell {
  import opened Types
  import opened Sequences
  import opened Messages
  import opened Framing
  import opened StoreModel
  import opened Gossip
  import opened Network
  import opened PeboNet

  // ---------- what is in flight on one hop ----------

  // The messages on a hop, oldest first.
  function FlightsOn(flights: seq<Packet>, h: Hop): seq<Message> {
    if flights == [] then []
    else (if flights[0].hop == h then [flights[0].m] else []) + FlightsOn(flights[1..], h)
  }

  lemma {:induction false} FlightsOnAppend(a: seq<Packet>, b: seq<Packet>, h: Hop)
    ensures FlightsOn(a + b, h) == FlightsOn(a, h) + FlightsOn(b, h)
  {
    if a == [] {
      assert a + b == b;
    } else {
      assert (a + b)[1..] == a[1..] + b;
      FlightsOnAppend(a[1..], b, h);
    }
  }

  lemma {:induction false} FlightsOnMapped(x: Hop, ms: seq<Message>, h: Hop)
    ensures FlightsOn(Map(OnHop(x), ms), h) == if x == h then ms else []
  {
    if ms != [] {
      FlightsOnMapped(x, ms[1..], h);
      assert Map(OnHop(x), ms)[1..] == Map(OnHop(x), ms[1..]);
    }
  }

  lemma {:induction false} NoFlightsOn(flights: seq<Packet>, h: Hop)
    ensures FlightsOn(flights, h) == [] <==> forall i :: 0 <= i < |flights| ==> flights[i].hop != h
  {
    if flights != [] {
      NoFlightsOn(flights[1..], h);
      assert forall i :: 1 <= i < |flights| ==> flights[i] == flights[1..][i - 1];
    }
  }

  lemma FlightsAround(flights: seq<Packet>, j: nat, h: Hop)
    requires j < |flights|
    ensures FlightsOn(flights, h) ==
            FlightsOn(flights[..j], h) + (if flights[j].hop == h then [flights[j].m] else [])
            + FlightsOn(flights[j + 1..], h)
    ensures FlightsOn(RemoveAt(flights, j), h) == FlightsOn(flights[..j], h) + FlightsOn(flights[j + 1..], h)
  {
    var front, back := flights[..j], flights[j + 1..];
    assert flights == front + ([flights[j]] + back);
    FlightsOnAppend(front, [flights[j]] + back, h);
    assert ([flights[j]] + back)[1..] == back;
    FlightsOnAppend(front, back, h);
  }

  // Exactly the first message on each hop can be delivered, and its read can go on exactly when another
  // one follows on the hop.
  lemma DeliverableExactly(s: Net, h: Hop, now: Timestamp)
    ensures (exists j :: 0 <= j < |s.flights| && s.flights[j].hop == h && Enabled(s, Deliver(j, now, true)))
            <==> FlightsOn(s.flights, h) != []
    ensures forall j :: 0 <= j < |s.flights| && s.flights[j].hop == h && Enabled(s, Deliver(j, now, true)) ==>
              && FlightsOn(s.flights, h) != [] && FlightsOn(s.flights, h)[0] == s.flights[j].m
              && FlightsOn(RemoveAt(s.flights, j), h) == FlightsOn(s.flights, h)[1..]
              && (Enabled(s, Deliver(j, now, false)) <==> |FlightsOn(s.flights, h)| > 1)
  {
    forall j: nat | 0 <= j < |s.flights| && s.flights[j].hop == h && Enabled(s, Deliver(j, now, true))
      ensures && FlightsOn(s.flights, h) != [] && FlightsOn(s.flights, h)[0] == s.flights[j].m
              && FlightsOn(RemoveAt(s.flights, j), h) == FlightsOn(s.flights, h)[1..]
              && (Enabled(s, Deliver(j, now, false)) <==> |FlightsOn(s.flights, h)| > 1)
    {
      FirstOnHop(s, j, now);
    }
    NoFlightsOn(s.flights, h);
    if FlightsOn(s.flights, h) != [] {
      var j := FirstFlight(s.flights, h);
      assert Enabled(s, Deliver(j, now, true));
    }
  }

  lemma FirstOnHop(s: Net, j: nat, now: Timestamp)
    requires j < |s.flights| && IsOldest(s, j)
    ensures var h := s.flights[j].hop;
            && FlightsOn(s.flights, h) == [s.flights[j].m] + FlightsOn(RemoveAt(s.flights, j), h)
            && (MoreFollows(s, j) <==> |FlightsOn(s.flights, h)| > 1)
    ensures forall h :: h != s.flights[j].hop ==> FlightsOn(RemoveAt(s.flights, j), h) == FlightsOn(s.flights, h)
  {
    var h := s.flights[j].hop;
    FlightsAround(s.flights, j, h);
    NoFlightsOn(s.flights[..j], h);
    NoFlightsOn(s.flights[j + 1..], h);
    assert MoreFollows(s, j) <==> FlightsOn(s.flights[j + 1..], h) != [] by {
      if MoreFollows(s, j) {
        var i :| j < i < |s.flights| && s.flights[i].hop == h;
        assert s.flights[j + 1..][i - j - 1].hop == h;
      }
    }
    forall x | x != h ensures FlightsOn(RemoveAt(s.flights, j), x) == FlightsOn(s.flights, x) {
      FlightsAround(s.flights, j, x);
    }
  }

  lemma {:induction false} FirstFlight(flights: seq<Packet>, h: Hop) returns (j: nat)
    requires FlightsOn(flights, h) != []
    ensures j < |flights| && flights[j].hop == h && forall i :: 0 <= i < j ==> flights[i].hop != h
  {
    if flights[0].hop == h {
      j := 0;
    } else {
      j := FirstFlight(flights[1..], h);
      j := j + 1;
    }
  }

  // ---------- a thread run to its end ----------

  // So many times the next action of this thread.
  function Advances(n: nat, thread: nat): (es: seq<Event>)
    ensures |es| == n && forall k :: 0 <= k < n ==> es[k] == Advance(thread)
  {
    if n == 0 then [] else [Advance(thread)] + Advances(n - 1, thread)
  }

  lemma AdvancesFirst(n: nat, thread: nat)
    requires n > 0
    ensures Advances(n, thread) == [Advance(thread)] + Advances(n - 1, thread)
  {
  }

  predicate AllValid(t: Topology, actions: seq<Action>) {
    forall i :: 0 <= i < |actions| ==> ValidAction(t, actions[i])
  }

  // What these actions bring onto a hop.
  function Brings(t: Topology, closed: set<Hop>, actions: seq<Action>, h: Hop): seq<Message>
    requires AllValid(t, actions)
  {
    if actions == [] then []
    else Brought(t, closed, actions[0], h) + Brings(t, closed, actions[1..], h)
  }

  function Brought(t: Topology, closed: set<Hop>, a: Action, h: Hop): seq<Message>
    requires ValidAction(t, a)
  {
    if a.Send? && a.hop == h && Line(h) !in closed && Receiver(t, h).Some? then Wire(a.m) else []
  }

  lemma {:induction false} BringsAppend(t: Topology, closed: set<Hop>, a: seq<Action>, b: seq<Action>, h: Hop)
    requires AllValid(t, a) && AllValid(t, b)
    ensures AllValid(t, a + b) && Brings(t, closed, a + b, h) == Brings(t, closed, a, h) + Brings(t, closed, b, h)
  {
    if a == [] {
      assert a + b == b;
    } else {
      assert (a + b)[1..] == a[1..] + b && (a + b)[0] == a[0];
      BringsAppend(t, closed, a[1..], b, h);
      assert AllValid(t, a + b) by {
        assert forall i :: 0 <= i < |a + b| ==> (a + b)[i] == if i < |a| then a[i] else b[i - |a|];
      }
      Associative(Brought(t, closed, a[0], h), Brings(t, closed, a[1..], h), Brings(t, closed, b, h));
    }
  }

  function Cleared(nodes: seq<Node>, actions: seq<Action>): seq<Node>
    requires forall i :: 0 <= i < |actions| && actions[i].ClearStore? ==> actions[i].node < |nodes|
    decreases |actions|
  {
    if actions == [] then nodes
    else if actions[0].ClearStore? then
      var u := actions[0].node;
      Cleared(nodes[u := nodes[u].(peers := map[])], actions[1..])
    else Cleared(nodes, actions[1..])
  }

  // Nothing but stores, threads, flights and the record of refused sends changes.
  predicate OnlySending(s: Net, s': Net) {
    s'.closed == s.closed && s'.relays == s.relays && s'.unread == s.unread && s'.news == s.news
  }

  // In between these actions were done.
  ghost predicate Done(t: Topology, s: Net, s': Net, actions: seq<Action>)
    requires ValidNet(t, s) && AllValid(t, actions)
  {
    && OnlySending(s, s') && s'.nodes == Cleared(s.nodes, actions)
    && forall h :: FlightsOn(s'.flights, h) == FlightsOn(s.flights, h) + Brings(t, s.closed, actions, h)
  }

  lemma PerformBrings(t: Topology, s: Net, a: Action, h: Hop)
    requires ValidNet(t, s) && ValidAction(t, a)
    ensures FlightsOn(Perform(t, s, a).flights, h) == FlightsOn(s.flights, h) + Brought(t, s.closed, a, h)
  {
    if a.Send? && Line(a.hop) !in s.closed {
      FlightsOnAppend(s.flights, Arrivals(t, a.hop, a.m), h);
      FlightsOnMapped(a.hop, Wire(a.m), h);
    }
  }

  lemma OneActionDone(t: Topology, s: Net, i: nat, a: Action, s1: Net)
    requires ValidNet(t, s) && i < |s.threads| && s.threads[i][0] == a && s1 == StepAdvance(t, s, i)
    requires ValidAction(t, a)
    ensures OnlySending(s, s1)
    ensures s1.nodes == if a.ClearStore? then s.nodes[a.node := s.nodes[a.node].(peers := map[])] else s.nodes
    ensures forall h :: FlightsOn(s1.flights, h) == FlightsOn(s.flights, h) + Brought(t, s.closed, a, h)
  {
    forall h ensures FlightsOn(s1.flights, h) == FlightsOn(s.flights, h) + Brought(t, s.closed, a, h) {
      PerformBrings(t, s, a, h);
    }
  }

  lemma DoneFirst(t: Topology, s: Net, s1: Net, s': Net, actions: seq<Action>)
    requires ValidNet(t, s) && ValidNet(t, s1) && actions != [] && AllValid(t, actions)
    requires OnlySending(s, s1)
    requires var a := actions[0];
             s1.nodes == if a.ClearStore? then s.nodes[a.node := s.nodes[a.node].(peers := map[])] else s.nodes
    requires forall h :: FlightsOn(s1.flights, h) == FlightsOn(s.flights, h) + Brought(t, s.closed, actions[0], h)
    requires AllValid(t, actions[1..]) && Done(t, s1, s', actions[1..])
    ensures Done(t, s, s', actions)
  {
    forall h ensures FlightsOn(s'.flights, h) == FlightsOn(s.flights, h) + Brings(t, s.closed, actions, h) {
      Associative(FlightsOn(s.flights, h), Brought(t, s.closed, actions[0], h), Brings(t, s.closed, actions[1..], h));
    }
  }

  // The last thread has gone on to its end and is gone.
  ghost predicate Ran(t: Topology, s: Net, others: seq<seq<Action>>, actions: seq<Action>, s': Net)
    requires ValidNet(t, s) && AllValid(t, actions)
  {
    && RunsFrom(t, s, Advances(|actions|, |others|), s')
    && s'.threads == others && Done(t, s, s', actions)
  }

  ghost predicate RunsFrom(t: Topology, s: Net, es: seq<Event>, s': Net) {
    IsRun(t, s, es) && s' == After(t, s, es)
  }

  lemma NothingRuns(t: Topology, s: Net)
    requires ValidNet(t, s)
    ensures Ran(t, s, s.threads, [], s)
  {
  }

  lemma OneMoreRan(t: Topology, s: Net, s1: Net, others: seq<seq<Action>>, n: nat, s': Net)
    requires Happens(t, s, Advance(|others|), s1) && RunsFrom(t, s1, Advances(n, |others|), s')
    ensures RunsFrom(t, s, Advances(n + 1, |others|), s')
  {
    AdvancesFirst(n + 1, |others|);
    EventFirst(t, s, Advance(|others|), s1, Advances(n, |others|), Advances(n + 1, |others|));
  }

  lemma {:induction false} ThreadRuns(t: Topology, s: Net, others: seq<seq<Action>>, actions: seq<Action>)
    returns (s': Net)
    requires ValidNet(t, s) && AllValid(t, actions)
    requires s.threads == if actions == [] then others else others + [actions]
    ensures Ran(t, s, others, actions, s')
    decreases |actions|
  {
    if actions == [] {
      s' := s;
      NothingRuns(t, s);
    } else {
      var s1 := FirstActionRuns(t, s, others, actions);
      s' := ThreadRuns(t, s1, others, actions[1..]);
      OneMoreRan(t, s, s1, others, |actions| - 1, s');
      DoneFirst(t, s, s1, s', actions);
    }
  }

  lemma FirstActionRuns(t: Topology, s: Net, others: seq<seq<Action>>, actions: seq<Action>) returns (s1: Net)
    requires ValidNet(t, s) && AllValid(t, actions) && actions != [] && s.threads == others + [actions]
    ensures Happens(t, s, Advance(|others|), s1) && ValidNet(t, s1)
    ensures s1.threads == if actions[1..] == [] then others else others + [actions[1..]]
    ensures OnlySending(s, s1)
    ensures var a := actions[0];
            s1.nodes == if a.ClearStore? then s.nodes[a.node := s.nodes[a.node].(peers := map[])] else s.nodes
    ensures forall h :: FlightsOn(s1.flights, h) == FlightsOn(s.flights, h) + Brought(t, s.closed, actions[0], h)
  {
    var i := |others|;
    s1 := StepAdvance(t, s, i);
    AdvanceValid(t, s, i);
    RestOfLast(others, actions);
    OneActionDone(t, s, i, actions[0], s1);
  }

  lemma RestOfLast(others: seq<seq<Action>>, actions: seq<Action>)
    requires actions != []
    ensures Rest(others + [actions], |others|) == if actions[1..] == [] then others else others + [actions[1..]]
  {
  }

  // ---------- what broadcasts and answers bring ----------

  // A connected link of this node that is not closed.
  predicate IsOpenLink(t: Topology, closed: set<Hop>, u: nat, h: Hop) {
    ValidHop(t, h) && h.up && h.client == u && LinkOf(t, h).dest.Some? && h !in closed
  }

  lemma SendsValid(t: Topology, u: nat, m: Message, targets: seq<nat>)
    requires u < |t| && forall i :: 0 <= i < |targets| ==> targets[i] < |t[u]|
    ensures AllValid(t, Map(SendTo(u, m), targets))
  {
  }

  lemma {:induction false} SendsBring(t: Topology, closed: set<Hop>, u: nat, m: Message, targets: seq<nat>, h: Hop)
    requires u < |t| && forall i :: 0 <= i < |targets| ==> targets[i] < |t[u]|
    requires forall i, j :: 0 <= i < j < |targets| ==> targets[i] < targets[j]
    ensures AllValid(t, Map(SendTo(u, m), targets))
    ensures Brings(t, closed, Map(SendTo(u, m), targets), h) ==
            if IsOpenLink(t, closed, u, h) && h.index in targets then Wire(m) else []
  {
    SendsValid(t, u, m, targets);
    if targets != [] {
      SendsBring(t, closed, u, m, targets[1..], h);
      assert Map(SendTo(u, m), targets)[1..] == Map(SendTo(u, m), targets[1..]);
      assert h.index in targets <==> h.index == targets[0] || h.index in targets[1..];
      assert h.index == targets[0] ==> h.index !in targets[1..];
      FirstSendBrings(t, closed, u, m, targets[0], h);
    }
  }

  lemma FirstSendBrings(t: Topology, closed: set<Hop>, u: nat, m: Message, i: nat, h: Hop)
    requires u < |t| && i < |t[u]|
    ensures Brought(t, closed, Send(Hop(u, i, true), m), h) ==
            if IsOpenLink(t, closed, u, h) && h.index == i then Wire(m) else []
  {
  }

  lemma BroadcastBrings(t: Topology, closed: set<Hop>, u: nat, m: Message, previousHop: string, h: Hop)
    requires u < |t|
    ensures AllValid(t, Broadcast(t, u, m, previousHop))
    ensures Brings(t, closed, Broadcast(t, u, m, previousHop), h) ==
            if IsOpenLink(t, closed, u, h) && LinkOf(t, h).address != previousHop then Wire(m) else []
  {
    var addresses := AddressesOf(t[u]);
    var targets := Targets(addresses, previousHop);
    TargetsExact(addresses, previousHop);
    forall i | 0 <= i < |targets| ensures targets[i] < |t[u]| {
      assert targets[i] in targets;
    }
    SendsBring(t, closed, u, m, targets, h);
  }

  lemma {:induction false} AnswersBring(t: Topology, closed: set<Hop>, x: Hop, ms: seq<Message>, h: Hop)
    requires ValidHop(t, Back(x))
    ensures AllValid(t, Map(ReplyOn(x), ms))
    ensures Brings(t, closed, Map(ReplyOn(x), ms), h) ==
            if h == Back(x) && Line(h) !in closed && Receiver(t, h).Some? then WireAll(ms) else []
  {
    if ms != [] {
      AnswersBring(t, closed, x, ms[1..], h);
      assert Map(ReplyOn(x), ms)[1..] == Map(ReplyOn(x), ms[1..]);
    }
  }

  // A message from here goes on every open link.
  lemma LocalBroadcastBrings(t: Topology, closed: set<Hop>, u: nat, m: Message, h: Hop)
    requires u < |t| && OutAddressesOnly(t)
    ensures AllValid(t, Broadcast(t, u, m, LOCAL_NODE))
    ensures Brings(t, closed, Broadcast(t, u, m, LOCAL_NODE), h) == if IsOpenLink(t, closed, u, h) then Wire(m) else []
  {
    BroadcastBrings(t, closed, u, m, LOCAL_NODE, h);
    if IsOpenLink(t, closed, u, h) {
      OutAddressIsNotLocal(LinkOf(t, h).address);
    }
  }

  lemma {:induction false} NothingCleared(nodes: seq<Node>, actions: seq<Action>)
    requires forall i :: 0 <= i < |actions| ==> actions[i].Send?
    ensures Cleared(nodes, actions) == nodes
  {
    if actions != [] {
      NothingCleared(nodes, actions[1..]);
    }
  }

  lemma {:induction false} ClearedLast(nodes: seq<Node>, actions: seq<Action>, u: nat)
    requires u < |nodes| && forall i :: 0 <= i < |actions| ==> actions[i].Send?
    ensures Cleared(nodes, actions + [ClearStore(u)]) == nodes[u := nodes[u].(peers := map[])]
  {
    if actions == [] {
      assert [] + [ClearStore(u)] == [ClearStore(u)];
      assert [ClearStore(u)][1..] == [];
    } else {
      assert (actions + [ClearStore(u)])[1..] == actions[1..] + [ClearStore(u)];
      ClearedLast(nodes, actions[1..], u);
    }
  }

  // ---------- starts, refreshes and stops ----------

  // These events lead from s to s', with the same threads at the end as before.
  ghost predicate RunsTo(t: Topology, s: Net, es: seq<Event>, s': Net) {
    IsRun(t, s, es) && s' == After(t, s, es) && s'.threads == s.threads
  }

  // Whatever is in flight on a hop besides what was, is this on the open links of u.
  ghost predicate Gained(t: Topology, s: Net, s': Net, u: nat, ms: seq<Message>) {
    forall h :: FlightsOn(s'.flights, h) == FlightsOn(s.flights, h) + if IsOpenLink(t, s.closed, u, h) then ms else []
  }

  // An event that only sets a thread going, and the thread run to its end.
  lemma SpawnedRuns(t: Topology, s: Net, e: Event, s1: Net, actions: seq<Action>) returns (s': Net)
    requires Happens(t, s, e, s1) && AllValid(t, actions) && ValidNet(t, s1)
    requires s1.threads == Spawn(s, actions).threads && s1.flights == s.flights
    ensures RunsTo(t, s, [e] + Advances(|actions|, |s.threads|), s')
    ensures Done(t, s1, s', actions)
  {
    s' := ThreadRuns(t, s1, s.threads, actions);
    EventFirst(t, s, e, s1, Advances(|actions|, |s.threads|), [e] + Advances(|actions|, |s.threads|));
  }

  // An event after which a thread brings the same messages onto every open link of a node.
  lemma SpawnedGains(t: Topology, s: Net, e: Event, s1: Net, actions: seq<Action>, u: nat, ms: seq<Message>)
    returns (s': Net)
    requires Happens(t, s, e, s1) && AllValid(t, actions) && ValidNet(t, s1)
    requires s1.threads == Spawn(s, actions).threads && s1.flights == s.flights && OnlySending(s, s1)
    requires forall h :: Brings(t, s.closed, actions, h) == if IsOpenLink(t, s.closed, u, h) then ms else []
    ensures RunsTo(t, s, [e] + Advances(|actions|, |s.threads|), s') && OnlySending(s, s')
    ensures s'.nodes == Cleared(s1.nodes, actions) && Gained(t, s, s', u, ms)
  {
    s' := SpawnedRuns(t, s, e, s1, actions);
  }

  // Refreshing a client, run to its end: every open link gains its announcement, nothing else moves.
  lemma RefreshRuns(t: Topology, s: Net, u: nat, me: PeerInfo) returns (n: nat, s': Net)
    requires ValidNet(t, s) && OutAddressesOnly(t) && u < |s.nodes| && s.nodes[u].self == Some(me)
    ensures RunsTo(t, s, [Refresh(u)] + Advances(n, |s.threads|), s') && OnlySending(s, s')
    ensures s'.nodes == s.nodes
    ensures Gained(t, s, s', u, Wire(PeerUpdate(me.service, me.endpoint, me.lastSeen, false)))
  {
    var m := PeerUpdate(me.service, me.endpoint, me.lastSeen, false);
    var actions := Broadcast(t, u, m, LOCAL_NODE);
    LocalBroadcastsBring(t, s.closed, u, m);
    NextValid(t, s, Refresh(u));
    n := |actions|;
    s' := SpawnedGains(t, s, Refresh(u), Next(t, s, Refresh(u)), actions, u, Wire(m));
    BroadcastActions(t, u, m, LOCAL_NODE);
    NothingCleared(s.nodes, actions);
  }

  lemma LocalBroadcastsBring(t: Topology, closed: set<Hop>, u: nat, m: Message)
    requires u < |t| && OutAddressesOnly(t)
    ensures AllValid(t, Broadcast(t, u, m, LOCAL_NODE))
    ensures forall h :: Brings(t, closed, Broadcast(t, u, m, LOCAL_NODE), h) ==
                        if IsOpenLink(t, closed, u, h) then Wire(m) else []
  {
    LocalBroadcastBrings(t, closed, u, m, Hop(u, 0, true));
    forall h ensures Brings(t, closed, Broadcast(t, u, m, LOCAL_NODE), h) ==
                     if IsOpenLink(t, closed, u, h) then Wire(m) else []
    {
      LocalBroadcastBrings(t, closed, u, m, h);
    }
  }

  // A thread of sends on the open links of a node, followed by another thread on them.
  lemma BringBoth(t: Topology, closed: set<Hop>, u: nat, a: seq<Action>, b: seq<Action>, ms: seq<Message>,
                  more: seq<Message>)
    requires AllValid(t, a) && AllValid(t, b)
    requires forall h :: Brings(t, closed, a, h) == if IsOpenLink(t, closed, u, h) then ms else []
    requires forall h :: Brings(t, closed, b, h) == if IsOpenLink(t, closed, u, h) then more else []
    ensures AllValid(t, a + b)
    ensures forall h :: Brings(t, closed, a + b, h) == if IsOpenLink(t, closed, u, h) then ms + more else []
  {
    BringsAppend(t, closed, a, b, Hop(u, 0, true));
    forall h ensures Brings(t, closed, a + b, h) == if IsOpenLink(t, closed, u, h) then ms + more else [] {
      BringsAppend(t, closed, a, b, h);
    }
  }

  lemma ClearingBrings(t: Topology, closed: set<Hop>, u: nat)
    requires u < |t|
    ensures AllValid(t, [ClearStore(u)]) && forall h :: Brings(t, closed, [ClearStore(u)], h) == []
  {
    assert [ClearStore(u)][1..] == [];
  }

  // Stopping a client, run to its end: every open link gains the good bye, the node forgets all peers,
  // nothing else moves.
  lemma StopRuns(t: Topology, s: Net, u: nat, me: PeerInfo) returns (n: nat, s': Net)
    requires ValidNet(t, s) && OutAddressesOnly(t) && u < |s.nodes| && s.nodes[u].self == Some(me)
    ensures RunsTo(t, s, [Stop(u)] + Advances(n, |s.threads|), s') && OnlySending(s, s')
    ensures s'.nodes == s.nodes[u := s.nodes[u].(peers := map[])]
    ensures Gained(t, s, s', u, Wire(PeerUpdate(me.service, me.endpoint, me.lastSeen, true)))
  {
    var m := PeerUpdate(me.service, me.endpoint, me.lastSeen, true);
    var sends := Broadcast(t, u, m, LOCAL_NODE);
    var actions := sends + [ClearStore(u)];
    LocalBroadcastsBring(t, s.closed, u, m);
    ClearingBrings(t, s.closed, u);
    BringBoth(t, s.closed, u, sends, [ClearStore(u)], Wire(m), []);
    NothingAdded(Wire(m));
    NextValid(t, s, Stop(u));
    n := |actions|;
    s' := SpawnedGains(t, s, Stop(u), Next(t, s, Stop(u)), actions, u, Wire(m));
    BroadcastActions(t, u, m, LOCAL_NODE);
    ClearedLast(s.nodes, sends, u);
  }

  // The node once this client was started on it.
  predicate StartedOn(before: Node, after: Node, service: string, endpoint: string, seen: Timestamp, now: Timestamp) {
    && after.peers == Apply(before.peers, Update(Key(service, endpoint), false, seen, now))
    && after.self == Some(PeerInfo(service, endpoint, seen, false))
    && after.started == before.started + {Key(service, endpoint)}
    && after.notices == before.notices && after.learned == before.learned
  }

  // Starting a client, run to its end: the node knows it, every open link gains its announcement and
  // then the query for its service, nothing else moves.
  lemma StartRuns(t: Topology, s: Net, u: nat, service: string, endpoint: string, seen: Timestamp, now: Timestamp)
    returns (n: nat, s': Net)
    requires ValidNet(t, s) && OutAddressesOnly(t) && u < |s.nodes|
    ensures RunsTo(t, s, [Start(u, service, endpoint, seen, now)] + Advances(n, |s.threads|), s') && OnlySending(s, s')
    ensures |s'.nodes| == |s.nodes| && s'.nodes == s.nodes[u := s'.nodes[u]]
    ensures StartedOn(s.nodes[u], s'.nodes[u], service, endpoint, seen, now)
    ensures Gained(t, s, s', u, Wire(PeerUpdate(service, endpoint, seen, false)) + Wire(Query(service)))
  {
    var e, m, q := Start(u, service, endpoint, seen, now), PeerUpdate(service, endpoint, seen, false), Query(service);
    var announce, ask := Broadcast(t, u, m, LOCAL_NODE), Broadcast(t, u, q, LOCAL_NODE);
    LocalBroadcastsBring(t, s.closed, u, m);
    LocalBroadcastsBring(t, s.closed, u, q);
    BringBoth(t, s.closed, u, announce, ask, Wire(m), Wire(q));
    var s1 := StartSpawns(t, s, e, announce + ask);
    n := |announce + ask|;
    s' := SpawnedGains(t, s, e, s1, announce + ask, u, Wire(m) + Wire(q));
    BroadcastActions(t, u, m, LOCAL_NODE);
    BroadcastActions(t, u, q, LOCAL_NODE);
    NothingCleared(s1.nodes, announce + ask);
  }

  lemma StartSpawns(t: Topology, s: Net, e: Event, actions: seq<Action>) returns (s1: Net)
    requires ValidNet(t, s) && e.Start? && Enabled(s, e)
    requires actions == Broadcast(t, e.node, PeerUpdate(e.service, e.endpoint, e.seen, false), LOCAL_NODE)
                        + Broadcast(t, e.node, Query(e.service), LOCAL_NODE)
    ensures Happens(t, s, e, s1) && ValidNet(t, s1)
    ensures s1.threads == Spawn(s, actions).threads && s1.flights == s.flights && OnlySending(s, s1)
    ensures |s1.nodes| == |s.nodes| && s1.nodes == s.nodes[e.node := s1.nodes[e.node]]
    ensures StartedOn(s.nodes[e.node], s1.nodes[e.node], e.service, e.endpoint, e.seen, e.now)
  {
    s1 := Next(t, s, e);
    NextValid(t, s, e);
  }

  // ---------- deliveries and losses ----------

  // What the receiver of a packet passes on: news on every open link but those to the address that the
  // packet came from, and the answer to a query on the way back.
  ghost function PassesOn(t: Topology, closed: set<Hop>, p: Packet, r: nat, q: Progress, h: Hop): seq<Message>
    requires ValidHop(t, p.hop)
  {
    var from := if p.hop.up then LinkOf(t, p.hop).seenAs else LinkOf(t, p.hop).address;
    if q.relays != [] then
      if IsOpenLink(t, closed, r, h) && LinkOf(t, h).address != from then Wire(p.m) else []
    else if h == Back(p.hop) && ValidHop(t, h) && Receiver(t, h).Some? && Line(h) !in closed then WireAll(q.replies)
    else []
  }

  lemma OutgoingBrings(t: Topology, closed: set<Hop>, p: Packet, r: nat, q: Progress, h: Hop)
    requires r < |t| && ValidHop(t, p.hop) && ValidHop(t, Back(p.hop)) && (q.relays == [] || q.relays == [p.m])
    ensures AllValid(t, Outgoing(t, r, p.hop, q))
    ensures Brings(t, closed, Outgoing(t, r, p.hop, q), h) == PassesOn(t, closed, p, r, q, h)
  {
    if q.relays != [] {
      BroadcastBrings(t, closed, r, p.m, PeerAddress(t, p.hop), h);
    } else {
      AnswersBring(t, closed, p.hop, q.replies, h);
    }
  }

  lemma OutgoingSends(t: Topology, r: nat, h: Hop, q: Progress)
    requires r < |t| && ValidHop(t, h)
    ensures forall i :: 0 <= i < |Outgoing(t, r, h, q)| ==> Outgoing(t, r, h, q)[i].Send?
  {
    if q.relays != [] {
      BroadcastActions(t, r, q.relays[0], PeerAddress(t, h));
    }
  }

  // A node as it was, but for what it stores and what its client was told.
  predicate Handling(n: Node, n': Node, q: Progress) {
    n'.peers == q.peers && n'.notices == q.notices && n'.self == n.self && n'.started == n.started
  }

  lemma HandledOnly(t: Topology, s: Net, p: Packet, now: Timestamp, ends: bool)
    requires Lands(t, s, p.hop) && !IsUnread(s, p.hop)
    ensures var r, s' := Receiver(t, p.hop).value, Land(t, s, p, now, ends);
            |s'.nodes| == |s.nodes| && s'.nodes[r].self == s.nodes[r].self && s'.nodes[r].started == s.nodes[r].started
  {
    if p.m.PeerUpdate? {
      UpdateKeepsClient(t, s, Receiver(t, p.hop).value, p.m, p.hop, now);
    }
  }

  lemma UpdateKeepsClient(t: Topology, s: Net, r: nat, m: Message, h: Hop, now: Timestamp)
    requires ValidNet(t, s) && r < |t| && m.PeerUpdate? && ValidHop(t, h)
    ensures var s' := OnPeerUpdate(t, s, r, m, h, now);
            |s'.nodes| == |s.nodes| && s'.nodes[r].self == s.nodes[r].self && s'.nodes[r].started == s.nodes[r].started
  {
  }

  lemma HandlingSends(before: Progress, m: Message, clock: Clock, q: Progress)
    requires before.relays == [] && q == Handle(before, m, clock)
    ensures q.relays == [] || q.relays == [m]
  {
  }

  lemma {:induction false} SendsAsPackets(u: nat, m: Message, targets: seq<nat>, h: Hop)
    requires forall i, j :: 0 <= i < j < |targets| ==> targets[i] < targets[j]
    ensures FlightsOn(AsPackets(Map(SendTo(u, m), targets)), h) ==
            if h.up && h.client == u && h.index in targets then [m] else []
  {
    if targets != [] {
      SendsAsPackets(u, m, targets[1..], h);
      var packets := AsPackets(Map(SendTo(u, m), targets));
      assert packets[0] == Packet(Hop(u, targets[0], true), m);
      assert packets[1..] == AsPackets(Map(SendTo(u, m), targets[1..]));
      assert h.index in targets <==> h.index == targets[0] || h.index in targets[1..];
      assert h.index == targets[0] ==> h.index !in targets[1..];
    }
  }

  // The links that a relay goes to, closed or not: all but those to the address the packet came from.
  predicate IsRelayLink(t: Topology, r: nat, p: Packet, h: Hop)
    requires ValidHop(t, p.hop)
  {
    && ValidHop(t, h) && h.up && h.client == r
    && LinkOf(t, h).address != if p.hop.up then LinkOf(t, p.hop).seenAs else LinkOf(t, p.hop).address
  }

  lemma RelayPackets(t: Topology, r: nat, p: Packet, h: Hop, packets: seq<Packet>)
    requires r < |t| && ValidHop(t, p.hop)
    requires packets == AsPackets(Map(SendTo(r, p.m), Targets(AddressesOf(t[r]), PeerAddress(t, p.hop))))
    ensures FlightsOn(packets, h) == if IsRelayLink(t, r, p, h) then [p.m] else []
  {
    TargetsExact(AddressesOf(t[r]), PeerAddress(t, p.hop));
    SendsAsPackets(r, p.m, Targets(AddressesOf(t[r]), PeerAddress(t, p.hop)), h);
  }

  // News, and only news, is recorded as relayed, once for each such link.
  lemma RelaysAreRecorded(t: Topology, s: Net, p: Packet, clock: Clock, ends: bool, before: Progress, q: Progress, h: Hop)
    requires Lands(t, s, p.hop) && !IsUnread(s, p.hop)
    requires var n := s.nodes[Receiver(t, p.hop).value]; before == Progress(n.peers, 0, n.notices, [], [])
    requires q == Handle(before, p.m, clock)
    ensures FlightsOn(Land(t, s, p, clock(0), ends).relays, h) ==
            FlightsOn(s.relays, h)
            + if q.relays != [] && IsRelayLink(t, Receiver(t, p.hop).value, p, h) then [p.m] else []
  {
    if q.relays != [] {
      var r := Receiver(t, p.hop).value;
      var packets := AsPackets(Map(SendTo(r, p.m), Targets(AddressesOf(t[r]), PeerAddress(t, p.hop))));
      RelayPackets(t, r, p, h, packets);
      FlightsOnAppend(s.relays, packets, h);
    } else {
      NothingAdded(FlightsOn(s.relays, h));
    }
  }

  // The state in which a message has just been handled.
  ghost predicate Delivered(t: Topology, s: Net, p: Packet, q: Progress, s1: Net)
    requires ValidNet(t, s) && ValidHop(t, p.hop) && Receiver(t, p.hop).Some?
  {
    var r := Receiver(t, p.hop).value;
    && r < |s.nodes| && |s1.nodes| == |s.nodes| && s1.nodes == s.nodes[r := s1.nodes[r]]
    && Handling(s.nodes[r], s1.nodes[r], q)
  }

  // A message can be delivered to a connection that is read, and the node's own handling is known.
  ghost predicate CanHandle(t: Topology, s: Net, j: nat, clock: Clock, ends: bool, before: Progress, q: Progress) {
    && ValidNet(t, s) && Enabled(s, Deliver(j, clock(0), ends))
    && (s.flights[j].hop.up || Line(s.flights[j].hop) !in s.closed)
    && (var n := s.nodes[Receiver(t, s.flights[j].hop).value]; before == Progress(n.peers, 0, n.notices, [], []))
    && q == Handle(before, s.flights[j].m, clock)
  }

  lemma DeliveryHappens(t: Topology, s: Net, j: nat, clock: Clock, ends: bool, before: Progress, q: Progress)
    returns (s1: Net)
    requires CanHandle(t, s, j, clock, ends, before, q)
    ensures Happens(t, s, Deliver(j, clock(0), ends), s1) && ValidNet(t, s1)
    ensures var p := s.flights[j];
            && Delivered(t, s, p, q, s1) && s1.flights == RemoveAt(s.flights, j)
            && s1.threads == Spawn(s, Outgoing(t, Receiver(t, p.hop).value, p.hop, q)).threads
            && s1.closed == s.closed
                            + (if !p.hop.up && ends && EndsConversation(before, [p.m], clock) then {Line(p.hop)} else {})
  {
    var p, landed := s.flights[j], s.(flights := RemoveAt(s.flights, j));
    LandedValid(t, s, j);
    NextValid(t, s, Deliver(j, clock(0), ends));
    LandingIsHandling(t, landed, p, clock, ends, before, q);
    HandledOnly(t, landed, p, clock(0), ends);
    s1 := Land(t, landed, p, clock(0), ends);
  }

  lemma DeliveryRecorded(t: Topology, s: Net, j: nat, clock: Clock, ends: bool, before: Progress, q: Progress, s1: Net)
    requires CanHandle(t, s, j, clock, ends, before, q) && Happens(t, s, Deliver(j, clock(0), ends), s1)
    ensures var p := s.flights[j];
            forall h :: FlightsOn(s1.relays, h) ==
                        FlightsOn(s.relays, h)
                        + if q.relays != [] && IsRelayLink(t, Receiver(t, p.hop).value, p, h) then [p.m] else []
  {
    var p, landed := s.flights[j], s.(flights := RemoveAt(s.flights, j));
    LandedValid(t, s, j);
    forall h ensures FlightsOn(s1.relays, h) ==
                     FlightsOn(s.relays, h)
                     + if q.relays != [] && IsRelayLink(t, Receiver(t, p.hop).value, p, h) then [p.m] else []
    {
      RelaysAreRecorded(t, landed, p, clock, ends, before, q, h);
    }
  }

  // What the receiver set going, run to its end.
  lemma OutgoingRuns(t: Topology, s: Net, e: Event, s1: Net, p: Packet, r: nat, q: Progress) returns (n: nat, s': Net)
    requires Happens(t, s, e, s1) && ValidNet(t, s1)
    requires r < |t| && ValidHop(t, p.hop) && ValidHop(t, Back(p.hop)) && (q.relays == [] || q.relays == [p.m])
    requires s1.threads == Spawn(s, Outgoing(t, r, p.hop, q)).threads
    ensures RunsTo(t, s, [e] + Advances(n, |s.threads|), s')
    ensures s'.nodes == s1.nodes && OnlySending(s1, s')
    ensures forall h :: FlightsOn(s'.flights, h) == FlightsOn(s1.flights, h) + PassesOn(t, s1.closed, p, r, q, h)
  {
    var actions := Outgoing(t, r, p.hop, q);
    OutgoingBrings(t, s1.closed, p, r, q, p.hop);
    OutgoingSends(t, r, p.hop, q);
    s' := ThreadRuns(t, s1, s.threads, actions);
    n := |actions|;
    EventFirst(t, s, e, s1, Advances(n, |s.threads|), [e] + Advances(n, |s.threads|));
    NothingCleared(s1.nodes, actions);
    forall h ensures Brings(t, s1.closed, actions, h) == PassesOn(t, s1.closed, p, r, q, h) {
      OutgoingBrings(t, s1.closed, p, r, q, h);
    }
  }

  // A delivery to a connection that is read, and all it sets going, run to its end: the message is off
  // its hop, its receiver is as its node's own handling leaves it, the connection is closed exactly when
  // that read ends the conversation, and what is passed on is on its way.
  lemma DeliveryRuns(t: Topology, s: Net, j: nat, clock: Clock, ends: bool, before: Progress, q: Progress)
    returns (n: nat, s': Net)
    requires CanHandle(t, s, j, clock, ends, before, q)
    ensures RunsTo(t, s, [Deliver(j, clock(0), ends)] + Advances(n, |s.threads|), s')
    ensures var p := s.flights[j];
            && Delivered(t, s, p, q, s')
            && s'.closed == s.closed
                            + (if !p.hop.up && ends && EndsConversation(before, [p.m], clock) then {Line(p.hop)} else {})
            && forall h :: FlightsOn(s'.flights, h) ==
                           FlightsOn(RemoveAt(s.flights, j), h)
                           + PassesOn(t, s'.closed, p, Receiver(t, p.hop).value, q, h)
    ensures var p := s.flights[j];
            forall h :: FlightsOn(s'.relays, h) ==
                        FlightsOn(s.relays, h)
                        + if q.relays != [] && IsRelayLink(t, Receiver(t, p.hop).value, p, h) then [p.m] else []
  {
    var e, p := Deliver(j, clock(0), ends), s.flights[j];
    var s1 := DeliveryHappens(t, s, j, clock, ends, before, q);
    DeliveryRecorded(t, s, j, clock, ends, before, q, s1);
    HandlingSends(before, p.m, clock, q);
    n, s' := OutgoingRuns(t, s, e, s1, p, Receiver(t, p.hop).value, q);
  }

  // A delivery to a connection that its node has closed takes the message off its hop, and that is all.
  lemma UnreadIsLost(t: Topology, s: Net, j: nat, now: Timestamp, ends: bool)
    requires ValidNet(t, s) && Enabled(s, Deliver(j, now, ends))
    requires !s.flights[j].hop.up && Line(s.flights[j].hop) in s.closed
    ensures var s' := Next(t, s, Deliver(j, now, ends));
            && s'.nodes == s.nodes && s'.threads == s.threads && s'.closed == s.closed && s'.relays == s.relays
            && s'.flights == RemoveAt(s.flights, j) && s'.unread == s.unread + [s.flights[j]]
  {
  }

  // A loss takes one message off its hop, and that is all.
  lemma LossIsOneMessage(t: Topology, s: Net, j: nat, h: Hop)
    requires ValidNet(t, s) && j < |s.flights|
    ensures Enabled(s, Drop(j))
    ensures var s' := Next(t, s, Drop(j));
            && s'.nodes == s.nodes && s'.threads == s.threads && OnlySending(s, s')
            && if s.flights[j].hop != h then FlightsOn(s'.flights, h) == FlightsOn(s.flights, h)
               else exists i :: 0 <= i < |FlightsOn(s.flights, h)| && FlightsOn(s.flights, h)[i] == s.flights[j].m
                                && FlightsOn(s'.flights, h) == RemoveAt(FlightsOn(s.flights, h), i)
  {
    FlightsAround(s.flights, j, h);
    if s.flights[j].hop == h {
      var front, back := FlightsOn(s.flights[..j], h), FlightsOn(s.flights[j + 1..], h);
      OneOut(front, s.flights[j].m, back);
      assert FlightsOn(s.flights, h)[|front|] == s.flights[j].m;
    } else {
      NothingAdded(FlightsOn(s.flights[..j], h));
    }
  }

  lemma OneOut<T>(front: seq<T>, x: T, back: seq<T>)
    ensures (front + [x] + back)[|front|] == x && RemoveAt(front + [x] + back, |front|) == front + back
  {
  }

  // ---------- the objects and the network ----------

  // Sending one message on a connection object and doing the same send in the network, where the
  // connection is closed exactly if the object is: what the object writes is what then is on the way.
  lemma SendMatches(t: Topology, s: Net, i: nat, h: Hop, m: Message, o: Output, o': Output)
    requires ValidNet(t, s) && Enabled(s, Advance(i)) && s.threads[i][0] == Send(h, m) && ValidHop(t, h)
    requires Receiver(t, h).Some? && o' == AfterSending(o, [m])
    requires o.state == Closing || o.state == Closed <==> Line(h) in s.closed
    ensures o.written <= o'.written
    ensures FlightsOn(Next(t, s, Advance(i)).flights, h) ==
            FlightsOn(s.flights, h) + Framing.Received(o'.written[|o.written|..])
    ensures forall x :: x != h ==> FlightsOn(Next(t, s, Advance(i)).flights, x) == FlightsOn(s.flights, x)
    ensures o'.state == Closing || o'.state == Closed <==> Line(h) in Next(t, s, Advance(i)).closed
    ensures Next(t, s, Advance(i)).refused ==
            s.refused + if o.state == Closing || o.state == Closed then [Packet(h, m)] else []
  {
    assert ValidAction(t, Send(h, m));
    OneActionDone(t, s, i, Send(h, m), Next(t, s, Advance(i)));
    WrittenIsReceived(o, m, o');
    NothingAdded(s.refused);
  }

  lemma WrittenIsReceived(o: Output, m: Message, o': Output)
    requires o' == AfterSending(o, [m])
    ensures o.written <= o'.written
    ensures Framing.Received(o'.written[|o.written|..]) ==
            if o.state == Closing || o.state == Closed then [] else Wire(m)
  {
    FlatMapOne(Encode, m);
    if o.state == Closing || o.state == Closed {
      assert o'.written[|o.written|..] == "";
      assert Lines("") == [];
    } else {
      assert o'.written[|o.written|..] == Encode(m);
    }
  }
}
