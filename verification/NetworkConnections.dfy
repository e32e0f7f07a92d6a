/** Which connections are closed: exactly those of nodes at which a client was started. */
module NetworkConnections {
  import opened Types
  import opened Sequences
  import opened Messages
  import opened Framing
  import opened StoreModel
  import opened Gossip
  import opened Network
  import opened NetworkTermination
  import opened NetworkFlood

  // ---------- who asks has announced itself before ----------

  // The clients started at the near end of a connection.
  function Own(s: Net, h: Hop): set<Key> {
    if h.client < |s.nodes| then s.nodes[h.client].started else {}
  }

  // The far end of a connection knows a client of the near end, of this service.
  ghost predicate IntroducedFor(t: Topology, s: Net, h: Hop, service: string)
    requires ValidHop(t, Line(h))
  {
    LinkOf(t, Line(h)).dest.Some?
    && exists k :: k in Own(s, h) && k.service == service && Holds(s, LinkOf(t, Line(h)).dest.value, k)
  }

  // The far end of a connection knows a client of the near end.
  ghost predicate Introduced(t: Topology, s: Net, h: Hop) {
    ValidHop(t, Line(h)) && exists k: Key :: k in Own(s, h) && IntroducedFor(t, s, h, k.service)
  }

  predicate Announces(h: Hop, m: Message, hop: Hop, service: string, own: set<Key>) {
    h == hop && m.PeerUpdate? && m.service == service && MessageKey(m) in own
  }

  // Among the first n packets in flight one announces a client of this service.
  ghost predicate FliesBefore(flights: seq<Packet>, n: nat, hop: Hop, service: string, own: set<Key>)
    requires n <= |flights|
  {
    exists i :: 0 <= i < n && Announces(flights[i].hop, flights[i].m, hop, service, own)
  }

  // Among the first n actions of a thread one does.
  ghost predicate SentBefore(thread: seq<Action>, n: nat, hop: Hop, service: string, own: set<Key>)
    requires n <= |thread|
  {
    exists i :: 0 <= i < n && thread[i].Send? && Announces(thread[i].hop, thread[i].m, hop, service, own)
  }

  ghost predicate PolitePacket(t: Topology, s: Net, j: nat)
    requires j < |s.flights|
  {
    var p := s.flights[j];
    && ValidHop(t, p.hop)
    && (!p.hop.up ==> p.m.PeerUpdate? && Introduced(t, s, p.hop))
    && (p.m.Query? ==> IntroducedFor(t, s, p.hop, p.m.service)
                       || FliesBefore(s.flights, j, p.hop, p.m.service, Own(s, p.hop)))
  }

  ghost predicate PoliteAction(t: Topology, s: Net, thread: seq<Action>, j: nat)
    requires j < |thread|
  {
    var a := thread[j];
    && a.Send? && ValidHop(t, a.hop)
    && (!a.hop.up ==> a.m.PeerUpdate? && Introduced(t, s, a.hop))
    && (a.m.Query? ==> Receiver(t, a.hop).None? || a.hop in s.closed
                       || IntroducedFor(t, s, a.hop, a.m.service)
                       || FliesBefore(s.flights, |s.flights|, a.hop, a.m.service, Own(s, a.hop))
                       || SentBefore(thread, j, a.hop, a.m.service, Own(s, a.hop)))
  }

  ghost predicate PoliteThread(t: Topology, s: Net, thread: seq<Action>) {
    forall j :: 0 <= j < |thread| ==> PoliteAction(t, s, thread, j)
  }

  // Every question follows an announcement on its connection, every answer goes to one who is known,
  // and only connections to nodes that know the near end are closed.
  ghost predicate Polite(t: Topology, s: Net) {
    && (forall h :: h in s.closed ==> h.up && Introduced(t, s, h))
    && (forall j :: 0 <= j < |s.flights| ==> PolitePacket(t, s, j))
    && (forall i :: 0 <= i < |s.threads| ==> PoliteThread(t, s, s.threads[i]))
  }

  lemma StillIntroduced(t: Topology, s: Net, s': Net, h: Hop, service: string)
    requires Remembers(s, s') && ValidHop(t, Line(h)) && IntroducedFor(t, s, h, service)
    ensures IntroducedFor(t, s', h, service)
  {
    var k :| k in Own(s, h) && k.service == service && Holds(s, LinkOf(t, Line(h)).dest.value, k);
    assert k in Own(s', h) && Holds(s', LinkOf(t, Line(h)).dest.value, k);
  }

  lemma StillKnown(t: Topology, s: Net, s': Net, h: Hop)
    requires Remembers(s, s') && Introduced(t, s, h)
    ensures Introduced(t, s', h)
  {
    var k: Key :| k in Own(s, h) && IntroducedFor(t, s, h, k.service);
    StillIntroduced(t, s, s', h, k.service);
    assert k in Own(s', h);
  }

  lemma StillFlies(flights: seq<Packet>, n: nat, hop: Hop, service: string, own: set<Key>, own': set<Key>)
    requires n <= |flights| && own <= own' && FliesBefore(flights, n, hop, service, own)
    ensures FliesBefore(flights, n, hop, service, own')
  {
    var i :| 0 <= i < n && Announces(flights[i].hop, flights[i].m, hop, service, own);
    assert Announces(flights[i].hop, flights[i].m, hop, service, own');
  }

  lemma StillSent(thread: seq<Action>, n: nat, hop: Hop, service: string, own: set<Key>, own': set<Key>)
    requires n <= |thread| && own <= own' && SentBefore(thread, n, hop, service, own)
    ensures SentBefore(thread, n, hop, service, own')
  {
    var i :| 0 <= i < n && thread[i].Send? && Announces(thread[i].hop, thread[i].m, hop, service, own);
    assert Announces(thread[i].hop, thread[i].m, hop, service, own');
  }

  lemma StillPolitePacket(t: Topology, s: Net, s': Net, j: nat)
    requires Remembers(s, s') && s'.flights == s.flights && j < |s.flights| && PolitePacket(t, s, j)
    ensures PolitePacket(t, s', j)
  {
    var p := s.flights[j];
    if !p.hop.up {
      StillKnown(t, s, s', p.hop);
    }
    if p.m.Query? {
      if IntroducedFor(t, s, p.hop, p.m.service) {
        StillIntroduced(t, s, s', p.hop, p.m.service);
      } else {
        StillFlies(s.flights, j, p.hop, p.m.service, Own(s, p.hop), Own(s', p.hop));
      }
    }
  }

  lemma StillPoliteAction(t: Topology, s: Net, s': Net, thread: seq<Action>, j: nat)
    requires Remembers(s, s') && s'.flights == s.flights && s.closed <= s'.closed
    requires j < |thread| && PoliteAction(t, s, thread, j)
    ensures PoliteAction(t, s', thread, j)
  {
    var a := thread[j];
    if !a.hop.up {
      StillKnown(t, s, s', a.hop);
    }
    if a.m.Query? {
      if IntroducedFor(t, s, a.hop, a.m.service) {
        StillIntroduced(t, s, s', a.hop, a.m.service);
      } else if FliesBefore(s.flights, |s.flights|, a.hop, a.m.service, Own(s, a.hop)) {
        StillFlies(s.flights, |s.flights|, a.hop, a.m.service, Own(s, a.hop), Own(s', a.hop));
      } else if SentBefore(thread, j, a.hop, a.m.service, Own(s, a.hop)) {
        StillSent(thread, j, a.hop, a.m.service, Own(s, a.hop), Own(s', a.hop));
      }
    }
  }

  // Nodes that come to know more stay polite, and so does closing to one who is known.
  lemma StillPolite(t: Topology, s: Net, s': Net)
    requires Polite(t, s) && Remembers(s, s') && s'.flights == s.flights && s'.threads == s.threads
    requires s.closed <= s'.closed
    requires forall h :: h in s'.closed - s.closed ==> h.up && Introduced(t, s, h)
    ensures Polite(t, s')
  {
    forall h | h in s'.closed ensures h.up && Introduced(t, s', h) {
      StillKnown(t, s, s', h);
    }
    forall j | 0 <= j < |s'.flights| ensures PolitePacket(t, s', j) {
      StillPolitePacket(t, s, s', j);
    }
    forall i | 0 <= i < |s'.threads| ensures PoliteThread(t, s', s'.threads[i]) {
      assert PoliteThread(t, s, s.threads[i]);
      forall j | 0 <= j < |s'.threads[i]| ensures PoliteAction(t, s', s'.threads[i], j) {
        StillPoliteAction(t, s, s', s.threads[i], j);
      }
    }
  }

  lemma SpawnPolite(t: Topology, s: Net, actions: seq<Action>)
    requires Polite(t, s) && PoliteThread(t, s, actions)
    ensures Polite(t, Spawn(s, actions))
  {
    var s' := Spawn(s, actions);
    var s1 := s'.(threads := s.threads);
    assert s1 == s;
    forall i | 0 <= i < |s'.threads| ensures PoliteThread(t, s', s'.threads[i]) {
      var thread := s'.threads[i];
      assert PoliteThread(t, s, thread);
      forall j | 0 <= j < |thread| ensures PoliteAction(t, s', thread, j) {
        StillPoliteAction(t, s, s', thread, j);
      }
    }
    forall j | 0 <= j < |s'.flights| ensures PolitePacket(t, s', j) {
      StillPolitePacket(t, s, s', j);
    }
    forall h | h in s'.closed ensures h.up && Introduced(t, s', h) {
      StillKnown(t, s, s', h);
    }
  }

  // ---------- taking a packet off ----------

  // What this packet announced, its receiver holds by now.
  predicate Settled(t: Topology, s: Net, p: Packet)
    requires ValidHop(t, p.hop)
  {
    p.hop.up && p.m.PeerUpdate? ==> Receiver(t, p.hop).Some? && Holds(s, Receiver(t, p.hop).value, MessageKey(p.m))
  }

  lemma FliesOn(t: Topology, s: Net, j: nat, n: nat, hop: Hop, service: string)
    requires j < |s.flights| && n <= |s.flights| && ValidHop(t, s.flights[j].hop) && Settled(t, s, s.flights[j])
    requires ValidHop(t, hop) && hop.up && FliesBefore(s.flights, n, hop, service, Own(s, hop))
    ensures var rest := RemoveAt(s.flights, j);
            IntroducedFor(t, s, hop, service)
            || FliesBefore(rest, if j < n then n - 1 else n, hop, service, Own(s, hop))
  {
    var rest := RemoveAt(s.flights, j);
    var i :| 0 <= i < n && Announces(s.flights[i].hop, s.flights[i].m, hop, service, Own(s, hop));
    if i != j {
      assert rest[if i < j then i else i - 1] == s.flights[i];
    }
  }

  lemma TakenOffPolite(t: Topology, s: Net, j: nat)
    requires Polite(t, s) && j < |s.flights| && ValidHop(t, s.flights[j].hop) && Settled(t, s, s.flights[j])
    ensures Polite(t, s.(flights := RemoveAt(s.flights, j)))
  {
    var s' := s.(flights := RemoveAt(s.flights, j));
    assert Remembers(s, s');
    forall i | 0 <= i < |s'.flights| ensures PolitePacket(t, s', i) {
      var x := if i < j then i else i + 1;
      assert s'.flights[i] == s.flights[x] && PolitePacket(t, s, x);
      var p := s.flights[x];
      if !p.hop.up {
        StillKnown(t, s, s', p.hop);
      }
      if p.m.Query? {
        if !IntroducedFor(t, s, p.hop, p.m.service) {
          FliesOn(t, s, j, x, p.hop, p.m.service);
        }
        if IntroducedFor(t, s, p.hop, p.m.service) {
          StillIntroduced(t, s, s', p.hop, p.m.service);
        }
      }
    }
    forall i | 0 <= i < |s'.threads| ensures PoliteThread(t, s', s'.threads[i]) {
      assert PoliteThread(t, s, s.threads[i]);
      forall y | 0 <= y < |s'.threads[i]| ensures PoliteAction(t, s', s'.threads[i], y) {
        TakenOffPoliteAction(t, s, j, s.threads[i], y);
      }
    }
    forall h | h in s'.closed ensures h.up && Introduced(t, s', h) {
      StillKnown(t, s, s', h);
    }
  }

  lemma TakenOffPoliteAction(t: Topology, s: Net, j: nat, thread: seq<Action>, y: nat)
    requires j < |s.flights| && ValidHop(t, s.flights[j].hop) && Settled(t, s, s.flights[j])
    requires y < |thread| && PoliteAction(t, s, thread, y)
    ensures PoliteAction(t, s.(flights := RemoveAt(s.flights, j)), thread, y)
  {
    var a, s' := thread[y], s.(flights := RemoveAt(s.flights, j));
    assert Remembers(s, s');
    if !a.hop.up {
      StillKnown(t, s, s', a.hop);
    }
    if a.m.Query? && FliesBefore(s.flights, |s.flights|, a.hop, a.m.service, Own(s, a.hop)) {
      FliesOn(t, s, j, |s.flights|, a.hop, a.m.service);
    }
    if a.m.Query? && IntroducedFor(t, s, a.hop, a.m.service) {
      StillIntroduced(t, s, s', a.hop, a.m.service);
    }
  }

  // ---------- sending ----------

  lemma FliesMore(flights: seq<Packet>, more: seq<Packet>, n: nat, hop: Hop, service: string, own: set<Key>)
    requires n <= |flights| && FliesBefore(flights, n, hop, service, own)
    ensures FliesBefore(flights + more, n, hop, service, own)
    ensures FliesBefore(flights + more, |flights + more|, hop, service, own)
  {
    var i :| 0 <= i < n && Announces(flights[i].hop, flights[i].m, hop, service, own);
    assert (flights + more)[i] == flights[i];
  }

  lemma MorePolitePacket(t: Topology, s: Net, s': Net, more: seq<Packet>, j: nat)
    requires Remembers(s, s') && s'.flights == s.flights + more && j < |s.flights| && PolitePacket(t, s, j)
    ensures PolitePacket(t, s', j)
  {
    var p := s.flights[j];
    if !p.hop.up {
      StillKnown(t, s, s', p.hop);
    }
    if p.m.Query? {
      if IntroducedFor(t, s, p.hop, p.m.service) {
        StillIntroduced(t, s, s', p.hop, p.m.service);
      } else {
        StillFlies(s.flights, j, p.hop, p.m.service, Own(s, p.hop), Own(s', p.hop));
        FliesMore(s.flights, more, j, p.hop, p.m.service, Own(s', p.hop));
      }
    }
  }

  lemma MorePoliteAction(t: Topology, s: Net, s': Net, more: seq<Packet>, thread: seq<Action>, j: nat)
    requires Remembers(s, s') && s'.flights == s.flights + more && s.closed <= s'.closed
    requires j < |thread| && PoliteAction(t, s, thread, j)
    ensures PoliteAction(t, s', thread, j)
  {
    var a := thread[j];
    if !a.hop.up {
      StillKnown(t, s, s', a.hop);
    }
    if a.m.Query? {
      if IntroducedFor(t, s, a.hop, a.m.service) {
        StillIntroduced(t, s, s', a.hop, a.m.service);
      } else if FliesBefore(s.flights, |s.flights|, a.hop, a.m.service, Own(s, a.hop)) {
        StillFlies(s.flights, |s.flights|, a.hop, a.m.service, Own(s, a.hop), Own(s', a.hop));
        FliesMore(s.flights, more, |s.flights|, a.hop, a.m.service, Own(s', a.hop));
      } else if SentBefore(thread, j, a.hop, a.m.service, Own(s, a.hop)) {
        StillSent(thread, j, a.hop, a.m.service, Own(s, a.hop), Own(s', a.hop));
      }
    }
  }

  // What a single word message arrives as, if its connection is open and made.
  lemma SentArrives(t: Topology, s: Net, h: Hop, m: Message)
    requires ValidNet(t, s) && ValidHop(t, h) && CleanMessage(m)
    ensures Line(h) !in s.closed && Receiver(t, h).Some? ==>
              Perform(t, s, Send(h, m)).flights == s.flights + [Packet(h, Normal(m))]
    ensures Line(h) in s.closed || Receiver(t, h).None? ==> Perform(t, s, Send(h, m)).flights == s.flights
    ensures var s' := Perform(t, s, Send(h, m));
            s'.nodes == s.nodes && s'.closed == s.closed && s'.threads == s.threads
  {
    WireExact(m);
    assert Line(h) !in s.closed && Receiver(t, h).Some? ==> Arrivals(t, h, m) == [Packet(h, Normal(m))];
    assert s.flights + [] == s.flights;
  }

  lemma ArrivedPolite(t: Topology, s: Net, s': Net, thread: seq<Action>)
    requires thread != [] && PoliteAction(t, s, thread, 0) && Remembers(s, s')
    requires var a := thread[0]; Receiver(t, a.hop).Some? && Line(a.hop) !in s.closed
    requires s'.flights == s.flights + [Packet(thread[0].hop, Normal(thread[0].m))]
    ensures PolitePacket(t, s', |s.flights|)
  {
    var a := thread[0];
    if !a.hop.up {
      StillKnown(t, s, s', a.hop);
    }
    if a.m.Query? {
      assert Line(a.hop) == a.hop;
      if IntroducedFor(t, s, a.hop, a.m.service) {
        StillIntroduced(t, s, s', a.hop, a.m.service);
      } else {
        StillFlies(s.flights, |s.flights|, a.hop, a.m.service, Own(s, a.hop), Own(s', a.hop));
        FliesMore(s.flights, [Packet(a.hop, Normal(a.m))], |s.flights|, a.hop, a.m.service, Own(s', a.hop));
      }
    }
  }

  // The remaining actions of a thread whose first action was performed.
  lemma RestOfThreadPolite(t: Topology, s: Net, s': Net, thread: seq<Action>, y: nat)
    requires ValidNet(t, s) && 0 < y < |thread| && PoliteAction(t, s, thread, y) && PoliteAction(t, s, thread, 0)
    requires CleanMessage(thread[0].m)
    requires s' == Perform(t, s, thread[0])
    ensures PoliteAction(t, s', thread[1..], y - 1)
  {
    var first, a := thread[0], thread[y];
    SentArrives(t, s, first.hop, first.m);
    var more := s'.flights[|s.flights|..];
    assert s'.flights == s.flights + more;
    assert Remembers(s, s');
    MorePoliteAction(t, s, s', more, thread, y);
    if a.m.Query? && SentBefore(thread, y, a.hop, a.m.service, Own(s', a.hop)) {
      var i :| 0 <= i < y && thread[i].Send? && Announces(thread[i].hop, thread[i].m, a.hop, a.m.service, Own(s', a.hop));
      if i > 0 {
        assert thread[1..][i - 1] == thread[i];
      } else if Receiver(t, a.hop).Some? && a.hop !in s.closed {
        assert s'.flights[|s.flights|] == Packet(a.hop, Normal(first.m));
      }
    }
  }

  lemma PerformPolite(t: Topology, s: Net, thread: seq<Action>)
    requires ValidNet(t, s) && Polite(t, s)
    requires thread != [] && PoliteAction(t, s, thread, 0) && CleanMessage(thread[0].m)
    ensures Polite(t, Perform(t, s, thread[0]))
  {
    var s' := Perform(t, s, thread[0]);
    SentArrives(t, s, thread[0].hop, thread[0].m);
    var more := s'.flights[|s.flights|..];
    assert s'.flights == s.flights + more && Remembers(s, s');
    forall h | h in s'.closed ensures h.up && Introduced(t, s', h) {
      StillKnown(t, s, s', h);
    }
    forall j | 0 <= j < |s'.flights| ensures PolitePacket(t, s', j) {
      if j < |s.flights| {
        MorePolitePacket(t, s, s', more, j);
      } else {
        ArrivedPolite(t, s, s', thread);
      }
    }
    forall x | 0 <= x < |s'.threads| ensures PoliteThread(t, s', s'.threads[x]) {
      assert PoliteThread(t, s, s.threads[x]);
      forall y | 0 <= y < |s.threads[x]| ensures PoliteAction(t, s', s.threads[x], y) {
        MorePoliteAction(t, s, s', more, s.threads[x], y);
      }
    }
  }

  // Going on with the rest of a thread.
  lemma GoOnPolite(t: Topology, s: Net, i: nat)
    requires Polite(t, s) && i < |s.threads| && s.threads[i] != []
    requires PoliteThread(t, s, s.threads[i][1..])
    ensures Polite(t, s.(threads := Rest(s.threads, i)))
  {
    var s' := s.(threads := Rest(s.threads, i));
    forall x | 0 <= x < |s'.threads| ensures PoliteThread(t, s', s'.threads[x]) {
      var th := s'.threads[x];
      assert PoliteThread(t, s, th);
      forall y | 0 <= y < |th| ensures PoliteAction(t, s', th, y) {
        StillPoliteAction(t, s, s', th, y);
      }
    }
    forall j | 0 <= j < |s'.flights| ensures PolitePacket(t, s', j) {
      StillPolitePacket(t, s, s', j);
    }
    forall h | h in s'.closed ensures h.up && Introduced(t, s', h) {
      StillKnown(t, s, s', h);
    }
  }

  lemma RestPolite(t: Topology, s: Net, s1: Net, thread: seq<Action>)
    requires ValidNet(t, s) && thread != [] && PoliteThread(t, s, thread) && PoliteAction(t, s, thread, 0)
    requires CleanMessage(thread[0].m) && s1 == Perform(t, s, thread[0])
    ensures PoliteThread(t, s1, thread[1..])
  {
    forall y | 0 <= y < |thread[1..]| ensures PoliteAction(t, s1, thread[1..], y) {
      RestOfThreadPolite(t, s, s1, thread, y + 1);
    }
  }

  lemma AdvancePolite(t: Topology, s: Net, i: nat)
    requires ValidNet(t, s) && Enabled(s, Advance(i)) && CleanNet(s) && Polite(t, s)
    ensures Polite(t, StepAdvance(t, s, i))
  {
    var thread, s1 := s.threads[i], Perform(t, s, s.threads[i][0]);
    assert thread in s.threads && thread[0] in thread;
    assert PoliteThread(t, s, thread) && PoliteAction(t, s, thread, 0);
    PerformPolite(t, s, thread);
    RestPolite(t, s, s1, thread);
    SentArrives(t, s, thread[0].hop, thread[0].m);
    GoOnPolite(t, s1, i);
  }

  // ---------- starting, refreshing, delivering ----------

  lemma BroadcastPolite(t: Topology, s: Net, u: nat, m: Message, previousHop: string)
    requires u < |t| && m.PeerUpdate?
    ensures PoliteThread(t, s, Broadcast(t, u, m, previousHop))
  {
    BroadcastActions(t, u, m, previousHop);
  }

  // A start announces the client on every connection before it asks there.
  lemma StartThreadPolite(t: Topology, s: Net, u: nat, m: Message, service: string)
    requires u < |t| && u < |s.nodes| && OutAddressesOnly(t)
    requires m.PeerUpdate? && m.service == service && MessageKey(m) in s.nodes[u].started
    ensures PoliteThread(t, s, Broadcast(t, u, m, LOCAL_NODE) + Broadcast(t, u, Query(service), LOCAL_NODE))
  {
    var announce, ask := Broadcast(t, u, m, LOCAL_NODE), Broadcast(t, u, Query(service), LOCAL_NODE);
    BroadcastActions(t, u, m, LOCAL_NODE);
    BroadcastActions(t, u, Query(service), LOCAL_NODE);
    var thread := announce + ask;
    forall j | 0 <= j < |thread| ensures PoliteAction(t, s, thread, j) {
      if j >= |announce| {
        var h := thread[j].hop;
        assert thread[j] == ask[j - |announce|];
        OutAddressIsNotLocal(t[u][h.index].address);
        assert Send(Hop(u, h.index, true), m) in announce;
        var i :| 0 <= i < |announce| && announce[i] == Send(h, m);
        assert thread[i] == announce[i];
        assert SentBefore(thread, j, h, service, Own(s, h));
      } else {
        assert thread[j] == announce[j];
      }
    }
  }

  lemma StartPolite(t: Topology, s: Net, e: Event)
    requires ValidNet(t, s) && Enabled(s, e) && e.Start? && OutAddressesOnly(t) && Polite(t, s)
    ensures Polite(t, StepStart(t, s, e))
  {
    var s1 := s.(nodes := StepStart(t, s, e).nodes);
    var m := Announced(PeerInfo(e.service, e.endpoint, e.seen, false));
    StillPolite(t, s, s1);
    StartThreadPolite(t, s1, e.node, m, e.service);
    SpawnPolite(t, s1, Broadcast(t, e.node, m, LOCAL_NODE) + Broadcast(t, e.node, Query(e.service), LOCAL_NODE));
  }

  lemma KnownBothWays(t: Topology, s: Net, h: Hop, service: string)
    requires ValidHop(t, h) && h.up && IntroducedFor(t, s, h, service)
    ensures Introduced(t, s, Back(h)) && ValidHop(t, Back(h))
  {
    var k :| k in Own(s, h) && k.service == service && Holds(s, LinkOf(t, h).dest.value, k);
    assert Own(s, Back(h)) == Own(s, h) && Line(Back(h)) == h && Line(h) == h;
    assert IntroducedFor(t, s, Back(h), k.service);
  }

  lemma AnswerPolite(t: Topology, s: Net, h: Hop, replies: seq<Message>)
    requires ValidHop(t, Back(h)) && h.up && Introduced(t, s, Back(h))
    requires forall j :: 0 <= j < |replies| ==> replies[j].PeerUpdate?
    ensures PoliteThread(t, s, Map(ReplyOn(h), replies))
  {
    var sends := Map(ReplyOn(h), replies);
    forall j | 0 <= j < |sends| ensures PoliteAction(t, s, sends, j) {
      assert sends[j] == Send(Back(h), replies[j]);
    }
  }

  // The oldest packet of its hop, if it is a question, is asked by one who is known.
  lemma OldestIsIntroduced(t: Topology, s: Net, j: nat)
    requires Polite(t, s) && j < |s.flights| && IsOldest(s, j) && s.flights[j].m.Query?
    ensures s.flights[j].hop.up && ValidHop(t, s.flights[j].hop)
    ensures IntroducedFor(t, s, s.flights[j].hop, s.flights[j].m.service)
  {
    assert PolitePacket(t, s, j);
  }

  lemma HandledPolite(t: Topology, s: Net, p: Packet, now: Timestamp)
    requires Lands(t, s, p.hop) && Polite(t, s)
    requires p.m.Query? ==> p.hop.up && IntroducedFor(t, s, p.hop, p.m.service)
    ensures Polite(t, Handled(t, s, p, now))
  {
    var r, s' := Receiver(t, p.hop).value, Handled(t, s, p, now);
    HandledRemembers(t, s, p, now);
    if p.m.PeerUpdate? {
      var s1 := s'.(threads := s.threads);
      var sends := Broadcast(t, r, p.m, PeerAddress(t, p.hop));
      StillPolite(t, s, s1);
      BroadcastPolite(t, s1, r, p.m, PeerAddress(t, p.hop));
      SpawnPolite(t, s1, sends);
      assert s' == s1 || s' == Spawn(s1, sends);
    } else {
      KnownBothWays(t, s, p.hop, p.m.service);
      AnswerPolite(t, s, p.hop, Replies(s.nodes[r].peers, p.m.service));
      SpawnPolite(t, s, Map(ReplyOn(p.hop), Replies(s.nodes[r].peers, p.m.service)));
    }
  }

  // Taken off after it was handled instead of before, the packet is settled when it goes.
  lemma HandledInFlight(t: Topology, s: Net, j: nat, now: Timestamp)
    requires ValidNet(t, s) && j < |s.flights|
    ensures Lands(t, s, s.flights[j].hop)
    ensures var landed := s.(flights := RemoveAt(s.flights, j));
            && Lands(t, landed, s.flights[j].hop)
            && Handled(t, landed, s.flights[j], now) ==
               Handled(t, s, s.flights[j], now).(flights := RemoveAt(s.flights, j))
  {
    LandedValid(t, s, j);
  }

  lemma DeliverPolite(t: Topology, s: Net, e: Event)
    requires ValidNet(t, s) && Enabled(s, e) && e.Deliver? && Polite(t, s)
    ensures Polite(t, StepDeliver(t, s, e))
  {
    var j, p := e.flight, s.flights[e.flight];
    LandedValid(t, s, j);
    assert PolitePacket(t, s, j);
    if IsUnread(s, p.hop) {
      TakenOffPolite(t, s, j);
      StillPolite(t, s.(flights := RemoveAt(s.flights, j)), StepDeliver(t, s, e));
    } else {
      HandledInFlight(t, s, j, e.now);
      if p.m.Query? {
        OldestIsIntroduced(t, s, j);
      }
      HandledPolite(t, s, p, e.now);
      var handled := Handled(t, s, p, e.now);
      HandledRemembers(t, s, p, e.now);
      TakenOffPolite(t, handled, j);
      ClosePolite(t, s, handled.(flights := RemoveAt(s.flights, j)), p, StepDeliver(t, s, e));
    }
  }

  lemma ClosePolite(t: Topology, s: Net, handled: Net, p: Packet, s': Net)
    requires Polite(t, handled) && Remembers(s, handled) && handled.closed == s.closed
    requires !p.hop.up ==> Introduced(t, s, p.hop)
    requires s' == handled || (!p.hop.up && s' == handled.(closed := s.closed + {Line(p.hop)}))
    ensures Polite(t, s')
  {
    if s' != handled {
      StillKnown(t, s, handled, p.hop);
      var k: Key :| k in Own(handled, p.hop) && IntroducedFor(t, handled, p.hop, k.service);
      assert IntroducedFor(t, handled, Line(p.hop), k.service);
      StillPolite(t, handled, s');
    }
  }

  lemma NextPolite(t: Topology, s: Net, e: Event)
    requires ValidNet(t, s) && Enabled(s, e) && Keeps(e) && OutAddressesOnly(t)
    requires CleanNet(s) && Polite(t, s)
    ensures Polite(t, Next(t, s, e))
  {
    match e
    case Start(_, _, _, _, _) => StartPolite(t, s, e);
    case Refresh(u) =>
      var m := Announced(s.nodes[u].self.value.(isRemoved := false));
      BroadcastPolite(t, s, u, m, LOCAL_NODE);
      SpawnPolite(t, s, Broadcast(t, u, m, LOCAL_NODE));
    case Advance(i) => AdvancePolite(t, s, i);
    case Deliver(_, _, _) => DeliverPolite(t, s, e);
  }

  // ---------- who asked is answered, and closes ----------

  predicate Talks(h: Hop, m: Message, hop: Hop) {
    h == hop && (m.Query? || !hop.up)
  }

  // A question goes up this hop, or an answer comes down it.
  ghost predicate UnderWay(s: Net, h: Hop) {
    (exists p :: p in s.flights && Talks(p.hop, p.m, h))
    || (exists thread :: thread in s.threads && TalksIn(thread, h))
  }

  ghost predicate TalksIn(thread: seq<Action>, h: Hop) {
    exists a :: a in thread && a.Send? && Talks(a.hop, a.m, h)
  }

  ghost predicate ClosesYet(s: Net, h: Hop) {
    h in s.closed || UnderWay(s, h) || UnderWay(s, Back(h))
  }

  // A made connection of a node with a started client is closed, or a question or an answer that will
  // lead to that is on it.
  ghost predicate AllClose(t: Topology, s: Net) {
    forall h: Hop :: ValidHop(t, h) && h.up && LinkOf(t, h).dest.Some? && Own(s, h) != {} ==> ClosesYet(s, h)
  }

  lemma SpawnTalks(s: Net, actions: seq<Action>, h: Hop)
    ensures UnderWay(s, h) ==> UnderWay(Spawn(s, actions), h)
    ensures TalksIn(actions, h) ==> UnderWay(Spawn(s, actions), h)
  {
    var s' := Spawn(s, actions);
    if thread :| thread in s.threads && TalksIn(thread, h) {
      assert thread in s'.threads;
    }
    if p :| p in s.flights && Talks(p.hop, p.m, h) {
      assert p in s'.flights;
    }
    if TalksIn(actions, h) {
      assert actions in s'.threads;
    }
  }

  lemma SpawnCloses(s: Net, s': Net, actions: seq<Action>, h: Hop)
    requires ClosesYet(s, h) && s.closed <= s'.closed
    requires s'.flights == s.flights && s'.threads == Spawn(s, actions).threads
    ensures ClosesYet(s', h)
  {
    SpawnTalks(s, actions, h);
    SpawnTalks(s, actions, Back(h));
    var s1 := Spawn(s, actions);
    assert forall x :: UnderWay(s1, x) ==> UnderWay(s', x);
  }

  lemma StartAsks(t: Topology, s: Net, e: Event, i: nat)
    requires ValidNet(t, s) && Enabled(s, e) && e.Start? && OutAddressesOnly(t) && i < |t[e.node]|
    ensures UnderWay(StepStart(t, s, e), Hop(e.node, i, true))
  {
    var u, h := e.node, Hop(e.node, i, true);
    var announce := Broadcast(t, u, Announced(PeerInfo(e.service, e.endpoint, e.seen, false)), LOCAL_NODE);
    var ask := Broadcast(t, u, Query(e.service), LOCAL_NODE);
    OutAddressIsNotLocal(t[u][i].address);
    BroadcastActions(t, u, Query(e.service), LOCAL_NODE);
    assert Send(h, Query(e.service)) in announce + ask;
    assert TalksIn(announce + ask, h);
    SpawnTalks(s.(nodes := StepStart(t, s, e).nodes), announce + ask, h);
  }

  lemma StartCloses(t: Topology, s: Net, e: Event)
    requires ValidNet(t, s) && Enabled(s, e) && e.Start? && OutAddressesOnly(t) && AllClose(t, s)
    ensures AllClose(t, StepStart(t, s, e))
  {
    var s' := StepStart(t, s, e);
    var m := Announced(PeerInfo(e.service, e.endpoint, e.seen, false));
    forall h: Hop | ValidHop(t, h) && h.up && LinkOf(t, h).dest.Some? && Own(s', h) != {} ensures ClosesYet(s', h) {
      if h.client == e.node {
        StartAsks(t, s, e, h.index);
      } else {
        assert Own(s, h) == Own(s', h);
        SpawnCloses(s, s', Broadcast(t, e.node, m, LOCAL_NODE) + Broadcast(t, e.node, Query(e.service), LOCAL_NODE), h);
      }
    }
  }

  lemma AdvanceTalks(t: Topology, s: Net, i: nat, h: Hop)
    requires ValidNet(t, s) && Enabled(s, Advance(i)) && CleanNet(s)
    requires ValidHop(t, h) && Receiver(t, h).Some? && UnderWay(s, h)
    ensures UnderWay(StepAdvance(t, s, i), h) || Line(h) in s.closed
  {
    var s', first := StepAdvance(t, s, i), s.threads[i][0];
    assert s.threads[i] in s.threads && first in s.threads[i];
    SentArrives(t, s, first.hop, first.m);
    if p :| p in s.flights && Talks(p.hop, p.m, h) {
      assert p in s'.flights;
    } else {
      var thread :| thread in s.threads && TalksIn(thread, h);
      var a :| a in thread && a.Send? && Talks(a.hop, a.m, h);
      RestKeeps(s.threads, i, thread, a);
      if a == first && Line(h) !in s.closed {
        assert Packet(h, Normal(a.m)) in s'.flights;
      } else if a != first {
        var th :| th in Rest(s.threads, i) && a in th;
        assert TalksIn(th, h);
      }
    }
  }

  lemma AdvanceCloses(t: Topology, s: Net, i: nat)
    requires ValidNet(t, s) && Enabled(s, Advance(i)) && CleanNet(s) && AllClose(t, s)
    ensures AllClose(t, StepAdvance(t, s, i))
  {
    var s' := StepAdvance(t, s, i);
    AdvanceMovesNoNode(t, s, i);
    forall h: Hop | ValidHop(t, h) && h.up && LinkOf(t, h).dest.Some? && Own(s', h) != {} ensures ClosesYet(s', h) {
      assert Own(s, h) == Own(s', h);
      assert Line(h) == h && Line(Back(h)) == h && ValidHop(t, Back(h));
      if UnderWay(s, h) {
        AdvanceTalks(t, s, i, h);
      } else if UnderWay(s, Back(h)) {
        AdvanceTalks(t, s, i, Back(h));
      }
    }
  }

  lemma TakenOffTalks(s: Net, j: nat, h: Hop)
    requires j < |s.flights| && UnderWay(s, h)
    ensures UnderWay(s.(flights := RemoveAt(s.flights, j)), h) || Talks(s.flights[j].hop, s.flights[j].m, h)
  {
    var s' := s.(flights := RemoveAt(s.flights, j));
    if p :| p in s.flights && Talks(p.hop, p.m, h) {
      var x :| 0 <= x < |s.flights| && s.flights[x] == p;
      if x != j {
        assert s'.flights[if x < j then x else x - 1] == p;
        assert p in s'.flights;
      }
    } else {
      var thread :| thread in s.threads && TalksIn(thread, h);
      assert thread in s'.threads;
    }
  }

  // A question of one who is known is answered.
  lemma KnownIsAnswered(t: Topology, s: Net, p: Packet, now: Timestamp)
    requires Lands(t, s, p.hop) && CleanNet(s)
    requires p.m.Query? && p.hop.up && IntroducedFor(t, s, p.hop, p.m.service)
    ensures UnderWay(Handled(t, s, p, now), Back(p.hop))
  {
    var r, service := Receiver(t, p.hop).value, p.m.service;
    var peers := s.nodes[r].peers;
    assert SoundNode(s.nodes[r]);
    var k :| k in Own(s, p.hop) && k.service == service && Holds(s, r, k);
    AnswerTalks(peers, p.hop, k);
    SpawnTalks(s, Map(ReplyOn(p.hop), Replies(peers, service)), Back(p.hop));
  }

  lemma AnswerTalks(peers: Peers, h: Hop, k: Key)
    requires WellKeyed(peers) && AllLive(peers) && k in peers && h.up
    ensures TalksIn(Map(ReplyOn(h), Replies(peers, k.service)), Back(h))
  {
    ListingExact(peers, k.service);
    assert IsListed(peers, k.service, peers[k]);
    var x :| 0 <= x < |Listing(peers, k.service)| && Listing(peers, k.service)[x] == peers[k];
    var sends := Map(ReplyOn(h), Replies(peers, k.service));
    assert sends[x] == Send(Back(h), AsReply(peers[k])) && sends[x] in sends;
  }

  lemma HandledTalks(t: Topology, s: Net, p: Packet, now: Timestamp, h: Hop)
    requires Lands(t, s, p.hop)
    ensures UnderWay(s, h) ==> UnderWay(Handled(t, s, p, now), h)
  {
    var r, s' := Receiver(t, p.hop).value, Handled(t, s, p, now);
    var sends := if p.m.PeerUpdate? then Broadcast(t, r, p.m, PeerAddress(t, p.hop))
                 else Map(ReplyOn(p.hop), Replies(s.nodes[r].peers, p.m.service));
    SpawnTalks(s, sends, h);
    assert s'.flights == s.flights && (s'.threads == s.threads || s'.threads == Spawn(s, sends).threads);
    assert forall thread :: thread in s.threads ==> thread in s'.threads;
  }

  // What the packet itself was good for.
  lemma DeliveredTalk(t: Topology, s: Net, e: Event, h: Hop)
    requires ValidNet(t, s) && Enabled(s, e) && e.Deliver? && CleanNet(s) && Polite(t, s)
    requires ValidHop(t, h) && h.up && LinkOf(t, h).dest.Some?
    requires var p := s.flights[e.flight]; Talks(p.hop, p.m, h) || Talks(p.hop, p.m, Back(h))
    ensures ClosesYet(StepDeliver(t, s, e), h)
  {
    var j, p, landed := e.flight, s.flights[e.flight], s.(flights := RemoveAt(s.flights, e.flight));
    LandedValid(t, s, j);
    assert PolitePacket(t, s, j);
    if p.hop == h {
      OldestIsIntroduced(t, s, j);
      assert Remembers(s, landed);
      StillIntroduced(t, s, landed, h, p.m.service);
      assert CleanNet(landed);
      KnownIsAnswered(t, landed, p, e.now);
    } else if !IsUnread(landed, p.hop) && !e.ends {
      var i :| j < i < |s.flights| && s.flights[i].hop == p.hop;
      assert landed.flights[i - 1] == s.flights[i] && s.flights[i] in landed.flights;
      assert UnderWay(landed, Back(h));
      HandledTalks(t, landed, p, e.now, Back(h));
    }
  }

  lemma DeliverClosesYet(t: Topology, s: Net, e: Event, h: Hop)
    requires ValidNet(t, s) && Enabled(s, e) && e.Deliver? && CleanNet(s) && Polite(t, s)
    requires ValidHop(t, h) && h.up && LinkOf(t, h).dest.Some? && ClosesYet(s, h)
    ensures ClosesYet(StepDeliver(t, s, e), h)
  {
    var p, landed := s.flights[e.flight], s.(flights := RemoveAt(s.flights, e.flight));
    if Talks(p.hop, p.m, h) || Talks(p.hop, p.m, Back(h)) {
      DeliveredTalk(t, s, e, h);
    } else {
      LandedValid(t, s, e.flight);
      DeliveredElsewhere(t, landed, p, e.now, e.ends, h, s, e.flight);
    }
  }

  lemma DeliverCloses(t: Topology, s: Net, e: Event)
    requires ValidNet(t, s) && Enabled(s, e) && e.Deliver? && CleanNet(s) && Polite(t, s) && AllClose(t, s)
    ensures AllClose(t, StepDeliver(t, s, e))
  {
    var s' := StepDeliver(t, s, e);
    DeliverRemembers(t, s, e);
    forall h: Hop | ValidHop(t, h) && h.up && LinkOf(t, h).dest.Some? && Own(s', h) != {} ensures ClosesYet(s', h) {
      assert Own(s, h) == Own(s', h);
      DeliverClosesYet(t, s, e, h);
    }
  }

  lemma DeliveredElsewhere(t: Topology, landed: Net, p: Packet, now: Timestamp, ends: bool, h: Hop, s: Net, j: nat)
    requires j < |s.flights| && p == s.flights[j] && landed == s.(flights := RemoveAt(s.flights, j))
    requires Lands(t, landed, p.hop) && ClosesYet(s, h)
    requires !Talks(p.hop, p.m, h) && !Talks(p.hop, p.m, Back(h))
    ensures ClosesYet(Land(t, landed, p, now, ends), h)
  {
    HandledRemembers(t, landed, p, now);
    if UnderWay(s, h) {
      TakenOffTalks(s, j, h);
      HandledTalks(t, landed, p, now, h);
    } else if UnderWay(s, Back(h)) {
      TakenOffTalks(s, j, Back(h));
      HandledTalks(t, landed, p, now, Back(h));
    }
  }

  lemma NextCloses(t: Topology, s: Net, e: Event)
    requires ValidNet(t, s) && Enabled(s, e) && Keeps(e) && OutAddressesOnly(t)
    requires CleanNet(s) && Polite(t, s) && AllClose(t, s)
    ensures AllClose(t, Next(t, s, e))
  {
    match e
    case Start(_, _, _, _, _) => StartCloses(t, s, e);
    case Refresh(u) =>
      var sends := Broadcast(t, u, Announced(s.nodes[u].self.value.(isRemoved := false)), LOCAL_NODE);
      forall h: Hop | ValidHop(t, h) && h.up && LinkOf(t, h).dest.Some? && Own(s, h) != {}
        ensures ClosesYet(Spawn(s, sends), h)
      {
        SpawnCloses(s, Spawn(s, sends), sends, h);
      }
    case Advance(i) => AdvanceCloses(t, s, i);
    case Deliver(_, _, _) => DeliverCloses(t, s, e);
  }

  // ---------- whole runs ----------

  predicate Starts(e: Event, u: nat, k: Key) {
    e.Start? && e.node == u && Key(e.service, e.endpoint) == k
  }

  lemma NextStarted(t: Topology, s: Net, e: Event, u: nat, k: Key)
    requires ValidNet(t, s) && Enabled(s, e) && u < |t|
    ensures |Next(t, s, e).nodes| == |t|
    ensures k in Next(t, s, e).nodes[u].started <==> k in s.nodes[u].started || Starts(e, u, k)
  {
    NextValid(t, s, e);
    if e.Deliver? {
      LandedValid(t, s, e.flight);
      HandledRemembers(t, s.(flights := RemoveAt(s.flights, e.flight)), s.flights[e.flight], e.now);
    }
  }

  // A node remembers exactly the clients that were started at it.
  lemma {:induction false} StartedIsRecorded(t: Topology, s: Net, es: seq<Event>, u: nat, k: Key)
    requires IsRun(t, s, es) && u < |t|
    ensures k in After(t, s, es).nodes[u].started <==>
            k in s.nodes[u].started || exists i :: 0 <= i < |es| && Starts(es[i], u, k)
    decreases es
  {
    if es != [] {
      NextStarted(t, s, es[0], u, k);
      StartedIsRecorded(t, Next(t, s, es[0]), es[1..], u, k);
      if i :| 0 <= i < |es| && Starts(es[i], u, k) {
        assert i > 0 ==> es[1..][i - 1] == es[i];
      }
      if i :| 0 <= i < |es[1..]| && Starts(es[1..][i], u, k) {
        assert es[i + 1] == es[1..][i];
      }
    }
  }

  // What every state of a run that loses and forgets nothing has.
  ghost predicate InOrder(t: Topology, s: Net) {
    Flooding(t, s) && Polite(t, s) && AllClose(t, s)
  }

  lemma LandedInOrder(t: Topology, s: Net, j: nat)
    requires ValidNet(t, s) && j < |s.flights| && InOrder(t, s)
    ensures var p, landed := s.flights[j], s.(flights := RemoveAt(s.flights, j));
            && Lands(t, landed, p.hop) && FloodingBut(t, landed, p)
            && (p.m.Query? ==> p.hop.up) && (!p.hop.up ==> Introduced(t, landed, p.hop))
            && p in s.flights && forall q :: q in landed.flights ==> q in s.flights
  {
    LandedValid(t, s, j);
    TakenOff(t, s, j);
    assert PolitePacket(t, s, j);
    if !s.flights[j].hop.up {
      StillKnown(t, s, s.(flights := RemoveAt(s.flights, j)), s.flights[j].hop);
    }
  }

  lemma NextInOrder(t: Topology, s: Net, e: Event)
    requires ValidNet(t, s) && Enabled(s, e) && Keeps(e) && OutAddressesOnly(t) && InOrder(t, s)
    ensures InOrder(t, Next(t, s, e))
  {
    NextFloods(t, s, e);
    NextPolite(t, s, e);
    NextCloses(t, s, e);
  }

  lemma {:induction false} StaysInOrder(t: Topology, s: Net, es: seq<Event>)
    requires IsRun(t, s, es) && AllKeep(es) && OutAddressesOnly(t) && InOrder(t, s)
    ensures InOrder(t, After(t, s, es))
    decreases es
  {
    if es != [] {
      NextInOrder(t, s, es[0]);
      StaysInOrder(t, Next(t, s, es[0]), es[1..]);
    }
  }

  lemma RunInOrder(t: Topology, es: seq<Event>, s: Net)
    requires Reaches(t, es, s) && AllKeep(es) && OutAddressesOnly(t)
    ensures InOrder(t, s)
  {
    InitiallyFlooding(t);
    StaysInOrder(t, Initial(t), es);
  }

  lemma RestingClosed(t: Topology, s: Net, u: nat, i: nat)
    requires InOrder(t, s) && Quiescent(s) && |s.nodes| == |t|
    requires u < |t| && i < |t[u]| && t[u][i].dest.Some?
    ensures Hop(u, i, true) in s.closed <==> s.nodes[u].started != {}
  {
    var h := Hop(u, i, true);
    if h in s.closed {
      var k: Key :| k in Own(s, h) && IntroducedFor(t, s, h, k.service);
    }
    if s.nodes[u].started != {} {
      assert ValidHop(t, h) && ClosesYet(s, h);
    }
  }

  // Once a run that lost nothing is at rest, a made connection is closed if and only if a client was
  // started at the node that made it; and then the other end knows a client of that node.
  lemma ClosedIffStarted(t: Topology, es: seq<Event>, s: Net, u: nat, i: nat)
    requires Reaches(t, es, s) && AllKeep(es) && OutAddressesOnly(t) && Quiescent(s)
    requires u < |t| && i < |t[u]| && t[u][i].dest.Some?
    ensures Hop(u, i, true) in s.closed <==> exists j :: 0 <= j < |es| && es[j].Start? && es[j].node == u
    ensures Hop(u, i, true) in s.closed ==> exists k :: k in s.nodes[u].started && Holds(s, t[u][i].dest.value, k)
  {
    RunInOrder(t, es, s);
    RestingClosed(t, s, u, i);
    StartsAreRecorded(t, es, s, u);
    if Hop(u, i, true) in s.closed {
      var k: Key :| k in Own(s, Hop(u, i, true)) && IntroducedFor(t, s, Hop(u, i, true), k.service);
    }
  }

  lemma StartsAreRecorded(t: Topology, es: seq<Event>, s: Net, u: nat)
    requires Reaches(t, es, s) && u < |t|
    ensures s.nodes[u].started != {} <==> exists j :: 0 <= j < |es| && es[j].Start? && es[j].node == u
  {
    if k :| k in s.nodes[u].started {
      StartedIsRecorded(t, Initial(t), es, u, k);
      var j :| 0 <= j < |es| && Starts(es[j], u, k);
    }
    if j :| 0 <= j < |es| && es[j].Start? && es[j].node == u {
      var k := Key(es[j].service, es[j].endpoint);
      StartedIsRecorded(t, Initial(t), es, u, k);
      assert Starts(es[j], u, k);
    }
  }
}
