/** Colliding addresses: exactly which networks can leave a node ignorant of the only client started. */
module NetworkObstacle {
  import opened Types
  import opened Sequences
  import opened Messages
  import opened Gossip
  import opened Network
  import opened NetworkTermination
  import opened NetworkFlood
  import opened NetworkConnections
  import opened NetworkLessons
  import opened NetworkCompleteness

  // Some nodes of a network, the connection each of them heard of the client on, and the order in
  // which they heard of it.
  datatype Plan = Plan(informed: set<nat>, via: map<nat, Hop>, rank: map<nat, nat>)

  // Node u, where the client was started, announces it on every connection; another node does not
  // announce it to an out-peer with the address that it heard of the client from.
  predicate Passes(t: Topology, u: nat, plan: Plan, h: Hop)
    requires ValidHop(t, h)
  {
    h.client == u
    || (&& h.client in plan.via && ValidHop(t, plan.via[h.client])
        && LinkOf(t, h).address != PeerAddress(t, plan.via[h.client]))
  }

  predicate Hears(t: Topology, u: nat, plan: Plan, x: nat) {
    && x in plan.via && x in plan.rank && ValidHop(t, plan.via[x])
    && var h := plan.via[x];
    && h.up && LinkOf(t, h).dest == Some(x) && h.client in plan.informed && Passes(t, u, plan, h)
    && (h.client != u ==> h.client in plan.rank && plan.rank[h.client] < plan.rank[x])
  }

  predicate LeadsOut(t: Topology, plan: Plan, x: nat, i: nat) {
    x < |t| && i < |t[x]| && t[x][i].dest.Some? && t[x][i].dest.value !in plan.informed
  }

  // The informed nodes can have heard of the client in this order, each from an earlier one that did
  // not skip it, and all of them skip everybody else.
  ghost predicate Obstructs(t: Topology, u: nat, plan: Plan) {
    && u in plan.informed && (forall x :: x in plan.informed ==> x < |t|)
    && (forall x :: x in plan.informed && x != u ==> Hears(t, u, plan, x))
    && (forall x, i: nat :: x in plan.informed && LeadsOut(t, plan, x, i) ==> !Passes(t, u, plan, Hop(x, i, true)))
  }

  // ---------- networks with a single client ----------

  ghost predicate Solo(t: Topology, s: Net, u: nat, k: Key) {
    && InOrder(t, s) && Taught(t, s) && |s.nodes| == |t|
    && u < |t| && s.nodes[u].started == {k} && k !in s.nodes[u].learned
    && (forall x :: 0 <= x < |t| && x != u ==> s.nodes[x].started == {})
  }

  lemma SoleKey(t: Topology, s: Net, u: nat, k: Key, x: nat, y: Key)
    requires Solo(t, s, u, k) && Holds(s, x, y)
    ensures y == k && (x != u ==> k in s.nodes[x].learned)
  {
    var origin := WasStartedSomewhere(t, s, x, y);
    assert Schooled(s.nodes[x]);
  }

  lemma NextSolo(t: Topology, s: Net, e: Event, u: nat, k: Key)
    requires ValidNet(t, s) && Enabled(s, e) && Keeps(e) && !e.Start? && OutAddressesOnly(t) && Solo(t, s, u, k)
    ensures Solo(t, Next(t, s, e), u, k)
  {
    NextInOrder(t, s, e);
    NextTaught(t, s, e);
    NextRemembers(t, s, e);
    NextTeaches(t, s, e);
    assert SoundNode(s.nodes[u]) && LearnsNode(s.nodes[u], Next(t, s, e).nodes[u]);
  }

  lemma {:induction false} StaysSolo(t: Topology, s: Net, es: seq<Event>, u: nat, k: Key)
    requires IsRun(t, s, es) && AllKeep(es) && NoStart(es) && OutAddressesOnly(t) && Solo(t, s, u, k)
    ensures Solo(t, After(t, s, es), u, k)
    decreases es
  {
    if es != [] {
      NextSolo(t, s, es[0], u, k);
      StaysSolo(t, Next(t, s, es[0]), es[1..], u, k);
    }
  }

  lemma FirstIsSolo(t: Topology, s: Net, u: nat, k: Key)
    requires ValidTopology(t) && u < |t| && StartedAt(Initial(t), s, u, k) && InOrder(t, s) && Taught(t, s)
    ensures Solo(t, s, u, k)
    ensures forall x: nat :: Holds(s, x, k) ==> x == u
  {
  }

  lemma StartsSolo(t: Topology, e: Event, s0: Net, k: Key)
    requires ValidTopology(t) && OutAddressesOnly(t) && e.Start? && Keeps(e) && e.node < |t| && Starts(e, e.node, k)
    requires s0 == Next(t, Initial(t), e)
    ensures Solo(t, s0, e.node, k)
    ensures forall x: nat :: Holds(s0, x, k) ==> x == e.node
  {
    InitiallyTaught(t);
    StartedInOrder(t, Initial(t), e, s0, k);
    FirstIsSolo(t, s0, e.node, k);
  }

  // ---------- a network at rest shows a plan ----------

  ghost function PlanOf(t: Topology, s: Net, u: nat, k: Key): Plan {
    var informed := set x: nat | x < |t| && Holds(s, x, k);
    Plan(informed,
         map x | x in informed && x != u && x < |s.nodes| && k in s.nodes[x].learned :: s.nodes[x].learned[k].hop,
         map x | x in informed && x != u && x < |s.nodes| && k in s.nodes[x].learned :: s.nodes[x].learned[k].rank)
  }

  // Where only one node has a client, the lessons of the others went upwards.
  lemma LessonGoesUp(t: Topology, s: Net, x: nat, k: Key)
    requires x < |s.nodes| && k in s.nodes[x].learned && SoundLesson(t, s, x, k) && s.nodes[x].started == {}
    requires var h := s.nodes[x].learned[k].hop; !h.up ==> h.client == x && Own(s, h) != {}
    ensures var h := s.nodes[x].learned[k].hop;
            && ValidHop(t, h) && h.up && LinkOf(t, h).dest == Some(x)
            && Holds(s, h.client, k) && Unskipped(t, s, h, k)
            && (k in s.nodes[h.client].learned ==> s.nodes[h.client].learned[k].rank < s.nodes[x].learned[k].rank)
  {
  }

  lemma PlannedWhat(t: Topology, s: Net, u: nat, k: Key, x: nat)
    requires x < |s.nodes| && x < |t| && x != u && k in s.nodes[x].learned && Holds(s, x, k)
    ensures var plan := PlanOf(t, s, u, k);
            && x in plan.informed && x in plan.via && plan.via[x] == s.nodes[x].learned[k].hop
            && x in plan.rank && plan.rank[x] == s.nodes[x].learned[k].rank
  {
  }

  lemma HeardAsPlanned(t: Topology, s: Net, u: nat, k: Key, x: nat)
    requires Solo(t, s, u, k) && x != u && Holds(s, x, k)
    ensures Hears(t, u, PlanOf(t, s, u, k), x)
  {
    SoleKey(t, s, u, k, x, k);
    PlannedWhat(t, s, u, k, x);
    LessonOfOwner(t, s, x, k);
    LessonGoesUp(t, s, x, k);
    var h := s.nodes[x].learned[k].hop;
    if h.client != u {
      SoleKey(t, s, u, k, h.client, k);
      PlannedWhat(t, s, u, k, h.client);
    }
    UnskippedPasses(t, s, u, k, PlanOf(t, s, u, k), h);
  }

  lemma UnskippedPasses(t: Topology, s: Net, u: nat, k: Key, plan: Plan, h: Hop)
    requires ValidHop(t, h) && h.client < |s.nodes|
    requires h.client != u ==>
               s.nodes[h.client].started == {} && k in s.nodes[h.client].learned
               && h.client in plan.via && plan.via[h.client] == s.nodes[h.client].learned[k].hop
    requires Unskipped(t, s, h, k)
    ensures Passes(t, u, plan, h)
  {
  }

  lemma QuietShowsPlan(t: Topology, s: Net, u: nat, k: Key)
    requires ValidTopology(t) && Solo(t, s, u, k) && Quiescent(s)
    ensures Obstructs(t, u, PlanOf(t, s, u, k))
    ensures forall x: nat :: x in PlanOf(t, s, u, k).informed <==> x < |t| && Holds(s, x, k)
  {
    var plan := PlanOf(t, s, u, k);
    assert SoundNode(s.nodes[u]);
    forall x | x in plan.informed && x != u ensures Hears(t, u, plan, x) {
      HeardAsPlanned(t, s, u, k, x);
    }
    forall x, i: nat | x in plan.informed && LeadsOut(t, plan, x, i)
      ensures !Passes(t, u, plan, Hop(x, i, true))
    {
      assert !Holds(s, t[x][i].dest.value, k);
      IgnorantWasSkipped(t, s, u, k, x, i);
    }
  }

  lemma IgnorantWasSkipped(t: Topology, s: Net, u: nat, k: Key, x: nat, i: nat)
    requires Solo(t, s, u, k) && Quiescent(s)
    requires x < |t| && i < |t[x]| && t[x][i].dest.Some? && Holds(s, x, k)
    requires !Holds(s, t[x][i].dest.value, k)
    ensures !Passes(t, u, PlanOf(t, s, u, k), Hop(x, i, true))
  {
    SkippedAtRest(t, s, u, k, x, i);
    PlannedWhat(t, s, u, k, x);
    SkippedDoesNotPass(t, s, u, k, PlanOf(t, s, u, k), x, i);
  }

  lemma SkippedDoesNotPass(t: Topology, s: Net, u: nat, k: Key, plan: Plan, x: nat, i: nat)
    requires x < |t| && x < |s.nodes| && i < |t[x]| && x != u && Skipped(t, s, x, i, k)
    requires x in plan.via && plan.via[x] == s.nodes[x].learned[k].hop
    ensures !Passes(t, u, plan, Hop(x, i, true))
  {
  }

  lemma SkippedAtRest(t: Topology, s: Net, u: nat, k: Key, x: nat, i: nat)
    requires Solo(t, s, u, k) && Quiescent(s)
    requires x < |t| && i < |t[x]| && t[x][i].dest.Some? && Holds(s, x, k)
    requires !Holds(s, t[x][i].dest.value, k)
    ensures x < |s.nodes| && x != u && Skipped(t, s, x, i, k)
  {
    assert s.nodes[x].started <= {k};
    assert EdgeServed(t, s, x, i, k);
    if Refused(s, Hop(x, i, true), k) {
      RefusedHolds(t, s, x, i, k);
    }
  }

  // ---------- and a plan can be followed ----------

  // The client is known to planned nodes only, and each heard of it as planned.
  ghost predicate Follows(t: Topology, s: Net, u: nat, k: Key, plan: Plan) {
    && Solo(t, s, u, k)
    && (forall x: nat :: Holds(s, x, k) ==> x in plan.informed)
    && (forall x: nat :: Holds(s, x, k) && x != u ==> HeardVia(s, k, plan, x))
  }

  predicate HeardVia(s: Net, k: Key, plan: Plan, x: nat) {
    x < |s.nodes| && k in s.nodes[x].learned && x in plan.via && s.nodes[x].learned[k].hop == plan.via[x]
  }

  // This step teaches nobody, or a planned node as planned.
  predicate ToPlan(t: Topology, s: Net, e: Event, plan: Plan)
    requires Enabled(s, e)
  {
    e.Deliver? ==>
      var p := s.flights[e.flight];
      ValidHop(t, p.hop) && Receiver(t, p.hop).Some? && p.m.PeerUpdate?
        && !Holds(s, Receiver(t, p.hop).value, MessageKey(p.m)) ==>
        && Receiver(t, p.hop).value in plan.informed
        && Receiver(t, p.hop).value in plan.via && p.hop == plan.via[Receiver(t, p.hop).value]
  }

  lemma NextFollows(t: Topology, s: Net, e: Event, u: nat, k: Key, plan: Plan)
    requires ValidNet(t, s) && Enabled(s, e) && Keeps(e) && !e.Start? && OutAddressesOnly(t)
    requires Follows(t, s, u, k, plan) && ToPlan(t, s, e, plan)
    ensures Follows(t, Next(t, s, e), u, k, plan)
  {
    var s' := Next(t, s, e);
    NextSolo(t, s, e, u, k);
    NextTeaches(t, s, e);
    forall x: nat | Holds(s', x, k) ensures x in plan.informed && (x != u ==> HeardVia(s', k, plan, x)) {
      if Holds(s, x, k) {
        assert x < |s.nodes| && LearnsNode(s.nodes[x], s'.nodes[x]);
      } else {
        assert LearnedFrom(t, s, s', s.flights[e.flight], x, k);
      }
    }
  }

  // Every announcement in flight goes to a planned node.
  lemma FlightsArePlanned(t: Topology, s: Net, u: nat, k: Key, plan: Plan, p: Packet)
    requires ValidNet(t, s) && Follows(t, s, u, k, plan) && Obstructs(t, u, plan)
    requires p in s.flights && p.m.PeerUpdate? && ValidHop(t, p.hop) && Receiver(t, p.hop).Some?
    requires !p.hop.up ==> Introduced(t, s, p.hop)
    ensures Receiver(t, p.hop).value in plan.informed && MessageKey(p.m) == k
  {
    var w := Sender(t, p.hop).value;
    assert SenderHolds(t, s, p.hop, p.m);
    SoleKey(t, s, u, k, w, MessageKey(p.m));
    if p.hop.up {
      assert Rightly(t, s, p.hop, p.m) && Unskipped(t, s, p.hop, k);
      assert w == u || HeardVia(s, k, plan, w);
      assert Passes(t, u, plan, p.hop) && p.hop == Hop(w, p.hop.index, true);
      assert !LeadsOut(t, plan, w, p.hop.index);
    } else {
      assert Own(s, p.hop) != {};
    }
  }

  ghost predicate AllInformed(s: Net, k: Key, plan: Plan) {
    forall x :: x in plan.informed ==> Holds(s, x, k)
  }

  // Once all planned nodes know the client, nothing departs from the plan any more.
  lemma FullIsToPlan(t: Topology, s: Net, e: Event, u: nat, k: Key, plan: Plan)
    requires ValidNet(t, s) && Enabled(s, e)
    requires Follows(t, s, u, k, plan) && Obstructs(t, u, plan) && AllInformed(s, k, plan)
    ensures ToPlan(t, s, e, plan)
  {
    if e.Deliver? && s.flights[e.flight].m.PeerUpdate? {
      assert PolitePacket(t, s, e.flight);
      FlightsArePlanned(t, s, u, k, plan, s.flights[e.flight]);
    }
  }

  ghost predicate Full(t: Topology, s: Net, u: nat, k: Key, plan: Plan) {
    Follows(t, s, u, k, plan) && AllInformed(s, k, plan)
  }

  lemma NextFull(t: Topology, s: Net, e: Event, u: nat, k: Key, plan: Plan)
    requires ValidNet(t, s) && Enabled(s, e) && Keeps(e) && !e.Start? && OutAddressesOnly(t)
    requires Full(t, s, u, k, plan) && Obstructs(t, u, plan)
    ensures Full(t, Next(t, s, e), u, k, plan)
  {
    FullIsToPlan(t, s, e, u, k, plan);
    NextFollows(t, s, e, u, k, plan);
    NextRemembers(t, s, e);
  }

  lemma StaysFull(t: Topology, s: Net, es: seq<Event>, u: nat, k: Key, plan: Plan)
    requires IsRun(t, s, es) && AllKeep(es) && NoStart(es) && OutAddressesOnly(t)
    requires Full(t, s, u, k, plan) && Obstructs(t, u, plan)
    ensures Full(t, After(t, s, es), u, k, plan)
  {
    var inv := (x: Net) => Full(t, x, u, k, plan);
    var allowed := (e: Event) => Keeps(e) && !e.Start?;
    forall x, e | ValidNet(t, x) && Enabled(x, e) && allowed(e) && inv(x) ensures inv(Next(t, x, e)) {
      NextFull(t, x, e, u, k, plan);
    }
    RunKeeps(t, s, es, inv, allowed);
  }

  // The next node of the plan: one that does not know the client yet, with the smallest rank.
  lemma {:induction false} NextInPlan(s: Net, k: Key, plan: Plan, open: set<nat>) returns (x: nat)
    requires open != {} && forall y :: y in open ==> y in plan.rank
    ensures x in open && forall y :: y in open ==> plan.rank[x] <= plan.rank[y]
    decreases open
  {
    x :| x in open;
    var rest := open - {x};
    if rest != {} {
      var y := NextInPlan(s, k, plan, rest);
      if plan.rank[y] < plan.rank[x] {
        x := y;
      }
    }
  }

  // With no loop running, what is still missing on a planned connection is the oldest on it.
  lemma PlannedIsInFlight(t: Topology, s: Net, u: nat, k: Key, plan: Plan, x: nat) returns (j: nat)
    requires ValidNet(t, s) && Follows(t, s, u, k, plan) && Hears(t, u, plan, x) && s.threads == []
    requires x != u && !Holds(s, x, k) && Holds(s, plan.via[x].client, k)
    ensures j < |s.flights| && IsOldest(s, j) && s.flights[j].hop == plan.via[x]
    ensures s.flights[j].m.PeerUpdate?
  {
    var h := plan.via[x];
    PlannedIsSent(t, s, u, k, plan, x);
    var p :| p in s.flights && Carries(p.hop, p.m, h, k);
    j := OldestOn(s, h, p);
    OldestAnnounces(t, s, u, k, j, x);
  }

  // A node that does not know the client is not asked before it is told.
  lemma OldestAnnounces(t: Topology, s: Net, u: nat, k: Key, j: nat, x: nat)
    requires Solo(t, s, u, k) && j < |s.flights| && IsOldest(s, j) && !Holds(s, x, k)
    requires var h := s.flights[j].hop; ValidHop(t, h) && h.up && Receiver(t, h) == Some(x)
    ensures s.flights[j].m.PeerUpdate?
  {
    if s.flights[j].m.Query? {
      var h := s.flights[j].hop;
      OldestIsIntroduced(t, s, j);
      assert LinkOf(t, Line(h)).dest == Some(x);
      var own :| own in Own(s, h) && own.service == s.flights[j].m.service && Holds(s, x, own);
      SoleKey(t, s, u, k, x, own);
    }
  }

  lemma PlannedIsSent(t: Topology, s: Net, u: nat, k: Key, plan: Plan, x: nat)
    requires ValidNet(t, s) && Follows(t, s, u, k, plan) && Hears(t, u, plan, x) && s.threads == []
    requires x != u && !Holds(s, x, k) && Holds(s, plan.via[x].client, k)
    ensures InFlight(s, plan.via[x], k)
  {
    var h := plan.via[x];
    var w := h.client;
    assert w != u ==> HeardVia(s, k, plan, w);
    PassesIsNotSkipped(t, s, u, k, plan, h);
    assert h == Hop(w, h.index, true) && EdgeServed(t, s, w, h.index, k);
    if Refused(s, h, k) {
      RefusedHolds(t, s, w, h.index, k);
    }
  }

  lemma PassesIsNotSkipped(t: Topology, s: Net, u: nat, k: Key, plan: Plan, h: Hop)
    requires ValidHop(t, h) && h.client < |s.nodes| && Passes(t, u, plan, h)
    requires if h.client == u then k !in s.nodes[u].learned else HeardVia(s, k, plan, h.client)
    ensures !Skipped(t, s, h.client, h.index, k)
  {
  }

  // One more step of the plan.
  lemma PlannedStep(t: Topology, s: Net, u: nat, k: Key, plan: Plan) returns (e: Event)
    requires ValidNet(t, s) && Follows(t, s, u, k, plan) && Obstructs(t, u, plan) && !AllInformed(s, k, plan)
    ensures Enabled(s, e) && (e.Advance? || e.Deliver?) && ToPlan(t, s, e, plan)
  {
    if s.threads != [] {
      e := Advance(0);
    } else {
      assert SoundNode(s.nodes[u]);
      var open := set x | x in plan.informed && !Holds(s, x, k);
      forall y | y in open ensures y in plan.rank {
        assert y != u && Hears(t, u, plan, y);
      }
      var y :| y in plan.informed && !Holds(s, y, k);
      assert y in open;
      var x := NextInPlan(s, k, plan, open);
      assert x != u && Hears(t, u, plan, x);
      assert plan.via[x].client !in open;
      var j := PlannedIsInFlight(t, s, u, k, plan, x);
      e := Deliver(j, 0, true);
    }
  }

  ghost predicate Planted(t: Topology, s: Net, es: seq<Event>, u: nat, k: Key, plan: Plan) {
    && IsRun(t, s, es) && AllKeep(es) && NoStart(es)
    && Follows(t, After(t, s, es), u, k, plan) && AllInformed(After(t, s, es), k, plan)
  }

  lemma PlantedOneMore(t: Topology, s: Net, e: Event, rest: seq<Event>, u: nat, k: Key, plan: Plan)
    requires ValidNet(t, s) && Enabled(s, e) && (e.Advance? || e.Deliver?)
    requires Planted(t, Next(t, s, e), rest, u, k, plan)
    ensures Planted(t, s, [e] + rest, u, k, plan)
  {
    RunOneMore(t, s, e, rest);
  }

  lemma {:induction false} PlantWithin(t: Topology, s: Net, u: nat, k: Key, plan: Plan, w: Scale)
    returns (es: seq<Event>)
    requires ValidNet(t, s) && OutAddressesOnly(t) && Follows(t, s, u, k, plan) && Obstructs(t, u, plan)
    requires Fits(t, s, w)
    ensures Planted(t, s, es, u, k, plan)
    decreases Measure(s, w)
  {
    es := [];
    if !AllInformed(s, k, plan) {
      var e := PlannedStep(t, s, u, k, plan);
      InternalStepDecreases(t, s, e, w);
      NextValid(t, s, e);
      NextFollows(t, s, e, u, k, plan);
      var rest := PlantWithin(t, Next(t, s, e), u, k, plan, w);
      PlantedOneMore(t, s, e, rest, u, k, plan);
      es := [e] + rest;
    }
  }

  // ---------- the two together ----------

  // This run starts one client and loses and forgets nothing.
  ghost predicate OneStart(t: Topology, e: Event, more: seq<Event>, s: Net) {
    && ValidTopology(t) && e.Start? && e.node < |t|
    && IsRun(t, Next(t, Initial(t), e), more) && AllKeep(more) && NoStart(more)
    && s == After(t, Next(t, Initial(t), e), more)
  }

  ghost predicate StaysIgnorant(t: Topology, e: Event, more: seq<Event>, s: Net, v: nat, k: Key) {
    OneStart(t, e, more, s) && Quiescent(s) && !Holds(s, v, k)
  }

  lemma IgnoranceShowsPlan(t: Topology, e: Event, k: Key, v: nat, more: seq<Event>, s: Net)
    requires ValidTopology(t) && OutAddressesOnly(t) && e.Start? && Keeps(e) && e.node < |t| && Starts(e, e.node, k)
    requires v < |t| && StaysIgnorant(t, e, more, s, v, k)
    ensures exists plan :: Obstructs(t, e.node, plan) && v !in plan.informed
  {
    StartsSolo(t, e, Next(t, Initial(t), e), k);
    StaysSolo(t, Next(t, Initial(t), e), more, e.node, k);
    QuietShowsPlan(t, s, e.node, k);
    assert v !in PlanOf(t, s, e.node, k).informed;
  }

  lemma FirstStart(t: Topology, e: Event, s0: Net)
    requires ValidTopology(t) && e.Start? && Keeps(e) && e.node < |t| && s0 == Next(t, Initial(t), e)
    ensures ValidNet(t, s0) && Reaches(t, [e], s0) && Dying(s0)
  {
    NextValid(t, Initial(t), e);
    RunOneMore(t, Initial(t), e, []);
    NothingAdded([e]);
    RunDies(t, [e], s0);
  }

  lemma PlanIsFollowed(t: Topology, e: Event, s0: Net, k: Key, plan: Plan) returns (plant: seq<Event>)
    requires ValidTopology(t) && OutAddressesOnly(t) && e.Start? && Keeps(e) && e.node < |t| && Starts(e, e.node, k)
    requires s0 == Next(t, Initial(t), e) && ValidNet(t, s0) && Dying(s0) && Obstructs(t, e.node, plan)
    ensures Planted(t, s0, plant, e.node, k, plan)
  {
    StartsSolo(t, e, s0, k);
    var w := ScaleExists(t, s0);
    plant := PlantWithin(t, s0, e.node, k, plan, w);
  }

  lemma PlanGivesIgnorance(t: Topology, e: Event, k: Key, v: nat, plan: Plan) returns (more: seq<Event>, s: Net)
    requires ValidTopology(t) && OutAddressesOnly(t) && e.Start? && Keeps(e) && e.node < |t| && Starts(e, e.node, k)
    requires Obstructs(t, e.node, plan) && v !in plan.informed
    ensures StaysIgnorant(t, e, more, s, v, k)
  {
    var s0 := Next(t, Initial(t), e);
    FirstStart(t, e, s0);
    var plant := PlanIsFollowed(t, e, s0, k, plan);
    var s1 := After(t, s0, plant);
    ReachesFurther(t, [e], s0, plant, s1);
    var rest, end := SettlesFrom(t, [e] + plant, s1);
    RestIgnorant(t, s1, rest, end, e.node, k, plan, v);
    RunsJoin(t, s0, plant, rest);
    more, s := plant + rest, end;
  }

  lemma RestIgnorant(t: Topology, s: Net, es: seq<Event>, s': Net, u: nat, k: Key, plan: Plan, v: nat)
    requires IsRun(t, s, es) && AllKeep(es) && NoStart(es) && s' == After(t, s, es) && OutAddressesOnly(t)
    requires Full(t, s, u, k, plan) && Obstructs(t, u, plan) && v !in plan.informed
    ensures !Holds(s', v, k)
  {
    StaysFull(t, s, es, u, k, plan);
  }

  // A client that is started on an empty network can stay unknown to a node, although nothing is lost,
  // if and only if the topology has an obstruction: a set of nodes with its origin and without that
  // node, which can all have heard of it in some order from addresses that make them skip everybody
  // outside the set.
  lemma IgnoranceExactly(t: Topology, e: Event, k: Key, v: nat)
    requires ValidTopology(t) && OutAddressesOnly(t) && e.Start? && Keeps(e) && e.node < |t| && Starts(e, e.node, k)
    requires v < |t|
    ensures (exists more, s :: StaysIgnorant(t, e, more, s, v, k))
            <==> (exists plan :: Obstructs(t, e.node, plan) && v !in plan.informed)
  {
    if more, s :| StaysIgnorant(t, e, more, s, v, k) {
      IgnoranceShowsPlan(t, e, k, v, more, s);
    }
    if plan :| Obstructs(t, e.node, plan) && v !in plan.informed {
      var more, s := PlanGivesIgnorance(t, e, k, v, plan);
    }
  }

  // ---------- the smallest obstruction ----------

  // Three nodes in a row. The middle one sees the first come from the very address under which it
  // knows the last.
  function Collision(first: string, last: string, seen: string): Topology {
    [[Link(first, Some(1), last)], [Link(last, Some(2), seen)], []]
  }

  predicate FirstOnly(thread: seq<Action>) {
    forall j :: 0 <= j < |thread| && thread[j].Send? ==> thread[j].hop.client == 0
  }

  // The hop from the middle node to the last one is never used.
  predicate Blocked(s: Net) {
    && |s.nodes| == 3 && s.nodes[2].peers.Keys == {}
    && s.nodes[1].self.None? && s.nodes[2].self.None?
    && (forall j :: 0 <= j < |s.flights| ==> s.flights[j].hop.client == 0)
    && (forall i :: 0 <= i < |s.threads| ==> FirstOnly(s.threads[i]))
  }

  predicate OnlyFirstStarts(e: Event) {
    e.Start? ==> e.node == 0
  }

  lemma BlockedSpawn(s: Net, actions: seq<Action>)
    requires Blocked(s) && FirstOnly(actions)
    ensures Blocked(Spawn(s, actions))
  {
  }

  lemma FirstBroadcasts(t: Topology, m: Message, previousHop: string)
    requires t != []
    ensures FirstOnly(Broadcast(t, 0, m, previousHop))
  {
    BroadcastActions(t, 0, m, previousHop);
  }

  lemma BlockedRelay(first: string, last: string, seen: string, h: Hop, m: Message)
    requires var t := Collision(first, last, seen);
             h.client == 0 && ValidHop(t, h) && Receiver(t, h).Some?
    ensures var t := Collision(first, last, seen);
            var r := Receiver(t, h).value;
            r < 2 && Broadcast(t, r, m, PeerAddress(t, h)) == []
  {
    var t := Collision(first, last, seen);
    var r := Receiver(t, h).value;
    assert forall i :: 0 <= i < |t[r]| ==> t[r][i].address == PeerAddress(t, h);
    TargetsNone(AddressesOf(t[r]), PeerAddress(t, h));
  }

  lemma BlockedStart(t: Topology, s: Net, e: Event)
    requires ValidNet(t, s) && Enabled(s, e) && e.Start? && e.node == 0 && Blocked(s)
    ensures Blocked(StepStart(t, s, e))
  {
    FirstBroadcasts(t, Announced(PeerInfo(e.service, e.endpoint, e.seen, false)), LOCAL_NODE);
    FirstBroadcasts(t, Query(e.service), LOCAL_NODE);
  }

  lemma BlockedSelf(t: Topology, s: Net, u: nat)
    requires ValidNet(t, s) && u < |s.nodes| && s.nodes[u].self.Some? && Blocked(s)
    ensures Blocked(StepRefresh(t, s, u)) && Blocked(StepStop(t, s, u))
  {
    assert u == 0;
    FirstBroadcasts(t, Announced(s.nodes[0].self.value.(isRemoved := false)), LOCAL_NODE);
    FirstBroadcasts(t, Announced(s.nodes[0].self.value.(isRemoved := true)), LOCAL_NODE);
  }

  lemma BlockedAdvance(t: Topology, s: Net, i: nat)
    requires ValidNet(t, s) && Blocked(s) && i < |s.threads|
    ensures Blocked(StepAdvance(t, s, i))
  {
    var a := s.threads[i][0];
    assert ValidAction(t, a) && FirstOnly(s.threads[i]) && FirstOnly(s.threads[i][1..]);
    assert a.Send? ==> forall j :: 0 <= j < |Arrivals(t, a.hop, a.m)| ==> Arrivals(t, a.hop, a.m)[j].hop == a.hop;
  }

  lemma BlockedHandled(t: Topology, s: Net, p: Packet, now: Timestamp, first: string, last: string, seen: string)
    requires t == Collision(first, last, seen) && Lands(t, s, p.hop) && Blocked(s) && p.hop.client == 0
    ensures Blocked(Handled(t, s, p, now))
  {
    BlockedRelay(first, last, seen, p.hop, p.m);
    if p.m.Query? {
      BlockedSpawn(s, Map(ReplyOn(p.hop), Replies(s.nodes[Receiver(t, p.hop).value].peers, p.m.service)));
    }
  }

  lemma BlockedDeliver(t: Topology, s: Net, e: Event, first: string, last: string, seen: string)
    requires t == Collision(first, last, seen) && ValidNet(t, s) && Enabled(s, e) && e.Deliver? && Blocked(s)
    ensures Blocked(StepDeliver(t, s, e))
  {
    var landed := s.(flights := RemoveAt(s.flights, e.flight));
    LandedValid(t, s, e.flight);
    BlockedHandled(t, landed, s.flights[e.flight], e.now, first, last, seen);
  }

  lemma BlockedDrop(s: Net, j: nat)
    requires Blocked(s) && j < |s.flights|
    ensures Blocked(s.(flights := RemoveAt(s.flights, j)))
  {
  }

  lemma BlockedNext(t: Topology, s: Net, e: Event, first: string, last: string, seen: string)
    requires t == Collision(first, last, seen) && ValidNet(t, s) && Enabled(s, e)
    requires Blocked(s) && OnlyFirstStarts(e)
    ensures Blocked(Next(t, s, e))
  {
    match e
    case Start(_, _, _, _, _) => BlockedStart(t, s, e);
    case Refresh(u) => BlockedSelf(t, s, u);
    case Stop(u) => BlockedSelf(t, s, u);
    case Advance(i) => BlockedAdvance(t, s, i);
    case Deliver(_, _, _) => BlockedDeliver(t, s, e, first, last, seen);
    case Drop(j) => BlockedDrop(s, j);
  }

  lemma {:induction false} StaysBlocked(t: Topology, s: Net, es: seq<Event>, first: string, last: string, seen: string)
    requires t == Collision(first, last, seen) && IsRun(t, s, es) && Blocked(s)
    requires forall i :: 0 <= i < |es| ==> OnlyFirstStarts(es[i])
    ensures Blocked(After(t, s, es))
    decreases es
  {
    if es != [] {
      BlockedNext(t, s, es[0], first, last, seen);
      StaysBlocked(t, Next(t, s, es[0]), es[1..], first, last, seen);
    }
  }

  // In this row flooding fails in every run, with or without losses and stops: the last node is
  // reachable from the first, but it never learns of a client started there.
  lemma CollidingAddressStopsFlood(t: Topology, es: seq<Event>, s: Net, first: string, last: string, seen: string)
    requires t == Collision(first, last, seen) && IsOutAddress(first) && IsOutAddress(last)
    requires Reaches(t, es, s) && forall i :: 0 <= i < |es| ==> OnlyFirstStarts(es[i])
    ensures OutAddressesOnly(t) && IsPath(t, [0, 1, 2]) && !AddressesAgree(t)
    ensures forall k :: !Holds(s, 2, k)
  {
    StaysBlocked(t, Initial(t), es, first, last, seen);
    assert t[0][0].dest == Some(1) && t[1][0].dest == Some(2);
    assert Linked(t, 0, 1) && Linked(t, 1, 2);
    var h := Hop(0, 0, true);
    assert ValidHop(t, h) && Receiver(t, h) == Some(1);
    assert !AddressAgrees(t, h, 0);
  }
}
