/** How far a started client becomes known, when nothing is lost and no addresses collide. */
module NetworkCompleteness {
  import opened Types
  import opened Decimal
  import opened Framing
  import opened Network
  import opened NetworkTermination
  import opened NetworkFlood
  import opened NetworkConnections
  import opened NetworkLessons

  // An address that a message comes from is, for the receiver, an out-peer's address only if that
  // out-peer is the sender.
  ghost predicate AddressesAgree(t: Topology) {
    forall h: Hop, j: nat :: ValidHop(t, h) ==> AddressAgrees(t, h, j)
  }

  predicate AddressAgrees(t: Topology, h: Hop, j: nat)
    requires ValidHop(t, h)
  {
    var r := Receiver(t, h);
    r.Some? && r.value < |t| && j < |t[r.value]|
      && t[r.value][j].address == PeerAddress(t, h) && t[r.value][j].dest.Some?
    ==> t[r.value][j].dest == Sender(t, h)
  }

  // ---------- one connection at rest ----------

  // What was skipped as the previous hop does hold the key.
  lemma SkippedHolds(t: Topology, s: Net, u: nat, i: nat, k: Key)
    requires AddressesAgree(t) && Taught(t, s) && |s.nodes| == |t|
    requires u < |t| && i < |t[u]| && t[u][i].dest.Some? && Skipped(t, s, u, i, k)
    ensures Holds(s, t[u][i].dest.value, k)
  {
    assert SoundLesson(t, s, u, k);
    assert AddressAgrees(t, s.nodes[u].learned[k].hop, i);
  }

  // A refused announcement was not needed, if the near end had no other client to be closed for.
  lemma RefusedHolds(t: Topology, s: Net, u: nat, i: nat, k: Key)
    requires InOrder(t, s) && |s.nodes| == |t|
    requires u < |t| && i < |t[u]| && t[u][i].dest.Some? && Refused(s, Hop(u, i, true), k)
    requires s.nodes[u].started <= {k}
    ensures Holds(s, t[u][i].dest.value, k)
  {
    var h := Hop(u, i, true);
    var p :| p in s.refused && Carries(p.hop, p.m, h, k);
    assert Line(p.hop) == h && h in s.closed && Line(h) == h;
    var own: Key :| own in Own(s, h) && IntroducedFor(t, s, h, own.service);
    var k' :| k' in Own(s, h) && k'.service == own.service && Holds(s, LinkOf(t, Line(h)).dest.value, k');
    assert k' == k;
  }

  lemma EdgeAtRest(t: Topology, s: Net, u: nat, i: nat, k: Key)
    requires AddressesAgree(t) && InOrder(t, s) && Taught(t, s) && Quiescent(s) && |s.nodes| == |t|
    requires u < |t| && i < |t[u]| && t[u][i].dest.Some? && Holds(s, u, k) && s.nodes[u].started <= {k}
    ensures Holds(s, t[u][i].dest.value, k)
  {
    assert EdgeServed(t, s, u, i, k);
    if Skipped(t, s, u, i, k) {
      SkippedHolds(t, s, u, i, k);
    } else if Refused(s, Hop(u, i, true), k) {
      RefusedHolds(t, s, u, i, k);
    }
  }

  // ---------- along a path ----------

  ghost predicate Linked(t: Topology, u: nat, v: nat) {
    u < |t| && exists i :: 0 <= i < |t[u]| && t[u][i].dest == Some(v)
  }

  ghost predicate IsPath(t: Topology, path: seq<nat>) {
    path != [] && forall i :: 0 <= i < |path| - 1 ==> Linked(t, path[i], path[i + 1])
  }

  // All nodes of the path but the last were started with no other client.
  predicate RelaysOnly(s: Net, path: seq<nat>, k: Key) {
    forall x :: 0 <= x < |path| - 1 ==> path[x] < |s.nodes| && s.nodes[path[x]].started <= {k}
  }

  lemma {:induction false} HoldsAlongPath(t: Topology, s: Net, path: seq<nat>, k: Key)
    requires IsPath(t, path) && RelaysOnly(s, path, k) && Holds(s, path[0], k)
    requires AddressesAgree(t) && InOrder(t, s) && Taught(t, s) && Quiescent(s) && |s.nodes| == |t|
    ensures Holds(s, path[|path| - 1], k)
  {
    if |path| > 1 {
      assert Linked(t, path[0], path[1]);
      var i :| 0 <= i < |t[path[0]]| && t[path[0]][i].dest == Some(path[1]);
      EdgeAtRest(t, s, path[0], i, k);
      assert forall x :: 0 <= x < |path| - 1 ==> path[1..][x] == path[x + 1];
      HoldsAlongPath(t, s, path[1..], k);
    }
  }

  // In these events no client but k is started at this node.
  predicate StartsOnly(es: seq<Event>, u: nat, k: Key) {
    forall i :: 0 <= i < |es| && es[i].Start? && es[i].node == u ==> Starts(es[i], u, k)
  }

  lemma StartsOnlyRecorded(t: Topology, s: Net, es: seq<Event>, u: nat, k: Key)
    requires IsRun(t, s, es) && u < |t| && StartsOnly(es, u, k)
    requires s.nodes[u].started <= {k}
    ensures After(t, s, es).nodes[u].started <= {k}
  {
    forall x | x in After(t, s, es).nodes[u].started ensures x == k {
      StartedIsRecorded(t, s, es, u, x);
      if x !in s.nodes[u].started {
        var i :| 0 <= i < |es| && Starts(es[i], u, x);
      }
    }
  }

  lemma {:induction false} StartedInRange(t: Topology, s: Net, es: seq<Event>, start: nat)
    requires IsRun(t, s, es) && start < |es| && es[start].Start?
    ensures es[start].node < |t|
    decreases es
  {
    if start > 0 {
      StartedInRange(t, Next(t, s, es[0]), es[1..], start - 1);
    }
  }

  // The state of a run after a client was started at the head of a path of relaying nodes.
  ghost predicate Spreading(t: Topology, s: Net, path: seq<nat>, k: Key) {
    && InOrder(t, s) && Taught(t, s)
    && IsPath(t, path) && RelaysOnly(s, path, k)
    && path[0] < |s.nodes| && k in s.nodes[path[0]].started
  }

  lemma RunSpreads(t: Topology, es: seq<Event>, s: Net, start: nat, path: seq<nat>, k: Key)
    requires Reaches(t, es, s) && AllKeep(es) && OutAddressesOnly(t)
    requires IsPath(t, path) && start < |es| && Starts(es[start], path[0], k)
    requires forall x :: 0 <= x < |path| - 1 ==> StartsOnly(es, path[x], k)
    ensures Spreading(t, s, path, k)
  {
    EveryKeyWasTaught(t, es, s);
    StartedInRange(t, Initial(t), es, start);
    StartedIsRecorded(t, Initial(t), es, path[0], k);
    forall x | 0 <= x < |path| - 1 ensures path[x] < |s.nodes| && s.nodes[path[x]].started <= {k} {
      assert Linked(t, path[x], path[x + 1]);
      StartsOnlyRecorded(t, Initial(t), es, path[x], k);
    }
  }

  lemma RestIsComplete(t: Topology, s: Net, path: seq<nat>, k: Key)
    requires AddressesAgree(t) && Spreading(t, s, path, k) && Quiescent(s) && |s.nodes| == |t|
    ensures Holds(s, path[|path| - 1], k)
  {
    assert SoundNode(s.nodes[path[0]]);
    HoldsAlongPath(t, s, path, k);
  }

  // Flooding is complete along nodes that only relay: in a run that loses and forgets nothing, once
  // the network is at rest, a client is known along every path from where it was started on which no
  // other client was started but at the end, whatever else was started elsewhere and when.
  lemma FloodingComplete(t: Topology, es: seq<Event>, s: Net, start: nat, path: seq<nat>, k: Key)
    requires Reaches(t, es, s) && AllKeep(es) && Quiescent(s)
    requires OutAddressesOnly(t) && AddressesAgree(t)
    requires IsPath(t, path) && start < |es| && Starts(es[start], path[0], k)
    requires forall x :: 0 <= x < |path| - 1 ==> StartsOnly(es, path[x], k)
    ensures Holds(s, path[|path| - 1], k)
  {
    RunSpreads(t, es, s, start, path, k);
    RestIsComplete(t, s, path, k);
  }

  // Single-word names do not keep a network going.
  lemma RunDies(t: Topology, es: seq<Event>, s: Net)
    requires Reaches(t, es, s) && AllKeep(es)
    ensures Dying(s)
  {
    ReachedNames(t, es, s);
    forall k: Key | k in StartedKeys(es) ensures IsLine(k.service) && IsLine(k.endpoint) {
      var i :| 0 <= i < |es| && es[i].Start? && Key(es[i].service, es[i].endpoint) == k;
      assert Keeps(es[i]);
      CleanIsOneLine(k);
    }
    forall services ensures !Sustaining(StartedKeys(es), services) {
      LineNamesDie(StartedKeys(es), services);
    }
    KnownNamesDie(s, StartedKeys(es));
  }

  lemma CleanIsOneLine(k: Key)
    requires CleanKey(k)
    ensures IsLine(k.service) && IsLine(k.endpoint)
  {
    assert IsSpace(NEWLINE);
  }

  predicate NoStart(es: seq<Event>) {
    forall i :: 0 <= i < |es| ==> !es[i].Start?
  }

  lemma NoStartKeepsStarted(t: Topology, s: Net, es: seq<Event>, u: nat)
    requires IsRun(t, s, es) && NoStart(es) && u < |t|
    ensures After(t, s, es).nodes[u].started == s.nodes[u].started
  {
    forall k ensures k in After(t, s, es).nodes[u].started <==> k in s.nodes[u].started {
      StartedIsRecorded(t, s, es, u, k);
    }
  }

  lemma SettlingKeeps(t: Topology, s: Net, more: seq<Event>)
    requires ValidNet(t, s) && Settles(t, s, more)
    ensures AllKeep(more) && NoStart(more)
  {
  }

  lemma StillSpreads(t: Topology, s: Net, more: seq<Event>, s': Net, path: seq<nat>, k: Key)
    requires OutAddressesOnly(t) && Spreading(t, s, path, k)
    requires IsRun(t, s, more) && AllKeep(more) && NoStart(more) && s' == After(t, s, more)
    ensures Spreading(t, s', path, k)
  {
    StaysTaught(t, s, more);
    NoStartKeepsStarted(t, s, more, path[0]);
    forall x | 0 <= x < |path| - 1 ensures path[x] < |s'.nodes| && s'.nodes[path[x]].started <= {k} {
      assert Linked(t, path[x], path[x + 1]);
      NoStartKeepsStarted(t, s, more, path[x]);
    }
  }

  // Flooding happens: from every state of such a run the network can come to rest within the bound
  // without losing a message, and then the client is known along every such path.
  lemma FloodingHappens(t: Topology, es: seq<Event>, s: Net, start: nat, path: seq<nat>, k: Key)
    returns (more: seq<Event>)
    requires Reaches(t, es, s) && AllKeep(es)
    requires OutAddressesOnly(t) && AddressesAgree(t)
    requires IsPath(t, path) && start < |es| && Starts(es[start], path[0], k)
    requires forall x :: 0 <= x < |path| - 1 ==> StartsOnly(es, path[x], k)
    ensures Dying(s) && Settles(t, s, more) && |more| <= StepBound(t, s)
    ensures Holds(After(t, s, more), path[|path| - 1], k)
  {
    RunSpreads(t, es, s, start, path, k);
    RunDies(t, es, s);
    more := CanSettle(t, s);
    SettlingKeeps(t, s, more);
    StillSpreads(t, s, more, After(t, s, more), path, k);
    RestIsComplete(t, After(t, s, more), path, k);
  }

  // ---------- coming to rest ----------

  lemma ReachesFurther(t: Topology, before: seq<Event>, s: Net, more: seq<Event>, s': Net)
    requires Reaches(t, before, s) && IsRun(t, s, more) && s' == After(t, s, more)
    requires AllKeep(before) && AllKeep(more)
    ensures Reaches(t, before + more, s') && AllKeep(before + more)
  {
    RunsJoin(t, Initial(t), before, more);
  }

  lemma SettlesFrom(t: Topology, es: seq<Event>, s: Net) returns (rest: seq<Event>, s': Net)
    requires Reaches(t, es, s) && AllKeep(es)
    ensures IsRun(t, s, rest) && s' == After(t, s, rest) && AllKeep(rest) && NoStart(rest) && Quiescent(s')
  {
    RunDies(t, es, s);
    rest := CanSettle(t, s);
    SettlingKeeps(t, s, rest);
    s' := After(t, s, rest);
  }

  // A start, and then the network comes to rest.
  lemma StartAndSettle(t: Topology, before: seq<Event>, s: Net, e: Event) returns (wave: seq<Event>, s': Net)
    requires Reaches(t, before, s) && AllKeep(before) && e.Start? && Keeps(e) && Enabled(s, e)
    ensures IsRun(t, s, wave) && s' == After(t, s, wave) && AllKeep(wave) && Quiescent(s')
    ensures wave != [] && wave[0] == e && forall i :: 0 < i < |wave| ==> !wave[i].Start?
  {
    var started := Next(t, s, e);
    NextValid(t, s, e);
    RunOneMore(t, s, e, []);
    ReachesFurther(t, before, s, [e] + [], started);
    var rest, end := SettlesFrom(t, before + ([e] + []), started);
    RunOneMore(t, s, e, rest);
    wave, s' := [e] + rest, end;
  }
}
