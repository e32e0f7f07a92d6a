/** What one node does with the messages it receives: update the store, notify, relay, reply. */
module Gossip {
  import opened Types
  import opened Decimal
  import opened Sequences
  import opened Tokens
  import opened Messages
  import opened StoreModel

  // The previous hop of messages that originate here.
  const LOCAL_NODE := "__LOCAL_NODE__"

  // The address of an outgoing connection.
  function OutAddress(host: string, port: int): string {
    host + ":" + IntToString(port)
  }

  ghost predicate IsOutAddress(address: string) {
    exists host, port :: address == OutAddress(host, port)
  }

  // The out-peers a broadcast reaches: all but those with the address of the previous hop.
  function Targets(addresses: seq<string>, previousHop: string): seq<nat> {
    if addresses == [] then []
    else
      var n := |addresses| - 1;
      var others := Targets(addresses[..n], previousHop);
      if addresses[n] != previousHop then others + [n] else others
  }

  lemma {:induction false} TargetsExact(addresses: seq<string>, previousHop: string)
    ensures forall i :: i in Targets(addresses, previousHop) <==>
              0 <= i < |addresses| && addresses[i] != previousHop
    ensures forall i, j :: 0 <= i < j < |Targets(addresses, previousHop)| ==>
              Targets(addresses, previousHop)[i] < Targets(addresses, previousHop)[j]
  {
    if addresses != [] {
      var n := |addresses| - 1;
      TargetsExact(addresses[..n], previousHop);
      var others := Targets(addresses[..n], previousHop);
      assert forall i :: 0 <= i < |others| ==> others[i] in others;
    }
  }

  lemma {:induction false} TargetsNone(addresses: seq<string>, previousHop: string)
    requires forall i :: 0 <= i < |addresses| ==> addresses[i] == previousHop
    ensures Targets(addresses, previousHop) == []
  {
    if addresses != [] {
      TargetsNone(addresses[..|addresses| - 1], previousHop);
    }
  }

  lemma OutAddressIsNotLocal(address: string)
    requires IsOutAddress(address)
    ensures ':' in address && address != LOCAL_NODE
  {
    var host, port :| address == OutAddress(host, port);
    assert address[|host|] == ':';
  }

  // A local announcement is sent to every out-peer: no outgoing address equals the local marker.
  lemma {:induction false} LocalBroadcastSkipsNobody(addresses: seq<string>)
    requires forall i :: 0 <= i < |addresses| ==> IsOutAddress(addresses[i])
    ensures |Targets(addresses, LOCAL_NODE)| == |addresses|
    ensures forall i :: 0 <= i < |addresses| ==> Targets(addresses, LOCAL_NODE)[i] == i
  {
    if addresses != [] {
      var n := |addresses| - 1;
      assert forall i :: 0 <= i < n ==> addresses[..n][i] == addresses[i];
      LocalBroadcastSkipsNobody(addresses[..n]);
      OutAddressIsNotLocal(addresses[n]);
    }
  }

  function AsUpdate(m: Message, now: Timestamp): Update
    requires m.PeerUpdate?
  {
    Update(Key(m.service, m.endpoint), m.isRemoved, m.lastSeen, now)
  }

  function AsInfo(m: Message): PeerInfo
    requires m.PeerUpdate?
  {
    PeerInfo(m.service, m.endpoint, m.lastSeen, m.isRemoved)
  }

  function Announced(p: PeerInfo): Message {
    PeerUpdate(p.service, p.endpoint, p.lastSeen, p.isRemoved)
  }

  function AsReply(e: Entry): Message {
    PeerUpdate(e.service, e.endpoint, e.lastSeen, e.isRemoved)
  }

  // One announcement for every listed entry of the queried service.
  ghost function Replies(s: Peers, service: string): seq<Message> {
    Map(AsReply, Listing(s, service))
  }

  // A node while it works through received messages.
  datatype Progress = Progress(
    peers: Peers,              // the store
    ticks: nat,                // how often the store read the clock
    notices: seq<PeerInfo>,    // what the client was told
    relays: seq<Message>,      // what was forwarded to the out-peers
    replies: seq<Message>)     // what was sent back to the peer the messages come from

  type Clock = nat -> Timestamp

  ghost function Handle(p: Progress, m: Message, clock: Clock): Progress {
    match m
    case PeerUpdate(_, _, _, _) =>
      var u := AsUpdate(m, clock(p.ticks));
      var known := p.(peers := Apply(p.peers, u), ticks := p.ticks + 1);
      if IsNews(Classify(p.peers, u)) then
        known.(notices := p.notices + [AsInfo(m)], relays := p.relays + [m])
      else known
    case Query(service) =>
      p.(replies := p.replies + Replies(p.peers, service))
  }

  ghost function HandleAll(p: Progress, ms: seq<Message>, clock: Clock): Progress {
    if ms == [] then p else Handle(HandleAll(p, ms[..|ms| - 1], clock), ms[|ms| - 1], clock)
  }

  // The message a read ends with ends the conversation when it is a peer update, or a query for
  // which the store lists nothing.
  ghost predicate Concludes(s: Peers, m: Message) {
    m.PeerUpdate? || Listing(s, m.service) == []
  }

  // These messages, received in one read, end the conversation: the last one does, with the store as
  // the earlier ones left it.
  ghost predicate EndsConversation(p: Progress, ms: seq<Message>, clock: Clock) {
    ms != [] && Concludes(HandleAll(p, ms[..|ms| - 1], clock).peers, ms[|ms| - 1])
  }

  // The store updates that handling these messages performs.
  function UpdatesOf(ms: seq<Message>, ticks: nat, clock: Clock): seq<Update> {
    if ms == [] then []
    else
      var earlier, m := UpdatesOf(ms[..|ms| - 1], ticks, clock), ms[|ms| - 1];
      if m.PeerUpdate? then earlier + [AsUpdate(m, clock(ticks + |earlier|))] else earlier
  }

  function InfoOf(u: Update): PeerInfo {
    PeerInfo(u.key.service, u.key.endpoint, u.lastSeen, u.isRemoved)
  }

  function MessageOf(u: Update): Message {
    PeerUpdate(u.key.service, u.key.endpoint, u.lastSeen, u.isRemoved)
  }

  lemma MapAppendOne<A, B>(f: A -> B, xs: seq<A>, x: A)
    ensures Map(f, xs + [x]) == Map(f, xs) + [f(x)]
  {
  }

  // Node q is what p became by applying these updates.
  ghost predicate Reached(p: Progress, us: seq<Update>, q: Progress) {
    && q.peers == ApplyAll(p.peers, us)
    && q.ticks == p.ticks + |us|
    && q.notices == p.notices + Map(InfoOf, Passed(p.peers, us))
    && q.relays == p.relays + Map(MessageOf, Passed(p.peers, us))
  }

  lemma ReachedOneMore(p: Progress, us: seq<Update>, q: Progress, m: Message, clock: Clock)
    requires m.PeerUpdate? && Reached(p, us, q)
    ensures Reached(p, us + [AsUpdate(m, clock(q.ticks))], Handle(q, m, clock))
  {
    var u, news := AsUpdate(m, clock(q.ticks)), Passed(p.peers, us);
    assert (us + [u])[..|us|] == us;
    if IsNews(Classify(q.peers, u)) {
      assert Passed(p.peers, us + [u]) == news + [u];
      MapAppendOne(InfoOf, news, u);
      MapAppendOne(MessageOf, news, u);
      assert p.notices + (Map(InfoOf, news) + [InfoOf(u)]) == q.notices + [AsInfo(m)];
      assert p.relays + (Map(MessageOf, news) + [MessageOf(u)]) == q.relays + [m];
    }
  }

  // Handling messages is applying their updates in order; exactly the updates that were news are
  // notified and relayed, each once and in order, whatever queries come in between.
  lemma {:induction false} HandlingAppliesUpdates(p: Progress, ms: seq<Message>, clock: Clock)
    ensures Reached(p, UpdatesOf(ms, p.ticks, clock), HandleAll(p, ms, clock))
  {
    if ms == [] {
      assert p.notices + [] == p.notices && p.relays + [] == p.relays;
    } else {
      var front, m := ms[..|ms| - 1], ms[|ms| - 1];
      HandlingAppliesUpdates(p, front, clock);
      if m.PeerUpdate? {
        ReachedOneMore(p, UpdatesOf(front, p.ticks, clock), HandleAll(p, front, clock), m, clock);
      }
    }
  }

  // Message i of what was relayed since p is one of those received, and the client was told just what it
  // says.
  predicate RelayedAndTold(p: Progress, ms: seq<Message>, q: Progress, i: nat)
    requires |p.relays| + i < |q.relays| && |p.notices| + i < |q.notices|
  {
    var m := q.relays[|p.relays| + i];
    && m in ms && m.PeerUpdate?
    && q.notices[|p.notices| + i] == PeerInfo(m.service, m.endpoint, m.lastSeen, m.isRemoved)
  }

  // Nothing is relayed but received announcements, as they are, and for each of them the client is told
  // the same.
  lemma {:induction false} ToldWhatCame(p: Progress, ms: seq<Message>, clock: Clock, q: Progress)
    requires q == HandleAll(p, ms, clock)
    ensures p.notices <= q.notices && p.relays <= q.relays
    ensures |q.notices| - |p.notices| == |q.relays| - |p.relays|
    ensures forall i :: 0 <= i < |q.relays| - |p.relays| ==> RelayedAndTold(p, ms, q, i)
  {
    if ms != [] {
      var front := ms[..|ms| - 1];
      var q' := HandleAll(p, front, clock);
      ToldWhatCame(p, front, clock, q');
      forall i | 0 <= i < |q.relays| - |p.relays| ensures RelayedAndTold(p, ms, q, i) {
        if i < |q'.relays| - |p.relays| {
          assert RelayedAndTold(p, front, q', i);
        }
      }
    }
  }

  function FlagsOf(infos: seq<PeerInfo>, k: Key): seq<bool> {
    if infos == [] then []
    else
      var front, i := infos[..|infos| - 1], infos[|infos| - 1];
      if i.service == k.service && i.endpoint == k.endpoint then FlagsOf(front, k) + [i.isRemoved] else FlagsOf(front, k)
  }

  lemma FlagsOfOneMore(infos: seq<PeerInfo>, i: PeerInfo, k: Key)
    ensures FlagsOf(infos + [i], k) ==
            if i.service == k.service && i.endpoint == k.endpoint then FlagsOf(infos, k) + [i.isRemoved]
            else FlagsOf(infos, k)
  {
    assert (infos + [i])[..|infos|] == infos;
  }

  lemma {:induction false} FlagsOfInfos(us: seq<Update>, k: Key)
    ensures FlagsOf(Map(InfoOf, us), k) == Flags(us, k)
  {
    if us != [] {
      var front, last := us[..|us| - 1], us[|us| - 1];
      FlagsOfInfos(front, k);
      assert us == front + [last];
      MapAppendOne(InfoOf, front, last);
      FlagsOfOneMore(Map(InfoOf, front), InfoOf(last), k);
      FlagsAppendOne(front, last, k);
    }
  }

  // What a client is told about a peer its node did not know: the flag changes, nothing else. The
  // last thing it was told is what the store holds.
  lemma NoticesAreFlagChanges(p: Progress, ms: seq<Message>, clock: Clock, k: Key, q: Progress)
    requires k !in p.peers && p.notices == []
    requires q == HandleAll(p, ms, clock)
    ensures FlagsOf(q.notices, k) == Destutter(Flags(UpdatesOf(ms, p.ticks, clock), k))
    ensures forall i :: 0 < i < |FlagsOf(q.notices, k)| ==> FlagsOf(q.notices, k)[i] != FlagsOf(q.notices, k)[i - 1]
    ensures k in q.peers <==> FlagsOf(q.notices, k) != []
    ensures k in q.peers ==> EndsWith(FlagsOf(q.notices, k), q.peers[k].isRemoved)
  {
    var us := UpdatesOf(ms, p.ticks, clock);
    HandlingAppliesUpdates(p, ms, clock);
    var news := Passed(p.peers, us);
    assert [] + Map(InfoOf, news) == Map(InfoOf, news);
    FlagsOfInfos(news, k);
    ForwardingIsStutterRemoval(p.peers, us, k, Flags(news, k));
  }

  // ---------- the order of messages ----------

  predicate NoneRemoved(ms: seq<Message>) {
    forall m :: m in ms && m.PeerUpdate? ==> !m.isRemoved
  }

  predicate Names(ms: seq<Message>, k: Key) {
    exists m :: m in ms && m.PeerUpdate? && Key(m.service, m.endpoint) == k
  }

  lemma {:induction false} NamedKeys(ms: seq<Message>, ticks: nat, clock: Clock)
    requires NoneRemoved(ms)
    ensures NoRemovals(UpdatesOf(ms, ticks, clock))
    ensures forall k :: k in Keys(UpdatesOf(ms, ticks, clock)) <==> Names(ms, k)
  {
    if ms != [] {
      var front, m := ms[..|ms| - 1], ms[|ms| - 1];
      var earlier := UpdatesOf(front, ticks, clock);
      assert forall x :: x in ms <==> x in front || x == m;
      NamedKeys(front, ticks, clock);
      if m.PeerUpdate? {
        KeysAppendOne(earlier, AsUpdate(m, clock(ticks + |earlier|)));
      }
      forall k ensures Names(ms, k) <==>
                       Names(front, k) || (m.PeerUpdate? && Key(m.service, m.endpoint) == k)
      {
        assert m in ms;
      }
    }
  }

  lemma {:induction false} FlagsOfAppend(a: seq<PeerInfo>, b: seq<PeerInfo>, k: Key)
    ensures FlagsOf(a + b, k) == FlagsOf(a, k) + FlagsOf(b, k)
  {
    if b == [] {
      assert a + b == a;
    } else {
      assert (a + b)[..|a + b| - 1] == a + b[..|b| - 1];
      FlagsOfAppend(a, b[..|b| - 1], k);
    }
  }

  lemma ToldFlags(p: Progress, ms: seq<Message>, clock: Clock, k: Key)
    ensures FlagsOf(HandleAll(p, ms, clock).notices, k) ==
            FlagsOf(p.notices, k) + Flags(Passed(p.peers, UpdatesOf(ms, p.ticks, clock)), k)
  {
    var news := Passed(p.peers, UpdatesOf(ms, p.ticks, clock));
    HandlingAppliesUpdates(p, ms, clock);
    FlagsOfAppend(p.notices, Map(InfoOf, news), k);
    FlagsOfInfos(news, k);
  }

  // Two nodes that start alike and receive the same messages in different orders, some of them more
  // than once, at different times by different clocks, end with the same keys and the same listings,
  // and have told their clients the same about every peer.
  lemma MessageOrderDoesNotMatter(p: Progress, a: seq<Message>, b: seq<Message>, clockA: Clock, clockB: Clock,
                                  service: string, k: Key)
    requires AllLive(p.peers) && WellKeyed(p.peers)
    requires NoneRemoved(a) && forall m :: m in a <==> m in b
    ensures var q, r := HandleAll(p, a, clockA), HandleAll(p, b, clockB);
            && q.peers.Keys == r.peers.Keys
            && Endpoints(Listing(q.peers, service)) == Endpoints(Listing(r.peers, service))
            && FlagsOf(q.notices, k) == FlagsOf(r.notices, k)
  {
    var us, vs := UpdatesOf(a, p.ticks, clockA), UpdatesOf(b, p.ticks, clockB);
    NamedKeys(a, p.ticks, clockA);
    NamedKeys(b, p.ticks, clockB);
    assert forall x :: Names(a, x) <==> Names(b, x);
    assert Keys(us) == Keys(vs);
    HandlingAppliesUpdates(p, a, clockA);
    HandlingAppliesUpdates(p, b, clockB);
    ArrivalOrderDoesNotMatter(p.peers, us, vs, service, k);
    ToldFlags(p, a, clockA, k);
    ToldFlags(p, b, clockB, k);
  }

  // ---------- each key applied once ----------

  predicate Distinct(us: seq<Update>) {
    forall i, j :: 0 <= i < j < |us| ==> us[i].key != us[j].key
  }

  lemma {:induction false} EachAppliedOnce(s: Peers, us: seq<Update>, i: nat)
    requires Distinct(us) && i < |us|
    ensures us[i].key in ApplyAll(s, us)
    ensures ApplyAll(s, us)[us[i].key] == Apply(s, us[i])[us[i].key]
  {
    var n := |us| - 1;
    if i < n {
      EachAppliedOnce(s, us[..n], i);
    } else {
      assert forall j :: 0 <= j < n ==> us[..n][j] == us[j];
      NeverUpdated(s, us[..n], us[n].key);
    }
  }

  lemma {:induction false} UpdatesOfPeerUpdates(ms: seq<Message>, ticks: nat, clock: Clock)
    requires forall i :: 0 <= i < |ms| ==> ms[i].PeerUpdate?
    ensures |UpdatesOf(ms, ticks, clock)| == |ms|
    ensures forall i :: 0 <= i < |ms| ==> UpdatesOf(ms, ticks, clock)[i] == AsUpdate(ms[i], clock(ticks + i))
  {
    if ms != [] {
      UpdatesOfPeerUpdates(ms[..|ms| - 1], ticks, clock);
    }
  }

  predicate CleanKeys(s: Peers) {
    forall k :: k in s ==> Clean(k.service) && Clean(k.endpoint)
  }
}
