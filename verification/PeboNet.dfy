/** Connections, the node that owns them, and the shell in front of it, as objects updated in place. */
module PeboNet {
  import opened Types
  import opened Decimal
  import opened Sequences
  import opened Tokens
  import opened Messages
  import opened Framing
  import opened StoreModel
  import opened PeerStore
  import opened Gossip
  import opened Answers

  datatype State =
    | NotConnected | Connecting | Connected | Accepted
    | Sending | Sent | Receiving | Received | Closing | Closed

  predicate IsClosed(s: State) {
    s == Closing || s == Closed
  }

  // The output side of a connection: its state and everything handed to the socket. The receive
  // buffer is carried along because sending leaves it alone.
  datatype Output = Output(state: State, written: string, receiveBuffer: string)

  // Sending on a closing or closed connection does nothing.
  function AfterSending(o: Output, ms: seq<Message>): Output {
    if IsClosed(o.state) || ms == [] then o
    else o.(state := Sending, written := o.written + EncodeAll(ms))
  }

  // Messages handed over one batch after the other: sends, relays, broadcasts or replies.
  function AfterBatches(o: Output, batches: seq<seq<Message>>): Output
    decreases batches
  {
    if batches == [] then o else AfterBatches(AfterSending(o, batches[0]), batches[1..])
  }

  // A closing or closed connection stays as it is, whatever is sent on it.
  lemma {:induction false} ClosedTakesNothing(o: Output, batches: seq<seq<Message>>)
    requires o.state == Closing || o.state == Closed
    ensures AfterBatches(o, batches) == o
    decreases batches
  {
    if batches != [] {
      ClosedTakesNothing(o, batches[1..]);
    }
  }

  // Any other connection takes every message, in order.
  lemma {:induction false} OpenTakesAll(o: Output, batches: seq<seq<Message>>)
    requires o.state != Closing && o.state != Closed
    ensures AfterBatches(o, batches).written == o.written + EncodeAll(FlatMap((b: seq<Message>) => b, batches))
    ensures AfterBatches(o, batches).state == o.state || AfterBatches(o, batches).state == Sending
    decreases batches
  {
    if batches == [] {
      NothingSent(o.written);
    } else {
      var all := FlatMap((b: seq<Message>) => b, batches[1..]);
      OpenTakesAll(AfterSending(o, batches[0]), batches[1..]);
      NothingSent(o.written);
      RepliesContinue(o.written, batches[0], all);
    }
  }

  // What was handed to the socket in between is received as these messages; on a connection that was
  // closing or closed before, nothing happened.
  ghost predicate Heard(before: Output, after: Output, ms: seq<Message>) {
    if before.state == Closing || before.state == Closed then after == before
    else
      && after.state == Sending && before.written <= after.written
      && Framing.Received(after.written[|before.written|..]) == ms
  }

  lemma HeardAfterSending(o: Output, ms: seq<Message>)
    requires ms != [] && forall m :: m in ms ==> CleanMessage(m)
    ensures Heard(o, AfterSending(o, ms), NormalAll(ms))
  {
    if !IsClosed(o.state) {
      var after := o.written + EncodeAll(ms);
      assert after[|o.written|..] == EncodeAll(ms);
      ReceiveEncoded(ms);
      WireAllOfClean(ms);
    }
  }

  lemma AnnouncementHeard(o: Output, service: string, endpoint: string, time: Timestamp, removed: bool)
    requires Clean(service) && Clean(endpoint)
    ensures Heard(o, AfterSending(o, [PeerUpdate(service, endpoint, time, removed)]),
                  [PeerUpdate(service, endpoint, if time < 0x8000_0000 then time else 0, false)])
  {
    HeardAfterSending(o, [PeerUpdate(service, endpoint, time, removed)]);
  }

  lemma StartHeard(o: Output, service: string, endpoint: string, time: Timestamp)
    requires Clean(service) && Clean(endpoint)
    ensures Heard(o, AfterSending(o, [PeerUpdate(service, endpoint, time, false), Query(service)]),
                  [PeerUpdate(service, endpoint, if time < 0x8000_0000 then time else 0, false), Query(service)])
  {
    HeardAfterSending(o, [PeerUpdate(service, endpoint, time, false), Query(service)]);
  }

  // A node that handles what a starting client sends knows the client, as not removed and seen then, and
  // answers with it among the others of its service.
  lemma StartIsLearned(p: Progress, service: string, endpoint: string, time: Timestamp, clock: Clock, q: Progress)
    requires WellKeyed(p.peers)
    requires q == HandleAll(p, [PeerUpdate(service, endpoint, time, false), Query(service)], clock)
    ensures Key(service, endpoint) in q.peers
    ensures var e := q.peers[Key(service, endpoint)]; !e.isRemoved && e.lastSeen == time
    ensures q.replies == p.replies + Replies(q.peers, service)
    ensures PeerUpdate(service, endpoint, time, false) in Replies(q.peers, service)
  {
    var announcement := PeerUpdate(service, endpoint, time, false);
    HandleTwo(p, announcement, Query(service), clock);
    AnnouncementStored(p, announcement, clock, Handle(p, announcement, clock));
    ListedIsReplied(q.peers, Key(service, endpoint));
  }

  lemma HandleTwo(p: Progress, a: Message, b: Message, clock: Clock)
    ensures HandleAll(p, [a, b], clock) == Handle(Handle(p, a, clock), b, clock)
  {
    assert [a, b][..1] == [a] && [a][..0] == [];
    assert HandleAll(p, [a], clock) == Handle(HandleAll(p, [], clock), a, clock);
  }

  lemma AnnouncementStored(p: Progress, m: Message, clock: Clock, q: Progress)
    requires WellKeyed(p.peers) && m.PeerUpdate? && !m.isRemoved && q == Handle(p, m, clock)
    ensures WellKeyed(q.peers) && q.replies == p.replies
    ensures Key(m.service, m.endpoint) in q.peers
    ensures var e := q.peers[Key(m.service, m.endpoint)]; !e.isRemoved && e.lastSeen == m.lastSeen
  {
  }

  lemma ListedIsReplied(s: Peers, k: Key)
    requires WellKeyed(s) && k in s && !s[k].isRemoved
    ensures PeerUpdate(k.service, k.endpoint, s[k].lastSeen, false) in Replies(s, k.service)
  {
    ListingExact(s, k.service);
    assert IsListed(s, k.service, s[k]);
    var i :| 0 <= i < |Listing(s, k.service)| && Listing(s, k.service)[i] == s[k];
    assert Replies(s, k.service)[i] == AsReply(s[k]);
  }

  lemma OneMessageText(sent: string, m: Message)
    ensures sent + EncodeAll([m]) == sent + ToString(m) + "\n"
  {
    FlatMapOne(Encode, m);
    Associative(sent, ToString(m), "\n");
  }

  lemma HandleOneMore(p: Progress, ms: seq<Message>, m: Message, clock: Clock)
    ensures HandleAll(p, ms + [m], clock) == Handle(HandleAll(p, ms, clock), m, clock)
    ensures EndsConversation(p, ms + [m], clock) <==>
              m.PeerUpdate? || Replies(HandleAll(p, ms, clock).peers, m.service) == []
  {
    assert (ms + [m])[..|ms|] == ms;
  }

  lemma NothingSent(sent: string)
    ensures sent + EncodeAll([]) == sent
  {
  }

  lemma EncodeAllAppend(a: seq<Message>, b: seq<Message>)
    ensures EncodeAll(a + b) == EncodeAll(a) + EncodeAll(b)
  {
    FlatMapAppend(Encode, a, b);
  }

  lemma RepliesContinue(sent: string, a: seq<Message>, b: seq<Message>)
    ensures b == [] ==> a + b == a
    ensures sent + EncodeAll(a + b) == sent + EncodeAll(a) + EncodeAll(b)
  {
    EncodeAllAppend(a, b);
    Associative(sent, EncodeAll(a), EncodeAll(b));
  }

  lemma RepliedOn(o: Output, sent: string, earlier: seq<Message>, replies: seq<Message>)
    requires !IsClosed(o.state) && o.written == sent + EncodeAll(earlier)
    ensures AfterSending(o, replies).written == sent + EncodeAll(earlier + replies)
    ensures AfterSending(o, replies).state == if replies == [] then o.state else Sending
    ensures replies == [] ==> earlier + replies == earlier
  {
    RepliesContinue(sent, earlier, replies);
  }

  lemma RepliesOfOne(q: Progress, m: Message, clock: Clock, replies: seq<Message>)
    requires replies == if m.Query? then Replies(q.peers, m.service) else []
    ensures Handle(q, m, clock).replies == q.replies + replies
  {
    NothingAdded(q.replies);
  }

  lemma SendingContinues(o: Output, a: seq<Message>, b: seq<Message>)
    ensures AfterSending(AfterSending(o, a), b) == AfterSending(o, a + b)
  {
    if a == [] {
      assert a + b == b;
    } else {
      RepliesContinue(o.written, a, b);
    }
  }

  lemma AllReceived(buffer: string, done: seq<Message>)
    requires FindNewline(buffer) == |buffer|
    ensures done + Framing.Received(buffer) == done
    ensures Residue(buffer) == buffer
  {
    assert Lines(buffer) == [];
  }

  lemma OneLineDone(buffer: string, n: nat, done: seq<Message>, line: string)
    requires n == FindNewline(buffer) < |buffer| && line == buffer[..n]
    ensures done + Accept(line) + Framing.Received(buffer[n + 1..]) == done + Framing.Received(buffer)
    ensures Residue(buffer) == Residue(buffer[n + 1..])
  {
    FirstReceived(buffer, n);
    Associative(done, Accept(line), Framing.Received(buffer[n + 1..]));
  }

  class NetClient {
    const net: PeboNet
    const nodeAddr: string
    const outgoing: bool
    var state: State
    var receiveBuffer: string
    var written: string   // everything handed to the socket

    ghost function Out(): Output
      reads this
    {
      Output(state, written, receiveBuffer)
    }

    constructor (net: PeboNet, nodeAddr: string, outgoing: bool)
      ensures this.net == net && this.nodeAddr == nodeAddr && this.outgoing == outgoing
      ensures Out() == Output(if outgoing then NotConnected else Accepted, "", "")
    {
      this.net, this.nodeAddr, this.outgoing := net, nodeAddr, outgoing;
      state := if outgoing then NotConnected else Accepted;
      receiveBuffer, written := "", "";
    }

    // Hands one message to the socket, which reports zero, or an error that closes the connection.
    method SendMessage(m: Message, writeResult: int) returns (res: int)
      modifies this`state, this`written
      ensures old(state) == Closing || old(state) == Closed ==> res == 0 && unchanged(this)
      ensures old(state) != Closing && old(state) != Closed && writeResult == 0 ==>
                res == 0 && state == Sending && written == old(written) + ToString(m) + "\n"
      ensures old(state) != Closing && old(state) != Closed && writeResult != 0 ==>
                res == writeResult && state == Closing && written == old(written)
      ensures writeResult == 0 ==> Out() == AfterSending(old(Out()), [m])
    {
      if state == Closing || state == Closed {
        return 0;
      }
      state := Sending;
      var msg := ToString(m);
      msg := msg + [NEWLINE];
      if writeResult != 0 {
        Close();
        return writeResult;
      }
      OneMessageText(written, m);
      Associative(written, ToString(m), [NEWLINE]);
      written := written + msg;
      return 0;
    }

    // A write that the socket takes.
    method Write(m: Message)
      modifies this`state, this`written
      ensures Out() == AfterSending(old(Out()), [m])
    {
      var _ := SendMessage(m, 0);
    }

    method Close()
      modifies this`state
      ensures state == Closing
    {
      state := Closing;
    }

    method DoRead()
      requires state == Connected || state == Accepted || state == Sent || state == Sending || state == Receiving
      modifies this`state
      ensures state == Receiving
    {
      state := Receiving;
    }

    // The next action of an outgoing connection; an incoming one has none.
    method Process()
      requires outgoing ==>
                 state == Connected || state == Sending || state == Sent || state == Receiving || state == Received
      modifies this`state
      ensures state == if !outgoing then old(state) else if old(state) == Received then Closing else Receiving
    {
      if outgoing {
        if state == Received {
          Close();
        } else {
          DoRead();
        }
      }
    }

    // A read reports a negative error, the end of the stream, or some input with or without a buffer.
    // Of an error or the end nothing is noted here: the connection keeps its state and its residue.
    method OnRead(nread: int, chunk: Option<string>)
      requires net.Valid()
      requires state == Receiving || state == Sending || (!outgoing && state == Received)
      modifies this, net`ticks, net`notices, net.store, net.OutClients()
      ensures net.Valid()
      ensures nread <= 0 ==> unchanged(this, net`ticks, net`notices, net.store, net.OutClients())
      ensures nread > 0 && chunk.None? ==>
                && unchanged(this`receiveBuffer, this`written, net`ticks, net`notices, net.store)
                && state == if outgoing then Receiving else old(state)
      ensures nread > 0 && chunk.Some? ==>
                var ms := Framing.Received(old(receiveBuffer) + chunk.value);
                && receiveBuffer == Residue(old(receiveBuffer) + chunk.value)
                && Did(HandleAll(old(net.Now()), ms, net.clock), old(net.Outputs()), old(written))
                && state == StateAfterRead(old(state), EndsConversation(old(net.Now()), ms, net.clock), ms)
      ensures nread > 0 && chunk.Some? && outgoing ==>
                var c := ReadOn(Conversation(old(net.Now()), old(receiveBuffer), [], false), chunk.value, net.clock);
                && receiveBuffer == c.buffer && Did(c.node, old(net.Outputs()), old(written))
                && state == if c.closed then Closing else Receiving
      ensures nread > 0 && chunk.Some? ==>
                var q := HandleAll(old(net.Now()), Framing.Received(old(receiveBuffer) + chunk.value), net.clock);
                && net.store.peers == q.peers && net.notices == q.notices
                && written == old(written) + EncodeAll(q.replies)
                && forall c :: c in net.OutClients() && c != this ==>
                     c.Out() == if c.nodeAddr == nodeAddr then old(c.Out()) else AfterSending(old(c.Out()), q.relays)
      ensures nread > 0 && chunk.Some? && outgoing ==>
                if EndsConversation(old(net.Now()), Framing.Received(old(receiveBuffer) + chunk.value), net.clock)
                then forall batches :: AfterBatches(Out(), batches) == Out()
                else forall m :: AfterSending(Out(), [m]) == Output(Sending, written + ToString(m) + "\n", receiveBuffer)
    {
      if nread < 0 {
        return;
      }
      if nread == 0 {
        return;
      }
      if chunk.Some? {
        OnChunk(chunk.value);
        SilentOrOpen();
      } else {
        Process();
      }
    }

    // From here on nothing more goes out, or everything does.
    lemma SilentOrOpen()
      ensures state == Closing ==> forall batches :: AfterBatches(Out(), batches) == Out()
      ensures state == Receiving ==>
                forall m :: AfterSending(Out(), [m]) == Output(Sending, written + ToString(m) + "\n", receiveBuffer)
    {
      if state == Closing {
        forall batches ensures AfterBatches(Out(), batches) == Out() {
          ClosedTakesNothing(Out(), batches);
        }
      } else {
        forall m ensures written + EncodeAll([m]) == written + ToString(m) + "\n" {
          OneMessageText(written, m);
        }
      }
    }

    function StateAfterRead(before: State, ended: bool, ms: seq<Message>): State {
      if !outgoing then StateAfter(before, ended, ms) else if ended then Closing else Receiving
    }

    // A chunk of input arrives. All messages completed by it are handled, in order; afterwards an
    // outgoing connection is closing exactly when the conversation ended, and reads on otherwise.
    method OnChunk(chunk: string)
      requires net.Valid()
      requires state == Receiving || state == Sending || (!outgoing && state == Received)
      modifies this, net`ticks, net`notices, net.store, net.OutClients()
      ensures net.Valid()
      ensures receiveBuffer == Residue(old(receiveBuffer) + chunk)
      ensures Did(HandleAll(old(net.Now()), Framing.Received(old(receiveBuffer) + chunk), net.clock),
                  old(net.Outputs()), old(written))
      ensures var ms := Framing.Received(old(receiveBuffer) + chunk);
              state == StateAfterRead(old(state), EndsConversation(old(net.Now()), ms, net.clock), ms)
    {
      ghost var start, base, sent := net.Now(), net.Outputs(), written;
      NothingHandled();
      Append(chunk, start, base, sent);
      ghost var ms := Framing.Received(receiveBuffer);
      DoProcessReceivedBuffer(start, base, sent);
      GoOn(HandleAll(start, ms, net.clock), base, sent);
    }

    lemma NothingHandled()
      ensures HasHandled(net.Now(), [], net.Outputs(), written, state)
    {
      NothingSent(written);
    }

    method Append(chunk: string, ghost start: Progress, ghost base: map<NetClient, Output>, ghost sent: string)
      requires HasHandled(start, [], base, sent, state)
      modifies this`receiveBuffer
      ensures receiveBuffer == old(receiveBuffer) + chunk
      ensures HasHandled(start, [], base, sent, state)
    {
      receiveBuffer := receiveBuffer + chunk;
    }

    // What the connection does next leaves alone what was done.
    method GoOn(ghost q: Progress, ghost base: map<NetClient, Output>, ghost sent: string)
      requires outgoing ==> state == Sending || state == Receiving || state == Received
      requires Did(q, base, sent)
      modifies this`state
      ensures Did(q, base, sent)
      ensures state == if !outgoing then old(state) else if old(state) == Received then Closing else Receiving
    {
      Process();
    }

    // The node's situation is q, and what q replied went out on this connection.
    ghost predicate Did(q: Progress, base: map<NetClient, Output>, sent: string)
      reads this, net, net.store, net.OutClients()
    {
      net.Performed(q, base, this) && written == sent + EncodeAll(q.replies)
    }

    // These messages are handled, and the state tells what the last of them did.
    ghost predicate HasHandled(start: Progress, done: seq<Message>, base: map<NetClient, Output>, sent: string,
                               before: State)
      reads this, net, net.store, net.OutClients()
    {
      && Did(HandleAll(start, done, net.clock), base, sent)
      && state == StateAfter(before, EndsConversation(start, done, net.clock), done)
    }

    function StateAfter(before: State, ended: bool, ms: seq<Message>): State {
      if ms == [] then before else if ended then Received else Sending
    }

    method DoProcessReceivedBuffer(ghost start: Progress, ghost base: map<NetClient, Output>, ghost sent: string)
      requires net.Valid()
      requires state == Receiving || state == Sending || state == Received
      requires HasHandled(start, [], base, sent, state)
      modifies this, net`ticks, net`notices, net.store, net.OutClients()
      ensures net.Valid()
      ensures receiveBuffer == Residue(old(receiveBuffer))
      ensures HasHandled(start, Framing.Received(old(receiveBuffer)), base, sent, old(state))
    {
      if receiveBuffer == "" {
        return;
      }
      HandleLines(start, base, sent, state);
    }

    // The loop over the complete lines.
    method HandleLines(ghost start: Progress, ghost base: map<NetClient, Output>, ghost sent: string, ghost before: State)
      requires net.Valid()
      requires before == Receiving || before == Sending || before == Received
      requires HasHandled(start, [], base, sent, before)
      modifies this, net`ticks, net`notices, net.store, net.OutClients()
      ensures net.Valid()
      ensures receiveBuffer == Residue(old(receiveBuffer))
      ensures HasHandled(start, Framing.Received(old(receiveBuffer)), base, sent, before)
    {
      ghost var done: seq<Message> := [];
      ghost var all, residue := Framing.Received(receiveBuffer), Residue(receiveBuffer);
      while FindNewline(receiveBuffer) < |receiveBuffer|
        invariant net.Valid() && net.OutClients() == old(net.OutClients())
        invariant done + Framing.Received(receiveBuffer) == all
        invariant Residue(receiveBuffer) == residue
        invariant HasHandled(start, done, base, sent, before)
        decreases |receiveBuffer|
      {
        var terminatorIdx := FindNewline(receiveBuffer);
        var msg1 := receiveBuffer[..terminatorIdx];
        OneLineDone(receiveBuffer, terminatorIdx, done, msg1);
        receiveBuffer := receiveBuffer[terminatorIdx + 1..];
        HandleLine(msg1, start, base, sent, done, before);
        done := done + Accept(msg1);
      }
      AllReceived(receiveBuffer, done);
    }

    // The body of the loop: one line without its terminator.
    method HandleLine(msg1: string, ghost start: Progress, ghost base: map<NetClient, Output>, ghost sent: string,
                      ghost done: seq<Message>, ghost before: State)
      requires net.Valid()
      requires before == Receiving || before == Sending || before == Received
      requires HasHandled(start, done, base, sent, before)
      modifies net`ticks, net`notices, net.store, net.OutClients(), this`state, this`written
      ensures net.Valid() && net.OutClients() == old(net.OutClients())
      ensures receiveBuffer == old(receiveBuffer)
      ensures HasHandled(start, done + Accept(msg1), base, sent, before)
    {
      var m := ReadLine(msg1);
      assert done + [] == done;
      if m.Some? {
        Deliver(m.value, start, base, sent, done);
      }
    }

    // The message a line is taken for, if any.
    method ReadLine(msg1: string) returns (m: Option<Message>)
      ensures m == ParseLine(msg1)
    {
      var tokens := Tokenize(msg1);
      if |tokens| < 2 {
        return None;
      }
      if tokens[0] != PREFIX {
        return None;
      }
      if |tokens| >= 5 && tokens[1] == "PEER" {
        var lastSeen := 0;
        var parsed := Stoi(tokens[4]);
        if parsed.Some? {
          lastSeen := parsed.value;
        }
        return Some(PeerUpdate(tokens[2], tokens[3], ToTimestamp(lastSeen), false));
      } else if |tokens| >= 3 && tokens[1] == "QUERY" {
        return Some(Query(tokens[2]));
      } else {
        return None;
      }
    }

    // One accepted message follows the ones already done.
    method Deliver(m: Message, ghost start: Progress, ghost base: map<NetClient, Output>, ghost sent: string,
                   ghost done: seq<Message>)
      requires net.Valid() && !IsClosed(state)
      requires Did(HandleAll(start, done, net.clock), base, sent)
      modifies net`ticks, net`notices, net.store, net.OutClients(), this`state, this`written
      ensures net.Valid() && net.OutClients() == old(net.OutClients())
      ensures receiveBuffer == old(receiveBuffer)
      ensures Did(HandleAll(start, done + [m], net.clock), base, sent)
      ensures state == if EndsConversation(start, done + [m], net.clock) then Received else Sending
    {
      HandleOneMore(start, done, m, net.clock);
      Dispatch(m, HandleAll(start, done, net.clock), base, sent);
    }

    // One accepted message is handed to the node.
    method Dispatch(m: Message, ghost q: Progress, ghost base: map<NetClient, Output>, ghost sent: string)
      requires net.Valid()
      requires !IsClosed(state)
      requires Did(q, base, sent)
      modifies net`ticks, net`notices, net.store, net.OutClients(), this`state, this`written
      ensures net.Valid() && net.OutClients() == old(net.OutClients())
      ensures receiveBuffer == old(receiveBuffer)
      ensures Did(Handle(q, m, net.clock), base, sent)
      ensures state == if m.PeerUpdate? || Replies(q.peers, m.service) == [] then Received else Sending
    {
      state := Received;
      ghost var replies := if m.Query? then Replies(q.peers, m.service) else [];
      RepliedOn(Out(), sent, q.replies, replies);
      net.MsgFromPeboPeer(this, m, q, base);
      RepliesOfOne(q, m, net.clock, replies);
    }
  }

  datatype PeerIn = PeerIn(nodeAddr: string, peer: NetClient)
  datatype PeerOut = PeerOut(nodeAddr: string, peer: NetClient)

  lemma NextWaiting(peers: seq<PeerOut>, i: nat, waiting: set<NetClient>)
    requires i < |peers| && forall j, k :: 0 <= j < k < |peers| ==> peers[j].peer != peers[k].peer
    requires waiting == set j | i <= j < |peers| :: peers[j].peer
    ensures peers[i].peer in waiting
    ensures waiting - {peers[i].peer} == set j | i + 1 <= j < |peers| :: peers[j].peer
  {
  }

  class PeboNet {
    const store: Store
    const clock: Clock      // the readings of the store's clock
    var ticks: nat          // how many of them were used
    var peersIn: seq<PeerIn>
    var peersOut: seq<PeerOut>
    var notices: seq<PeerInfo>   // what the client callback was called with

    ghost predicate Valid()
      reads this`peersOut, store
    {
      && store.Valid()
      && (forall i :: 0 <= i < |peersOut| ==>
            peersOut[i].nodeAddr == peersOut[i].peer.nodeAddr && IsOutAddress(peersOut[i].nodeAddr))
      && (forall i, j :: 0 <= i < j < |peersOut| ==> peersOut[i].peer != peersOut[j].peer)
    }

    ghost function OutClients(): set<NetClient>
      reads this`peersOut
    {
      set i | 0 <= i < |peersOut| :: peersOut[i].peer
    }

    ghost function Outputs(): map<NetClient, Output>
      reads this`peersOut, OutClients()
    {
      map c | c in OutClients() :: c.Out()
    }

    // The node as it is now, as the start of what it will do.
    ghost function Now(): Progress
      reads this, store
    {
      Progress(store.peers, ticks, notices, [], [])
    }

    // The node's situation is q: its store, clock and notices, and on every out-peer but the one the
    // messages came from, the relays, unless that out-peer has the previous hop's address.
    ghost predicate Performed(q: Progress, base: map<NetClient, Output>, peer: NetClient)
      reads this, store, OutClients()
    {
      && store.peers == q.peers && ticks == q.ticks && notices == q.notices
      && PassedOn(q.relays, base, peer)
    }

    // Every out-peer but the one the messages came from got these relays, or was skipped.
    ghost predicate PassedOn(relays: seq<Message>, base: map<NetClient, Output>, peer: NetClient)
      reads this`peersOut, OutClients()
    {
      && base.Keys == OutClients()
      && forall c :: c in base && c != peer ==> c.Out() == AfterSending(base[c], RelaysTo(c, peer, relays))
    }

    static function RelaysTo(c: NetClient, peer: NetClient, relays: seq<Message>): seq<Message> {
      if c.nodeAddr == peer.nodeAddr then [] else relays
    }

    constructor (store: Store, clock: Clock)
      requires store.Valid()
      ensures Valid() && this.store == store && this.clock == clock
      ensures ticks == 0 && peersIn == [] && peersOut == [] && notices == []
    {
      this.store, this.clock := store, clock;
      ticks, peersIn, peersOut, notices := 0, [], [], [];
    }

    // Port 0 stands for the default port.
    method AddPeer(host: string, port: int)
      requires Valid()
      modifies this`peersOut
      ensures Valid()
      ensures |peersOut| == |old(peersOut)| + 1 && peersOut[..|old(peersOut)|] == old(peersOut)
      ensures var link := peersOut[|old(peersOut)|];
              && fresh(link.peer) && link.peer.net == this && link.peer.outgoing
              && link.peer.Out() == Output(NotConnected, "", "")
              && link.nodeAddr == link.peer.nodeAddr == host + ":" + IntToString(if port == 0 then 5000 else port)
    {
      var actual := port;
      if actual == 0 {
        actual := 5000;
      }
      var client := new NetClient(this, OutAddress(host, actual), true);
      peersOut := peersOut + [PeerOut(client.nodeAddr, client)];
    }

    method InConnectionReceived(nodeAddr: string, peer: NetClient)
      requires Valid()
      modifies this`peersIn
      ensures Valid() && peersIn == old(peersIn) + [PeerIn(nodeAddr, peer)]
    {
      peersIn := peersIn + [PeerIn(nodeAddr, peer)];
    }

    static function DueTo(c: NetClient, m: Message, previousHop: string): seq<Message> {
      if c.nodeAddr == previousHop then [] else [m]
    }

    // The message goes once to every out-peer whose address is not the previous hop's, and nowhere else.
    method DoBroadcastMsg(m: Message, previousHop: string)
      requires Valid()
      modifies OutClients()
      ensures forall c :: c in OutClients() ==>
                c.Out() == if c.nodeAddr == previousHop then old(c.Out()) else AfterSending(old(c.Out()), [m])
      ensures forall c :: c in OutClients() ==> c.Out() == AfterSending(old(c.Out()), DueTo(c, m, previousHop))
    {
      ghost var waiting := OutClients();
      var i := 0;
      while i < |peersOut|
        invariant 0 <= i <= |peersOut|
        invariant waiting == set j | i <= j < |peersOut| :: peersOut[j].peer
        invariant forall c :: c in waiting ==> c.Out() == old(c.Out())
        invariant forall c :: c in OutClients() - waiting ==>
                    c.Out() == AfterSending(old(c.Out()), DueTo(c, m, previousHop))
      {
        var peer := peersOut[i].peer;
        NextWaiting(peersOut, i, waiting);
        waiting := waiting - {peer};
        SendUnlessFrom(peer, m, previousHop);
        i := i + 1;
      }
    }

    method SendUnlessFrom(peer: NetClient, m: Message, previousHop: string)
      modifies peer`state, peer`written
      ensures peer.Out() == AfterSending(old(peer.Out()), DueTo(peer, m, previousHop))
    {
      // Nothing goes back to the address that the message came from.
      if peer.nodeAddr != previousHop {
        peer.Write(m);
      }
    }

    method PeerUpdateFromPeboPeer(peer: NetClient, m: Message, ghost q: Progress, ghost base: map<NetClient, Output>)
      requires Valid() && m.PeerUpdate?
      requires Performed(q, base, peer)
      modifies this`ticks, this`notices, store, OutClients()
      ensures Valid()
      ensures Performed(Handle(q, m, clock), base, peer)
      ensures peer.Out() == old(peer.Out())
    {
      var updateRes := UpdateStore(m);
      PassOn(peer, m, updateRes, q, base);
    }

    // News goes to the client and to the out-peers.
    method PassOn(peer: NetClient, m: Message, updateRes: UpdateResult, ghost q: Progress,
                  ghost base: map<NetClient, Output>)
      requires Valid() && m.PeerUpdate?
      requires updateRes == Classify(q.peers, AsUpdate(m, clock(q.ticks)))
      requires store.peers == Handle(q, m, clock).peers && ticks == q.ticks + 1
      requires notices == q.notices && PassedOn(q.relays, base, peer)
      modifies this`notices, OutClients()
      ensures Valid() && Performed(Handle(q, m, clock), base, peer)
      ensures peer.Out() == old(peer.Out())
    {
      if updateRes == UpdatedOnlyTime || updateRes == NoChangeNeeded {
        return;
      }
      DoClientCallback(PeerInfo(m.service, m.endpoint, m.lastSeen, m.isRemoved));
      Relay(peer, m, q.relays, base);
    }

    method UpdateStore(m: Message) returns (updateRes: UpdateResult)
      requires Valid() && m.PeerUpdate?
      modifies this`ticks, store
      ensures Valid() && ticks == old(ticks) + 1
      ensures store.peers == Apply(old(store.peers), AsUpdate(m, clock(old(ticks))))
      ensures updateRes == Classify(old(store.peers), AsUpdate(m, clock(old(ticks))))
    {
      updateRes := store.FindAndUpdate(m.service, m.endpoint, m.isRemoved, m.lastSeen, clock(ticks));
      ticks := ticks + 1;
    }

    // News is passed on to every out-peer that does not have the previous hop's address.
    method Relay(peer: NetClient, m: Message, ghost relays: seq<Message>, ghost base: map<NetClient, Output>)
      requires Valid() && PassedOn(relays, base, peer)
      modifies OutClients()
      ensures PassedOn(relays + [m], base, peer)
      ensures peer.Out() == old(peer.Out())
    {
      forall c | c in base
        ensures AfterSending(AfterSending(base[c], relays), [m]) == AfterSending(base[c], relays + [m])
      {
        SendingContinues(base[c], relays, [m]);
      }
      DoBroadcastMsg(m, peer.nodeAddr);
    }

    method DoClientCallback(info: PeerInfo)
      modifies this`notices
      ensures notices == old(notices) + [info]
    {
      notices := notices + [info];
    }

    // The answer to a query goes to the peer that asked, one announcement per listed entry in order.
    method DoQuery(peer: NetClient, service: string)
      requires Valid()
      modifies peer`state, peer`written
      ensures peer.Out() == AfterSending(old(peer.Out()), Replies(store.peers, service))
    {
      var result := store.Query(service);
      SendEntries(peer, result, Replies(store.peers, service));
    }

    method SendEntries(peer: NetClient, result: seq<Entry>, ghost replies: seq<Message>)
      requires |replies| == |result| && forall i :: 0 <= i < |result| ==> replies[i] == AsReply(result[i])
      modifies peer`state, peer`written
      ensures peer.Out() == AfterSending(old(peer.Out()), replies)
    {
      var i := 0;
      while i < |result|
        invariant 0 <= i <= |result|
        invariant AfterSending(peer.Out(), replies[i..]) == AfterSending(old(peer.Out()), replies)
      {
        var e := result[i];
        SendingContinues(peer.Out(), [replies[i]], replies[i + 1..]);
        assert [replies[i]] + replies[i + 1..] == replies[i..];
        peer.Write(PeerUpdate(e.service, e.endpoint, e.lastSeen, e.isRemoved));
        i := i + 1;
      }
    }

    method MsgFromPeboPeer(peer: NetClient, m: Message, ghost q: Progress, ghost base: map<NetClient, Output>)
      requires Valid()
      requires Performed(q, base, peer)
      modifies this`ticks, this`notices, store, OutClients(), peer`state, peer`written
      ensures Valid()
      ensures Performed(Handle(q, m, clock), base, peer)
      ensures peer.Out() == AfterSending(old(peer.Out()), if m.Query? then Replies(q.peers, m.service) else [])
    {
      match m
      case PeerUpdate(_, _, _, _) =>
        PeerUpdateFromPeboPeer(peer, m, q, base);
      case Query(service) =>
        DoQuery(peer, service);
    }

    // Announces a peer to every out-peer.
    method Broadcast(peer: PeerInfo)
      requires Valid()
      modifies OutClients()
      ensures forall c :: c in OutClients() ==>
                c.Out() == AfterSending(old(c.Out()),
                                        [PeerUpdate(peer.service, peer.endpoint, peer.lastSeen, peer.isRemoved)])
    {
      AddressesAreNotLocal();
      DoBroadcastMsg(PeerUpdate(peer.service, peer.endpoint, peer.lastSeen, peer.isRemoved), LOCAL_NODE);
    }

    // Asks every out-peer for the endpoints of a service.
    method QueryRemote(service: string)
      requires Valid()
      modifies OutClients()
      ensures forall c :: c in OutClients() ==> c.Out() == AfterSending(old(c.Out()), [Query(service)])
    {
      AddressesAreNotLocal();
      DoBroadcastMsg(Query(service), LOCAL_NODE);
    }

    lemma AddressesAreNotLocal()
      requires Valid()
      ensures forall c :: c in OutClients() ==> c.nodeAddr != LOCAL_NODE
    {
      forall c | c in OutClients() ensures c.nodeAddr != LOCAL_NODE {
        OutAddressIsNotLocal(c.nodeAddr);
      }
    }
  }

  // The background loop of the network; told to stop, it reads and accepts nothing any more.
  class NetHandler {
    var bgThreadStop: bool

    constructor ()
      ensures !bgThreadStop
    {
      bgThreadStop := false;
    }

    method Stop()
      modifies this
      ensures bgThreadStop
    {
      bgThreadStop := true;
    }
  }

  class Shell {
    const net: PeboNet
    const handler: NetHandler
    var myPeer: PeerInfo

    constructor (net: PeboNet, handler: NetHandler)
      ensures this.net == net && this.handler == handler
    {
      this.net, this.handler := net, handler;
    }

    // Stores this client, announces it to every out-peer, then asks them for its service. With names that
    // are single words, every out-peer hears just that.
    method Start(service: string, endpoint: string, now: Timestamp)
      requires net.Valid()
      modifies this, net`ticks, net.store, net.OutClients()
      ensures net.Valid()
      ensures myPeer == PeerInfo(service, endpoint, now, false)
      ensures net.store.peers ==
              Apply(old(net.store.peers), Update(Key(service, endpoint), false, now, net.clock(old(net.ticks))))
      ensures forall c :: c in net.OutClients() ==>
                c.Out() == AfterSending(old(c.Out()), [PeerUpdate(service, endpoint, now, false), Query(service)])
      ensures Clean(service) && Clean(endpoint) ==> forall c :: c in net.OutClients() ==>
                Heard(old(c.Out()), c.Out(),
                      [PeerUpdate(service, endpoint, if now < 0x8000_0000 then now else 0, false), Query(service)])
    {
      myPeer := PeerInfo(service, endpoint, now, false);
      StoreMe();
      AnnounceAndAsk(service);
    }

    method StoreMe()
      requires net.Valid()
      modifies net`ticks, net.store
      ensures net.Valid()
      ensures net.store.peers == Apply(old(net.store.peers), Update(Key(myPeer.service, myPeer.endpoint), false,
                                                                    myPeer.lastSeen, net.clock(old(net.ticks))))
    {
      var res := net.store.FindAndUpdate(myPeer.service, myPeer.endpoint, false, myPeer.lastSeen, net.clock(net.ticks));
      net.ticks := net.ticks + 1;
    }

    // Two broadcasts: the announcement of this client, then the query for its service.
    method AnnounceAndAsk(service: string)
      requires net.Valid()
      modifies net.OutClients()
      ensures forall c :: c in net.OutClients() ==>
                c.Out() == AfterSending(old(c.Out()), [MyAnnouncement(false), Query(service)])
      ensures forall c :: c in net.OutClients() ==> HeardAsking(old(c.Out()), c.Out(), service)
    {
      ghost var m := MyAnnouncement(false);
      BroadcastRefresh();
      net.QueryRemote(service);
      assert [m] + [Query(service)] == [m, Query(service)];
      forall c | c in net.OutClients()
        ensures AfterSending(AfterSending(old(c.Out()), [m]), [Query(service)]) ==
                AfterSending(old(c.Out()), [m, Query(service)])
      {
        SendingContinues(old(c.Out()), [m], [Query(service)]);
      }
      forall c | c in net.OutClients() ensures HeardAsking(old(c.Out()), c.Out(), service) {
        IsHeardAsking(old(c.Out()), service);
      }
    }

    // Announced and asked, with these names: that arrives so.
    ghost predicate HeardAsking(before: Output, after: Output, service: string)
      reads this
    {
      Clean(service) && Clean(myPeer.endpoint) && myPeer.service == service ==>
        Heard(before, after, [PeerUpdate(service, myPeer.endpoint,
                                         if myPeer.lastSeen < 0x8000_0000 then myPeer.lastSeen else 0, false),
                              Query(service)])
    }

    lemma IsHeardAsking(o: Output, service: string)
      ensures HeardAsking(o, AfterSending(o, [MyAnnouncement(false), Query(service)]), service)
    {
      if Clean(service) && Clean(myPeer.endpoint) && myPeer.service == service {
        StartHeard(o, service, myPeer.endpoint, myPeer.lastSeen);
      }
    }

    function MyAnnouncement(removed: bool): Message
      reads this
    {
      PeerUpdate(myPeer.service, myPeer.endpoint, myPeer.lastSeen, removed)
    }

    // Whatever is announced of this client with these names arrives so, removal or not.
    ghost predicate HeardOfMe(before: Output, after: Output)
      reads this
    {
      Clean(myPeer.service) && Clean(myPeer.endpoint) ==>
        Heard(before, after, [PeerUpdate(myPeer.service, myPeer.endpoint,
                                         if myPeer.lastSeen < 0x8000_0000 then myPeer.lastSeen else 0, false)])
    }

    lemma IsHeard(o: Output, removed: bool)
      ensures HeardOfMe(o, AfterSending(o, [MyAnnouncement(removed)]))
    {
      if Clean(myPeer.service) && Clean(myPeer.endpoint) {
        AnnouncementHeard(o, myPeer.service, myPeer.endpoint, myPeer.lastSeen, removed);
      }
    }

    method BroadcastRefresh()
      requires net.Valid()
      modifies net.OutClients()
      ensures forall c :: c in net.OutClients() ==> c.Out() == AfterSending(old(c.Out()), [MyAnnouncement(false)])
      ensures forall c :: c in net.OutClients() ==> HeardOfMe(old(c.Out()), c.Out())
    {
      net.Broadcast(PeerInfo(myPeer.service, myPeer.endpoint, myPeer.lastSeen, false));
      forall c | c in net.OutClients() ensures HeardOfMe(old(c.Out()), c.Out()) {
        IsHeard(old(c.Out()), false);
      }
    }

    method BroadcastBye()
      requires net.Valid()
      modifies net.OutClients()
      ensures forall c :: c in net.OutClients() ==> c.Out() == AfterSending(old(c.Out()), [MyAnnouncement(true)])
    {
      net.Broadcast(PeerInfo(myPeer.service, myPeer.endpoint, myPeer.lastSeen, true));
    }

    // Says goodbye, stops the loop and forgets all peers; what goes out is byte for byte a refresh, and
    // is heard as one.
    method Stop()
      requires net.Valid()
      modifies handler, net.store, net.OutClients()
      ensures net.Valid() && net.store.peers == map[] && handler.bgThreadStop
      ensures forall c :: c in net.OutClients() ==> c.Out() == AfterSending(old(c.Out()), [MyAnnouncement(true)])
      ensures forall c :: c in net.OutClients() ==> c.Out() == AfterSending(old(c.Out()), [MyAnnouncement(false)])
      ensures forall c :: c in net.OutClients() ==> HeardOfMe(old(c.Out()), c.Out())
    {
      BroadcastBye();
      FlatMapOne(Encode, MyAnnouncement(true));
      FlatMapOne(Encode, MyAnnouncement(false));
      forall c | c in net.OutClients() ensures HeardOfMe(old(c.Out()), c.Out()) {
        IsHeard(old(c.Out()), true);
      }
      handler.Stop();
      net.store.Clear();
    }
  }
}
