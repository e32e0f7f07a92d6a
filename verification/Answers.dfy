/** A query, its answer, and how much of the answer the asking node reads before it closes the connection. */
module Answers {
  import opened Types
  import opened Lexicographic
  import opened Sequences
  import opened Tokens
  import opened Messages
  import opened Framing
  import opened StoreModel
  import opened Gossip

  // ---------- an outgoing connection reads until the conversation ends ----------

  // The node behind an outgoing connection, what is left in the receive buffer, what was taken so far,
  // and whether the connection was closed.
  datatype Conversation = Conversation(node: Progress, buffer: string, taken: seq<Message>, closed: bool)

  function Opened(p: Progress): Conversation {
    Conversation(p, "", [], false)
  }

  // One read; on a closed connection there is none any more.
  ghost function ReadOn(c: Conversation, chunk: string, clock: Clock): Conversation {
    if c.closed then c
    else
      var ms := Received(c.buffer + chunk);
      Conversation(HandleAll(c.node, ms, clock), Residue(c.buffer + chunk), c.taken + ms,
                   EndsConversation(c.node, ms, clock))
  }

  ghost function Converse(c: Conversation, chunks: seq<string>, clock: Clock): Conversation
    decreases chunks
  {
    if chunks == [] then c else Converse(ReadOn(c, chunks[0], clock), chunks[1..], clock)
  }

  lemma {:induction false} ClosedStays(c: Conversation, chunks: seq<string>, clock: Clock)
    requires c.closed
    ensures Converse(c, chunks, clock) == c
    decreases chunks
  {
    if chunks != [] {
      ClosedStays(c, chunks[1..], clock);
    }
  }

  // Reads that complete no line take nothing.
  lemma {:induction false} QuietReads(c: Conversation, chunks: seq<string>, clock: Clock)
    requires !c.closed && IsLine(c.buffer + Joined(chunks))
    ensures Converse(c, chunks, clock) == c.(buffer := c.buffer + Joined(chunks))
    decreases chunks
  {
    if chunks == [] {
      assert c.buffer + "" == c.buffer;
    } else {
      var more := c.buffer + chunks[0];
      Associative(c.buffer, chunks[0], Joined(chunks[1..]));
      assert forall i :: 0 <= i < |more| ==> more[i] == (c.buffer + Joined(chunks))[i];
      assert IsLine(more) && FindNewline(more) == |more|;
      assert Lines(more) == [] && c.taken + [] == c.taken;
      QuietReads(ReadOn(c, chunks[0], clock), chunks[1..], clock);
    }
  }

  predicate AllUpdates(ms: seq<Message>) {
    forall m :: m in ms ==> m.PeerUpdate?
  }

  // A connection on which only announcements come closes with the first read that completes one.
  lemma {:induction false} AnnouncementsClose(p: Progress, ms: seq<Message>, clock: Clock)
    requires AllUpdates(ms)
    ensures EndsConversation(p, ms, clock) <==> ms != []
  {
    if ms != [] {
      assert ms[|ms| - 1] in ms;
    }
  }

  // The conversation c has read this much of the input and taken nothing yet.
  ghost predicate Waiting(c: Conversation, done: string) {
    !c.closed && c.taken == [] && Received(done) == [] && c.buffer == Residue(done)
  }

  lemma OneRead(c: Conversation, done: string, chunk: string, clock: Clock)
    requires Waiting(c, done) && AllUpdates(Received(done + chunk))
    ensures var c' := ReadOn(c, chunk, clock);
            && c'.taken == Received(done + chunk) && c'.node == HandleAll(c.node, c'.taken, clock)
            && (c'.closed <==> c'.taken != [])
            && (!c'.closed ==> Waiting(c', done + chunk))
  {
    ReadContinues(done, chunk);
    ReceivingContinues(done, chunk);
    assert [] + Received(c.buffer + chunk) == Received(c.buffer + chunk);
    AnnouncementsClose(c.node, Received(c.buffer + chunk), clock);
  }

  // These messages were written, and some beginning of what they are written as was read.
  ghost predicate ReadUpTo(ms: seq<Message>, first: string, p: Progress, c: Conversation, clock: Clock) {
    && first <= EncodeAll(ms) && c.taken == Received(first) && c.node == HandleAll(p, c.taken, clock)
    && (c.closed <==> c.taken != [])
  }

  lemma BeginningIsAnnounced(ms: seq<Message>, first: string)
    requires (forall m :: m in ms ==> CleanMessage(m) && m.PeerUpdate?) && first <= EncodeAll(ms)
    ensures |Received(first)| <= |ms| && Received(first) == NormalAll(ms)[..|Received(first)|]
    ensures AllUpdates(Received(first))
  {
    BeginningDelivers(ms, first, EncodeAll(ms)[|first|..]);
    forall m | m in Received(first) ensures m.PeerUpdate? {
      var i :| 0 <= i < |Received(first)| && Received(first)[i] == m;
      assert m == Normal(ms[i]) && ms[i] in ms;
    }
  }

  // The last read is one of the chunks, and what came before it completed no message.
  predicate ClosingRead(chunks: seq<string>, first: string, last: string) {
    last in chunks && |last| <= |first| && Received(first[..|first| - |last|]) == []
  }

  lemma {:induction false} ConversationReads(c: Conversation, done: string, chunks: seq<string>, ms: seq<Message>,
                                             clock: Clock)
    returns (first: string, last: string)
    requires forall m :: m in ms ==> CleanMessage(m) && m.PeerUpdate?
    requires Waiting(c, done) && done + Joined(chunks) <= EncodeAll(ms)
    ensures ReadUpTo(ms, first, c.node, Converse(c, chunks, clock), clock)
    ensures if Converse(c, chunks, clock).closed then ClosingRead(chunks, first, last)
            else first == done + Joined(chunks)
    decreases chunks
  {
    if chunks == [] {
      first, last := done, "";
      assert done + "" == done;
    } else {
      var more, c' := done + chunks[0], ReadOn(c, chunks[0], clock);
      Associative(done, chunks[0], Joined(chunks[1..]));
      assert more <= EncodeAll(ms);
      BeginningIsAnnounced(ms, more);
      OneRead(c, done, chunks[0], clock);
      if c'.closed {
        first, last := more, chunks[0];
        assert more[..|done|] == done;
        ClosedStays(c', chunks[1..], clock);
      } else {
        first, last := ConversationReads(c', more, chunks[1..], ms, clock);
      }
    }
  }

  // ---------- the answer to a query ----------

  lemma RepliesAreClean(s: Peers, service: string)
    requires WellKeyed(s) && CleanKeys(s)
    ensures |Replies(s, service)| == |Listing(s, service)|
    ensures forall m :: m in Replies(s, service) ==> CleanMessage(m) && m.PeerUpdate?
  {
    ListingExact(s, service);
    forall m | m in Replies(s, service) ensures CleanMessage(m) && m.PeerUpdate? {
      var i :| 0 <= i < |Replies(s, service)| && Replies(s, service)[i] == m;
      assert Listing(s, service)[i] in Listing(s, service);
    }
  }

  lemma UpdatesArrive(p: Progress, ms: seq<Message>, chunks: seq<string>, clock: Clock, c: Conversation)
    requires forall m :: m in ms ==> CleanMessage(m) && m.PeerUpdate?
    requires Joined(chunks) <= EncodeAll(ms) && c == Converse(Opened(p), chunks, clock)
    ensures |c.taken| <= |ms| && c.taken == NormalAll(ms)[..|c.taken|]
    ensures c.node == HandleAll(p, c.taken, clock) && (c.closed <==> c.taken != [])
    ensures Joined(chunks) == EncodeAll(ms) && ms != [] ==> c.taken != []
  {
    NothingRead(p, chunks);
    var first, last := ConversationReads(Opened(p), "", chunks, ms, clock);
    BeginningIsAnnounced(ms, first);
    if Joined(chunks) == EncodeAll(ms) && !c.closed {
      BeginningDelivers(ms, first, "");
    }
  }

  // The query itself arrives. Of the answer the asker takes a beginning, in ascending order of
  // endpoints and in normal form: what the reads up to the first that completes an entry deliver, for
  // that read closes the connection. If all of a non-empty answer was there to read, it takes at
  // least one entry.
  lemma AnswerArrives(p: Progress, b: Peers, service: string, chunks: seq<string>, clock: Clock, c: Conversation)
    requires WellKeyed(b) && CleanKeys(b) && Clean(service)
    requires Joined(chunks) <= EncodeAll(Replies(b, service))
    requires c == Converse(Opened(p), chunks, clock)
    ensures Wire(Query(service)) == [Query(service)]
    ensures |c.taken| <= |Listing(b, service)| && c.taken == NormalAll(Replies(b, service))[..|c.taken|]
    ensures c.node == HandleAll(p, c.taken, clock) && (c.closed <==> c.taken != [])
    ensures Joined(chunks) == EncodeAll(Replies(b, service)) && Listing(b, service) != [] ==> c.taken != []
  {
    WireExact(Query(service));
    RepliesAreClean(b, service);
    UpdatesArrive(p, Replies(b, service), chunks, clock, c);
  }

  lemma {:induction false} ConverseAppend(c: Conversation, a: seq<string>, b: seq<string>, clock: Clock)
    ensures Converse(c, a + b, clock) == Converse(Converse(c, a, clock), b, clock)
    decreases a
  {
    if a == [] {
      assert a + b == b;
    } else {
      assert (a + b)[1..] == a[1..] + b;
      ConverseAppend(ReadOn(c, a[0], clock), a[1..], b, clock);
    }
  }

  // After reads that complete no line, one that completes announcements takes just them.
  lemma FirstReadTakes(p: Progress, quiet: seq<string>, chunk: string, rest: seq<string>, clock: Clock)
    requires IsLine(Joined(quiet)) && AllUpdates(Received(Joined(quiet) + chunk)) && Received(Joined(quiet) + chunk) != []
    ensures Converse(Opened(p), quiet + ([chunk] + rest), clock).taken == Received(Joined(quiet) + chunk)
  {
    var c := Converse(Opened(p), quiet, clock);
    assert "" + Joined(quiet) == Joined(quiet);
    QuietReads(Opened(p), quiet, clock);
    ConverseAppend(Opened(p), quiet, [chunk] + rest, clock);
    LineIsResidue(Joined(quiet));
    OneRead(c, Joined(quiet), chunk, clock);
    assert ([chunk] + rest)[1..] == rest;
    ClosedStays(ReadOn(c, chunk, clock), rest, clock);
  }

  lemma LineIsResidue(s: string)
    requires IsLine(s)
    ensures Received(s) == [] && Residue(s) == s
  {
    assert FindNewline(s) == |s|;
    assert Lines(s) == [];
  }

  lemma EncodedCut(ms: seq<Message>, n: nat)
    requires n <= |ms| && forall m :: m in ms ==> CleanMessage(m) && m.PeerUpdate?
    ensures EncodeAll(ms[..n]) + EncodeAll(ms[n..]) == EncodeAll(ms)
    ensures |Received(EncodeAll(ms[..n]))| == n && AllUpdates(Received(EncodeAll(ms[..n])))
  {
    assert ms[..n] + ms[n..] == ms;
    FlatMapAppend(Encode, ms[..n], ms[n..]);
    ReceiveEncoded(ms[..n]);
    WireAllOfClean(ms[..n]);
    BeginningIsAnnounced(ms, EncodeAll(ms[..n]));
  }

  // Every such beginning can be what is taken, from one entry on.
  lemma EveryCutHappens(p: Progress, b: Peers, service: string, clock: Clock, n: nat) returns (chunks: seq<string>)
    requires WellKeyed(b) && CleanKeys(b) && 0 < n <= |Listing(b, service)|
    ensures Joined(chunks) == EncodeAll(Replies(b, service))
    ensures |Converse(Opened(p), chunks, clock).taken| == n
  {
    var ms := Replies(b, service);
    RepliesAreClean(b, service);
    EncodedCut(ms, n);
    chunks := TwoReads(p, EncodeAll(ms[..n]), EncodeAll(ms[n..]), clock);
  }

  lemma TwoReads(p: Progress, first: string, rest: string, clock: Clock) returns (chunks: seq<string>)
    requires AllUpdates(Received(first)) && Received(first) != []
    ensures Joined(chunks) == first + rest && Converse(Opened(p), chunks, clock).taken == Received(first)
  {
    chunks := [] + ([first] + [rest]);
    assert Joined([rest]) == rest + "" == rest;
    assert chunks == [first, rest] && chunks[1..] == [rest];
    assert "" + first == first;
    FirstReadTakes(p, [], first, [rest], clock);
  }

  // ---------- which answers can be taken whole ----------

  predicate ReadsOf(chunks: seq<string>, text: string, limit: nat) {
    Joined(chunks) == text && forall i :: 0 <= i < |chunks| ==> 1 <= |chunks[i]| <= limit
  }

  ghost predicate TakenWhole(p: Progress, chunks: seq<string>, ms: seq<Message>, limit: nat, clock: Clock) {
    ReadsOf(chunks, EncodeAll(ms), limit) && |Converse(Opened(p), chunks, clock).taken| == |ms|
  }

  // A beginning that holds the first line delivers a message.
  lemma FirstLineDelivers(ms: seq<Message>, first: string)
    requires (forall m :: m in ms ==> CleanMessage(m) && m.PeerUpdate?) && ms != []
    requires first <= EncodeAll(ms) && Received(first) == []
    ensures |first| < |Encode(ms[0])|
  {
    assert EncodeAll(ms) == Encode(ms[0]) + EncodeAll(ms[1..]);
    if |first| >= |Encode(ms[0])| {
      var line := Encode(ms[0]);
      assert first == line + first[|line|..];
      ReceivingContinues(line, first[|line|..]);
      WireExact(ms[0]);
    }
  }

  lemma WholeNeedsRoom(p: Progress, chunks: seq<string>, ms: seq<Message>, limit: nat, clock: Clock)
    requires (forall m :: m in ms ==> CleanMessage(m) && m.PeerUpdate?) && ms != []
    requires TakenWhole(p, chunks, ms, limit, clock)
    ensures |EncodeAll(ms[1..])| < limit
  {
    NothingRead(p, chunks);
    var first, last := ConversationReads(Opened(p), "", chunks, ms, clock);
    AllMessagesAllBytes(ms, first, EncodeAll(ms)[|first|..]);
    assert first == EncodeAll(ms) == Encode(ms[0]) + EncodeAll(ms[1..]);
    FirstLineDelivers(ms, first[..|first| - |last|]);
  }

  lemma NothingRead(p: Progress, chunks: seq<string>)
    ensures Waiting(Opened(p), "") && "" + Joined(chunks) == Joined(chunks)
  {
    assert Lines("") == [];
  }

  function Singles(s: string): seq<string> {
    if s == "" then [] else [[s[0]]] + Singles(s[1..])
  }

  lemma {:induction false} JoinedAppendOne(chunks: seq<string>, chunk: string)
    ensures Joined(chunks + [chunk]) == Joined(chunks) + chunk
  {
    if chunks == [] {
      assert [] + [chunk] == [chunk] && [chunk][1..] == [];
    } else {
      assert (chunks + [chunk])[1..] == chunks[1..] + [chunk];
      JoinedAppendOne(chunks[1..], chunk);
      Associative(chunks[0], Joined(chunks[1..]), chunk);
    }
  }

  lemma {:induction false} JoinedSingles(s: string)
    ensures Joined(Singles(s)) == s
    ensures forall i :: 0 <= i < |Singles(s)| ==> |Singles(s)[i]| == 1
  {
    if s != "" {
      JoinedSingles(s[1..]);
      assert Singles(s)[1..] == Singles(s[1..]);
      assert [s[0]] + s[1..] == s;
    }
  }

  // Character by character up to the first line break, then everything in one read.
  lemma RoomIsEnough(p: Progress, ms: seq<Message>, limit: nat, clock: Clock) returns (chunks: seq<string>)
    requires (forall m :: m in ms ==> CleanMessage(m) && m.PeerUpdate?) && ms != []
    requires |EncodeAll(ms[1..])| < limit
    ensures TakenWhole(p, chunks, ms, limit, clock)
  {
    var line, chunk := ToString(ms[0]), [NEWLINE] + EncodeAll(ms[1..]);
    CleanIsLine(ms[0]);
    assert EncodeAll(ms) == line + chunk;
    JoinedSingles(line);
    JoinedAppendOne(Singles(line), chunk);
    EncodedCut(ms, |ms|);
    assert ms[..|ms|] == ms;
    chunks := Singles(line) + ([chunk] + []);
    assert [chunk] + [] == [chunk];
    FirstReadTakes(p, Singles(line), chunk, [], clock);
  }

  // An answer can be taken whole, in reads up to a limit, exactly when what follows its first line fits
  // a read with at least the line break before it.
  lemma AnswerFitsExactly(p: Progress, b: Peers, service: string, limit: nat, clock: Clock)
    requires WellKeyed(b) && CleanKeys(b) && Listing(b, service) != []
    ensures (exists chunks :: TakenWhole(p, chunks, Replies(b, service), limit, clock))
            <==> |EncodeAll(Replies(b, service)[1..])| < limit
  {
    var ms := Replies(b, service);
    RepliesAreClean(b, service);
    if chunks :| TakenWhole(p, chunks, ms, limit, clock) {
      WholeNeedsRoom(p, chunks, ms, limit, clock);
    }
    if |EncodeAll(ms[1..])| < limit {
      var chunks := RoomIsEnough(p, ms, limit, clock);
    }
  }

  // So a longer answer is never taken whole: one read brings at most 16384 bytes.
  lemma LongAnswerIsCut(p: Progress, b: Peers, service: string, chunks: seq<string>, clock: Clock, c: Conversation)
    requires WellKeyed(b) && CleanKeys(b) && Clean(service) && Listing(b, service) != []
    requires ReadsOf(chunks, EncodeAll(Replies(b, service)), 16384) && c == Converse(Opened(p), chunks, clock)
    requires |EncodeAll(Replies(b, service)[1..])| >= 16384
    ensures |c.taken| < |Listing(b, service)|
  {
    RepliesAreClean(b, service);
    AnswerArrives(p, b, service, chunks, clock, c);
    if |c.taken| == |Listing(b, service)| {
      WholeNeedsRoom(p, chunks, Replies(b, service), 16384, clock);
    }
  }

  // ---------- what the asker knows then ----------

  // The updates a node performs when it processes the first n entries of an answer.
  ghost function AnswerUpdates(b: Peers, service: string, n: nat, ticks: nat, clock: Clock): seq<Update>
    requires n <= |Listing(b, service)|
  {
    UpdatesOf(NormalAll(Replies(b, service))[..n], ticks, clock)
  }

  // The endpoints of these entries.
  ghost function FirstEndpoints(b: Peers, service: string, n: nat): set<string>
    requires n <= |Listing(b, service)|
  {
    set i | 0 <= i < n :: Listing(b, service)[i].endpoint
  }

  lemma ListedDistinct(b: Peers, service: string)
    requires WellKeyed(b)
    ensures forall i, j :: 0 <= i < j < |Listing(b, service)| ==>
              Listing(b, service)[i].endpoint != Listing(b, service)[j].endpoint
  {
    ListingExact(b, service);
    forall i, j | 0 <= i < j < |Listing(b, service)|
      ensures Listing(b, service)[i].endpoint != Listing(b, service)[j].endpoint
    {
      assert Before(Listing(b, service)[i].endpoint, Listing(b, service)[j].endpoint);
      BeforeIrreflexive(Listing(b, service)[i].endpoint);
    }
  }

  lemma AnswerUpdate(b: Peers, service: string, n: nat, ticks: nat, clock: Clock)
    requires WellKeyed(b) && n <= |Listing(b, service)|
    ensures |AnswerUpdates(b, service, n, ticks, clock)| == n
    ensures forall i :: 0 <= i < n ==>
              AnswerUpdates(b, service, n, ticks, clock)[i] ==
              AsUpdate(Normal(AsReply(Listing(b, service)[i])), clock(ticks + i))
    ensures forall i :: 0 <= i < n ==>
              AnswerUpdates(b, service, n, ticks, clock)[i].key == Key(service, Listing(b, service)[i].endpoint)
    ensures Distinct(AnswerUpdates(b, service, n, ticks, clock))
  {
    UpdatesOfPeerUpdates(NormalAll(Replies(b, service))[..n], ticks, clock);
    ListingExact(b, service);
    ListedDistinct(b, service);
    forall i | 0 <= i < n ensures Listing(b, service)[i].service == service {
      assert Listing(b, service)[i] in Listing(b, service);
    }
  }

  predicate SameAt(before: Peers, after: Peers, k: Key) {
    (k in after <==> k in before) && (k in before ==> after[k] == before[k])
  }

  // An entry after it was answered: not removed, with the normal form of the answered time, and
  // keeping its own age if it was known and not removed before.
  predicate AnsweredEntry(before: Peers, b: Peers, after: Peers, k: Key) {
    && k in b && k in after && !after[k].isRemoved
    && after[k].service == k.service && after[k].endpoint == k.endpoint
    && after[k].lastSeen == (if b[k].lastSeen < 0x8000_0000 then b[k].lastSeen else 0)
    && (k in before && !before[k].isRemoved ==> after[k].addedTime == before[k].addedTime)
  }

  ghost predicate AllAnswered(before: Peers, b: Peers, service: string, taken: set<string>, after: Peers) {
    forall e :: e in taken ==> AnsweredEntry(before, b, after, Key(service, e))
  }

  ghost predicate OthersKept(before: Peers, service: string, taken: set<string>, after: Peers) {
    forall k: Key :: k.service != service || k.endpoint !in taken ==> SameAt(before, after, k)
  }

  // What taking these entries of another node's answer changes: for the queried service the endpoints
  // become what was known and what was taken, the taken entries have the answered times, nothing else
  // moves.
  ghost predicate Joins(before: Peers, b: Peers, service: string, taken: set<string>, after: Peers) {
    && LiveEndpoints(after, service) == LiveEndpoints(before, service) + taken
    && AllAnswered(before, b, service, taken, after)
    && OthersKept(before, service, taken, after)
  }

  lemma AnsweredEntryHolds(before: Peers, b: Peers, service: string, n: nat, us: seq<Update>, ticks: nat,
                           clock: Clock, i: nat)
    requires WellKeyed(b) && i < n <= |Listing(b, service)| && us == AnswerUpdates(b, service, n, ticks, clock)
    ensures AnsweredEntry(before, b, ApplyAll(before, us), Key(service, Listing(b, service)[i].endpoint))
  {
    AnswerUpdate(b, service, n, ticks, clock);
    ListingExact(b, service);
    assert Listing(b, service)[i] in Listing(b, service);
    EachAppliedOnce(before, us, i);
  }

  lemma UpdatesJoin(before: Peers, b: Peers, service: string, n: nat, us: seq<Update>, ticks: nat, clock: Clock)
    requires WellKeyed(b) && n <= |Listing(b, service)| && us == AnswerUpdates(b, service, n, ticks, clock)
    ensures Joins(before, b, service, FirstEndpoints(b, service, n), ApplyAll(before, us))
  {
    var taken, after := FirstEndpoints(b, service, n), ApplyAll(before, us);
    AnswerUpdate(b, service, n, ticks, clock);
    forall e | e in taken ensures AnsweredEntry(before, b, after, Key(service, e)) {
      var i :| 0 <= i < n && Listing(b, service)[i].endpoint == e;
      AnsweredEntryHolds(before, b, service, n, us, ticks, clock, i);
    }
    forall k: Key | k.service != service || k.endpoint !in taken ensures SameAt(before, after, k) {
      forall i | 0 <= i < |us| ensures us[i].key != k {
        assert Listing(b, service)[i].endpoint in taken;
      }
      NeverUpdated(before, us, k);
    }
    EndpointsJoined(before, b, service, taken, after);
  }

  lemma EndpointsJoined(before: Peers, b: Peers, service: string, taken: set<string>, after: Peers)
    requires AllAnswered(before, b, service, taken, after) && OthersKept(before, service, taken, after)
    ensures LiveEndpoints(after, service) == LiveEndpoints(before, service) + taken
  {
    forall e ensures e in LiveEndpoints(after, service) <==> e in LiveEndpoints(before, service) || e in taken {
      LiveEndpoint(after, service, e);
      LiveEndpoint(before, service, e);
      assert e in taken || SameAt(before, after, Key(service, e));
    }
  }

  // The entries taken are all of them exactly when their number is.
  lemma AllEndpointsTaken(b: Peers, service: string, n: nat)
    requires WellKeyed(b) && n <= |Listing(b, service)|
    ensures FirstEndpoints(b, service, n) <= LiveEndpoints(b, service)
    ensures FirstEndpoints(b, service, n) == LiveEndpoints(b, service) <==> n == |Listing(b, service)|
  {
    ListingExact(b, service);
    ListedDistinct(b, service);
    var listing := Listing(b, service);
    forall i | 0 <= i < |listing| ensures listing[i].endpoint in LiveEndpoints(b, service) {
      assert listing[i] in listing;
      LiveEndpoint(b, service, listing[i].endpoint);
    }
    if n < |listing| {
      assert listing[n].endpoint !in FirstEndpoints(b, service, n);
    }
    forall e | e in LiveEndpoints(b, service) ensures e in FirstEndpoints(b, service, |listing|) {
      LiveEndpoint(b, service, e);
      assert IsListed(b, service, b[Key(service, e)]);
      var i :| 0 <= i < |listing| && listing[i] == b[Key(service, e)];
    }
  }

  // A node that asks another one joins exactly the entries it took, and all that the other knew exactly
  // if it took as many as there are.
  lemma QueryAnswerIsJoin(p: Progress, b: Peers, service: string, chunks: seq<string>, clock: Clock, c: Conversation)
    requires WellKeyed(b) && CleanKeys(b) && Clean(service)
    requires Joined(chunks) <= EncodeAll(Replies(b, service))
    requires c == Converse(Opened(p), chunks, clock)
    ensures |c.taken| <= |Listing(b, service)|
    ensures Joins(p.peers, b, service, FirstEndpoints(b, service, |c.taken|), c.node.peers)
    ensures FirstEndpoints(b, service, |c.taken|) == LiveEndpoints(b, service) <==> |c.taken| == |Listing(b, service)|
  {
    AnswerArrives(p, b, service, chunks, clock, c);
    var n := |c.taken|;
    HandlingAppliesUpdates(p, c.taken, clock);
    UpdatesJoin(p.peers, b, service, n, AnswerUpdates(b, service, n, p.ticks, clock), p.ticks, clock);
    AllEndpointsTaken(b, service, n);
  }
}
