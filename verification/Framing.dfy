/** Cutting a received byte stream into lines, and the messages those lines carry. */
module Framing {
  import opened Decimal
  import opened Tokens
  import opened Messages
  import opened Sequences

  const NEWLINE: char := '\n'

  predicate IsLine(s: string) {
    forall i :: 0 <= i < |s| ==> s[i] != NEWLINE
  }

  // The index of the first newline, or the length when there is none.
  function FindNewline(s: string): (n: nat)
    ensures n <= |s|
    ensures IsLine(s[..n])
    ensures n < |s| ==> s[n] == NEWLINE
  {
    if s == [] || s[0] == NEWLINE then 0
    else
      var n := FindNewline(s[1..]);
      assert s[..1 + n] == [s[0]] + s[1..][..n];
      1 + n
  }

  // The complete lines of a buffer, without their terminators.
  function Lines(buffer: string): seq<string>
    decreases |buffer|
  {
    var n := FindNewline(buffer);
    if n == |buffer| then [] else [buffer[..n]] + Lines(buffer[n + 1..])
  }

  // What follows the last terminator.
  function Residue(buffer: string): string
    decreases |buffer|
  {
    var n := FindNewline(buffer);
    if n == |buffer| then buffer else Residue(buffer[n + 1..])
  }

  function Terminated(lines: seq<string>): string {
    if lines == [] then "" else lines[0] + [NEWLINE] + Terminated(lines[1..])
  }

  // The message a line is accepted as; any other line is reported and skipped.
  function Accept(line: string): seq<Message> {
    var parsed := ParseLine(line);
    if parsed.Some? then [parsed.value] else []
  }

  function Accepted(lines: seq<string>): seq<Message> {
    FlatMap(Accept, lines)
  }

  function Received(buffer: string): seq<Message> {
    Accepted(Lines(buffer))
  }

  lemma CutFirstLine(buffer: string, n: nat, first: string, tail: string)
    requires n == FindNewline(buffer) < |buffer|
    requires first == buffer[..n] && tail == buffer[n + 1..]
    ensures buffer == first + [NEWLINE] + tail
    ensures Lines(buffer) == [first] + Lines(tail)
    ensures Residue(buffer) == Residue(tail)
  {
    CutAt(buffer, n, first, tail);
  }

  lemma CutAt(buffer: string, n: nat, first: string, tail: string)
    requires n < |buffer| && buffer[n] == NEWLINE
    requires first == buffer[..n] && tail == buffer[n + 1..]
    ensures buffer == first + [NEWLINE] + tail
  {
  }

  lemma FirstReceived(buffer: string, n: nat)
    requires n == FindNewline(buffer) < |buffer|
    ensures Received(buffer) == Accept(buffer[..n]) + Received(buffer[n + 1..])
    ensures Residue(buffer) == Residue(buffer[n + 1..])
  {
    CutFirstLine(buffer, n, buffer[..n], buffer[n + 1..]);
    FlatMapAppend(Accept, [buffer[..n]], Lines(buffer[n + 1..]));
    FlatMapOne(Accept, buffer[..n]);
  }

  lemma TerminatedFirst(line: string, lines: seq<string>, rest: string)
    ensures Terminated([line] + lines) + rest == line + [NEWLINE] + (Terminated(lines) + rest)
  {
    assert ([line] + lines)[1..] == lines;
  }

  lemma {:induction false} LinesHaveNoNewline(buffer: string)
    ensures IsLine(Residue(buffer))
    ensures forall line :: line in Lines(buffer) ==> IsLine(line)
    decreases |buffer|
  {
    var n := FindNewline(buffer);
    if n < |buffer| {
      LinesHaveNoNewline(buffer[n + 1..]);
    }
  }

  lemma {:induction false} PartsMakeBuffer(buffer: string)
    ensures Terminated(Lines(buffer)) + Residue(buffer) == buffer
    decreases |buffer|
  {
    var n := FindNewline(buffer);
    if n == |buffer| {
      assert Lines(buffer) == [] && Residue(buffer) == buffer;
      assert "" + buffer == buffer;
    } else {
      var first, tail := buffer[..n], buffer[n + 1..];
      CutFirstLine(buffer, n, first, tail);
      PartsMakeBuffer(tail);
      TerminatedFirst(first, Lines(tail), Residue(tail));
    }
  }

  // No byte is lost or invented, and no terminator stays behind.
  lemma BytesAreConserved(buffer: string)
    ensures Terminated(Lines(buffer)) + Residue(buffer) == buffer
    ensures IsLine(Residue(buffer))
    ensures forall line :: line in Lines(buffer) ==> IsLine(line)
  {
    PartsMakeBuffer(buffer);
    LinesHaveNoNewline(buffer);
  }

  lemma {:induction false} NewlineFound(line: string, rest: string)
    requires IsLine(line)
    ensures FindNewline(line + [NEWLINE] + rest) == |line|
  {
    if line != [] {
      assert (line + [NEWLINE] + rest)[1..] == line[1..] + [NEWLINE] + rest;
      NewlineFound(line[1..], rest);
    }
  }

  lemma FirstLine(line: string, rest: string)
    requires IsLine(line)
    ensures Lines(line + [NEWLINE] + rest) == [line] + Lines(rest)
    ensures Residue(line + [NEWLINE] + rest) == Residue(rest)
  {
    NewlineFound(line, rest);
    var s := line + [NEWLINE] + rest;
    assert s[..|line|] == line && s[|line| + 1..] == rest;
  }

  // The only way to cut a buffer into terminated lines and a last part without terminator.
  lemma {:induction false} LinesAreUnique(lines: seq<string>, rest: string)
    requires forall line :: line in lines ==> IsLine(line)
    requires IsLine(rest)
    ensures Lines(Terminated(lines) + rest) == lines
    ensures Residue(Terminated(lines) + rest) == rest
  {
    if lines == [] {
      assert Terminated(lines) + rest == rest;
      assert FindNewline(rest) == |rest|;
    } else {
      var tail := Terminated(lines[1..]) + rest;
      assert Terminated(lines) + rest == lines[0] + [NEWLINE] + tail;
      FirstLine(lines[0], tail);
      LinesAreUnique(lines[1..], rest);
    }
  }

  lemma {:induction false} TerminatedAppend(a: seq<string>, b: seq<string>)
    ensures Terminated(a + b) == Terminated(a) + Terminated(b)
  {
    if a == [] {
      assert a + b == b;
    } else {
      assert (a + b)[1..] == a[1..] + b;
      TerminatedAppend(a[1..], b);
    }
  }

  lemma Regroup(a: string, b: string, head: string, rest: string, more: string, last: string)
    requires head + rest == a && more + last == rest + b
    ensures head + more + last == a + b
  {
    Associative(head, more, last);
    Associative(head, rest, b);
  }

  // Reading more bytes continues where the last read stopped.
  lemma ReadContinues(a: string, b: string)
    ensures Lines(a + b) == Lines(a) + Lines(Residue(a) + b)
    ensures Residue(a + b) == Residue(Residue(a) + b)
  {
    var before, after := Lines(a), Lines(Residue(a) + b);
    var last := Residue(Residue(a) + b);
    BytesAreConserved(a);
    BytesAreConserved(Residue(a) + b);
    Regroup(a, b, Terminated(before), Residue(a), Terminated(after), last);
    TerminatedAppend(before, after);
    LinesAreUnique(before + after, last);
  }

  lemma ReceivingContinues(a: string, b: string)
    ensures Received(a + b) == Received(a) + Received(Residue(a) + b)
  {
    ReadContinues(a, b);
    FlatMapAppend(Accept, Lines(a), Lines(Residue(a) + b));
  }

  // A connection's input side: the buffer between reads and the messages delivered so far.
  datatype Decoder = Decoder(buffer: string, delivered: seq<Message>)

  function Read(d: Decoder, chunk: string): Decoder {
    Decoder(Residue(d.buffer + chunk), d.delivered + Received(d.buffer + chunk))
  }

  function ReadAll(d: Decoder, chunks: seq<string>): Decoder
    decreases chunks
  {
    if chunks == [] then d else ReadAll(Read(d, chunks[0]), chunks[1..])
  }

  function Joined(chunks: seq<string>): string {
    if chunks == [] then "" else chunks[0] + Joined(chunks[1..])
  }

  const FRESH := Decoder("", [])

  lemma ReadTwice(d: Decoder, a: string, b: string)
    ensures Read(Read(d, a), b) == Read(d, a + b)
  {
    var first := d.buffer + a;
    Associative(d.buffer, a, b);
    ReadContinues(first, b);
    ReceivingContinues(first, b);
    Associative(d.delivered, Received(first), Received(Residue(first) + b));
  }

  lemma ReadNothing(d: Decoder)
    requires IsLine(d.buffer)
    ensures Read(d, "") == d
  {
    assert d.buffer + "" == d.buffer;
    assert Lines(d.buffer) == [];
    assert d.delivered + [] == d.delivered;
  }

  lemma {:induction false} ReadAllIsOneRead(d: Decoder, chunks: seq<string>)
    requires IsLine(d.buffer)
    ensures ReadAll(d, chunks) == Read(d, Joined(chunks))
    decreases chunks
  {
    if chunks == [] {
      ReadNothing(d);
    } else {
      BytesAreConserved(d.buffer + chunks[0]);
      ReadAllIsOneRead(Read(d, chunks[0]), chunks[1..]);
      ReadTwice(d, chunks[0], Joined(chunks[1..]));
    }
  }

  // The buffer of a connection that goes on reading, as an accepted one does, does not show how its
  // input was cut into reads, whatever the input was.
  lemma ChunkingDoesNotMatter(d: Decoder, one: seq<string>, other: seq<string>)
    requires IsLine(d.buffer)
    requires Joined(one) == Joined(other)
    ensures ReadAll(d, one) == ReadAll(d, other)
  {
    ReadAllIsOneRead(d, one);
    ReadAllIsOneRead(d, other);
  }

  // What a sender writes for one message.
  function Encode(m: Message): string {
    ToString(m) + [NEWLINE]
  }

  function EncodeAll(ms: seq<Message>): string {
    FlatMap(Encode, ms)
  }

  // What the other side takes one sent message for: usually one message, but a field that holds
  // white space can make it another message, several, or none.
  function Wire(m: Message): seq<Message> {
    Received(Encode(m))
  }

  function WireAll(ms: seq<Message>): seq<Message> {
    FlatMap(Wire, ms)
  }

  function NormalAll(ms: seq<Message>): seq<Message> {
    Map(Normal, ms)
  }

  // Only single words and no removals ever come out of a stream.
  lemma ReceivedIsClean(buffer: string, m: Message)
    requires m in Received(buffer)
    ensures CleanMessage(m) && (m.PeerUpdate? ==> !m.isRemoved)
  {
    FlatMapMember(Accept, Lines(buffer), m);
    var line :| line in Lines(buffer) && m in Accept(line);
    ParsedIsClean(line);
  }

  lemma CleanIsLine(m: Message)
    requires CleanMessage(m)
    ensures IsLine(ToString(m))
  {
    assert IsSpace(NEWLINE);
    if m.PeerUpdate? {
      IntNumeralIsClean(m.lastSeen);
      LineOfWords(m.service, m.endpoint, IntToString(m.lastSeen));
    }
  }

  lemma LineOfWords(service: string, endpoint: string, numeral: string)
    requires Clean(service) && Clean(endpoint) && Clean(numeral)
    ensures IsLine(PeerLine(service, endpoint, numeral))
  {
    assert IsSpace(NEWLINE);
    assert IsLine(service) && IsLine(endpoint) && IsLine(numeral);
  }

  // One sent message arrives as itself, up to the normal form, exactly when its fields are single words.
  lemma WireExact(m: Message)
    ensures Wire(m) == [Normal(m)] <==> CleanMessage(m)
  {
    if CleanMessage(m) {
      CleanIsLine(m);
      ParsePrinted(m);
      assert Encode(m) == ToString(m) + [NEWLINE] + "";
      FirstLine(ToString(m), "");
      assert Lines("") == [];
      FlatMapOne(Accept, ToString(m));
    }
    if Wire(m) == [Normal(m)] {
      assert Wire(m)[0] in Wire(m);
      ReceivedIsClean(Encode(m), Normal(m));
    }
  }

  // One sent message arrives unchanged exactly when its names are single words, it is no removal, and
  // its time fits a signed 32-bit integer.
  lemma WireIdentity(m: Message)
    ensures Wire(m) == [m] <==> CleanMessage(m) && (m.PeerUpdate? ==> !m.isRemoved && m.lastSeen < 0x8000_0000)
  {
    WireExact(m);
    if Wire(m) == [m] {
      assert Wire(m)[0] in Wire(m);
      ReceivedIsClean(Encode(m), m);
      assert [Normal(m)][0] == [m][0];
    }
  }

  lemma WireLeavesNoResidue(m: Message)
    ensures Residue(Encode(m)) == ""
  {
    ReadContinues(ToString(m), [NEWLINE]);
    BytesAreConserved(ToString(m));
    var last := Residue(ToString(m));
    assert last + [NEWLINE] == last + [NEWLINE] + "";
    FirstLine(last, "");
  }

  lemma {:induction false} ReceiveEncoded(ms: seq<Message>)
    ensures Received(EncodeAll(ms)) == WireAll(ms)
    ensures Residue(EncodeAll(ms)) == ""
  {
    if ms != [] {
      ReceiveEncoded(ms[1..]);
      ReadContinues(Encode(ms[0]), EncodeAll(ms[1..]));
      ReceivingContinues(Encode(ms[0]), EncodeAll(ms[1..]));
      WireLeavesNoResidue(ms[0]);
      assert "" + EncodeAll(ms[1..]) == EncodeAll(ms[1..]);
    }
  }

  lemma {:induction false} WireAllOfClean(ms: seq<Message>)
    requires forall m :: m in ms ==> CleanMessage(m)
    ensures WireAll(ms) == NormalAll(ms)
  {
    if ms != [] {
      WireExact(ms[0]);
      WireAllOfClean(ms[1..]);
      assert NormalAll(ms) == [Normal(ms[0])] + NormalAll(ms[1..]);
    }
  }

  // Everything sent on a fresh connection, cut into any chunks, arrives message by message.
  lemma StreamDelivers(ms: seq<Message>, chunks: seq<string>)
    requires Joined(chunks) == EncodeAll(ms)
    ensures ReadAll(FRESH, chunks) == Decoder("", WireAll(ms))
  {
    ReadAllIsOneRead(FRESH, chunks);
    assert "" + Joined(chunks) == EncodeAll(ms);
    ReceiveEncoded(ms);
  }

  // The stream round trip: single-word messages arrive in order, in normal form, with nothing left over.
  lemma StreamRoundTrip(ms: seq<Message>, chunks: seq<string>)
    requires forall m :: m in ms ==> CleanMessage(m)
    requires Joined(chunks) == EncodeAll(ms)
    ensures ReadAll(FRESH, chunks) == Decoder("", NormalAll(ms))
  {
    StreamDelivers(ms, chunks);
    WireAllOfClean(ms);
  }

  // Any beginning of what was sent delivers that many of the messages.
  lemma BeginningDelivers(ms: seq<Message>, first: string, rest: string)
    requires forall m :: m in ms ==> CleanMessage(m)
    requires first + rest == EncodeAll(ms)
    ensures |Received(first)| <= |ms| && Received(first) == NormalAll(ms)[..|Received(first)|]
    ensures rest == "" ==> Received(first) == NormalAll(ms)
  {
    ReceivingContinues(first, rest);
    ReceiveEncoded(ms);
    WireAllOfClean(ms);
    var n := |Received(first)|;
    assert (Received(first) + Received(Residue(first) + rest))[..n] == Received(first);
    assert rest == "" ==> first == EncodeAll(ms);
  }

  lemma {:induction false} AcceptedFewer(lines: seq<string>)
    ensures |Accepted(lines)| <= |lines|
  {
    if lines != [] {
      AcceptedFewer(lines[1..]);
    }
  }

  lemma {:induction false} EncodedLines(ms: seq<Message>)
    requires forall m :: m in ms ==> CleanMessage(m)
    ensures |Lines(EncodeAll(ms))| == |ms|
  {
    if ms != [] {
      EncodedLines(ms[1..]);
      CleanIsLine(ms[0]);
      assert EncodeAll(ms) == ToString(ms[0]) + [NEWLINE] + EncodeAll(ms[1..]);
      FirstLine(ToString(ms[0]), EncodeAll(ms[1..]));
    }
  }

  // All messages are delivered only once all bytes are.
  lemma AllMessagesAllBytes(ms: seq<Message>, first: string, rest: string)
    requires forall m :: m in ms ==> CleanMessage(m)
    requires first + rest == EncodeAll(ms) && ms != [] && |Received(first)| == |ms|
    ensures rest == ""
  {
    AcceptedFewer(Lines(first));
    EncodedLines(ms);
    ReadContinues(first, rest);
    ReceiveEncoded(ms);
    var tail := Residue(first) + rest;
    assert Lines(tail) == [] && Residue(tail) == "";
    assert FindNewline(tail) == |tail|;
  }

  // ---------- lines that are no message ----------

  predicate IsMessageLine(line: string) {
    UpdateWords(Words(line)) || QueryWords(Words(line))
  }

  lemma AcceptedExactly(line: string)
    ensures Accept(line) != [] <==> IsMessageLine(line)
  {
    ParsedExactly(line, Words(line));
  }

  lemma {:induction false} AcceptedNothing(lines: seq<string>)
    ensures Accepted(lines) == [] <==> forall line :: line in lines ==> !IsMessageLine(line)
  {
    if lines != [] {
      AcceptedExactly(lines[0]);
      AcceptedNothing(lines[1..]);
      assert forall line :: line in lines <==> line == lines[0] || line in lines[1..];
    }
  }

  // Nothing is received exactly when none of the complete lines is a message.
  lemma NothingReceivedExactly(buffer: string)
    ensures Received(buffer) == [] <==> forall line :: line in Lines(buffer) ==> !IsMessageLine(line)
  {
    AcceptedNothing(Lines(buffer));
  }

  // What is inserted between the lines of a stream adds what it holds itself.
  lemma ReceivedBetween(before: string, line: string, after: string)
    requires IsLine(line) && Residue(before) == ""
    ensures Received(before + (line + "\n" + after)) == Received(before) + Accept(line) + Received(after)
  {
    var rest := line + "\n" + after;
    ReceivingContinues(before, rest);
    assert "" + rest == rest;
    FirstLine(line, after);
    FlatMapAppend(Accept, [line], Lines(after));
    FlatMapOne(Accept, line);
    Associative(Received(before), Accept(line), Received(after));
  }

  // A line that is no message, anywhere in a stream, changes nothing about what is delivered.
  lemma JunkChangesNothing(before: string, line: string, after: string)
    requires IsLine(line) && !IsMessageLine(line) && Residue(before) == ""
    ensures Received(before + (line + "\n" + after)) == Received(before + after)
  {
    ReceivedBetween(before, line, after);
    AcceptedExactly(line);
    NothingAdded(Received(before));
    ReceivingContinues(before, after);
    NothingAdded(after);
  }

  // Lines that end with carriage return and line feed are taken like those that end with line feed.
  lemma CarriageReturnChangesNothing(before: string, line: string, after: string)
    requires IsLine(line) && Residue(before) == ""
    ensures Received(before + (line + "\r\n" + after)) == Received(before + (line + "\n" + after))
  {
    var longer := line + ['\r'];
    assert line + "\r\n" + after == longer + "\n" + after;
    ReceivedBetween(before, line, after);
    ReceivedBetween(before, longer, after);
    SpaceBehind(line, '\r');
  }
}
