/** The two protocol messages, their text form, and the parser of one received line. */
module Messages {
  import opened Types
  import opened Decimal
  import opened Tokens

  datatype Message =
    | PeerUpdate(service: string, endpoint: string, lastSeen: Timestamp, isRemoved: bool)
    | Query(service: string)

  const PREFIX := "PB01"

  function PeerLine(service: string, endpoint: string, numeral: string): string {
    PREFIX + " " + "PEER" + " " + service + " " + endpoint + " " + numeral
  }

  function QueryLine(service: string): string {
    PREFIX + " " + "QUERY" + " " + service
  }

  function ToString(m: Message): string {
    match m
    case PeerUpdate(service, endpoint, lastSeen, _) => PeerLine(service, endpoint, IntToString(lastSeen))
    case Query(service) =>
      QueryLine(service)
  }

  // The time a numeral stands for; one that is no int counts as zero.
  function TimeOf(numeral: string): Timestamp {
    var parsed := Stoi(numeral);
    ToTimestamp(if parsed.Some? then parsed.value else 0)
  }

  // What one line without its terminator is taken for; None for a line that is reported and skipped.
  function ParseTokens(tokens: seq<string>): Option<Message> {
    if |tokens| < 2 || tokens[0] != PREFIX then None
    else if |tokens| >= 5 && tokens[1] == "PEER" then
      Some(PeerUpdate(tokens[2], tokens[3], TimeOf(tokens[4]), false))
    else if |tokens| >= 3 && tokens[1] == "QUERY" then Some(Query(tokens[2]))
    else None
  }

  function ParseLine(line: string): Option<Message> {
    ParseTokens(Words(line))
  }

  // A message whose fields are single words.
  predicate CleanMessage(m: Message) {
    Clean(m.service) && (m.PeerUpdate? ==> Clean(m.endpoint))
  }

  // What is left of a message after printing and parsing: the removal flag is gone, and so is a
  // time that does not fit a signed 32-bit integer.
  function Normal(m: Message): Message {
    match m
    case PeerUpdate(service, endpoint, lastSeen, _) =>
      PeerUpdate(service, endpoint, if lastSeen < 0x8000_0000 then lastSeen else 0, false)
    case Query(_) => m
  }

  lemma IntNumeralIsClean(i: int)
    ensures Clean(IntToString(i))
  {
    NatToStringDenotes(if i < 0 then -i else i);
  }

  lemma KeywordsAreClean()
    ensures Clean(PREFIX) && Clean("PEER") && Clean("QUERY")
  {
  }

  // Any fifth word is accepted as a time.
  lemma PeerLineAccepted(service: string, endpoint: string, numeral: string)
    requires Clean(service) && Clean(endpoint) && Clean(numeral)
    ensures ParseLine(PeerLine(service, endpoint, numeral)) ==
            Some(PeerUpdate(service, endpoint, TimeOf(numeral), false))
  {
    KeywordsAreClean();
    FiveWords(PREFIX, "PEER", service, endpoint, numeral);
  }

  lemma QueryLineAccepted(service: string)
    requires Clean(service)
    ensures ParseLine(QueryLine(service)) == Some(Query(service))
  {
    KeywordsAreClean();
    ThreeWords(PREFIX, "QUERY", service);
  }

  lemma TimeOfParsed(numeral: string, t: Timestamp)
    requires Stoi(numeral) == if t <= 0x7FFF_FFFF then Some(t) else None
    ensures TimeOf(numeral) == if t < 0x8000_0000 then t else 0
  {
  }

  lemma TimeOfPrinted(t: Timestamp)
    ensures TimeOf(IntToString(t)) == if t < 0x8000_0000 then t else 0
  {
    StoiOfIntToString(t);
    TimeOfParsed(IntToString(t), t);
  }

  lemma ParsePrinted(m: Message)
    requires CleanMessage(m)
    ensures ParseLine(ToString(m)) == Some(Normal(m))
  {
    match m
    case PeerUpdate(service, endpoint, lastSeen, _) =>
      IntNumeralIsClean(lastSeen);
      PeerLineAccepted(service, endpoint, IntToString(lastSeen));
      TimeOfPrinted(lastSeen);
    case Query(service) =>
      QueryLineAccepted(service);
  }

  // Whatever the line was, an accepted message has single-word fields and is not a removal.
  lemma ParsedIsClean(line: string)
    requires ParseLine(line).Some?
    ensures CleanMessage(ParseLine(line).value)
    ensures ParseLine(line).value.PeerUpdate? ==> !ParseLine(line).value.isRemoved
  {
    WordsAreClean(line);
  }

  lemma NormalIsNormal(m: Message)
    ensures Normal(Normal(m)) == Normal(m)
    ensures CleanMessage(m) ==> CleanMessage(Normal(m))
  {
  }

  // The message after it was printed and parsed n times.
  function Relayed(m: Message, hops: nat): Option<Message> {
    if hops == 0 then Some(m)
    else
      var previous := Relayed(m, hops - 1);
      if previous.None? then None else ParseLine(ToString(previous.value))
  }

  // A relay chain changes an accepted message at its first hop only, and never its service or endpoint.
  lemma {:induction false} RelayChainStabilises(line: string, hops: nat)
    requires ParseLine(line).Some?
    requires hops >= 1
    ensures Relayed(ParseLine(line).value, hops) == Some(Normal(ParseLine(line).value))
    ensures Relayed(ParseLine(line).value, hops) == Relayed(ParseLine(line).value, 1)
  {
    var m := ParseLine(line).value;
    ParsedIsClean(line);
    ParsePrinted(m);
    assert Relayed(m, 0) == Some(m);
    if hops > 1 {
      RelayChainStabilises(line, hops - 1);
      NormalIsNormal(m);
      ParsePrinted(Normal(m));
    }
  }

  // ---------- which lines are taken for what ----------

  predicate UpdateWords(words: seq<string>) {
    ["PB01", "PEER"] <= words && |words| >= 5
  }

  predicate QueryWords(words: seq<string>) {
    ["PB01", "QUERY"] <= words && |words| >= 3
  }

  // A time as text: a negative int wraps around, and what is no int counts as zero.
  predicate ReadsAsTime(numeral: string, time: Timestamp) {
    time == match Stoi(numeral)
      case Some(i) => if i < 0 then 0x1_0000_0000 + i else i
      case None => 0
  }

  lemma TimeExactly(numeral: string)
    ensures ReadsAsTime(numeral, TimeOf(numeral))
  {
    if Stoi(numeral).Some? {
      var i := Stoi(numeral).value;
      assert i < 0 ==> i % 0x1_0000_0000 == 0x1_0000_0000 + i;
    }
  }

  // The words of a line decide: it is an announcement if they begin so and go on with three more words
  // at least, a query if they begin so and go on with one more at least, and nothing else otherwise.
  // Further words are ignored.
  lemma ParsedExactly(line: string, words: seq<string>)
    requires words == Words(line)
    ensures ParseLine(line).Some? <==> UpdateWords(words) || QueryWords(words)
    ensures UpdateWords(words) ==>
              && ParseLine(line).value.PeerUpdate? && ParseLine(line).value.service == words[2]
              && ParseLine(line).value.endpoint == words[3] && ReadsAsTime(words[4], ParseLine(line).value.lastSeen)
              && !ParseLine(line).value.isRemoved
    ensures QueryWords(words) ==> ParseLine(line) == Some(Query(words[2]))
  {
    if |words| >= 2 {
      assert words[..2] == [words[0], words[1]];
    }
    if UpdateWords(words) {
      assert words[0] == ["PB01", "PEER"][0] && words[1] == ["PB01", "PEER"][1];
      TimeExactly(words[4]);
    }
    if QueryWords(words) {
      assert words[0] == ["PB01", "QUERY"][0] && words[1] == ["PB01", "QUERY"][1];
    }
  }

  // So for all words, written with blanks between them.
  lemma SpacedExactly(words: seq<string>, line: string)
    requires AllClean(words) && line == Spaced(words)
    ensures ParseLine(line).Some? <==> UpdateWords(words) || QueryWords(words)
    ensures UpdateWords(words) ==>
              && ParseLine(line).value.PeerUpdate? && ParseLine(line).value.service == words[2]
              && ParseLine(line).value.endpoint == words[3] && ReadsAsTime(words[4], ParseLine(line).value.lastSeen)
              && !ParseLine(line).value.isRemoved
    ensures QueryWords(words) ==> ParseLine(line) == Some(Query(words[2]))
  {
    WordsOfSpaced(words);
    ParsedExactly(line, words);
  }

  // The words that a message is printed as.
  lemma PrintedWords(m: Message)
    requires CleanMessage(m)
    ensures m.Query? ==> Words(ToString(m)) == ["PB01", "QUERY", m.service]
    ensures m.PeerUpdate? ==>
              Words(ToString(m)) == ["PB01", "PEER", m.service, m.endpoint, IntToString(m.lastSeen)]
  {
    KeywordsAreClean();
    match m
    case PeerUpdate(service, endpoint, lastSeen, _) =>
      IntNumeralIsClean(lastSeen);
      FiveWords(PREFIX, "PEER", service, endpoint, IntToString(lastSeen));
    case Query(service) =>
      ThreeWords(PREFIX, "QUERY", service);
  }

  lemma NegativeTimeWraps(service: string, endpoint: string, i: int, line: string)
    requires Clean(service) && Clean(endpoint)
    requires -0x8000_0000 <= i < 0
    requires line == PeerLine(service, endpoint, IntToString(i))
    ensures ParseLine(line) == Some(PeerUpdate(service, endpoint, 0x1_0000_0000 + i, false))
  {
    IntNumeralIsClean(i);
    PeerLineAccepted(service, endpoint, IntToString(i));
    StoiOfIntToString(i);
    assert ToTimestamp(i) == 0x1_0000_0000 + i;
  }

  // A negative numeral is accepted, wraps to a large time, and is zero from the next relay on.
  lemma NegativeTimeFades(service: string, endpoint: string, i: int, line: string, hops: nat)
    requires Clean(service) && Clean(endpoint)
    requires -0x8000_0000 <= i < 0 && hops >= 1
    requires line == PeerLine(service, endpoint, IntToString(i))
    ensures ParseLine(line) == Some(PeerUpdate(service, endpoint, 0x1_0000_0000 + i, false))
    ensures Relayed(ParseLine(line).value, hops) == Some(PeerUpdate(service, endpoint, 0, false))
  {
    NegativeTimeWraps(service, endpoint, i, line);
    RelayChainStabilises(line, hops);
  }
}
