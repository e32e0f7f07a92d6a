/** Splitting a line into words, as repeated `stringstream >> word` does. */
module Tokens {
  import opened Decimal
  import opened Sequences

  // A word that white-space splitting returns as it is.
  predicate Clean(w: string) {
    w != [] && forall c :: c in w ==> !IsSpace(c)
  }

  function WordLength(s: string): (n: nat)
    ensures n <= |s|
    ensures forall i :: 0 <= i < n ==> !IsSpace(s[i])
    ensures n < |s| ==> IsSpace(s[n])
  {
    if s == [] || IsSpace(s[0]) then 0 else 1 + WordLength(s[1..])
  }

  function Words(s: string): seq<string>
    decreases |s|
  {
    if s == [] then []
    else if IsSpace(s[0]) then Words(s[1..])
    else
      var n := WordLength(s);
      [s[..n]] + Words(s[n..])
  }

  lemma SpaceInFront(line: string, pos: nat)
    requires pos < |line| && IsSpace(line[pos])
    ensures Words(line[pos..]) == Words(line[pos + 1..])
  {
    assert line[pos..][1..] == line[pos + 1..];
  }

  lemma WordAt(line: string, start: nat, end: nat)
    requires start < end <= |line|
    requires forall i :: start <= i < end ==> !IsSpace(line[i])
    requires end < |line| ==> IsSpace(line[end])
    ensures Words(line[start..]) == [line[start..end]] + Words(line[end..])
  {
    assert line[start..] == line[start..end] + line[end..];
    WordInFront(line[start..end], line[end..]);
  }

  lemma WholeLine(line: string)
    ensures line[0..] == line && [] + Words(line[0..]) == Words(line) && Words(line[|line|..]) == []
  {
    assert line[|line|..] == [];
  }

  method Tokenize(line: string) returns (tokens: seq<string>)
    ensures tokens == Words(line)
  {
    tokens := [];
    var pos := 0;
    WholeLine(line);
    while pos < |line|
      invariant 0 <= pos <= |line|
      invariant tokens + Words(line[pos..]) == Words(line)
    {
      if IsSpace(line[pos]) {
        SpaceInFront(line, pos);
        pos := pos + 1;
      } else {
        var start := pos;
        while pos < |line| && !IsSpace(line[pos])
          invariant start <= pos <= |line|
          invariant forall i :: start <= i < pos ==> !IsSpace(line[i])
        {
          pos := pos + 1;
        }
        WordAt(line, start, pos);
        Associative(tokens, [line[start..pos]], Words(line[pos..]));
        tokens := tokens + [line[start..pos]];
      }
    }
    NothingAdded(tokens);
  }

  lemma {:induction false} WordsAreClean(s: string)
    ensures forall w :: w in Words(s) ==> Clean(w)
    decreases |s|
  {
    if s != [] {
      if IsSpace(s[0]) {
        WordsAreClean(s[1..]);
      } else {
        WordsAreClean(s[WordLength(s)..]);
      }
    }
  }

  lemma WordInFront(w: string, rest: string)
    requires Clean(w)
    requires rest == [] || IsSpace(rest[0])
    ensures Words(w + rest) == [w] + Words(rest)
  {
    var s := w + rest;
    var n := WordLength(s);
    assert forall i :: 0 <= i < |w| ==> s[i] == w[i] && w[i] in w;
    assert rest != [] ==> s[|w|] == rest[0];
    assert n == |w|;
    assert s[..n] == w && s[n..] == rest;
  }

  // White space separates: nothing on one side of it affects the words of the other side.
  lemma {:induction false} WordsSplitAtSpace(x: string, c: char, y: string)
    requires IsSpace(c)
    ensures Words(x + [c] + y) == Words(x) + Words(y)
    decreases |x|
  {
    if x == [] {
      assert ([c] + y)[1..] == y;
      assert x + [c] + y == [c] + y;
    } else if IsSpace(x[0]) {
      assert (x + [c] + y)[1..] == x[1..] + [c] + y;
      WordsSplitAtSpace(x[1..], c, y);
    } else {
      var n := WordLength(x);
      WordsSplitAfterWord(x[..n], x[n..], c, y);
      assert x[..n] + x[n..] == x;
      WordsSplitAtSpace(x[n..], c, y);
    }
  }

  lemma WordsSplitAfterWord(w: string, rest: string, c: char, y: string)
    requires Clean(w) && IsSpace(c)
    requires rest == [] || IsSpace(rest[0])
    ensures Words(rest + [c] + y) == Words(rest) + Words(y) ==>
              Words(w + rest + [c] + y) == Words(w + rest) + Words(y)
  {
    var more := rest + [c] + y;
    assert more[0] == if rest == [] then c else rest[0];
    WordInFront(w, rest);
    WordInFront(w, more);
    Associative(w, rest, [c]);
    Associative(w, rest + [c], y);
    Associative([w], Words(rest), Words(y));
  }

  lemma WordsOfClean(w: string)
    requires Clean(w)
    ensures Words(w) == [w]
  {
    WordInFront(w, "");
    assert w + "" == w;
  }

  lemma FirstWord(a: string, rest: string)
    requires Clean(a)
    ensures Words(a + " " + rest) == [a] + Words(rest)
  {
    WordsSplitAtSpace(a, ' ', rest);
    WordsOfClean(a);
  }

  lemma FirstTwoWords(a: string, b: string, rest: string)
    requires Clean(a) && Clean(b)
    ensures Words(a + " " + b + " " + rest) == [a, b] + Words(rest)
  {
    FirstWord(b, rest);
    FirstWord(a, b + " " + rest);
    assert a + " " + b + " " + rest == a + " " + (b + " " + rest);
    Associative([a], [b], Words(rest));
  }

  lemma ThreeWords(a: string, b: string, c: string)
    requires Clean(a) && Clean(b) && Clean(c)
    ensures Words(a + " " + b + " " + c) == [a, b, c]
  {
    WordsOfClean(c);
    FirstTwoWords(a, b, c);
  }

  lemma FiveWords(a: string, b: string, c: string, d: string, e: string)
    requires Clean(a) && Clean(b) && Clean(c) && Clean(d) && Clean(e)
    ensures Words(a + " " + b + " " + c + " " + d + " " + e) == [a, b, c, d, e]
  {
    WordsOfClean(e);
    WordsSplitAtSpace(a + " " + b + " " + c + " " + d, ' ', e);
    WordsOfClean(d);
    WordsSplitAtSpace(a + " " + b + " " + c, ' ', d);
    ThreeWords(a, b, c);
  }

  // ---------- which characters separate ----------

  // Two words with one character between them stay two words exactly for blank, tab, line feed,
  // vertical tab, form feed and carriage return; any other character makes them one.
  lemma SeparatesExactly(a: string, c: char, b: string)
    requires Clean(a) && Clean(b)
    ensures Words(a + [c] + b) ==
            if c == ' ' || c == '\t' || c == '\n' || c == '\r' || c as int == 11 || c as int == 12 then [a, b]
            else [a + [c] + b]
  {
    WordsOfClean(a);
    WordsOfClean(b);
    if IsSpace(c) {
      WordsSplitAtSpace(a, c, b);
    } else {
      WordsOfClean(a + [c] + b);
    }
  }

  // Words written one after the other with a blank between them.
  function Spaced(words: seq<string>): string {
    if words == [] then ""
    else if |words| == 1 then words[0]
    else words[0] + " " + Spaced(words[1..])
  }

  predicate AllClean(words: seq<string>) {
    forall w :: w in words ==> Clean(w)
  }

  lemma {:induction false} WordsOfSpaced(words: seq<string>)
    requires AllClean(words)
    ensures Words(Spaced(words)) == words
  {
    if |words| == 1 {
      WordsOfClean(words[0]);
    } else if words != [] {
      assert words[0] in words;
      WordsOfSpaced(words[1..]);
      FirstWord(words[0], Spaced(words[1..]));
    }
  }

  // White space at the end of a line does not matter.
  lemma SpaceBehind(line: string, c: char)
    requires IsSpace(c)
    ensures Words(line + [c]) == Words(line)
  {
    assert line + [c] + "" == line + [c];
    WordsSplitAtSpace(line, c, "");
  }
}
