/** The host:port form of a node address. */
module Endpoint {
  import opened Decimal
  import opened Gossip

  // The index of the first colon, or the length when there is none.
  function FindColon(s: string): (n: nat)
    ensures n <= |s|
    ensures forall i :: 0 <= i < n ==> s[i] != ':'
    ensures n < |s| ==> s[n] == ':'
  {
    if s == [] || s[0] == ':' then 0 else 1 + FindColon(s[1..])
  }

  datatype Address = Address(host: string, port: int)

  // What precedes the first colon, and the numeral after it; no colon or no int means port zero.
  function ParseAddress(s: string): Address {
    var n := FindColon(s);
    if n == |s| then Address(s, 0)
    else
      var port := Stoi(s[n + 1..]);
      Address(s[..n], if port.Some? then port.value else 0)
  }

  // The string is a host without colon, a colon, and anything behind it.
  predicate Splits(s: string, host: string, rest: string) {
    ':' !in host && s == host + ":" + rest
  }

  predicate ReadsAsPort(text: string, port: int) {
    port == match Stoi(text)
      case Some(i) => i
      case None => 0
  }

  lemma SplitAtColon(s: string, host: string, rest: string)
    requires Splits(s, host, rest)
    ensures FindColon(s) == |host| < |s| && s[..|host|] == host && s[|host| + 1..] == rest
  {
    assert s[|host|] == ':';
    assert forall i :: 0 <= i < |host| ==> s[i] == host[i] && host[i] in host;
  }

  // A string without colon is all host, with port zero; otherwise the host is what precedes the first
  // colon and the port is read from what follows it.
  lemma AddressExactly(s: string)
    ensures ':' !in s ==> ParseAddress(s) == Address(s, 0)
    ensures forall host, rest :: Splits(s, host, rest) ==>
              ParseAddress(s).host == host && ReadsAsPort(rest, ParseAddress(s).port)
  {
    if FindColon(s) < |s| {
      assert s[FindColon(s)] in s;
    }
    forall host, rest | Splits(s, host, rest)
      ensures ParseAddress(s).host == host && ReadsAsPort(rest, ParseAddress(s).port)
    {
      SplitAtColon(s, host, rest);
    }
  }

  // The address of an outgoing connection reads back as its host and port, for every int port,
  // exactly when the host holds no colon.
  lemma AddressRoundTrip(host: string, port: int)
    requires -0x8000_0000 <= port <= 0x7FFF_FFFF
    ensures ParseAddress(OutAddress(host, port)) == Address(host, port) <==> ':' !in host
  {
    var s := OutAddress(host, port);
    var n := FindColon(s);
    assert s[|host|] == ':';
    if ':' in host {
      var i :| 0 <= i < |host| && host[i] == ':';
      assert s[i] == ':';
      assert n < |host| && |s[..n]| == n;
    } else {
      SplitAtColon(s, host, IntToString(port));
      StoiOfIntToString(port);
    }
  }

  // A port that is no int at all reads as zero.
  lemma HugePortReadsAsZero(host: string, port: int)
    requires ':' !in host
    requires !(-0x8000_0000 <= port <= 0x7FFF_FFFF)
    ensures ParseAddress(OutAddress(host, port)) == Address(host, 0)
  {
    SplitAtColon(OutAddress(host, port), host, IntToString(port));
    StoiOfIntToString(port);
  }

  class Endpoint {
    var myHost: string
    var myPort: int

    constructor (endpointStr: string)
      ensures Address(myHost, myPort) == ParseAddress(endpointStr)
      ensures ':' !in endpointStr ==> myHost == endpointStr && myPort == 0
      ensures forall host, rest :: Splits(endpointStr, host, rest) ==> myHost == host && ReadsAsPort(rest, myPort)
      ensures forall host, port :: ':' !in host && -0x8000_0000 <= port <= 0x7FFF_FFFF
                                   && endpointStr == OutAddress(host, port) ==>
                myHost == host && myPort == port
    {
      var colonIdx := FindColon(endpointStr);
      myPort := 0;
      if colonIdx == |endpointStr| {
        myHost := endpointStr;
      } else {
        myHost := endpointStr[..colonIdx];
        var port := Stoi(endpointStr[colonIdx + 1..]);
        if port.Some? {
          myPort := port.value;
        } else {
          myPort := 0;
        }
      }
      AddressExactly(endpointStr);
      forall host, port | ':' !in host && -0x8000_0000 <= port <= 0x7FFF_FFFF && endpointStr == OutAddress(host, port)
        ensures ParseAddress(endpointStr) == Address(host, port)
      {
        AddressRoundTrip(host, port);
      }
    }
  }
}
