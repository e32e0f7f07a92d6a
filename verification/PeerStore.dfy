/** The in-memory peer store: a map from service to endpoint to entry, updated in place. */
module PeerStore {
  import opened Types
  import opened Lexicographic
  import opened StoreModel

  // No service without endpoints, and every entry sits under its own names.
  ghost predicate Represents(nested: map<string, map<string, Entry>>, flat: Peers) {
    && (forall s :: s in nested ==> nested[s] != map[])
    && (forall k :: k in flat <==> k.service in nested && k.endpoint in nested[k.service])
    && (forall k :: k in flat ==> nested[k.service][k.endpoint] == flat[k])
    && WellKeyed(flat)
  }

  lemma PutRepresents(nested: map<string, map<string, Entry>>, flat: Peers, peer: Entry, endpoints: map<string, Entry>)
    requires Represents(nested, flat)
    requires endpoints == if peer.service in nested then nested[peer.service] else map[]
    ensures Represents(nested[peer.service := endpoints[peer.endpoint := peer]],
                       flat[Key(peer.service, peer.endpoint) := peer])
  {
    var inner := endpoints[peer.endpoint := peer];
    var outer := nested[peer.service := inner];
    assert peer.endpoint in inner;
    forall k: Key ensures k in flat[Key(peer.service, peer.endpoint) := peer] <==>
                          k.service in outer && k.endpoint in outer[k.service]
    {
      assert k.service == peer.service && k.endpoint == peer.endpoint <==> k == Key(peer.service, peer.endpoint);
    }
  }

  lemma EndpointsOf(nested: map<string, map<string, Entry>>, flat: Peers, service: string)
    requires Represents(nested, flat) && service in nested
    ensures forall e :: e in nested[service] <==> Key(service, e) in flat
  {
  }

  class Store {
    var myStore: map<string, map<string, Entry>>

    // The flat map the nested one stands for.
    ghost var peers: Peers

    ghost predicate Valid()
      reads this
    {
      Represents(myStore, peers)
    }

    constructor ()
      ensures Valid() && peers == map[]
    {
      myStore := map[];
      peers := map[];
    }

    method FindPeer(service: string, endpoint: string) returns (peer: Option<Entry>)
      requires Valid()
      ensures peer == if Key(service, endpoint) in peers then Some(peers[Key(service, endpoint)]) else None
    {
      if service !in myStore {
        return None;
      }
      if endpoint !in myStore[service] {
        return None;
      }
      return Some(myStore[service][endpoint]);
    }

    method AddPeer(peer: Entry)
      requires Valid()
      modifies this
      ensures Valid()
      ensures peers == old(peers)[Key(peer.service, peer.endpoint) := peer]
    {
      ghost var before := myStore;
      PutRepresents(myStore, peers, peer, if peer.service in myStore then myStore[peer.service] else map[]);
      if peer.service !in myStore {
        myStore := myStore[peer.service := map[]];
      }
      myStore := myStore[peer.service := myStore[peer.service][peer.endpoint := peer]];
      peers := peers[Key(peer.service, peer.endpoint) := peer];
      assert myStore == before[peer.service := myStore[peer.service]];
    }

    method FindAndUpdate(service: string, endpoint: string, isRemoved: bool, lastSeen: Timestamp, now: Timestamp)
      returns (res: UpdateResult)
      requires Valid()
      modifies this
      ensures Valid()
      ensures peers == Apply(old(peers), Update(Key(service, endpoint), isRemoved, lastSeen, now))
      ensures res == Classify(old(peers), Update(Key(service, endpoint), isRemoved, lastSeen, now))
    {
      var newPeer := Entry(service, endpoint, now, lastSeen, isRemoved);
      var oldPeer := FindPeer(service, endpoint);
      if oldPeer.None? {
        AddPeer(newPeer);
        return AddedNew;
      }
      if oldPeer.value.isRemoved != isRemoved {
        AddPeer(newPeer);
        return UpdatedValue;
      }
      newPeer := newPeer.(addedTime := oldPeer.value.addedTime);
      AddPeer(newPeer);
      return UpdatedOnlyTime;
    }

    method Clear()
      modifies this
      ensures Valid() && peers == map[]
    {
      myStore := map[];
      peers := map[];
    }

    // The live entries of a service, strictly ascending: by proper prefix, or by the smaller character
    // where two endpoints first differ.
    method Query(service: string) returns (result: seq<Entry>)
      requires Valid()
      ensures result == Listing(peers, service)
      ensures forall e :: e in result <==>
                Key(service, e.endpoint) in peers && peers[Key(service, e.endpoint)] == e && !e.isRemoved
      ensures forall i, j :: 0 <= i < j < |result| ==> Precedes(result[i].endpoint, result[j].endpoint)
    {
      ListingExact(peers, service);
      if service !in myStore {
        NothingListed(service);
        return [];
      }
      result := ListEndpoints(service);
    }

    lemma NothingListed(service: string)
      requires Valid() && service !in myStore
      ensures Listing(peers, service) == []
    {
      assert LiveEndpoints(peers, service) == {};
    }

    // The loop over the endpoints of one service.
    method ListEndpoints(service: string) returns (result: seq<Entry>)
      requires Valid() && service in myStore
      ensures result == Listing(peers, service)
    {
      result := [];
      ghost var live := LiveEndpoints(peers, service);
      var endpoints := myStore[service];
      ghost var listed: seq<string> := [];
      var todo := endpoints.Keys;
      while todo != {}
        invariant todo <= endpoints.Keys
        invariant Ascending(listed)
        invariant forall e :: e in listed <==> e in live && e !in todo
        invariant forall d, e :: d in listed && e in todo ==> Before(d, e)
        invariant result == EntriesAt(peers, service, listed)
      {
        FirstExists(todo);
        var e :| e in todo && forall x :: x in todo && x != e ==> Before(e, x);
        LiveEndpoint(peers, service, e);
        if !endpoints[e].isRemoved {
          EntriesAppendOne(peers, service, listed, e);
          result := result + [endpoints[e]];
          listed := listed + [e];
        }
        todo := todo - {e};
      }
      AscendingUnique(listed, InOrder(live));
    }

    method CountPrivate() returns (c: nat)
      requires Valid()
      ensures c == |peers|
    {
      c := 0;
      var todo := myStore.Keys;
      assert KeysOutside(peers, todo) == {};
      while todo != {}
        invariant todo <= myStore.Keys
        invariant c == |KeysOutside(peers, todo)|
      {
        FirstExists(todo);
        var s :| s in todo && forall x :: x in todo && x != s ==> Before(s, x);
        EndpointsOf(myStore, peers, s);
        OneMoreService(peers, todo, s, myStore[s].Keys);
        c := c + |myStore[s]|;
        todo := todo - {s};
      }
      assert KeysOutside(peers, {}) == peers.Keys;
    }

    // The number of distinct (service, endpoint) pairs.
    method Count() returns (c: nat)
      requires Valid()
      ensures c == |peers|
    {
      c := CountPrivate();
    }

    // The number of entries that are not removed, which is also the total length of all listings.
    method CountNonremoved() returns (c: nat)
      requires Valid()
      ensures c == |set k | k in peers && !peers[k].isRemoved|
      ensures c == |LiveKeys(peers)|
      ensures c == ListedUnder(peers, InOrder(Services(peers)))
    {
      c := 0;
      var todo := myStore.Keys;
      assert LiveOutside(peers, todo) == {};
      while todo != {}
        invariant todo <= myStore.Keys
        invariant c == |LiveOutside(peers, todo)|
      {
        FirstExists(todo);
        var s :| s in todo && forall x :: x in todo && x != s ==> Before(s, x);
        EndpointsOf(myStore, peers, s);
        OneMoreLiveService(peers, todo, s, myStore[s].Keys);
        c := CountLive(s, c);
        todo := todo - {s};
      }
      assert LiveOutside(peers, {}) == LiveKeys(peers);
      ListingsCoverLiveKeys(peers);
    }

    // The inner loop of the count, over the endpoints of one service.
    method CountLive(service: string, before: nat) returns (c: nat)
      requires Valid() && service in myStore
      ensures c == before + |LiveWithin(peers, service, myStore[service].Keys)|
    {
      c := before;
      var endpoints := myStore[service];
      var todo := endpoints.Keys;
      ghost var done: set<string> := {};
      assert LiveWithin(peers, service, {}) == {};
      while todo != {}
        invariant todo !! done && todo + done == endpoints.Keys
        invariant c == before + |LiveWithin(peers, service, done)|
      {
        FirstExists(todo);
        var e :| e in todo && forall x :: x in todo && x != e ==> Before(e, x);
        assert Key(service, e) in peers;
        OneMoreEndpoint(peers, service, done, e);
        if !endpoints[e].isRemoved {
          c := c + 1;
        }
        todo := todo - {e};
        done := done + {e};
      }
      assert done == endpoints.Keys;
    }
  }
}
