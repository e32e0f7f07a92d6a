/** What the peer store means: a map from (service, endpoint) to an entry, and how updates change it. */
module StoreModel {
  import opened Types
  import opened Lexicographic
  import opened Sequences

  datatype Entry = Entry(service: string, endpoint: string, addedTime: Timestamp, lastSeen: Timestamp, isRemoved: bool)

  type Peers = map<Key, Entry>

  datatype UpdateResult = Invalid | AddedNew | UpdatedValue | UpdatedOnlyTime | NoChangeNeeded

  // One call of findAndUpdate, together with the clock it reads.
  datatype Update = Update(key: Key, isRemoved: bool, lastSeen: Timestamp, now: Timestamp)

  predicate WellKeyed(s: Peers) {
    forall k :: k in s ==> s[k].service == k.service && s[k].endpoint == k.endpoint
  }

  function Classify(s: Peers, u: Update): UpdateResult {
    if u.key !in s then AddedNew
    else if s[u.key].isRemoved != u.isRemoved then UpdatedValue
    else UpdatedOnlyTime
  }

  function Apply(s: Peers, u: Update): Peers {
    var addedTime := if Classify(s, u) == UpdatedOnlyTime then s[u.key].addedTime else u.now;
    s[u.key := Entry(u.key.service, u.key.endpoint, addedTime, u.lastSeen, u.isRemoved)]
  }

  function ApplyAll(s: Peers, us: seq<Update>): Peers {
    if us == [] then s else Apply(ApplyAll(s, us[..|us| - 1]), us[|us| - 1])
  }

  // ---------- history ----------

  // Update i is the last one of key k.
  ghost predicate IsLast(us: seq<Update>, k: Key, i: nat) {
    && i < |us| && us[i].key == k
    && forall j :: i < j < |us| ==> us[j].key != k
  }

  // Update p of key k is the one right before update j of key k.
  ghost predicate IsPrevious(us: seq<Update>, k: Key, p: nat, j: nat)
    requires j < |us|
  {
    && p < j && us[p].key == k
    && forall q :: p < q < j ==> us[q].key != k
  }

  // Update j of key k begins the maximal run of equal flags that ends with update i.
  ghost predicate BeginsRun(us: seq<Update>, k: Key, j: nat, i: nat)
    requires i < |us|
  {
    && j <= i && us[j].key == k
    && (forall m :: j <= m <= i && us[m].key == k ==> us[m].isRemoved == us[i].isRemoved)
    && (forall p: nat :: IsPrevious(us, k, p, j) ==> us[p].isRemoved != us[j].isRemoved)
  }

  lemma {:induction false} LastExists(us: seq<Update>, k: Key)
    requires exists i :: 0 <= i < |us| && us[i].key == k
    ensures exists i :: IsLast(us, k, i)
  {
    var n := |us| - 1;
    if us[n].key == k {
      assert IsLast(us, k, n);
    } else {
      var i :| 0 <= i < |us| && us[i].key == k;
      assert us[..n][i].key == k;
      LastExists(us[..n], k);
      var l :| IsLast(us[..n], k, l);
      assert IsLast(us, k, l);
    }
  }

  // A key is stored once it was updated, and only then.
  lemma {:induction false} StoredIffUpdated(s: Peers, us: seq<Update>, k: Key)
    ensures k in ApplyAll(s, us) <==> k in s || exists i :: 0 <= i < |us| && us[i].key == k
  {
    if us != [] {
      var n := |us| - 1;
      StoredIffUpdated(s, us[..n], k);
      assert forall i :: 0 <= i < n ==> us[..n][i] == us[i];
    }
  }

  lemma {:induction false} FlagIsLast(s: Peers, us: seq<Update>, k: Key, i: nat)
    requires IsLast(us, k, i)
    ensures k in ApplyAll(s, us) && ApplyAll(s, us)[k].isRemoved == us[i].isRemoved
  {
    var n := |us| - 1;
    if i < n {
      assert IsLast(us[..n], k, i);
      FlagIsLast(s, us[..n], k, i);
    }
  }

  lemma PreviousInPrefix(us: seq<Update>, n: nat, k: Key, j: nat)
    requires n <= |us| && j < n
    ensures forall p: nat :: IsPrevious(us[..n], k, p, j) ==> IsPrevious(us, k, p, j)
  {
  }

  lemma HistoryOfPrefix(us: seq<Update>, n: nat, k: Key, i: nat, j: nat)
    requires i < n <= |us|
    requires IsLast(us, k, i) && BeginsRun(us, k, j, i)
    ensures IsLast(us[..n], k, i) && BeginsRun(us[..n], k, j, i)
  {
    PreviousInPrefix(us, n, k, j);
  }

  lemma RunOfPrefix(us: seq<Update>, k: Key, j: nat, i: nat, last: nat)
    requires i < |us| && us[i].key == k
    requires BeginsRun(us, k, j, i) && j < i
    requires IsLast(us[..i], k, last)
    ensures us[last].isRemoved == us[i].isRemoved
    ensures BeginsRun(us[..i], k, j, last)
  {
    assert us[..i][j].key == k;
    PreviousInPrefix(us, i, k, j);
  }

  lemma LastIsPrevious(us: seq<Update>, k: Key, i: nat, last: nat)
    requires i < |us| && IsLast(us[..i], k, last)
    ensures IsPrevious(us, k, last, i)
  {
    assert forall q :: last < q < i ==> us[..i][q] == us[q];
  }

  // An update that comes before all others of its key does not go on with the flag the store held.
  predicate StartsAnew(s: Peers, us: seq<Update>, k: Key, j: nat)
    requires j < |us|
  {
    k in s && (forall p :: 0 <= p < j ==> us[p].key != k) ==> s[k].isRemoved != us[j].isRemoved
  }

  lemma {:induction false} NeverUpdated(s: Peers, us: seq<Update>, k: Key)
    requires forall p :: 0 <= p < |us| ==> us[p].key != k
    ensures k in ApplyAll(s, us) <==> k in s
    ensures k in s ==> ApplyAll(s, us)[k] == s[k]
  {
    if us != [] {
      NeverUpdated(s, us[..|us| - 1], k);
    }
  }

  lemma RunBegunByLast(s: Peers, us: seq<Update>, k: Key, i: nat)
    requires i < |us| && us[i].key == k && BeginsRun(us, k, i, i) && StartsAnew(s, us, k, i)
    ensures Classify(ApplyAll(s, us[..i]), us[i]) != UpdatedOnlyTime
  {
    if forall p :: 0 <= p < i ==> us[..i][p].key != k {
      assert forall p :: 0 <= p < i ==> us[p].key == us[..i][p].key;
      NeverUpdated(s, us[..i], k);
    } else {
      LastExists(us[..i], k);
      var last: nat :| IsLast(us[..i], k, last);
      FlagIsLast(s, us[..i], k, last);
      LastIsPrevious(us, k, i, last);
    }
  }

  function EntryFor(k: Key, begun: Update, last: Update): Entry {
    Entry(k.service, k.endpoint, begun.now, last.lastSeen, last.isRemoved)
  }

  lemma AnewInPrefix(s: Peers, us: seq<Update>, n: nat, k: Key, j: nat)
    requires j < n <= |us| && StartsAnew(s, us, k, j)
    ensures StartsAnew(s, us[..n], k, j)
  {
    assert forall p :: 0 <= p < n ==> us[..n][p] == us[p];
  }

  // What one more update does to the entry of a key.
  lemma EntryAfter(s: Peers, u: Update, k: Key, begun: Update, last: Update)
    ensures u.key != k ==> (k in Apply(s, u) <==> k in s) && (k in s ==> Apply(s, u)[k] == s[k])
    ensures u.key == k && Classify(s, u) != UpdatedOnlyTime ==> k in Apply(s, u) && Apply(s, u)[k] == EntryFor(k, u, u)
    ensures u.key == k && k in s && s[k] == EntryFor(k, begun, last) && last.isRemoved == u.isRemoved ==>
              k in Apply(s, u) && Apply(s, u)[k] == EntryFor(k, begun, u)
  {
  }

  // The stored entry of a key has the flag and time of the key's last update, and was added by the
  // update that began the current run of equal flags, unless that run goes on from what the store held
  // to begin with.
  lemma {:induction false} EntryTellsHistory(s: Peers, us: seq<Update>, k: Key, i: nat, j: nat)
    requires IsLast(us, k, i)
    requires BeginsRun(us, k, j, i) && StartsAnew(s, us, k, j)
    ensures k in ApplyAll(s, us)
    ensures ApplyAll(s, us)[k] == Entry(k.service, k.endpoint, us[j].now, us[i].lastSeen, us[i].isRemoved)
    decreases |us|, 1
  {
    var n := |us| - 1;
    if i < n {
      EarlierEntry(s, us, k, i, j);
    } else if j == i {
      RunBegunByLast(s, us, k, i);
      EntryAfter(ApplyAll(s, us[..n]), us[n], k, us[n], us[n]);
    } else {
      var last := OlderRun(s, us, k, i, j);
      EntryTellsHistory(s, us[..i], k, last, j);
      EntryAfter(ApplyAll(s, us[..i]), us[i], k, us[j], us[last]);
    }
  }

  lemma {:induction false} EarlierEntry(s: Peers, us: seq<Update>, k: Key, i: nat, j: nat)
    requires IsLast(us, k, i) && i < |us| - 1
    requires BeginsRun(us, k, j, i) && StartsAnew(s, us, k, j)
    ensures k in ApplyAll(s, us)
    ensures ApplyAll(s, us)[k] == EntryFor(k, us[j], us[i])
    decreases |us|, 0
  {
    var n := |us| - 1;
    HistoryOfPrefix(us, n, k, i, j);
    AnewInPrefix(s, us, n, k, j);
    EntryTellsHistory(s, us[..n], k, i, j);
    EntryAfter(ApplyAll(s, us[..n]), us[n], k, us[n], us[n]);
  }

  // The run before its last update.
  lemma OlderRun(s: Peers, us: seq<Update>, k: Key, i: nat, j: nat) returns (last: nat)
    requires i < |us| && us[i].key == k && BeginsRun(us, k, j, i) && j < i && StartsAnew(s, us, k, j)
    ensures last < i && IsLast(us[..i], k, last) && BeginsRun(us[..i], k, j, last) && StartsAnew(s, us[..i], k, j)
    ensures us[last].isRemoved == us[i].isRemoved
  {
    assert us[..i][j].key == k;
    LastExists(us[..i], k);
    last :| IsLast(us[..i], k, last);
    RunOfPrefix(us, k, j, i, last);
    AnewInPrefix(s, us, i, k, j);
  }

  // And if it does, the entry keeps the time it was added at.
  lemma {:induction false} EntryKeepsAge(s: Peers, us: seq<Update>, k: Key)
    requires k in s && forall i :: 0 <= i < |us| && us[i].key == k ==> us[i].isRemoved == s[k].isRemoved
    ensures k in ApplyAll(s, us) && ApplyAll(s, us)[k].addedTime == s[k].addedTime
    ensures ApplyAll(s, us)[k].isRemoved == s[k].isRemoved
    ensures forall i: nat :: IsLast(us, k, i) ==> ApplyAll(s, us)[k].lastSeen == us[i].lastSeen
  {
    if us != [] {
      var n := |us| - 1;
      assert forall i :: 0 <= i < n ==> us[..n][i] == us[i];
      EntryKeepsAge(s, us[..n], k);
      forall i: nat | IsLast(us, k, i) ensures ApplyAll(s, us)[k].lastSeen == us[i].lastSeen {
        assert i < n ==> IsLast(us[..n], k, i);
      }
    }
  }

  // What an update is reported as: new if its key was never stored or updated, else changed or not as
  // its flag differs from the last one.
  lemma ResultTellsHistory(s: Peers, us: seq<Update>, u: Update)
    ensures Classify(ApplyAll(s, us), u) == AddedNew <==>
              u.key !in s && forall i :: 0 <= i < |us| ==> us[i].key != u.key
    ensures forall i: nat :: IsLast(us, u.key, i) ==>
              Classify(ApplyAll(s, us), u) == if us[i].isRemoved == u.isRemoved then UpdatedOnlyTime else UpdatedValue
    ensures u.key in s && (forall i :: 0 <= i < |us| ==> us[i].key != u.key) ==>
              Classify(ApplyAll(s, us), u) == if s[u.key].isRemoved == u.isRemoved then UpdatedOnlyTime else UpdatedValue
  {
    StoredIffUpdated(s, us, u.key);
    forall i: nat | IsLast(us, u.key, i) ensures ApplyAll(s, us)[u.key].isRemoved == us[i].isRemoved {
      FlagIsLast(s, us, u.key, i);
    }
    if forall i :: 0 <= i < |us| ==> us[i].key != u.key {
      NeverUpdated(s, us, u.key);
    }
  }

  // Every update of a key belongs to a run, so the history above is never empty talk.
  lemma {:induction false} RunExists(us: seq<Update>, k: Key, i: nat)
    requires i < |us| && us[i].key == k
    ensures exists j :: BeginsRun(us, k, j, i)
    decreases i
  {
    if p: nat :| IsPrevious(us, k, p, i) && us[p].isRemoved == us[i].isRemoved {
      RunExists(us, k, p);
      var j :| BeginsRun(us, k, j, p);
      assert BeginsRun(us, k, j, i);
    } else {
      assert BeginsRun(us, k, i, i);
    }
  }

  // ---------- which updates are passed on ----------

  // The results on which the network notifies the client and forwards.
  predicate IsNews(r: UpdateResult) {
    r != UpdatedOnlyTime && r != NoChangeNeeded
  }

  function Passed(s: Peers, us: seq<Update>): seq<Update> {
    if us == [] then []
    else
      var front, u := us[..|us| - 1], us[|us| - 1];
      if IsNews(Classify(ApplyAll(s, front), u)) then Passed(s, front) + [u] else Passed(s, front)
  }

  function Flags(us: seq<Update>, k: Key): seq<bool> {
    if us == [] then []
    else
      var front, u := us[..|us| - 1], us[|us| - 1];
      if u.key == k then Flags(front, k) + [u.isRemoved] else Flags(front, k)
  }

  // A sequence with every run of equal elements cut down to one.
  function Destutter(flags: seq<bool>): seq<bool> {
    if |flags| <= 1 then flags
    else
      var front, last := flags[..|flags| - 1], flags[|flags| - 1];
      if front[|front| - 1] == last then Destutter(front) else Destutter(front) + [last]
  }

  function Stored(s: Peers, k: Key): seq<bool> {
    if k in s then [s[k].isRemoved] else []
  }

  lemma {:induction false} DestutterKeepsLast(flags: seq<bool>)
    requires flags != []
    ensures Destutter(flags) != [] && Destutter(flags)[|Destutter(flags)| - 1] == flags[|flags| - 1]
  {
    if |flags| > 1 {
      DestutterKeepsLast(flags[..|flags| - 1]);
    }
  }

  lemma {:induction false} DestutterAlternates(flags: seq<bool>)
    ensures forall i :: 0 < i < |Destutter(flags)| ==> Destutter(flags)[i] != Destutter(flags)[i - 1]
  {
    if |flags| > 1 {
      var front := flags[..|flags| - 1];
      DestutterAlternates(front);
      DestutterKeepsLast(front);
    }
  }

  lemma FlagsAppendOne(us: seq<Update>, u: Update, k: Key)
    ensures Flags(us + [u], k) == if u.key == k then Flags(us, k) + [u.isRemoved] else Flags(us, k)
  {
    assert (us + [u])[..|us|] == us;
  }

  lemma DestutterAppendOne(flags: seq<bool>, b: bool)
    ensures Destutter(flags + [b]) ==
            if flags != [] && flags[|flags| - 1] == b then Destutter(flags) else Destutter(flags) + [b]
  {
    assert (flags + [b])[..|flags|] == flags;
  }

  predicate EndsWith(flags: seq<bool>, b: bool) {
    flags != [] && flags[|flags| - 1] == b
  }

  lemma DestutterStep(prior: seq<bool>, seen: seq<bool>, out: seq<bool>, b: bool)
    requires prior + out == Destutter(prior + seen)
    ensures EndsWith(prior + seen, b) ==> prior + out == Destutter(prior + (seen + [b]))
    ensures !EndsWith(prior + seen, b) ==> prior + (out + [b]) == Destutter(prior + (seen + [b]))
  {
    Associative(prior, seen, [b]);
    Associative(prior, out, [b]);
    DestutterAppendOne(prior + seen, b);
  }

  // The stored flag of a key is the last one it was given.
  lemma {:induction false} StoredIsLastFlag(s: Peers, us: seq<Update>, k: Key)
    ensures k in ApplyAll(s, us) <==> Stored(s, k) + Flags(us, k) != []
    ensures k in ApplyAll(s, us) ==> EndsWith(Stored(s, k) + Flags(us, k), ApplyAll(s, us)[k].isRemoved)
  {
    if us != [] {
      StoredIsLastFlag(s, us[..|us| - 1], k);
    }
  }

  lemma NewsIsFlagChange(s: Peers, us: seq<Update>, u: Update)
    ensures IsNews(Classify(ApplyAll(s, us), u)) <==> !EndsWith(Stored(s, u.key) + Flags(us, u.key), u.isRemoved)
  {
    StoredIsLastFlag(s, us, u.key);
  }

  lemma PassedAppendOne(s: Peers, us: seq<Update>, u: Update, k: Key)
    ensures Flags(Passed(s, us + [u]), k) ==
            var out := Flags(Passed(s, us), k);
            if u.key == k && IsNews(Classify(ApplyAll(s, us), u)) then out + [u.isRemoved] else out
  {
    assert (us + [u])[..|us|] == us;
    FlagsAppendOne(Passed(s, us), u, k);
  }

  // Passing on is stutter removal: per key, exactly the flag changes get through.
  lemma {:induction false} PassedIsDestuttered(s: Peers, us: seq<Update>, k: Key)
    ensures Stored(s, k) + Flags(Passed(s, us), k) == Destutter(Stored(s, k) + Flags(us, k))
  {
    if us != [] {
      var front, u := us[..|us| - 1], us[|us| - 1];
      assert us == front + [u];
      PassedIsDestuttered(s, front, k);
      PassedAppendOne(s, front, u, k);
      if u.key == k {
        NewsIsFlagChange(s, front, u);
        DestutterStep(Stored(s, k), Flags(front, k), Flags(Passed(s, front), k), u.isRemoved);
      }
    }
  }

  lemma ForwardedFlags(s: Peers, us: seq<Update>, k: Key)
    requires k !in s
    ensures Flags(Passed(s, us), k) == Destutter(Flags(us, k))
  {
    NothingBefore(Flags(us, k));
    NothingBefore(Flags(Passed(s, us), k));
    PassedIsDestuttered(s, us, k);
  }

  lemma StoredFlagIsLast(s: Peers, us: seq<Update>, k: Key)
    requires k !in s
    ensures k in ApplyAll(s, us) <==> Flags(us, k) != []
    ensures k in ApplyAll(s, us) ==> EndsWith(Flags(us, k), ApplyAll(s, us)[k].isRemoved)
  {
    NothingBefore(Flags(us, k));
    StoredIsLastFlag(s, us, k);
  }

  // For a key the store does not hold yet, as in an empty store, what is passed on is the key's flag
  // sequence without repetitions: the flags that get through alternate and the last one is stored.
  lemma ForwardingIsStutterRemoval(s: Peers, us: seq<Update>, k: Key, out: seq<bool>)
    requires k !in s
    requires out == Flags(Passed(s, us), k)
    ensures out == Destutter(Flags(us, k))
    ensures forall i :: 0 < i < |out| ==> out[i] != out[i - 1]
    ensures k in ApplyAll(s, us) <==> out != []
    ensures k in ApplyAll(s, us) ==> EndsWith(out, ApplyAll(s, us)[k].isRemoved)
  {
    ForwardedFlags(s, us, k);
    StoredFlagIsLast(s, us, k);
    DestutterAlternates(Flags(us, k));
    if Flags(us, k) != [] {
      DestutterKeepsLast(Flags(us, k));
    }
  }

  lemma NothingBefore(flags: seq<bool>)
    ensures [] + flags == flags
  {
  }

  // ---------- queries ----------

  function LiveKeys(s: Peers): set<Key> {
    set k | k in s && !s[k].isRemoved
  }

  function LiveEndpoints(s: Peers, service: string): set<string> {
    set k | k in LiveKeys(s) && k.service == service :: k.endpoint
  }

  lemma LiveEndpoint(s: Peers, service: string, e: string)
    ensures e in LiveEndpoints(s, service) <==> Key(service, e) in s && !s[Key(service, e)].isRemoved
  {
    if Key(service, e) in s && !s[Key(service, e)].isRemoved {
      assert Key(service, e) in LiveKeys(s);
    }
  }

  // What a query answers: the entries of the service that are not removed, by ascending endpoint.
  ghost function Listing(s: Peers, service: string): seq<Entry> {
    EntriesAt(s, service, InOrder(LiveEndpoints(s, service)))
  }

  ghost function EntriesAt(s: Peers, service: string, endpoints: seq<string>): (r: seq<Entry>)
    requires forall e :: e in endpoints ==> Key(service, e) in s
    ensures |r| == |endpoints|
    ensures forall i :: 0 <= i < |r| ==> r[i] == s[Key(service, endpoints[i])]
  {
    seq(|endpoints|, i requires 0 <= i < |endpoints| => s[Key(service, endpoints[i])])
  }

  lemma EntriesAppendOne(s: Peers, service: string, endpoints: seq<string>, e: string)
    requires Key(service, e) in s && forall x :: x in endpoints ==> Key(service, x) in s
    ensures forall x :: x in endpoints + [e] ==> Key(service, x) in s
    ensures EntriesAt(s, service, endpoints + [e]) == EntriesAt(s, service, endpoints) + [s[Key(service, e)]]
  {
  }

  predicate IsListed(s: Peers, service: string, e: Entry) {
    var k := Key(service, e.endpoint);
    e.service == service && k in s && s[k] == e && !e.isRemoved
  }

  lemma ListingPrecedes(s: Peers, service: string)
    requires WellKeyed(s)
    ensures forall i, j :: 0 <= i < j < |Listing(s, service)| ==>
              Before(Listing(s, service)[i].endpoint, Listing(s, service)[j].endpoint)
              && Precedes(Listing(s, service)[i].endpoint, Listing(s, service)[j].endpoint)
  {
    var order := InOrder(LiveEndpoints(s, service));
    forall i | 0 <= i < |order| ensures Listing(s, service)[i].endpoint == order[i] {
      assert order[i] in order;
    }
    forall i, j | 0 <= i < j < |order| ensures Precedes(order[i], order[j]) {
      BeforeExactly(order[i], order[j]);
    }
  }

  // A listing holds exactly the live entries of its service, ascending and without repetition.
  lemma ListingExact(s: Peers, service: string)
    requires WellKeyed(s)
    ensures forall e :: e in Listing(s, service) <==> IsListed(s, service, e)
    ensures forall e :: e in Listing(s, service) <==>
              Key(service, e.endpoint) in s && s[Key(service, e.endpoint)] == e && !e.isRemoved
    ensures forall i, j :: 0 <= i < j < |Listing(s, service)| ==>
              Before(Listing(s, service)[i].endpoint, Listing(s, service)[j].endpoint)
    ensures forall i, j :: 0 <= i < j < |Listing(s, service)| ==>
              Precedes(Listing(s, service)[i].endpoint, Listing(s, service)[j].endpoint)
    ensures |Listing(s, service)| == |LiveEndpoints(s, service)|
  {
    ListingPrecedes(s, service);
    var order := InOrder(LiveEndpoints(s, service));
    forall e | IsListed(s, service, e) ensures e in Listing(s, service)
    {
      assert Key(service, e.endpoint) in LiveKeys(s);
      assert e.endpoint in order;
      var i :| 0 <= i < |order| && order[i] == e.endpoint;
      assert Listing(s, service)[i] == e;
    }
    forall e | e in Listing(s, service) ensures IsListed(s, service, e)
    {
      var i :| 0 <= i < |order| && Listing(s, service)[i] == e;
      assert order[i] in order;
    }
    assert forall i :: 0 <= i < |order| ==> order[i] in order;
  }

  // The keys, and the live keys, of the services outside a set.
  function KeysOutside(s: Peers, services: set<string>): set<Key> {
    set k | k in s && k.service !in services
  }

  function LiveOutside(s: Peers, services: set<string>): set<Key> {
    KeysOutside(s, services) * LiveKeys(s)
  }

  function LiveWithin(s: Peers, service: string, endpoints: set<string>): set<Key> {
    set k | k in LiveKeys(s) && k.service == service && k.endpoint in endpoints
  }

  lemma OneMoreService(s: Peers, services: set<string>, service: string, endpoints: set<string>)
    requires service in services
    requires forall e :: e in endpoints <==> Key(service, e) in s
    ensures |KeysOutside(s, services - {service})| == |KeysOutside(s, services)| + |endpoints|
  {
    var mine := set k | k in s && k.service == service;
    ImageSize(mine, service);
    assert (set k | k in mine :: k.endpoint) == endpoints by {
      assert forall e :: e in endpoints ==> Key(service, e) in mine;
      assert forall k :: k in mine ==> k == Key(service, k.endpoint);
    }
    assert KeysOutside(s, services - {service}) == KeysOutside(s, services) + mine;
    assert KeysOutside(s, services) !! mine;
  }

  lemma OneMoreLiveService(s: Peers, services: set<string>, service: string, endpoints: set<string>)
    requires service in services
    requires forall e :: e in endpoints <==> Key(service, e) in s
    ensures |LiveOutside(s, services - {service})| ==
            |LiveOutside(s, services)| + |LiveWithin(s, service, endpoints)|
  {
    assert forall k :: k in LiveKeys(s) && k.service == service ==> k == Key(service, k.endpoint);
    assert LiveOutside(s, services - {service}) == LiveOutside(s, services) + LiveWithin(s, service, endpoints);
    assert LiveOutside(s, services) !! LiveWithin(s, service, endpoints);
  }

  lemma OneMoreEndpoint(s: Peers, service: string, endpoints: set<string>, e: string)
    requires Key(service, e) in s && e !in endpoints
    ensures |LiveWithin(s, service, endpoints + {e})| ==
            |LiveWithin(s, service, endpoints)| + (if s[Key(service, e)].isRemoved then 0 else 1)
  {
    var k := Key(service, e);
    if s[k].isRemoved {
      assert LiveWithin(s, service, endpoints + {e}) == LiveWithin(s, service, endpoints);
    } else {
      assert LiveWithin(s, service, endpoints + {e}) == LiveWithin(s, service, endpoints) + {k};
    }
  }

  function Services(s: Peers): set<string> {
    set k | k in s :: k.service
  }

  ghost function ListedUnder(s: Peers, services: seq<string>): nat {
    if services == [] then 0 else |Listing(s, services[0])| + ListedUnder(s, services[1..])
  }

  lemma {:induction false} ImageSize(keys: set<Key>, service: string)
    requires forall k :: k in keys ==> k.service == service
    ensures |set k | k in keys :: k.endpoint| == |keys|
  {
    if keys != {} {
      var k :| k in keys;
      var rest := keys - {k};
      ImageSize(rest, service);
      assert (set x | x in keys :: x.endpoint) == (set x | x in rest :: x.endpoint) + {k.endpoint};
      assert k.endpoint !in (set x | x in rest :: x.endpoint) by {
        assert forall x :: x in rest ==> x != k && x.service == k.service;
      }
    }
  }

  lemma {:induction false} ListedUnderSome(s: Peers, services: seq<string>)
    requires Ascending(services)
    ensures ListedUnder(s, services) == |set k | k in LiveKeys(s) && k.service in services|
  {
    if services == [] {
      assert (set k | k in LiveKeys(s) && k.service in services) == {};
    } else {
      var first, rest := services[0], services[1..];
      ListedUnderSome(s, rest);
      FirstNotInRest(services);
      SplitLiveKeys(s, first, rest, services);
    }
  }

  lemma FirstNotInRest(names: seq<string>)
    requires Ascending(names) && names != []
    ensures names[0] !in names[1..]
  {
    BeforeIrreflexive(names[0]);
    assert forall i :: 1 <= i < |names| ==> Before(names[0], names[i]);
  }

  lemma SplitLiveKeys(s: Peers, first: string, rest: seq<string>, services: seq<string>)
    requires services == [first] + rest && first !in rest
    ensures |set k | k in LiveKeys(s) && k.service in services| ==
            |Listing(s, first)| + |set k | k in LiveKeys(s) && k.service in rest|
  {
    var mine := set k | k in LiveKeys(s) && k.service == first;
    var others := set k | k in LiveKeys(s) && k.service in rest;
    ImageSize(mine, first);
    assert LiveEndpoints(s, first) == set k | k in mine :: k.endpoint;
    assert (set k | k in LiveKeys(s) && k.service in services) == mine + others;
    assert mine !! others;
  }

  // All listings together hold every live key once.
  lemma ListingsCoverLiveKeys(s: Peers)
    ensures ListedUnder(s, InOrder(Services(s))) == |LiveKeys(s)|
  {
    ListedUnderSome(s, InOrder(Services(s)));
    assert (set k | k in LiveKeys(s) && k.service in InOrder(Services(s))) == LiveKeys(s);
  }

  // ---------- stores that only ever saw the wire ----------

  predicate AllLive(s: Peers) {
    forall k :: k in s ==> !s[k].isRemoved
  }

  predicate NoRemovals(us: seq<Update>) {
    forall i :: 0 <= i < |us| ==> !us[i].isRemoved
  }

  function Keys(us: seq<Update>): set<Key> {
    set i | 0 <= i < |us| :: us[i].key
  }

  function CountNew(s: Peers, us: seq<Update>, k: Key): nat {
    if us == [] then 0
    else
      var front, u := us[..|us| - 1], us[|us| - 1];
      CountNew(s, front, k) + (if u.key == k && Classify(ApplyAll(s, front), u) == AddedNew then 1 else 0)
  }

  lemma KeysAppendOne(us: seq<Update>, u: Update)
    ensures Keys(us + [u]) == Keys(us) + {u.key}
  {
    var all := us + [u];
    forall k | k in Keys(us) + {u.key} ensures k in Keys(all) {
      if k == u.key {
        assert all[|us|].key == k;
      } else {
        var i :| 0 <= i < |us| && us[i].key == k;
        assert all[i].key == k;
      }
    }
  }

  lemma {:induction false} LiveUpdates(s: Peers, us: seq<Update>)
    requires AllLive(s) && WellKeyed(s) && NoRemovals(us)
    ensures AllLive(ApplyAll(s, us)) && WellKeyed(ApplyAll(s, us))
    ensures ApplyAll(s, us).Keys == s.Keys + Keys(us)
  {
    if us != [] {
      var front, u := us[..|us| - 1], us[|us| - 1];
      LiveUpdates(s, front);
      assert us == front + [u];
      KeysAppendOne(front, u);
    }
  }

  // A key is reported as new once, when it was not stored and is announced at all.
  lemma {:induction false} NewOnce(s: Peers, us: seq<Update>, k: Key)
    requires AllLive(s) && WellKeyed(s) && NoRemovals(us)
    ensures CountNew(s, us, k) == if k in Keys(us) && k !in s then 1 else 0
  {
    if us != [] {
      var front, u := us[..|us| - 1], us[|us| - 1];
      NewOnce(s, front, k);
      LiveUpdates(s, front);
      assert us == front + [u];
      KeysAppendOne(front, u);
    }
  }

  lemma NewsWithoutRemovals(s: Peers, u: Update)
    requires AllLive(s) && !u.isRemoved
    ensures IsNews(Classify(s, u)) <==> u.key !in s
  {
  }

  // Without removals a key is passed on once, as not removed, when it was not stored and is announced.
  lemma {:induction false} PassedOnce(s: Peers, us: seq<Update>, k: Key)
    requires AllLive(s) && WellKeyed(s) && NoRemovals(us)
    ensures Flags(Passed(s, us), k) == if k in Keys(us) && k !in s then [false] else []
  {
    if us != [] {
      var front, u := us[..|us| - 1], us[|us| - 1];
      assert us == front + [u];
      PassedOnce(s, front, k);
      LiveUpdates(s, front);
      NewsWithoutRemovals(ApplyAll(s, front), u);
      PassedAppendOne(s, front, u, k);
      KeysAppendOne(front, u);
    }
  }

  ghost function Endpoints(entries: seq<Entry>): seq<string> {
    seq(|entries|, i requires 0 <= i < |entries| => entries[i].endpoint)
  }

  lemma ListedEndpoints(s: Peers, service: string)
    requires WellKeyed(s)
    ensures Endpoints(Listing(s, service)) == InOrder(LiveEndpoints(s, service))
  {
    var order := InOrder(LiveEndpoints(s, service));
    forall i | 0 <= i < |order| ensures Listing(s, service)[i].endpoint == order[i] {
      assert order[i] in order;
    }
  }

  // The order in which announcements arrive, how often and at which clock readings does not show: not
  // in the keys, not in the listings, and not in what is reported as new or passed on.
  lemma ArrivalOrderDoesNotMatter(s: Peers, a: seq<Update>, b: seq<Update>, service: string, k: Key)
    requires AllLive(s) && WellKeyed(s) && NoRemovals(a) && NoRemovals(b)
    requires Keys(a) == Keys(b)
    ensures ApplyAll(s, a).Keys == ApplyAll(s, b).Keys
    ensures Endpoints(Listing(ApplyAll(s, a), service)) == Endpoints(Listing(ApplyAll(s, b), service))
    ensures CountNew(s, a, k) == CountNew(s, b, k)
    ensures Flags(Passed(s, a), k) == Flags(Passed(s, b), k)
  {
    LiveUpdates(s, a);
    LiveUpdates(s, b);
    NewOnce(s, a, k);
    NewOnce(s, b, k);
    PassedOnce(s, a, k);
    PassedOnce(s, b, k);
    ListedEndpoints(ApplyAll(s, a), service);
    ListedEndpoints(ApplyAll(s, b), service);
    assert LiveKeys(ApplyAll(s, a)) == ApplyAll(s, a).Keys;
    assert LiveKeys(ApplyAll(s, b)) == ApplyAll(s, b).Keys;
  }
}
