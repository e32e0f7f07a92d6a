# PeerBoot: gossip of service endpoints, verified

PeerBoot nodes tell each other which endpoints offer which service. A node keeps a store of peers, sends
text messages (`PB01 PEER service endpoint time`, `PB01 QUERY service`) over TCP connections it opened to its
out-peers, relays an announcement exactly when it was news to its own store, and answers queries from the
store. This project models that protocol in Dafny, from the decimal parser up to runs of the whole network,
and proves what the protocol achieves.

The files, bottom up:

| file | what it models |
|---|---|
| `Types.dfy`, `Sequences.dfy`, `Lexicographic.dfy` | the public vocabulary, sequence operations, the key order of `std::map` |
| `Decimal.dfy`, `Tokens.dfy`, `Messages.dfy`, `Framing.dfy` | the wire codec: numerals, word splitting, printing and parsing, cutting a byte stream into lines |
| `StoreModel.dfy` | what the peer store means: updates, their classification, history, queries |
| `PeerStore.dfy` | the store as an object: a nested map updated in place |
| `Gossip.dfy` | what one node does with received messages |
| `Answers.dfy` | a query, its answer, and how much of it is read before the connection closes |
| `Endpoint.dfy` | the host:port parser |
| `PeboNet.dfy` | connections, the node and the shell as objects updated in place |
| `Network.dfy` | the whole network as a state machine: clients start, refresh and stop; loops advance one send at a time; messages are delivered, in order on each direction of a connection, or lost; clients close the connections on which they were answered |
| `NetworkShell.dfy` | what starts, refreshes, stops, deliveries and losses come to once their sends are done, and how sends of the objects match them |
| `NetworkSafety.dfy`, `NetworkTermination.dfy`, `NetworkEndless.dfy` | no removals, one notice per key, few relays; the network comes to an end, and exactly which client names can keep it going for ever |
| `NetworkFlood.dfy`, `NetworkConnections.dfy`, `NetworkLessons.dfy` | invariants of runs that lose nothing: where a key is or why not, which connections are closed, where every key came from |
| `NetworkCompleteness.dfy`, `NetworkSecondWave.dfy`, `NetworkCatchUp.dfy`, `NetworkMissed.dfy`, `NetworkObstacle.dfy` | who learns of a client and who does not: along relaying nodes, on a network that rested before, by asking, when the answer is cut, and with colliding addresses |

The value-level functions (`StoreModel`, `Gossip`) are the meeting point: the objects are proved against them,
method by method, and the network takes its steps with them (`Network.LandingIsHandling`, `NetworkShell.DeliveryRuns`, `NetworkShell.SendMatches`).

## What the code does differently from its own words

* `Shell::stop` is commented as a good bye, and it does broadcast an update with the removal flag. The flag is
  not printed, so what goes out is byte for byte an announcement (`PeboNet.Shell.Stop`). Whatever was
  sent, no received announcement is a removal (`Framing.ReceivedIsClean`), and no run ever leads a node to store one
  (`NetworkSafety.WireNeverRemoves`).
* A time of 2^31 or more is printed as it is, but it does not parse as an int and arrives as zero. The exact normal
  form of a sent message is `Messages.Normal`; a message arrives as its normal form exactly when its
  names are single words (`Framing.WireExact`), and unchanged exactly when besides it is no removal and its time
  fits an int (`Framing.WireIdentity`).
* An outgoing connection closes at the end of a read whose last message was an announcement
  (`PeboNet.NetClient.OnRead`), nothing connects it again, and later sends on it do nothing
  (`PeboNet.NetClient.SendMessage`). Since a starting client announces itself before it asks, every answer holds at
  least its own entry, so every connection on which a client asked closes: in a run that loses nothing and is at
  rest, exactly the connections of nodes with a started client are closed (`NetworkConnections.ClosedIffStarted`).
  So gossip is not flooding in general. A node at which a client was started no longer relays what comes later: in a row
  of three nodes, with nothing lost, the last one stays ignorant for good (`NetworkSecondWave.FaultFreeFloodingFails`).
  A client started on a network at rest becomes known exactly to the nodes that can be reached over nodes at which
  no client was started before (`NetworkSecondWave.SecondWave`), and flooding is complete along nodes that only
  relay (`NetworkCompleteness.FloodingComplete`).
* A query is meant to bring the asker what the other node knows, but the first read that completes an announcement
  closes the connection. So the asker takes over a beginning of the answer (`Answers.AnswerArrives`), of any length
  from one entry on (`Answers.EveryCutHappens`), and joins just those entries (`Answers.QueryAnswerIsJoin`).
  It can take the whole answer exactly when all of it after its first line is shorter than one read may be
  (`Answers.AnswerFitsExactly`); a longer one is always cut (`Answers.LongAnswerIsCut`). In the network, the first
  client of a node with one made connection can miss a peer that the other end knows exactly when some endpoint of
  the answer, its own included, comes before the peer's (`NetworkMissed.MissedExactly`), and between two nodes there
  is such a run, nothing being lost, after which it never learns of it (`NetworkMissed.AnswerCutForGood`).
* A relay skips every out-peer that has the address the message came from. The address of an accepted connection
  is the remote address as the socket reports it, so it can equal the address of an unrelated out-peer. Then a
  client can stay unknown even to nodes reachable over relaying nodes; `NetworkObstacle.IgnoranceExactly` says for
  which topologies, and `NetworkObstacle.CollidingAddressStopsFlood` is the smallest one.
* Names are not checked for line breaks. The announcement of a name that holds one can arrive as a query
  (`NetworkEndless.AnswerReadsAsQuestion`), and two connected nodes that both know such a name question each other
  without end (`NetworkEndless.AnswersNeedNotEnd`). A line break alone does no harm: clients can keep some network
  going for ever if and only if there are services for each of which some client's announcement can be taken for a
  query for one of these services again (`NetworkEndless.EndlessExactly`); with a single client, if and only if its
  announcement can be taken for a query for its own service (`NetworkEndless.OneNameEndlessExactly`). With any other
  names every network comes to an end (`NetworkTermination.EveryRunTerminates`), so in particular with names without
  line breaks (`NetworkTermination.LineNamesDie`).
* An address reads back as its host and port exactly when the host holds no colon, so not for a bare IPv6
  host (`Endpoint.AddressRoundTrip`).

## Model

| member | source | states |
|---|---|---|
| Decimal.StoiOfIntToString | src/peerboot/net_client.cpp:192-200 | Printing an integer and parsing it is the identity on the whole int range; every other integer is rejected. |
| Decimal.StoiReads | src/peerboot/net_client.cpp:192-200 | What parses as an int: white space, at most one sign, at least one digit and then anything that is no digit; the value is that of the sign and the digits if it fits 32 bits, and anything else is rejected. |
| Decimal.ValueAppend | src/peerboot/message.cpp:43-43 | Digits count by their place: a numeral is worth its front part times a power of ten, plus its back part. |
| Decimal.NumeralExactly | src/peerboot/message.cpp:43-43 | A number is printed as its digits without leading zeros, with a minus sign in front if it is negative. |
| Tokens.Tokenize | src/peerboot/net_client.cpp:168-174 | The reading loop yields exactly the words of the line. |
| Tokens.WordsSplitAtSpace | src/peerboot/net_client.cpp:168-174 | White space separates: the words of a line are those before any white space character followed by those after it. |
| Tokens.WordsAreClean | src/peerboot/net_client.cpp:168-174 | No word is empty or holds white space. |
| Tokens.SeparatesExactly | src/peerboot/net_client.cpp:168-174 | A character between two words keeps them apart if and only if it is a blank, tab, line feed, vertical tab, form feed or carriage return. |
| Messages.ParsePrinted | src/peerboot/message.cpp:41-61 | A printed message of single-word names parses to its normal form: removal flag cleared, a time above the int range zero. |
| Messages.ParsedIsClean | src/peerboot/net_client.cpp:175-211 | Whatever the line was, an accepted message has single-word names and is no removal. |
| Messages.ParsedExactly | src/peerboot/net_client.cpp:175-211 | For every line: it is accepted if and only if its words begin with PB01 PEER and at least three more follow, or with PB01 QUERY and at least one more; names, time and the ignored rest are told. |
| Messages.SpacedExactly | src/peerboot/net_client.cpp:175-211 | The same for all words written with blanks between them, said of the written line. |
| Messages.PrintedWords | src/peerboot/message.cpp:41-61 | A message of single-word names is printed as PB01 PEER, service, endpoint and decimal time, or PB01 QUERY and service, in this order. |
| Messages.RelayChainStabilises | src/peerboot/net_client.cpp:164-207 | From any accepted line, printing and parsing n >= 1 times gives the same message as doing it once; service and endpoint never change. |
| Messages.NegativeTimeFades | src/peerboot/net_client.cpp:192-201 | A negative numeral is accepted, wraps to an unsigned time, and is zero from the next relay on. |
| Framing.BytesAreConserved | src/peerboot/net_client.cpp:157-167 | The lines with their terminators followed by the residue are the buffer; neither lines nor residue hold a newline. |
| Framing.LinesAreUnique | src/peerboot/net_client.cpp:157-167 | No other way of cutting the buffer has these properties. |
| Framing.ChunkingDoesNotMatter | src/peerboot/net_client.cpp:264-269 | For arbitrary input to the buffer of a connection that goes on reading, as an accepted one does, two ways of cutting it into reads deliver the same messages and leave the same buffer. |
| Framing.ReceivedIsClean | src/peerboot/net_client.cpp:157-213 | Only single-word names and no removals come out of any byte stream. |
| Framing.WireExact | src/peerboot/message.cpp:41-61 | One sent message arrives as its normal form, and as nothing else, if and only if its names are single words. |
| Framing.WireIdentity | src/peerboot/message.cpp:41-61 | One sent message arrives unchanged if and only if its names are single words, it is no removal and its time is below 2^31. |
| Framing.StreamDelivers | src/peerboot/net_client.cpp:157-213 | Any list of sent messages, cut into any reads, arrives message by message with an empty residue. |
| Framing.StreamRoundTrip | src/peerboot/net_client.cpp:157-213 | A list of messages of single-word names arrives in order, each in normal form, with nothing left over. |
| Framing.NothingReceivedExactly | src/peerboot/net_client.cpp:157-213 | A buffer delivers nothing if and only if none of its complete lines is a message by its words. |
| Framing.JunkChangesNothing | src/peerboot/net_client.cpp:175-211 | A line that is no message, put between any lines of a stream, leaves what is delivered unchanged. |
| Framing.CarriageReturnChangesNothing | src/peerboot/net_client.cpp:168-174 | A line that ends with carriage return and line feed is taken like the same line without the carriage return. |
| Lexicographic.BeforeExactly | src/peerboot/store.hpp:15-16 | The order of names is: a proper prefix first, and else the smaller character where two names first differ. |
| StoreModel.StoredIffUpdated | src/peerboot/store.cpp:29-62 | A key is stored if and only if it was stored before or updated. |
| StoreModel.EntryTellsHistory | src/peerboot/store.cpp:29-62 | After any updates of any store an entry has the flag and time of its key's last update, and was added at the clock reading of the update that began the current run of equal flags, unless that run goes on from the flag stored before. |
| StoreModel.EntryKeepsAge | src/peerboot/store.cpp:57-61 | An entry whose key is only updated with the flag it has keeps the time it was added at, and takes over the last time. |
| StoreModel.ResultTellsHistory | src/peerboot/store.cpp:43-61 | An update is reported as new if and only if its key was neither stored before nor updated since; else as changed or as time only, as its flag differs from the last one or not. |
| StoreModel.RunExists | src/peerboot/store.cpp:51-61 | Every update of a key lies in a run of equal flags with a first update. |
| StoreModel.ForwardingIsStutterRemoval | src/peerboot/pebo_net.cpp:187-204 | Per key, the updates passed on are the flag sequence without repetitions: they alternate, and the last one is stored. |
| StoreModel.ListingExact | src/peerboot/store.cpp:101-116 | A query lists exactly the entries of its service that are not removed; of two listed endpoints the earlier is a proper prefix of the later or has the smaller character where they first differ. |
| StoreModel.ListingsCoverLiveKeys | src/peerboot/store.cpp:124-136 | The lengths of all listings add up to the number of entries that are not removed. |
| StoreModel.LiveUpdates | src/peerboot/store.cpp:29-62 | Updates without removals keep a store without removals, and add exactly their keys. |
| StoreModel.ArrivalOrderDoesNotMatter | src/peerboot/store.cpp:29-62 | Two sequences of announcements of the same keys, in any order, multiplicity and at any clock readings, give the same keys, the same listings' endpoints, the same number of new-peer results and the same flags passed on per key. |
| PeerStore.Store.FindPeer | src/peerboot/store.cpp:9-27 | Finds the entry the flat map holds for the two names, or none. |
| PeerStore.Store.AddPeer | src/peerboot/store.cpp:64-83 | The flat map is updated at one key; no service map is left empty and every entry stays under its own names. |
| PeerStore.Store.FindAndUpdate | src/peerboot/store.cpp:29-62 | The nested map refines the update of the flat map, and the result is its classification. |
| PeerStore.Store.Query | src/peerboot/store.cpp:101-116 | The result is the listing of the flat map: exactly the live entries of the service, in the order just said. |
| PeerStore.Store.CountPrivate | src/peerboot/store.cpp:91-99 | The sum of the inner sizes is the number of distinct (service, endpoint) pairs. |
| PeerStore.Store.Count | src/peerboot/store.cpp:85-89 | The number of distinct (service, endpoint) pairs. |
| PeerStore.Store.CountNonremoved | src/peerboot/store.cpp:124-136 | The number of keys stored as not removed, which is also the total length of all listings. |
| PeerStore.Store.Clear | src/peerboot/store.cpp:118-122 | Forgets everything. |
| Gossip.TargetsExact | src/peerboot/pebo_net.cpp:230-239 | A broadcast addresses exactly the out-peers whose address is not the previous hop's, in order. |
| Gossip.LocalBroadcastSkipsNobody | src/peerboot/pebo_net.cpp:166-174 | A local announcement addresses every out-peer, because out-peer addresses hold a colon and the local marker does not. |
| Gossip.HandlingAppliesUpdates | src/peerboot/pebo_net.cpp:187-213 | Handling any messages applies their updates to the store in order; exactly the news is notified and relayed, once and in order, whatever queries come in between. |
| Gossip.NoticesAreFlagChanges | src/peerboot/pebo_net.cpp:187-204 | What a client is told about a peer new to its node are that peer's flag changes, and the last one told is the one stored. |
| Gossip.ToldWhatCame | src/peerboot/pebo_net.cpp:187-204 | Nothing is relayed but received announcements, as they are, and for each one the client is told the same names, time and flag. |
| Gossip.MessageOrderDoesNotMatter | src/peerboot/pebo_net.cpp:187-213 | A node that handles the same messages in another order, some more than once, by another clock, ends with the same keys and listings and has told its client the same about every peer. |
| Answers.AnswerArrives | src/peerboot/net_client.cpp:239-273 | A query arrives as itself. Of its answer, however cut into reads, the asker takes a beginning, in ascending order and normal form, handles just that, and closes the connection exactly when it took something; if the whole of a non-empty answer was there to read, it took at least one entry. |
| Answers.EveryCutHappens | src/peerboot/net_client.cpp:381-417 | Every beginning of an answer, from one entry on, is what some cutting into reads makes the asker take, although all of the answer arrives. |
| Answers.AnswerFitsExactly | src/peerboot/net_client.cpp:231-273 | Some cutting into reads of at most a given length makes the asker take the whole answer if and only if the answer after its first line is shorter than that. |
| Answers.LongAnswerIsCut | src/peerboot/net_client.cpp:231-237 | An answer with 16384 bytes or more after its first line is never taken whole. |
| Answers.QueryAnswerIsJoin | src/peerboot/pebo_net.cpp:206-260 | The asker afterwards knows for the queried service what it knew and the first n entries of the answer, n being those it took, with the answered times; every other entry is untouched; and these are all that the other knew if and only if n is their number. |
| Endpoint.Endpoint.constructor | src/peerboot/endpoint.cpp:8-29 | A string without colon is the host, with port zero; else the host is what precedes the first colon, and the port the int that what follows it parses as, or zero. |
| Endpoint.AddressExactly | src/peerboot/endpoint.cpp:8-29 | The same of the address parser, for every string. |
| Endpoint.AddressRoundTrip | src/peerboot/endpoint.cpp:8-29 | An out-peer address parses back to its host and any int port if and only if the host holds no colon. |
| Endpoint.HugePortReadsAsZero | src/peerboot/endpoint.cpp:21-28 | A port numeral outside the int range reads as zero. |
| PeboNet.NetClient.SendMessage | src/peerboot/net_client.cpp:41-75 | In the states closing and closed nothing happens and zero is returned; in every other state a write that the socket takes hands it the text and a line feed and enters the sending state, and a failing one closes the connection and is returned. |
| PeboNet.ClosedTakesNothing | src/peerboot/net_client.cpp:44-47 | Whatever sends, relays, broadcasts or replies follow, a closing or closed connection keeps its state and writes nothing. |
| PeboNet.OpenTakesAll | src/peerboot/net_client.cpp:48-75 | Any other connection writes all of them, in order. |
| PeboNet.NetClient.ReadLine | src/peerboot/net_client.cpp:168-211 | One line is taken for what the line parser says (see Messages.ParsedExactly), or skipped. |
| PeboNet.NetClient.DoProcessReceivedBuffer | src/peerboot/net_client.cpp:157-213 | All complete lines are handled in order as the node model says, the residue stays, and the state tells what the last message did. |
| PeboNet.NetClient.Process | src/peerboot/net_client.cpp:381-417 | An outgoing connection closes after a received message and reads on otherwise; an incoming one does nothing. |
| PeboNet.NetClient.OnRead | src/peerboot/net_client.cpp:239-273 | An error or the end of the stream changes neither connection nor node. After input an outgoing connection has gone on by one read as the node model of a conversation does, and is closing exactly when the last accepted message was a peer update, or a query with nothing listed in the store as the earlier messages left it; store, notices, relays to the other out-peers and replies are those of the node model. If the conversation ended, nothing that is sent afterwards changes the connection; if not, the next message goes out. |
| PeboNet.PeboNet.AddPeer | src/peerboot/pebo_net.cpp:88-99 | Appends a new outgoing connection of this node, not yet connected, under host, colon and port, with port 5000 for zero. |
| PeboNet.PeboNet.InConnectionReceived | src/peerboot/pebo_net.cpp:101-127 | An accepted connection is appended to the in-peers; the out-peers, which broadcasts go to, stay as they are. |
| PeboNet.PeboNet.DoBroadcastMsg | src/peerboot/pebo_net.cpp:222-241 | Every out-peer without the previous hop's address gets the message once; the others, and every other connection, nothing. |
| PeboNet.PeboNet.PeerUpdateFromPeboPeer | src/peerboot/pebo_net.cpp:187-204 | Stores, notifies and relays as the node model says; the connection the update came on is left alone. |
| PeboNet.PeboNet.DoQuery | src/peerboot/pebo_net.cpp:243-260 | The asking connection gets one announcement per listed entry, in order. |
| PeboNet.PeboNet.MsgFromPeboPeer | src/peerboot/pebo_net.cpp:215-220 | A received message is handled as the node model says. |
| PeboNet.Shell.Start | src/peerboot/shell.cpp:93-114 | Stores the client, then every out-peer that is not closing or closed is written its announcement and the query for its service; with single-word names that is received as PB01 PEER with this service, endpoint and time, zero above the int range, and then the query, and as nothing else. |
| PeboNet.StartIsLearned | src/peerboot/pebo_net.cpp:187-260 | A node that handles these two messages knows the client as not removed with that time, and answers with it among the others of its service. |
| PeboNet.Shell.BroadcastRefresh | src/peerboot/shell.cpp:174-177 | Every out-peer is written the announcement of this client, and with single-word names receives just that. |
| PeboNet.Shell.Stop | src/peerboot/shell.cpp:116-130 | Every out-peer is written the good bye, which is byte for byte a refresh and is received as one, the background loop is told to stop, and the store is emptied. |
| Network.LandingIsHandling | src/peerboot/pebo_net.cpp:187-260 | The network's delivery step does to the receiving node, and sets going, what that node's handling of the message does, changes no other node, and closes the connection exactly when the node's end of that read does. |
| NetworkShell.StartRuns | src/peerboot/shell.cpp:93-114 | From any state, a start and the sends it sets going, run to their end: the node has stored the client as the store does, every open connected link of it has gained what the announcement and then the query arrive as, and no other hop anything; other nodes, threads and closed connections are as before. |
| NetworkShell.RefreshRuns | src/peerboot/shell.cpp:174-177 | Likewise a refresh: all nodes stay as they are and every open connected link has gained what the announcement arrives as. |
| NetworkShell.StopRuns | src/peerboot/shell.cpp:116-130 | Likewise a stop: every open connected link has gained what the good bye arrives as, and the node's store is empty, all else of all nodes being as before. |
| NetworkShell.DeliveryRuns | src/peerboot/pebo_net.cpp:187-260 | Likewise a delivery: one message is off its hop, store and notices of the receiver are those of its own handling, the connection is closed exactly when that read ends the conversation, news is on its way on every open link but those to the address it came from, and the answer to a query on the way back. |
| NetworkShell.DeliverableExactly | src/peerboot/net_client.cpp:239-273 | On each hop exactly the oldest message can be delivered next, in a read that goes on if and only if another one follows. |
| NetworkShell.UnreadIsLost | src/peerboot/net_client.cpp:408-409 | What comes on a connection that its node has closed changes no node. |
| NetworkShell.LossIsOneMessage | src/peerboot/net_client.cpp:57-72 | A loss takes one message off one hop and changes nothing else. |
| NetworkShell.SendMatches | src/peerboot/net_client.cpp:41-75 | A send on a connection object and the same send in the network agree: the object closing or closed corresponds to the connection closed, before and after, and what the object writes is received as what is then on the way. |
| NetworkSafety.NothingRemoved | src/peerboot/net_client.cpp:201-201 | From any state without removals, every run keeps all stores and messages free of them. |
| NetworkSafety.WireNeverRemoves | src/peerboot/shell.cpp:116-130 | In every run, stops included, no entry is removed, no delivery flips a flag, and a query lists every entry of its service. |
| NetworkSafety.NotifyOnceAndRelayBound | src/peerboot/pebo_net.cpp:187-204 | In every run without stops each client is told about a key once, a node stores exactly what it was told and was started with, and a key is relayed at most as often as there are connections. |
| NetworkTermination.InternalStepDecreases | src/peerboot/pebo_net.cpp:187-260 | Every send, delivery and loss lowers the measure, on every topology. |
| NetworkTermination.NetworkTerminates | src/peerboot/pebo_net.cpp:187-260 | From any state in which there are no services for each of which a stored entry, when announced, arrives as a query for one of them again, on any topology, cycles included, the number of further sends, deliveries and losses is bounded by a number computed from the state. |
| NetworkTermination.CanSettle | src/peerboot/pebo_net.cpp:187-260 | From any such state the network can come to rest without losing a message on the way, within that number of steps; sends on closed connections come to nothing. |
| NetworkTermination.EveryRunTerminates | src/peerboot/shell.cpp:93-114 | After every run, stops and losses included, the bound holds unless there are services for each of which the announcement of a client started in it can be taken for a query for one of them again. |
| NetworkTermination.LineNamesDie | src/peerboot/net_client.cpp:157-213 | Clients whose names hold no line break, whatever other white space they hold, have no such services. |
| NetworkEndless.AnswerReadsAsQuestion | src/peerboot/net_client.cpp:157-213 | The announcement of a name with a query behind a line break arrives as that query and nothing else. |
| NetworkEndless.EndlessExactly | src/peerboot/pebo_net.cpp:206-260 | Given any clients: some network, after some run in which just such clients were started, can go on for ever without losses and without new input, if and only if there are services for each of which the announcement of one of the clients can be taken for a query for one of them again. |
| NetworkEndless.OneNameEndlessExactly | src/peerboot/pebo_net.cpp:206-260 | With a single client: if and only if its announcement can, at some time, be taken for a query for its own service. |
| NetworkEndless.AnswersNeedNotEnd | src/peerboot/pebo_net.cpp:206-260 | Two connected nodes at which a client with such a name was started come into a state from which, nothing being lost and without new input, runs of any length follow. |
| NetworkFlood.NextFloods | src/peerboot/pebo_net.cpp:187-241 | Every step that loses nothing keeps the invariant: for a holder and its out-peer, the out-peer holds the key, or it is on its way, or it was skipped as the previous hop, or its connection was closed before the send. |
| NetworkFlood.QuietEdges | src/peerboot/pebo_net.cpp:222-241 | With any addresses, at rest a holder has passed its key to every out-peer but those whose address it learned the key from and those to which its connection is closed. |
| NetworkConnections.NextPolite | src/peerboot/shell.cpp:105-111 | Every such step keeps: a question follows an announcement of its client on the same connection, an answer goes to a node that is known, and only connections to nodes that know the near end are closed. |
| NetworkConnections.ClosedIffStarted | src/peerboot/net_client.cpp:381-417 | At rest a made connection is closed if and only if a client was started at the node that made it, and then the other end knows such a client. |
| NetworkLessons.EveryKeyWasTaught | src/peerboot/pebo_net.cpp:187-241 | In every such run a node holds what it was started with and what it was taught; each lesson came from a holder that was taught earlier, if at all, and did not skip the pupil. |
| NetworkLessons.KnownWasStarted | src/peerboot/pebo_net.cpp:187-204 | Nobody ever knows a client that was not started somewhere. |
| NetworkCompleteness.FloodingComplete | src/peerboot/pebo_net.cpp:187-241 | At rest a client is known along every path of out-peers from where it was started on which, but at the end, no other client is started, whatever else is started elsewhere and when. |
| NetworkCompleteness.FloodingHappens | src/peerboot/pebo_net.cpp:187-241 | From every state of such a run the network can come to rest, within the bound, and the client is then known along every such path. |
| NetworkSecondWave.SecondWave | src/peerboot/net_client.cpp:41-47 | A new client started on a network at rest is known, at the next rest, to no node but those reachable over nodes at which no client was started before, and to all of these if no addresses collide. |
| NetworkSecondWave.CutOffForGood | src/peerboot/net_client.cpp:41-47 | If, when the network comes to rest, a client was started at every node that made a connection to this one, and at this one too in case it made connections itself, then it learns nothing more in any continuation but what it is started with. |
| NetworkSecondWave.FaultFreeFloodingFails | src/peerboot/net_client.cpp:381-417 | In every row of three nodes without colliding addresses there is a run without losses after which the last node does not know a client started at the first, and in no continuation ever does. |
| NetworkCatchUp.AnswerComesOrIsCut | src/peerboot/shell.cpp:105-111 | A client that starts at any time knows at rest every peer of its service that an out-peer knew when it started, or the question or the answer met a connection that its node had closed. |
| NetworkCatchUp.FirstFindsOpen | src/peerboot/net_client.cpp:381-417 | Before the first client of a node is started, all connections that the node made are open. |
| NetworkCatchUp.LateStarterCatchesUp | src/peerboot/shell.cpp:105-111 | If the connection was open and the read that closes it does not end before that peer's announcement, the client knows that peer. |
| NetworkMissed.MissedExactly | src/peerboot/shell.cpp:105-111 | The first client of a node with one made connection, started on a network at rest, can stay ignorant of a peer of its service that the other end knows, nothing being lost, if and only if the endpoint of some entry of the answer, the new client included, precedes the peer's. |
| NetworkMissed.AnswerCutForGood | src/peerboot/net_client.cpp:381-417 | On two connected nodes, for any two clients of a service of which the asking one comes first in the order, there is a run without losses after which the asking node does not know the other client, and in no continuation ever does unless it is started there. |
| NetworkObstacle.IgnoranceExactly | src/peerboot/pebo_net.cpp:230-239 | The only client of a network can stay unknown to a node at rest, nothing being lost, if and only if the topology has a set of nodes with its origin and without that node that can hear of it in some order and then all skip everybody else. |
| NetworkObstacle.CollidingAddressStopsFlood | src/peerboot/pebo_net.cpp:230-239 | In the smallest such topology the last node stays ignorant in every run, with losses and stops. |

## Left out

- libuv calls, handles, threads and the event loop. In the objects the writes of broadcasts and answers succeed (`PeboNet.NetClient.Write`); in the network a message may be lost at any time.
- The part of a read after its first zero byte, which the code ignores; a read is the string that is appended to the buffer.
- Sending from the shell's thread between the last message of a read and the closing of the connection, or while the connection is torn down; a connection closes at once, and what was sent on it before still arrives.
- What the accepting side of a closed connection notices; what it sends afterwards is not read.
- A newline index beyond the int range, in a buffer of 2^31 bytes or more.
- The creation time of a message, which nothing reads, and the clock itself, which is an arbitrary input.
- Mutexes: each locked store operation is one atomic step; broadcast and reply loops run one send at a time between other steps.
- `Shell::init`, `deinit`, the library singleton, port probing, the test peers added by `listenStarted`, connecting, logging.
- A node of the network that was stopped may go on receiving, although its loop is told to stop.
- A connection before it is connected, whose state the code leaves uninitialised.
- A refresh before the first start, which sends names and a time that were never set.
- The upper limit of 256 characters for names, which the code does not enforce.
- NetworkCompleteness.FloodingComplete: asks that the nodes of the path start no other client and that no addresses collide. Neither is needed in every run, since a node cut off on one route may be reached on another or earlier; for a network at rest `NetworkSecondWave.SecondWave`, and for a single client `NetworkObstacle.IgnoranceExactly`, say exactly who is reached. Lost messages and stops are excluded, and names are single words.
- NetworkCompleteness.FloodingHappens: asks the same of the run so far.
- NetworkSecondWave.SecondWave: asks for its second half that no addresses collide.
- NetworkCatchUp.LateStarterCatchesUp: says nothing of a read that ends before the peer's announcement; whether one can is `NetworkMissed.MissedExactly`, and without any such condition `NetworkCatchUp.AnswerComesOrIsCut` holds.
- The limit of 16384 bytes to a read is part of `Answers.dfy` only; in the network a read brings any number of messages.
- NetworkMissed.MissedExactly: is about a node with one made connection, on a network at rest. A node with several connections, or one that asks while the network is busy, can also learn the peer from elsewhere, or by relays between the entries of the answer.
- NetworkTermination.NetworkTerminates: excludes stored names whose announcements keep asking for each other's services; `NetworkEndless.EndlessExactly` shows that for every set of clients with such names some network goes on for ever, not that every topology does.
- Answers.QueryAnswerIsJoin: asks for single-word names in the answering store, as every name that came over the wire is.
