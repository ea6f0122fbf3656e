# treeipc, modelled and proved

treeipc mirrors a tree of nodes and typed properties between programs over a byte stream. This
project models the layers that make it work and proves what they are for, for every input, every
run and every interleaving:

1. **The wire.** A package is a growable byte buffer with a 9-byte header (`Packages`), every command has
   a payload (`Payloads`, byte by byte in `Layouts`), frames are cut out of arbitrary chunks (`Framing`),
   and a dispatcher numbers requests and replies (`Dispatcher`, `MessageIds`). Integers are little-endian.
2. **Requests and replies.** Two dispatchers joined by FIFO streams, with blocking senders, one table of
   unanswered requests each and one slot for replies (`RequestReply`, `RequestReplyProof`,
   `RequestReplyRuns`, and what arrives in which order in `RequestReplyOrder`), the proof that the
   dispatcher's methods take these steps (`Endpoints`), and the locks that all this takes (`Locks`).
3. **Naming and mirroring.** Two ends that give nids to nodes, announce and fetch children and keep
   proxies, with any number of callers at work at each end (`Mirror`, `MirrorProof`, `MirrorRuns`), what
   their blocking calls wait for (`MirrorWaits`), what may come between a lookup and the insertion of what
   was fetched (`MirrorRaces`) and so which runs are sound (`MirrorSound`), what `get` returns whatever
   goes on meanwhile (`MirrorGets`), what an announcement and a subscription bring about (`MirrorHears`),
   runs that reach such states (`MirrorScenes`), where the two trees have the same child (`MirrorAgree`),
   a hub with any number of connections (`Star`, `StarRuns`, `StarOrigins`, `StarListens`) and the locks
   of its connections (`HubLocks`, `HubCycles`), the handlers of `node_sync` as they are written, down to
   the bytes they put on the stream (`NodeSync`), what the one end makes of what the other writes
   (`NodePeers`), properties and their proxies, set by any number of threads (`PropertySync`,
   `PropertyValues`, `PropertyFake`, `PropertyPeers`), and what closing a connection deletes (`Teardown`).
4. **Supporting objects.** The one-to-one link between an observable and its listener (`Observable`) and
   the locking queue with its worker (`Queue`).

How they fit together: the methods of `Packages`, `Framing`, `Dispatcher` and `NodeSync` change state in
place and are proved against functions. `Dispatcher.EndToEnd` says that calls on one dispatcher are the
events seen by the other, whatever the chunks; `NodeSync.MessagesAreHeard` carries that up to the messages
of `Mirror`; `NodeSync.NodeSync.ProcessPackage` says that the handlers do what the rules in `Mirror` say;
`NodeSync.Open` starts where `Mirror.Initial` starts; and the invariants of `MirrorRuns` and `Star` are
about all runs of those rules. In the same way `Endpoints` ties the dispatcher's methods to the runs of
`RequestReplyRuns`, and `PropertyPeers` the two ends of a property to the runs of `PropertySync`.
`NodePeers` composes the two ends: what a fetch, a listing or an announcement is in the end, from the
tables of the one to those of the other. Both ends of a connection follow the same rules, so lemmas are
stated for the left end; `Flip` swaps the ends.

Histories (tags of requests, counts, what was answered, what was deleted) are bookkeeping for the
proofs. They are never read by a rule.

## What turned out not to hold

Each is kept as the code has it, with a lemma that shows it and one that says exactly when the code
does what it is for:

- An empty frame stops the decode loop until more bytes come, so what has been decoded depends on the
  chunks, exactly if a frame follows an empty one (`Framing.ChunkingIndependentIff`). The dispatcher
  never writes an empty frame.
- `in` is one slot for all senders: with two of them a sender can return the reply to the other's
  request (`RequestReplyRuns.TwoSendersCanSwap`); it returns its own exactly if no other reply was
  processed in between (`WakeTakesOwnReplyIff`).
- With 32767 senders outstanding the next request carries id 0x8000 and is taken for a one-way package
  (`RequestLostBeyondIds`, `NextIdUsableIff`), and a run gets there (`LimitIsReached`).
- SET carries a bare value: it survives exactly if nothing pads it (`Payloads.SetRoundTrip`), which is so
  because it is sent with `write`.
- `fetch_node` and `update_prop` keep the tracking lock while they wait, and answering AT or GET needs
  that lock at the other end: a caller's answer can still come exactly if no caller at the other end
  waits too (`MirrorWaits.AnswerCanComeIff`). Runs reach the states in which it cannot, by two fetches or
  by a fetch and a GET (`MirrorScenes.BothFetch`, `FetchAndGet`).
- `get` looks a child up before it takes the lock and inserts it after it gave the lock back. What it
  fetches overwrites an entry of the table exactly if another `get` had fetched the child and not inserted
  it at that lookup, or has fetched it since, or a CHILD_ADDED for the place was handled since, or the peer
  has taken from this end, since, an ATTACH for that place (`MirrorRaces.FetchOverwritesIff`). Its insertion is
  refused, so that it returns null for a child that the peer has, exactly if since the lookup a CHILD_ADDED
  for the place was handled, the application attached there, or another `get` inserted there
  (`InsertRefusedIff`, `RefusedIsThere`). Runs reach each (`MirrorScenes.OvertakenFetch`, `OvertakenInsert`,
  and with two callers and no message or attach at all `TwoGets`, `SecondIsRefused`). A run in which no fetch
  overwrites is called sound; what `MirrorRuns`, `MirrorGets`, `StarRuns` and `StarOrigins` say holds of all
  sound runs. A run is sound exactly if none of the four happens, at either end, in the window of any `get`
  that brings a node (`MirrorSound.SoundIff`).
- The two trees need not become the same. A name that both ends have under a node that both know is the same
  child exactly if it is a proxy at one of them; if each end hung a node of its own there, they stay apart for
  ever, and the proxy of the other's hangs nowhere (`MirrorAgree.SameIff`, `SameForever`, `OtherHangsNowhere`).
  A run gets there (`SameName`).
- Handlers keep the locks of their connection while they consult the tables of others. A handler can still
  come to its end exactly if it is not one of threads each of which has still to take a lock that another of
  them holds (`HubLocks.CanEndIff`); two attaches, two SETs, or an UPDATED and a reader get there
  (`TwoAttaches`, `TwoValues`, `ValueAgainstReader`). Handlers of given kinds can get there, in some run of any
  number of threads, exactly if some locks are each kept by one of them while it takes another of these locks
  (`HubCycles.StickIff`). The dispatcher's own locks cannot (`Locks.NoDeadlock`).
- A property and its proxy need not agree when all is quiet. SUBSCRIBE does not bring the present value
  (`PropertySync.SubscribingIsNotAsking`, `OldUpdateOverwrites`); a proxy that is set to a value that serializes
  to nothing sends no SET (`EmptyIsNotSent`), and neither does one that a listener or another thread sets while
  it is receiving a value (`ListenersSetIsNotSent`, `ReadersSetIsNotSent`); and of two threads that change the
  owner, the one with the older UPDATED may write last (`OutdatedIsWrittenLast`). When the two values agree is
  stated exactly (`Converges`, `QuietAgreesIff`).
- `cleanup_children` uses a node after it was deleted if a proxy owns a node of this end that was given
  its nid later (`Teardown.OwnedByProxyIsTouched`), and exactly in that family (`ClosingIsSafeIff`).
- After a fetch that overwrote an entry, closing can miss a proxy: a tracked one is not deleted exactly if
  another with its nid is deleted before its turn and its owner, if it has one, stays (`Teardown.MissedIff`).
  Two callers that get the same child come to that (`OverwrittenIsMissed`).
- Closing a connection does not leave the nodes of this end where they are: of those that are not deleted, it
  takes out of their owner's hands exactly the ones that the connection tracks (`Teardown.LeftInPlaceIff`,
  `OriginalIsTakenOut`).
- Clearing the worker's flag does not wake it; only the null package pushed after that does
  (`Queue.FlagAloneDoesNotWake`, `StopEndsWorker`).

## Model

| member | source | states |
|---|---|---|
| Packages.Package.Copy | package_stream_base.h:62-67 | a copy has all bytes of the original, its nid and cmd, and 9 zero bytes more |
| Packages.Package.Assign | package_stream_base.h:81-90 | assignment takes its operand by value, so it stores the bytes of a copy |
| Packages.Package.Append | package_stream_base.h:113-118 | appending keeps all bytes and adds the new ones at the end |
| Packages.Package.Read | package_stream_base.h:128-139 | a read succeeds exactly if all its bytes are inside the package, and then gives those bytes |
| Packages.Package.GetString | package.cpp:12-20 | the string at an offset and the offset after it; zeros if its length runs past the end |
| Packages.CopiesRefine | package_stream_base.h:49-90 | any number of copies and assignments keep nid, cmd and every read inside the original, and make scalars past its end 0 |
| Packages.PastTheEnd | package_stream_base.h:120-126 | a scalar read at or past the end gives 0, before and after padding |
| Packages.StraddlingRead | package_stream_base.h:120-139 | a scalar read across the end fails before padding; after it, it gives the bytes that are there as a number, so padding shows exactly if one of them is not 0 |
| Packages.ReadStringAt | package.cpp:6-20 | a string field is read back wherever it lies, with the offset of what follows |
| Payloads.NameRoundTrip | node_sync.cpp:43-46 | AT and its reply: nid, command and string survive any padding |
| Payloads.CmdLsReply | node_sync.cpp:392-400 | the LS reply holds a count and the names in order |
| Payloads.Ls | node_sync.cpp:165-192 | the loop that reads a reply gives the names it carries, none if it reports an error |
| Payloads.LsRoundTrip | node_sync.cpp:174-191 | `ls` decodes any list of names that `cmd_ls` built, through any padding |
| Payloads.ValueRoundTrip | node_sync.cpp:228-231 | the value in a GET reply or an UPDATED survives any padding |
| Payloads.ErrorReplyIsEmptyValue | node_sync.cpp:226-231 | the reader of a GET reply does not look at its command: an error is read as an empty value |
| Payloads.SetRoundTrip | node_sync.cpp:516-518 | the value in a SET survives exactly if the package was not padded |
| Payloads.AttachRoundTrip | node_sync.cpp:312-330 | ATTACH: parent nid, type, name and child nid are recovered at the same running offsets, through any padding |
| Payloads.ChildAddedRoundTrip | node_sync.cpp:597-614 | CHILD_ADDED: parent nid, child nid, name, type and ownership are recovered, through any padding |
| Layouts.ChildAddedLooks | node_sync.cpp:594-616 | the bytes of a CHILD_ADDED, in order, little-endian |
| Layouts.AttachLooks | node_sync.cpp:310-330 | the bytes of an ATTACH |
| Layouts.AtLooks | node_sync.cpp:43-46 | the bytes of an AT |
| Layouts.SetLooks | node_sync.cpp:290-294 | the bytes of a SET: the bare value after the header |
| Layouts.FrameLooks | package_stream.cpp:153-161 | the bytes of a frame: length, message id, package |
| Framing.PackageCodec.ProcessNotification | package_stream.cpp:16-40 | one call of the decode loop: the frames it emits and the bytes it keeps are those of the reference decoder, and the loop ends |
| Framing.WriteFrame | package_stream.cpp:53-68 | reports success exactly if the whole frame was accepted; what went out is a prefix of size and frame |
| Framing.RunConserves | package_stream.cpp:16-40 | after any chunks: the frames taken off, encoded, and the bytes still kept are all bytes received |
| Framing.FramesSurviveChunking | package_stream.cpp:16-40 | non-empty frames come out in order, all of them once all bytes are there, a prefix before, however the stream was cut |
| Framing.ChunkingIndependentIff | package_stream.cpp:23-33 | a stream gives the same frames for every way of cutting it exactly if no frame follows an empty one |
| Dispatcher.RequestReplyDispatcher.constructor | package_stream.cpp:77-84 | the first id made, 0, is thrown away; the slot is an empty package |
| Dispatcher.RequestReplyDispatcher.BeginSend | package_stream.cpp:168-180 | a copy of the request goes out under a fresh id; if the write fails the id is given back |
| Dispatcher.RequestReplyDispatcher.FinishSend | package_stream.cpp:186-190 | a sender that was flagged gives its id back and returns a copy of the slot |
| Dispatcher.RequestReplyDispatcher.Reply | package_stream.cpp:192-219 | a pending request is answered under its id with the reply bit and leaves the table; any other is refused and nothing is written |
| Dispatcher.RequestReplyDispatcher.ProcessFrame | package_stream.cpp:109-151 | a reply fills the slot and flags its id, a request enters the table and is handed on, a one-way package is handed on |
| Dispatcher.RequestReplyDispatcher.ProcessChunk | package_stream.cpp:16-40 | a chunk hands on exactly the packages in the frames it completes, in order; table, flags and slot are afterwards what those frames amount to |
| Dispatcher.DemuxInvertsIff | package_stream.cpp:109-161 | kind, id and package come back as they were sent exactly if the id is neither 0 nor flagged |
| Dispatcher.EndToEnd | package_stream.cpp:16-68 | any writes, sends and replies, their bytes cut up in any way, are seen by the other end as the same kinds, ids and packages in order |
| Dispatcher.Padding | package_stream.cpp:168-190 | `send` pads a request by 9 zeros and its reply by 18; a one-way package by none |
| Endpoints.Begin | package_stream.cpp:77-84 | a new dispatcher is in the state that the runs of two endpoints start from |
| Endpoints.Send | package_stream.cpp:168-180 | `send`, up to where it blocks, is the endpoint's step, and puts its frame on the stream |
| Endpoints.Write | package_stream.cpp:163-166 | `write` is the endpoint's step, which puts a one-way frame on the stream and changes nothing else |
| Endpoints.Wake | package_stream.cpp:182-190 | `send`, once flagged, is the endpoint's step, and returns a copy of its slot |
| Endpoints.Reply | package_stream.cpp:192-219 | `reply` is the endpoint's step, and puts its frame on the stream |
| Endpoints.Receive | package_stream.cpp:109-151 | receiving a frame is the endpoint's step, and hands the package in it to the listener unless it is a reply |
| RequestReplyRuns.IdsAreConserved | package_stream.cpp:91-107 | in every reachable state each id ever minted is in exactly one place, and no other id anywhere |
| RequestReplyRuns.NextIdIsUnused | package_stream.cpp:168-180 | the id the next `send` takes has no sender, request, table entry or reply anywhere |
| RequestReplyRuns.CounterIsPeak | package_stream.cpp:91-107 | the counter is one more than the most senders ever outstanding, over runs of any length |
| RequestReplyRuns.NextIdUsableIff | package_stream.h:71-73 | the next id is usable exactly while fewer than 32767 senders are outstanding |
| RequestReplyRuns.RequestLostBeyondIds | package_stream.cpp:123-150 | one sender more, and its request is taken for a one-way package |
| RequestReplyRuns.ManySenders | package_stream.cpp:168-180 | a run gets to any number of outstanding senders up to 32767 |
| RequestReplyRuns.LimitIsReached | package_stream.cpp:91-101 | so a run gets to where the next id is unusable and the request sent under it changes nothing at its receiver |
| RequestReplyRuns.RequestsBalance | package_stream.cpp:139-145 | requests received are replies made and table entries |
| RequestReplyRuns.SecondReplyRefused | package_stream.cpp:192-199 | once a request was answered, a second reply is refused and changes nothing, however long the run in between |
| RequestReplyRuns.OneWayNeverPending | package_stream.cpp:139-150 | every table entry belongs to a sender that waits for it, so a one-way package has none |
| RequestReplyOrder.AllInOrder | package_stream.cpp:109-219 | over any run, what was under way and what was sent since is what was received and what is under way, in order |
| RequestReplyOrder.SentIsReceived | package_stream.cpp:109-219 | so in every run all that one dispatcher sends is received by the other, in order, requests as requests, one-way packages as such, replies as replies, each with its bytes |
| RequestReplyRuns.WakeTakesOwnReplyIff | package_stream.cpp:182-190 | a sender returns the reply to its own request exactly if no reply was processed since its own |
| RequestReplyRuns.PromptSendsGetOwnReplies | package_stream.cpp:130-138 | if flagged senders resume before the next reply is processed, every `send` returns the reply made to its own request |
| RequestReplyRuns.OneSenderGetsOwnReply | package_stream.cpp:168-190 | in particular with one sender outstanding at a time, down to the bytes |
| RequestReplyRuns.TwoSendersCanSwap | package_stream.cpp:133-138 | a run in which a sender returns the reply to another's request |
| Locks.OperationsDisciplined | package_stream.cpp:168-219 | `send`, `write`, `reply` and the receive path take locks in increasing rank, re-enter only recursive ones, and wait for a reply with none |
| Locks.NoDeadlock | package_stream.cpp:91-219 | any threads in any interleaving: if some thread is neither done nor waiting for its reply, some such thread can go on; one that waits holds no lock |
| MirrorProof.AttachNodeNew | client_node.cpp:104-139 | what attaching a new node comes to: one CHILD_ADDED if the peer listens to the parent, one ATTACH if the parent is its proxy, nothing otherwise |
| MirrorRuns.ReachableInv | node_sync.cpp:527-803 | every step of either end in a sound run keeps the naming invariant: tables, proxies, subscriptions, blocking calls and all messages under way fit together, also while a `get` is between lookup, fetch and insertion |
| MirrorRuns.NidsAreBelowCounter | server.cpp:29-34 | every tracked nid is below the counter, 0 is the root at both ends, no node has two nids |
| MirrorRuns.NidsPairNodes | node_sync.cpp:689-699 | a nid tracked at both ends pairs one original with one proxy, the root apart, and the proxy stores that nid |
| MirrorRuns.MessagesFindTheirNode | node_sync.cpp:766-775 | when a message is processed, the receiver tracks the node it names, and the sender the child it announces |
| MirrorRuns.NothingIsForgotten | node_sync.cpp:689-699 | however long a connection runs on, no nid changes its meaning, no proxy its nid, and no edge goes away |
| MirrorRuns.CachedEdgesAreFaithful | client_node.cpp:52-72 | every edge to a proxy is an edge of the peer, with the same parent nid, name and child nid |
| MirrorRuns.OneProxyPerNode | node_sync.cpp:786-798 | in a sound run, however a node was learned, by fetching or by being told, there is one proxy and one edge at most |
| MirrorRuns.FetchNode | node_sync.cpp:41-74 | with the peer working off its queue, the fetch ends, and gives a proxy of the peer's child of that name, or says that there is none |
| MirrorRuns.Get | client_node.cpp:31-81 | in that schedule `get` ends, and returns a proxy of the very node the peer has at that path, however much was cached, or nothing if it has none |
| MirrorRuns.FoundStays | client_node.cpp:72-80 | what a path leads to stays there |
| MirrorRuns.PathsAreFaithful | client_node.cpp:52-80 | after any steps in any order, where a path of proxies leads to at this end, it leads at the peer to the node that the last proxy stands for |
| MirrorRuns.AtAnswers | node_sync.cpp:406-446 | in any state, an AT that is received is answered, and an error means that the peer has no such child then |
| MirrorGets.GetFinds | client_node.cpp:31-81 | with any steps of both ends and of other callers between its own, `get` returns, for a path of cached or fetched children, a proxy of the very node that the peer has at that path in the end |
| MirrorGets.GetMisses | client_node.cpp:58-71 | with any steps between its own: if the fetch reports an error, then at some point since the lookup the peer handled the question and had no such child |
| MirrorWaits.AnswerCanComeIff | node_sync.cpp:48-49 | in every reachable state in which a caller waits in a fetch or a GET, some run brings its answer, exactly if no caller of the peer waits in one |
| MirrorWaits.MutualWaitStays | node_sync.cpp:204-226 | while callers of both ends wait, no run answers either |
| MirrorScenes.BothFetch | node_sync.cpp:48-49 | a run from fresh trees to two fetches that wait for each other |
| MirrorScenes.FetchAndGet | node_sync.cpp:204-226 | a run to a fetch and a GET that wait for each other |
| MirrorScenes.AnswerMayNeverCome | node_sync.cpp:571-577 | in that state no run answers the fetch, although the peer does not fetch |
| MirrorRaces.FetchOverwritesIff | client_node.cpp:52-58 | over any steps between the lookup and the reply: what was fetched is tracked already exactly if another `get` had it fetched and not inserted at the lookup or fetched it since, a CHILD_ADDED for the place was handled, or the peer took an ATTACH for it |
| MirrorRaces.OverwritingBreaks | node_sync.cpp:689-699 | then the node that had the nid loses it, and if it was a proxy there are two of one node |
| MirrorRaces.InsertRefusedIff | client_node.cpp:58-66 | over any steps whatever between the lookup and the insertion: it is refused exactly if a CHILD_ADDED for the place was handled (or an ATTACH, which only comes after an entry was overwritten), the application attached there, or another `get` inserted there |
| MirrorRaces.RefusedIsThere | client_node.cpp:62-66 | what is refused is a child that the peer has there |
| MirrorScenes.OvertakenFetch | client_node.cpp:52-58 | a run to a fetch that overwrites the proxy that a message made |
| MirrorScenes.OvertakenInsert | client_node.cpp:58-66 | a run to a refused insertion, the fetched proxy itself hanging there |
| MirrorScenes.TwoGets | client_node.cpp:52-58 | a run in which two callers get the same child, and what the second fetches is tracked already, with no message handled and nothing attached |
| MirrorScenes.SecondIsRefused | client_node.cpp:58-66 | and goes on to a second proxy over the first, whose insertion is refused |
| MirrorSound.SoundIff | client_node.cpp:31-81 | a run of a fresh connection is sound exactly if, at either end, no `get` that brings a node was disturbed between its lookup and its fetch by one of the four causes |
| MirrorAgree.SameIff | node_sync.cpp:527-803 | under a node that both ends know, children of one name are the same node exactly if one of the two is a proxy, and never are both |
| MirrorAgree.SameForever | node_sync.cpp:527-803 | over any sound run from there the same children stay the same, and others stay apart |
| MirrorAgree.OtherHangsNowhere | client_node.cpp:104-139 | where they are apart, what an end has for the other's child hangs nowhere in its tree |
| MirrorAgree.SameName | node_sync.cpp:579-618 | a run in which both ends attach a child of one name before either hears of the other's |
| MirrorHears.AnnouncementArrives | node_sync.cpp:766-803 | whatever else goes on: once the receiver has worked off as many messages as there were up to it, an ATTACH or CHILD_ADDED has put a proxy of the node into its table and something into the place |
| MirrorHears.LearningSubscribes | node_sync.cpp:785-792 | an announcement that makes a proxy is answered with a subscription to the proxy's children |
| MirrorHears.SubscriptionArrives | node_sync.cpp:741-757 | and a subscription, once it has been worked off, is in force for good |
| MirrorRuns.OnlyAttachAnnounces | node_sync.cpp:579-618 | only an attach by the application announces anything: one node that is no proxy of the connection, under a nid that nobody tracks; nothing that arrives is passed back |
| MirrorRuns.AnnouncedOnce | node_sync.cpp:586-595 | over a whole run, both directions together, no child is announced twice |
| Star.StarKeeps | conn_server.h:17-66 | with any number of connections, opened at any time, every step keeps every link's naming, one tree, and each node a proxy of one connection at most |
| StarRuns.HubAttachTells | node_sync.cpp:583-592 | a node that the hub attaches is announced to a connection exactly if its peer subscribed to the parent or the parent is its proxy, and the name was free; once, and at the right place |
| StarRuns.HubReceiveTells | node_sync.cpp:527-618 | a node that one connection brings is announced to each other connection in exactly that case |
| StarRuns.NothingComesBack | node_sync.cpp:586-590 | the connection that brought a node gets a subscription back, and no announcement |
| StarRuns.LinksAgree | conn_server.h:17-66 | so in every reachable state each link has its invariant and the one tree, and no node is a proxy of two connections |
| StarRuns.ToldOnceEach | node_sync.cpp:586-592 | in every run an end hears of no more nodes than others attached and were under way |
| StarOrigins.HeardWasMadeElsewhere | node_sync.cpp:579-618 | in every run, each node that an end hears of came from one attach made in that run, and not from one of its own |
| StarOrigins.OriginsDiffer | node_sync.cpp:586-592 | two nodes of one state did not come from the same attach |
| StarOrigins.HeardComeFromAttaches | node_sync.cpp:579-618 | over any run, all that an end hears, at whatever time, comes from attaches made by other ends, each child from one of its own |
| StarOrigins.NothingIsHeardTwice | node_sync.cpp:586-592 | and in every run an end hears of no child twice |
| StarListens.ConnectionBegins | client_nonroot.cpp:28-39 | a connection opened at a hub is in the state that runs of one connection start from, with the subscription to the hub's root under way |
| StarListens.ConnectedListens | node_sync.cpp:741-757 | once the hub has received one message from a leaf that connected, it listens to its root for that leaf, for good |
| StarListens.AttachReachesLeaf | node_sync.cpp:579-618 | what the hub attaches under a node that a leaf listens to, at a free name, is told to it, and when the leaf has worked off its queue it has a proxy of it and something at the place, whatever else went on |
| StarListens.BroughtReachesLeaf | node_sync.cpp:527-618 | so does what another leaf brings |
| StarListens.ConnectedIsTold | client_nonroot.cpp:28-39 | put together: from when the hub has received a connected leaf's first message, all that the hub attaches under its root at a free name arrives at that leaf |
| StarListens.ConnectedIsBrought | node_sync.cpp:527-618 | and all that another leaf brings there |
| StarListens.AttachReachesHub | client_node.cpp:104-139 | what a leaf attaches under its root, or under a node it knows from the hub, arrives at the hub |
| StarRuns.ReactionsEnd | node_sync.cpp:132-144 | processing messages ends: a measure over all queues bounds the steps left |
| StarRuns.QuietIffSettled | node_sync.cpp:132-144 | it ends exactly when on each link all queues are empty and no blocking call is open, or the leaf holds an answer that was overtaken |
| StarRuns.CanDrain | node_sync.cpp:132-144 | from any state processing leads there |
| HubLocks.CanEndIff | node_sync.cpp:527-569 | in any state of any threads in `cmd_attach`, `cmd_prop_value`, `process_prop_value` and `update_prop`: a handler can still come to its end exactly if it is not one of threads each of which has still to take a lock that another holds |
| HubLocks.TwoAttaches | node_sync.cpp:531-563 | a run to two workers that each hold their table and want the other's |
| HubLocks.TwoValues | node_sync.cpp:506-524 | the same by two clients that set properties the other watches |
| HubLocks.ValueAgainstReader | node_sync.cpp:370-374 | on one connection: a value arrives for a property whose listener needs the table, while a reader that holds the table has its answer |
| HubCycles.StickIff | node_sync.cpp:527-569 | handlers of given kinds, any number of threads at each, can get stuck in some run exactly if there are locks each of which one of them keeps while it takes another of them, a cycle in the graph of who consults whom |
| NodeSync.MsgRoundTrip | node_sync.cpp:773-783 | a message comes out of its package as it went in, type and ownership included |
| NodeSync.AtReplyRead | node_sync.cpp:424-444 | the caller of AT reads an error exactly if there is no such child, else its nid and its type, through any padding |
| NodeSync.LsReplyRead | node_sync.cpp:165-192 | the caller of LS reads the names, none on an error |
| NodeSync.GetReplyRead | node_sync.cpp:454-476 | the caller of GET reads the value, an empty one on an error |
| NodeSync.NidReplyRead | node_sync.cpp:153-158 | the caller of GENERATE_NID reads the nid |
| NodeSync.NodeSync.Search | node_sync.cpp:649-656 | the loop gives the first nid, in nid order, under which the node is tracked |
| NodeSync.NodeSync.GetNid | node_sync.cpp:645-664 | a tracked node keeps its nid, any other is tracked under a fresh one |
| NodeSync.NodeSync.SetRoot | server.cpp:29-34 | the root takes the first nid |
| NodeSync.NodeSync.StreamOpened | client_nonroot.cpp:28-39 | the client binds its root to 0, subscribes to the server's and listens to its own |
| NodeSync.NodeSync.ChildAdded | node_sync.cpp:579-618 | what a listener does about a new child, and the bytes it writes: none for a proxy of the connection |
| NodeSync.NodeSync.TellPeer | node_sync.cpp:310-344 | what attaching under a proxy asks of the peer, and the bytes written |
| NodeSync.NodeSync.AttachTo | client_node.cpp:104-139 | an attach changes the tree and announces as the rule says, the echo of the peer's own node suppressed |
| NodeSync.NodeSync.AppAttach | client_node.cpp:104-139 | an application's new node, plain or a property with its value, is hung up and announced as the rule says; every other node keeps type and value |
| NodeSync.NodeSync.CmdAttach | node_sync.cpp:527-569 | the ATTACH handler: tables, tree, counter and bytes written are those of the rule; the proxy is of the type in the message and every other node keeps type and value; an unknown type or parent changes nothing |
| NodeSync.NodeSync.CmdChildAdded | node_sync.cpp:766-803 | the CHILD_ADDED handler likewise, and who owns the node |
| NodeSync.NodeSync.CmdSubscribeAddRemove | node_sync.cpp:741-764 | a subscription is entered if the nid is tracked |
| NodeSync.NodeSync.CmdAt | node_sync.cpp:406-452 | AT is answered on every branch, with an error or with the child's nid and type, and leaves the table |
| NodeSync.NodeSync.CmdLs | node_sync.cpp:380-404 | LS likewise: the reply has each child's name once |
| NodeSync.NodeSync.CmdGetProp | node_sync.cpp:454-476 | GET likewise |
| NodeSync.NodeSync.CmdPropValue | node_sync.cpp:500-525 | SET stores the bare value, notifies once, or twice if storing notifies, and tells a subscribed peer each time; for a nid that is not tracked it leaves an entry without a node |
| NodeSync.NodeSync.CmdSubscribe | node_sync.cpp:478-498 | SUBSCRIBE and UNSUBSCRIBE concern known properties only |
| NodeSync.NodeSync.Updated | node_sync.cpp:706-721 | UPDATED carries the value under the node's nid |
| NodeSync.NodeSync.StoreValue | property_value_fake.h:43-51 | storing a value asks the owner to take it, unless the proxy is receiving it |
| NodeSync.NodeSync.NotifyChange | node_sync.cpp:706-721 | a change is told to the local listeners, and to the peer if it subscribed |
| NodeSync.NodeSync.ProcessPropValue | node_sync.cpp:346-377 | UPDATED stores the value in a proxy that is not receiving one and notifies its listeners, twice if storing notifies; what one of them sets meanwhile is stored over it; no SET is written |
| NodeSync.NodeSync.RequestPropSetValue | node_sync.cpp:273-295 | a proxy's value goes out bare, an empty one not at all |
| NodeSync.NodeSync.SubscribeProp | node_sync.cpp:243-251 | a SUBSCRIBE for the nid is written |
| NodeSync.NodeSync.UnsubscribeProp | node_sync.cpp:263-271 | an UNSUBSCRIBE is written |
| NodeSync.NodeSync.StartRead | node_sync.cpp:194-224 | GET is asked exactly for a proxy of a property that is not receiving, while no property of the connection is |
| NodeSync.NodeSync.TakeAnswer | node_sync.cpp:226-240 | the answer is stored as a value received, without a notification of its own |
| NodeSync.NodeSync.Change | node_sync.cpp:518-524 | a property gets a value and notifies, once or twice |
| NodeSync.NodeSync.ProcessNotification | node_sync.cpp:146-163 | GENERATE_NID is answered with the next nid at once, everything else is queued |
| NodeSync.NodeSync.ProcessValueCommand | node_sync.cpp:88-113 | SET, UPDATED, SUBSCRIBE and UNSUBSCRIBE: values, notifications, subscriptions and bytes written are, all of them, those that the command is for |
| NodeSync.NodeSync.ProcessMessage | node_sync.cpp:114-122 | ATTACH, CHILD_ADDED and SUBSCRIBE_ADD_REMOVE: tables by the rule, types, ownership and bytes written by the message |
| NodeSync.NodeSync.ProcessPackage | node_sync.cpp:76-130 | each command does what it is for: questions leave the table in one reply, tables change as the rules say, values and subscriptions by the commands for that, types by the messages that make a proxy; any other command changes nothing |
| NodeSync.NodeSync.FetchedNode | node_sync.cpp:51-73 | what a fetch makes of the reply: nothing on an error or unknown type, else a tracked proxy of the type in the reply, as the rule says |
| NodeSync.NodeSync.InsertFetched | client_node.cpp:58-66 | it is inserted, or null is returned if the name has been taken |
| NodeSync.NodeSync.StartFetch | node_sync.cpp:41-49 | the question AT goes out as a request, with the nid that the proxy stores and the name |
| NodePeers.Fetch | node_sync.cpp:41-74 | a fetch from end to end: a proxy comes of it exactly if the peer has the child and its type is known here, under the nid that the peer tracks the child under, and of its type |
| NodePeers.AnswerAt | node_sync.cpp:406-446 | the peer's half: the reply names the child, which the peer tracks under that nid from then on |
| NodePeers.TakeFetched | node_sync.cpp:51-73 | the caller's half |
| NodePeers.List | node_sync.cpp:165-192 | a listing from end to end: the caller reads the names of the peer's children |
| NodePeers.AttachAndTell | client_node.cpp:104-139 | an attach that is announced writes one message, in which the node's nid, name and type are |
| NodePeers.Hear | node_sync.cpp:527-803 | the peer that hears of it has a proxy of that type under that nid exactly if it knows the type |
| NodePeers.Mirrored | node_sync.cpp:527-803 | so after both the nid stands for the node at the one end and for a proxy of its type at the other |
| NodeSync.Open | client_nonroot.cpp:28-39 | opening a connection puts both ends into the state the runs start from |
| NodeSync.MessagesAreHeard | package_stream.cpp:109-161 | any messages and questions, their bytes cut up in any way, are read by the other end's handlers, all, in order, each with all its fields, questions as requests under their ids |
| PropertySync.Converges | node_sync.cpp:346-377 | in every reachable state of a subscribed property, whatever threads and listeners set whenever: a change is under way, or what is under way to the proxy, else what it holds, ends in the owner's value, exactly if they were in touch since the last of four kinds of break, or the two values were the same at it |
| PropertySync.QuietAgreesIff | node_sync.cpp:500-525 | with nothing under way, the values agree in exactly that case |
| PropertySync.StaysSynced | property_value_fake.h:43-51 | once in touch they stay so over any run, and agree whenever it is quiet, until the last listener leaves, an empty value is set, a value is set while one is being received, or an outdated UPDATED is written last |
| PropertySync.RepliesAnswerGets | node_sync.cpp:221-226 | each GET has one reply, which is for it |
| PropertySync.ReactionsEnd | node_sync.cpp:369-376 | no UPDATED causes a SET and no SET more than two UPDATEDs: messages die out |
| PropertySync.QuietIff | node_sync.cpp:132-144 | they end exactly in quiet |
| PropertyValues.EverySetReachesOwner | node_sync.cpp:500-525 | over any run: what was put at the owner is what its application set and what the proxy was set to, each as often as it was set, but for SETs under way; and the owner holds what was put there last |
| PropertyValues.QuietHoldsLastPut | node_sync.cpp:500-525 | so in quiet every value set at either end has been put at the owner |
| PropertyValues.EveryUpdateReachesProxy | node_sync.cpp:706-721 | each notification is told of once, each UPDATED carries what the owner held when it was made and is worked off once, and the proxy holds what it took last |
| PropertyValues.ProxyHearsOnlyOwner | node_sync.cpp:454-476 | all UPDATEDs and replies of a run are values that the owner held in it |
| PropertyValues.SetArrives | property_value_fake.h:43-51 | a value that a subscribed proxy is set to in quiet is the value of both ends when all is quiet again, however far apart they were |
| PropertyValues.ChangeArrives | node_sync.cpp:706-721 | so is one that the owner is set to |
| PropertyValues.ReadArrives | node_sync.cpp:194-241 | a proxy that is read in quiet has the owner's value then, subscribed or not |
| PropertyValues.CanSettle | node_sync.cpp:132-144 | from any state a run of messages being worked off leads to quiet |
| PropertySync.SubscribingIsNotAsking | node_sync.cpp:478-492 | a run in which a subscribed proxy never gets the value there is |
| PropertySync.EmptyIsNotSent | node_sync.cpp:275-280 | a run in which an empty value set at the proxy leaves them apart |
| PropertySync.ListenersSetIsNotSent | node_sync.cpp:372-375 | a run in which a listener sets the proxy when it is told of a value, which leaves them apart though they were in touch |
| PropertySync.ReadersSetIsNotSent | node_sync.cpp:234-239 | the same while the reply to a GET is taken in |
| PropertySync.OutdatedIsWrittenLast | node_sync.cpp:706-721 | a run in which two threads change the owner and the older of their UPDATEDs is written last |
| PropertySync.OldUpdateOverwrites | node_sync.cpp:221-241 | a run in which an UPDATED of an earlier subscription replaces a newer reply |
| PropertyFake.PropertyValueFake.AddListener | property_value_fake.h:25-32 | a SUBSCRIBE is written exactly if one listener is there afterwards: the first, or the only one added once more |
| PropertyFake.PropertyValueFake.RemoveListener | property_value_fake.h:34-41 | the last listener unsubscribes |
| PropertyFake.PropertyValueFake.SetValue | property_value_fake.h:43-51 | a set stores the value and sends it, unless it is being received or empty |
| PropertyFake.PropertyValueFake.Receive | node_sync.cpp:369-376 | receiving a value stores it, or what a listener sets meanwhile, and sends nothing |
| PropertyFake.PropertyValueFake.GetValue | node_sync.cpp:194-243 | reading returns the owner's answer, or what was set while it was taken in; while another property of the connection is being received nothing is asked, and the value there is returned |
| PropertyFake.WatchedIffListened | property_value_fake.h:25-41 | over any run, once commands are processed the owner is watched exactly if the proxy was left with listeners |
| PropertyPeers.TakeCommand | node_sync.cpp:454-525 | the worker, given the package of the first command under way, takes the steps that work it off: the owner's value, who is watched, and the UPDATEDs or the reply written are those of the steps |
| PropertyPeers.SetOwner | node_sync.cpp:706-721 | setting the owner is the steps of a change and its notifications |
| PropertyPeers.SetProxy | property_value_fake.h:43-51 | setting the proxy is its step, with the SET as the package that TakeCommand takes |
| PropertyPeers.Listen | node_sync.cpp:243-271 | so are SUBSCRIBE and UNSUBSCRIBE |
| PropertyPeers.Ask | node_sync.cpp:194-224 | and GET |
| PropertyPeers.TakeUpdate | node_sync.cpp:346-377 | the worker, given the package of the first UPDATED under way, takes the step that works it off |
| PropertyPeers.TakeReply | node_sync.cpp:226-240 | the caller of GET, given the reply, takes the step that stores it |
| Teardown.TrackingGivesOwnNids | node_sync.cpp:689-699 | in every state of a sound run each proxy is stored under its own nid and nothing else is |
| Teardown.Closing.CleanupChildren | node_sync.cpp:816-857 | the loop as written computes the whole clean-up and ends with the table empty |
| Teardown.Closing.Destroy | client_node.cpp:13-19 | the recursion of destructors: each node owned, directly or not, is destroyed once, and each proxy among them untracks its own nid |
| Teardown.Closing.Delete | node_sync.cpp:843-849 | so deleting a detached node is the step that the lemmas below are about |
| Teardown.CleanupDeletesProxies | node_sync.cpp:816-857 | though deletions cascade, the table is empty in the end, no node is deleted twice and the root never; and if no fetch overwrote an entry, every tracked proxy is deleted |
| Teardown.MissedIff | node_sync.cpp:841-849 | whatever was overwritten: a tracked proxy is not deleted exactly if another with its nid is deleted before its turn and what owns it, if anything does, is not deleted |
| Teardown.OverwrittenIsMissed | client_node.cpp:13-19 | a run in which two callers get the same child, after which closing misses the proxy that the second one fetched |
| Teardown.OnlyProxiesAndTheirs | node_sync.cpp:841-854 | a node of this end is deleted only if a tracked proxy owns it, directly or not |
| Teardown.LeftInPlaceIff | node_sync.cpp:835-840 | a node that is not deleted stays with its owner exactly if it is never its turn in the table; where no fetch overwrote an entry, exactly if the connection does not track it |
| Teardown.OriginalIsTakenOut | node_sync.cpp:835-840 | a node of this end that hangs from the root and is tracked hangs nowhere after closing, and is not deleted |
| Teardown.TouchesDeletedIff | node_sync.cpp:823-856 | from any state of the loop, whatever was overwritten, it will use a deleted node exactly if one is in the table or some proxy whose turn comes dooms one |
| Teardown.ClosingIsSafeIff | node_sync.cpp:816-857 | closing never uses a deleted node exactly if no proxy whose turn comes owns, over nodes that come after it, a tracked node of this end |
| Teardown.OwnedByProxyIsTouched | node_sync.cpp:822-856 | a node that a proxy owns and that was tracked after it is used after its deletion |
| Observable.OneToOneObservable.SetListener | observable.h:77-89 | both ends and all other objects afterwards, the same listener again and moved listeners included; each end is changed under its own lock, the other called under it, and no lock is taken twice |
| Observable.OneToOneObservable.Destroy | observable.h:68-75 | destroying an observable frees its listener |
| Observable.Listener.SetObservable | observable.h:30-38 | the observable let go is told, which must not be one that the caller has locked |
| Observable.Listener.Destroy | observable.h:20-23 | destroying a listener frees its observable |
| Observable.MatchingIsOneToOne | observable.h:20-45 | objects that point to each other make a one-to-one link |
| Observable.StaysOneToOne | observable.h:77-89 | after any calls on any objects no listener has two observables |
| Observable.LinkLasts | observable.h:77-95 | a link set lasts until a call that concerns one of its two objects |
| Observable.SameListenerAgain | observable.h:77-89 | setting the listener that is there changes nothing |
| Queue.LockingQueue.Pop | locking_queue.h:58-71 | it waits only while there is nothing, and takes the first element of what is there and what others push meanwhile |
| Queue.LockingQueue.WorkOff | node_sync.cpp:132-144 | the worker's loop, while others push, hands on all that comes before the first null package, in order, and leaves the rest |
| Queue.ProcessedInOrder | node_sync.cpp:132-163 | in every run the packages processed are a prefix of those queued, in order of arrival, all pushed before the null package; and every GENERATE_NID was answered on arrival |
| Queue.NothingIsLost | node_sync.cpp:132-163 | until the flag is cleared: every package that came, but for GENERATE_NIDs, has been processed or is queued, in order; the worker processes each package it takes, and can go on while there is one |
| Queue.StopEndsWorker | node_sync.cpp:18-24 | once the flag is cleared, whatever still arrives, nothing more is processed and the worker takes one step more at most; once null is pushed too it has ended or can take it |
| Queue.FlagAloneDoesNotWake | node_sync.cpp:20-22 | a worker that waits on an empty queue is not woken by the flag, but by the push |

## Left out

- Sockets, connectors, acceptors, the io service and Qt: the transport is a byte sequence whose `write` accepts a prefix and returns its length.
- The `tree/` library is not part of this model. Assumed of it: a name that is taken keeps its node; an attach notifies each listener once; adding a listener does not replay the children there are; a property's change notifies once or twice; a listener set is a set; the owner of a node is what `set_owner` last set; destroying a node destroys what it owns, and leaves nothing behind in the children of a parent that does not own it (`cleanup_children` detaches from the owner only).
- `property_serializer.h` and the node generator: values are byte sequences, and the types there is a factory for are a parameter. A QString with a zero character is cut there; that is not part of this model.
- Removal commands, `untrack`, `on_remove` and `child_removed` are empty or only print.
- A node under two paths and `CMD_AT_SUCCESS` arriving as a command are excluded by hypotheses; so is an ATTACH or SUBSCRIBE_ADD_REMOVE for an entry without a node, where the code uses a null pointer.
- Write failures in the middle of a protocol run: `RequestReply` and `Mirror` assume that writes succeed; the dispatcher's methods state what a failed write does.
- Frames shorter than 11 bytes, on which the code reads past the frame (package_stream.cpp:111-121).
- String lengths of 2^31 and more, where `int` offsets and sizes overflow, and nids of 2^64.
- The package's header pointers: offsets are used instead, so their invalidation between a resize and `reset_header` is not captured.
- Handlers are atomic steps of an end, and none runs while its own end holds `tracked_mutex` in a fetch or a GET; finer interleavings under that lock are not captured, except for who waits for whom, which `HubLocks` has.
- In `HubLocks` which tables a handler consults is a parameter, locks of the tree library are not part of it, and a table consulted is given back at once; the wait for a reply under `tracked_mutex` is in `MirrorWaits`.
- In `Teardown` nobody owns the root, which `cleanup_children` never takes from an owner, each proxy in the table is under its own nid, and what took a proxy's entry is a proxy; `Teardown.TrackingGivesOwnNids` proves it of sound runs.
- `locking_queue::push_front`, which nothing calls.
- `one_to_one_observable::notify`, which calls the listener under the observable's lock: what the dispatcher hands to its listener is in `Dispatcher` and `Endpoints`.
- That `current_nid++` is atomic is assumed: the receive thread does it without a lock (node_sync.cpp:156, 727), other threads under `tracked_mutex`, and that no nid is drawn twice rests on it.
- GENERATE_NID as a round trip: both ends draw from the server's counter in one step. `NodeSync.NodeSync.ProcessNotification` is the server's half, `NodeSync.NidReplyRead` what the client reads.
- In `PropertyPeers` the owner's end does not subscribe to the proxy, and packages arrive in the order they were written in, which `Dispatcher.EndToEnd` and `RequestReplyOrder` say.
- A GENERATE_NID sent one-way, which nobody sends, would take the table's lock under the stream's (package_stream.cpp:149, node_sync.cpp:153-158); `Locks` has it as a request only.
- The memory of one-way packages, and the reuse of a freed package's address as a table key: packages are objects that stay distinct.
- Logging, including the message at node_sync.cpp:855 that reads a node after it was deleted.
- `client` of client.cpp, which fetches its root; the other client class is the one modelled. `client_nonroot::child_added` has another signature than the listener's method and `server::generate_nid` hides one that is not virtual, so neither is ever called by the code modelled.
- Star.StarKeeps: a hub that fetches from a leaf is not a step of it, only leaves fetch; `Mirror` has both directions.
- `process_prop_value` gives the table's lock back before it stores the value; in `PropertySync` a reply taken in by a reader in between is a step before it or after it, and an UPDATED that is dropped while a reader takes one in counts as stored before it. A listener of the owner that sets the owner while it is told of a change is a set that follows.
- Several proxies of one property, and a property at a hub that is itself a proxy and passes SET and UPDATED on: `PropertySync` has one owner and one proxy.
- MirrorRuns.FetchNode: while it waits, the peer works off its queue and does nothing else, and nothing happens between lookup, fetch and insertion: it shows that the fetch ends. What it brings whatever else happens is in `MirrorGets`.
- MirrorRuns.Get: the same schedule.
- NodeSync.NodeSync.CmdLs: the order of the names is that in which the tree library lists them.
- MirrorRuns.OnlyAttachAnnounces: is about one connection; passing an announcement on to other connections is in `StarRuns`.
- StarOrigins.OriginsDiffer: is about two nodes of one state; what is heard at different times is in `StarOrigins.HeardComeFromAttaches`.
- HubLocks.CanEndIff: is about a state, whatever brought it about; which handlers can bring it about is in `HubCycles.StickIff`.
- PropertySync.StaysSynced: is one-way, because a break need not leave the values apart.
