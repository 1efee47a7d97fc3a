# PowerAPI: a verified model

PowerAPI is a client library (`pwrapic`) and a service (`pwrapis`) that talk over a Unix stream socket.
This project models the parts of both that carry state, loops or arithmetic, and proves what they keep
over every input, every run and every interleaving of their threads.

`dafny verify dfyconfig.toml` checks all of it.

## What is modelled

- **The request/reply protocol** (`Protocol*.dfy`). Any number of client processes, each with any number of
  caller threads and one socket thread, and the service's socket and service threads. A step is one region
  under a lock or one message passed; steps of all threads interleave freely, and any step may be preceded
  by a timeout, a disconnect, a reconnect or a full ring. `Protocol` holds the steps and the invariant,
  `ProtocolFrames`, `ProtocolCallers`, `ProtocolNetwork` and `ProtocolLinks` the proof that each step keeps
  it, `ProtocolSteps` the induction over runs, `ProtocolHistory` what happens to each request and reply over
  a whole run, `ProtocolFates` where each step puts each of them and when one is lost, `ProtocolResults` what
  calls return, `ProtocolWaiting` the wait list over runs, `ProtocolTheorems` the results on correlation and
  routing, `ProtocolOrder` the order in which requests are served across reconnects, `ProtocolProgress` that
  nobody is ever stuck, and `ProtocolWitnesses`
  complete runs that show what goes wrong outside the stated conditions.
- **The queues underneath**, as heap objects that refine sequences: the 64-slot drop-oldest ring (`MsgRing`),
  the doubly linked list of waiting callers (`WaitList`), the client table (`ClientTable`), the intrusive
  circular list of `list.h` (`CircularList`).
- **Framing** (`Framing`): the chunking send loops and the client's receive loop, with partial and failed sends and
  partial receives; and the whole way of a request from a caller's thread to the service thread, byte by
  byte, for any number of clients (`Pipeline`).
- **Messages** (`PwrMessage`): sequence ids, requests, replies and the header's bytes.
- **The data-collection tasks**: the table of tasks and subscribers with its cached counts and intervals
  (`TaskSpec` as values, `TaskService` as objects changed in place, `TaskTheorems` what holds over every
  run), and the pace of deliveries (`Pacing`).
- **Control authority** on both sides of the wire (`ControlAuth`: the two classes, and a step system whose
  steps do to owner and status what their methods do), and the clean-up after a client that ties authority,
  tasks and client table together (`Cleanup`).
- **CRC-32** (`Crc32`): the table against bit-by-bit division, chunking, burst detection. The polynomial and
  the bit order are those of section 8 of RFC 1952.
- **In-place list and string algorithms**: sorting and merging CPU policies (`Policies`), fields, split and
  join (`Fields`).

`Outcomes` and `Sequences` hold shared notions.

## Where the code does not do what one would expect

The model follows the code. Each of these is stated exactly by the members named, most with a concrete case:

- A reply may be returned to a call that did not ask for it: when a waiting call whose draw is a multiple
  of 65536 away stands in front of the right one in the list, or the right one is not in it, or a returned
  node has cut it; and in no other case (`ProtocolTheorems.MatchIsOwnIff`, `ProtocolTheorems.DeliveriesAreOwnIff`,
  `ProtocolWitnesses.LateReplyReachesAnotherCall`).
- `MoveOutWaitingMsg` reads the list head before it takes the lock. If that head leaves the list meanwhile,
  the caller's node stays in the list after its call has returned (`ProtocolWaiting.MoveOutMissesIff`,
  `ProtocolWitnesses.ReturnedNodeStaysInList`), and releasing it there nulls its links, so that later
  searches may end at it (`WaitList.ResultWaitingMsgList.ReleaseResultWaitingMsgNode`, `Protocol.Damaged`).
  If that head was the caller's own node and a reply has come meanwhile, it is unlinked a second time
  through null links, which ends the process (`ProtocolWaiting.MoveOutEndsProcessIff`,
  `ProtocolWitnesses.ProcessEnds`, `WaitList.ResultWaitingMsgList.MoveOutFrom`).
- `ResetPwrMsgBuffer` walks one slot behind the live ones and never releases the newest message
  (`MsgRing.ResetReleasesAllIffEmpty`).
- `ProcessRecvMsgFromClient` releases a message that is not a request, which sets its pointer to null
  (`common/inc/pwrmsg.h:93-102`), and then reads through that pointer (`pwrapis/src/server.c:185`). A length of
  0x8000_0000 or more becomes negative as the `int` of the server's `ReadMsg`, which clears that many bytes as a
  `size_t` (`pwrapis/src/server.c:142-149`). The service ends exactly when it has read the header of a message of
  one of these two kinds (`Pipeline.ServerEndsIff`, `Pipeline.OtherMessageEndsServer`,
  `Pipeline.LongRequestEndsServer`).
- The client's `ReadMsg` reads nothing for such a length and reports success, so that the data is taken for the
  messages that come next (`Framing.RoundTrip`, `Framing.CutStream`, `Framing.OneIsReceivedAsMany`).
- `WriteMsg` keeps the result of `send` in a `size_t`, so that a failed send is no error but one step back, and
  a byte too many is sent for it (`Framing.Sender.WriteMsg`).
- `CleanClientResource` is called with the table base, so it cleans the authority and tasks of the client
  in entry 0 (`Cleanup.ClientIsCleanedIff`, `Cleanup.OthersUntouchedIff`, `Cleanup.WrongClientIsCleaned`).
- A task's interval is recomputed over empty slots too, which count as 0, and is never raised when a
  client asks for a longer one (`TaskTheorems.RecomputedIsLeastIff`, `TaskTheorems.IntervalCollapses`,
  `TaskTheorems.AddedIntervalIsLeastIff`). A client numbered 0 is taken for an empty slot
  (`TaskTheorems.CountStaysIff`, `TaskTheorems.ClientZeroEndsTask`).
- A client that gives up on a release which is carried out still believes it has the authority, and a second
  client may get it; likewise after a clean-up (`ControlAuth.StepKeepsIff`, `ControlAuth.UnfairLoses`,
  `ControlAuth.LostReleaseMakesTwoHolders`, `ControlAuth.CleanMakesTwoHolders`).
- `GetFileCrc32Val` starts from the caller's value, not from 0xFFFFFFFF (`Crc32.FileAgreesWithBuffer`).
- `MergeDuplicatePolicys` rewrites ids but leaves the frequencies where they are
  (`Policies.MergeKeepsRecordsIff`, `Policies.PairsKeptIff`, `Policies.FrequenciesStayBehind`).
- `MergeDuplicatePolicys` writes outside its array of flags exactly for negative ids (`Policies.MarkIds`).
- `GetNthField` is documented to return a position in the source; it returns the field buffer. It and
  `StrJoin` compare `bufLen` with the text alone, so that a text which fills the buffer has its terminator
  written behind it; `StrJoin` also overruns its own line of 256 characters when the joined line is longer.
  Both are outcomes of the model with their exact conditions (`Fields.GetNthField`,
  `Fields.FieldFillsBuffer`, `Fields.StrJoin`).
- `AddToClientList` compares the new id with those of free entries, which are -1
  (`ClientTable.Clients.AddToClientList` and `ClientTable.Clients.AcceptConnection` state that case).

## Assumptions

In the protocol, client ids are not 0 and not -1, one process has one id for a whole run, its messages are
requests, and lengths of requests and replies are right and below 0x8000_0000 (`Pipeline` has messages of any type
and length, `Framing` of any length). Connection ids grow in the order in which connections are made, and `accept`
takes the oldest connection that is pending. A step that needs memory gets it, unless a parameter says otherwise.
A process that has ended takes no further steps; since no step of `Protocol` has to be taken, what is said of all
its runs includes these. A run without spurious wakeups and without the late list head above is called orderly;
unless that word appears, what is said about the protocol holds for all runs.

## Model

| member | source | states |
|---|---|---|
| ProtocolSteps.EveryRunKeeps | pwrapic/src/sockclient.c:254-317 | Over every interleaving of callers, socket threads, service thread, timeouts and reconnects: every packet in a queue is the request of its call, or an answer to it, is in one queue only, and belongs to the client that owns the queue; wait lists hold each node once; heads read early are heads or gone; each reply is with at most one waiter; table and open connections agree |
| ProtocolSteps.StepKeeps | pwrapis/src/server.c:107-274 | Each single step of either process, enabled or not, keeps that invariant |
| ProtocolCallers.DrawKeeps | common/src/pwrmsg.c:25-73 | Adding a newly drawn call with its request keeps the invariant |
| ProtocolCallers.DrawIsNew | common/src/pwrmsg.c:25-34 | The draw number of a new call is that of no earlier call of the process |
| ProtocolNetwork.EnqueueKeeps | pwrapic/src/sockclient.c:291-296 | Putting the clone into the send ring keeps the invariant, also when the full ring drops its oldest request |
| ProtocolCallers.RegisterKeeps | pwrapic/src/sockclient.c:298-306 | Appending the caller's node, also after its request has been answered, keeps the invariant |
| ProtocolCallers.PhaseKeeps | pwrapic/src/sockclient.c:307-311 | Waking up, timing out (with the list head read before the lock) and being refused keep the invariant |
| ProtocolCallers.MoveOutKeeps | common/src/pwrbuffer.c:212-227 | The removal that starts from the head read earlier, whatever happened to the list in between, keeps the invariant |
| ProtocolCallers.ReturnKeeps | pwrapic/src/sockclient.c:312-316 | Returning with whatever reply the node then has keeps the invariant; what is returned is the matter of ProtocolResults.ReturnedIffHanded |
| ProtocolCallers.GiveReplyKeeps | pwrapic/src/sockclient.c:118-130 | Handing a matched reply to a call, which may have timed out or returned by then, keeps the invariant |
| ProtocolNetwork.ClientSendKeeps | pwrapic/src/sockclient.c:173-206 | Moving the oldest request from ring to connection keeps the invariant |
| ProtocolNetwork.StampIsIdentity | pwrapis/src/server.c:196-197 | In every reachable state the id the server stamps on a request is the one it already carries |
| ProtocolNetwork.ServerRecvKeeps | pwrapis/src/server.c:170-204 | Taking a request off a registered connection into the shared ring keeps the invariant |
| ProtocolNetwork.ServeKeeps | pwrapis/src/server.c:396-408 | The service thread taking the oldest request keeps the invariant |
| ProtocolNetwork.AnswerKeeps | pwrapis/src/server.c:462-482 | Queueing a handler's reply, with any code and payload, keeps the invariant; what the reply says is the matter of ProtocolResults.ReturnedAsAnswered |
| ProtocolNetwork.StaySilentKeeps | pwrapis/src/server.c:336-390 | A handler that sends nothing keeps the invariant |
| ProtocolLinks.ServerSendKeeps | pwrapis/src/server.c:233-274 | Taking the oldest reply off the send ring, written to a connection or dropped, keeps the invariant; which of the two is the matter of ProtocolTheorems.SentToTheRegistered |
| ProtocolLinks.CrowdKeeps | pwrapis/src/server.c:484-499 | Pushing the oldest reply out of the send ring to make room for collected data keeps the invariant |
| ProtocolLinks.ArrivingFits | common/src/pwrbuffer.c:196-210 | The reply at the front of a connection that matches a waiting node by id answers a call of the same client with the same id |
| ProtocolLinks.MatchKeeps | pwrapic/src/sockclient.c:118-130 | Taking the waiter that the search finds out of the list and giving it the reply keeps the invariant |
| ProtocolLinks.DropKeeps | pwrapic/src/sockclient.c:120-124 | Dropping a reply for which the search finds no waiter keeps the invariant |
| ProtocolLinks.ConnectKeeps | pwrapic/src/sockclient.c:209-252 | Making a new connection keeps the invariant |
| ProtocolLinks.DisconnectKeeps | pwrapic/src/sockclient.c:54-77 | Losing a connection, with packets still on it, keeps the invariant |
| ProtocolLinks.AcceptKeeps | pwrapis/src/server.c:107-133 | Accepting a connection keeps the part of the invariant about table and connections; who is accepted is the matter of ProtocolTheorems.AcceptMeans |
| ProtocolLinks.ServerCloseKeeps | pwrapis/src/pwrclient.c:73-82 | Closing a client's connection keeps the invariant |
| ProtocolHistory.StepAdvances | pwrapis/src/server.c:170-408 | No request or reply ever moves back on its way, and one given to a waiter or dropped stays so |
| ProtocolHistory.ServedOnce | pwrapis/src/server.c:396-408 | Over every run the service thread takes no request twice |
| ProtocolHistory.AnsweredOnce | pwrapis/src/server.c:462-482 | Over every run at most one reply is made for each request |
| ProtocolHistory.AnsweredWereServed | pwrapis/src/server.c:336-408 | Over every run only requests that were taken are answered |
| ProtocolHistory.GivenByDelivery | pwrapic/src/sockclient.c:118-130 | No step but the matching of an arrived reply gives a reply to a waiter |
| ProtocolHistory.DeliveredOnce | common/src/pwrbuffer.c:196-210 | Over every run each reply reaches at most one waiter and each waiter gets at most one reply |
| ProtocolHistory.ResultsWereDelivered | pwrapic/src/sockclient.c:312-316 | What SendMsgSyn returns was delivered to that very call |
| ProtocolFates.EveryPacketFares | pwrapic/src/sockclient.c:173-206 | In every run each step moves each request and reply to the place that Fate states, full rings, unregistered clients and replies without a waiter included, and it is then in the queue of that place |
| ProtocolFates.PlaceIffQueued | pwrapis/src/server.c:170-274 | In every run a request or reply is at a place exactly when it is in the queue there |
| ProtocolFates.LostIff | common/src/pwrbuffer.c:57-71 | In every run a step loses a packet exactly for one of these: it is the oldest of a ring of 63 that takes another one, nobody answers it, collected data displaces it, its client is not registered, the search finds nobody to wait for it |
| ProtocolResults.GivenIsHanded | pwrapic/src/sockclient.c:118-130 | In every run a reply matched to a call is in the hand of the socket thread, or was handed to that call, or the call had returned |
| ProtocolResults.ReturnedIffHanded | pwrapic/src/sockclient.c:312-316 | In every run a returned call has returned the reply to a request exactly when that reply was handed to it before it returned |
| ProtocolResults.WokenReturnsReply | pwrapic/src/sockclient.c:307-316 | In every orderly run a call that was woken returns a reply |
| ProtocolResults.TakenAsDrawn | common/src/pwrmsg.c:42-73 | In every run the service takes each request with every field as it was drawn: versions, operation, id, task, length, client and data |
| ProtocolResults.ReturnedAsAnswered | common/src/pwrmsg.c:129-149 | In every run what a call returns as the reply to a request has the code, data and length that the handler gave when it answered that request, and versions, operation, id, task and client of the request |
| ProtocolTheorems.ReplyAnswersAnEqualId | pwrapic/src/sockclient.c:284-317 | In every run a returned reply answers a request of the same process whose draw is a multiple of 65536 away |
| ProtocolTheorems.MatchIsOwnIff | common/src/pwrbuffer.c:196-210 | In every reachable state: the reply about to be taken can only go to the call it is for, or be dropped, exactly when every other waiting call of that client whose draw is congruent to it modulo 65536 stands behind that call in an uncut list |
| ProtocolTheorems.InTurnDeliveriesAreOwn | pwrapic/src/sockclient.c:118-130 | In every run in which replies are taken in that situation only, every reply goes to the call it is for |
| ProtocolTheorems.DeliveriesAreOwnIff | pwrapic/src/sockclient.c:118-130 | In every orderly run, all replies go to the calls they are for exactly when all are taken in that situation |
| ProtocolTheorems.InTurnReplyIsOwn | pwrapic/src/sockclient.c:284-317 | What SendMsgSyn then returns answers the caller's own request |
| ProtocolTheorems.WindowedDeliveriesAreOwn | common/src/pwrmsg.c:25-34 | If no call still waiting and no reply about to be taken is 65536 draws old, every reply is taken in that situation, and goes to the call it is for |
| ProtocolTheorems.WindowedReplyIsOwn | pwrapic/src/sockclient.c:284-317 | Then every reply SendMsgSyn returns answers the caller's own request |
| ProtocolTheorems.RepliesAreRoutedHome | pwrapis/src/server.c:245-249 | In every run the replies on a connection answer calls of the client that owns it |
| ProtocolTheorems.SentToTheRegistered | pwrapis/src/server.c:233-274 | In every run, sending puts the oldest reply at the end of exactly the connection registered for the client that made the call, which is open and its own; if there is none, and on all others, nothing changes |
| ProtocolTheorems.OpenIffInTable | pwrapis/src/pwrclient.c:50-71 | In every run a connection is open at the server exactly when the table lists it, and no two clients share one |
| ProtocolTheorems.AcceptMeans | pwrapis/src/pwrclient.c:50-71 | In every run, accepting a connection opens it exactly when its client is registered, whose old connection is then closed, or fewer than three clients are; otherwise it is closed itself; no other connection changes and no packet moves |
| ProtocolTheorems.CloseMeans | pwrapis/src/pwrclient.c:73-82 | In every run, closing a client's connection closes its open one and no other, and takes that client only off the table |
| ProtocolTheorems.ReconnectWorks | pwrapic/src/sockclient.c:254-263 | In every run, a client that loses its connection and makes a new one is registered with that when it is accepted, its old ones are closed, and its ring, its wait list and its draws are as before |
| ProtocolWaiting.MoveOutMissesIff | common/src/pwrbuffer.c:212-227 | In every run, and a list that no returned node has cut, a timed-out caller's node stays in the list exactly when it was there and the head read before the lock is not |
| ProtocolWaiting.ReturnedCallsAreOut | pwrapic/src/sockclient.c:307-316 | In every orderly run no call that is past its wait has a node in the list |
| ProtocolWaiting.MoveOutEndsProcessIff | common/src/pwrbuffer.c:91-112 | In every run a removal ends the process exactly when the head read before the lock was the caller's own node and a reply has been given to the call since |
| ProtocolOrder.EveryRunInLine | pwrapis/src/server.c:107-204 | In every run the requests handled, in the server's ring, on connections the server reads or will read, and in the clients' rings stand in the order of their enqueueing, per client; a client's connections are used in the order in which they were made |
| ProtocolOrder.ServedInOrder | pwrapis/src/server.c:396-408 | In every run, disconnects and reconnects included, the service takes the requests of one client in the order in which its callers enqueued them |
| ProtocolProgress.CallIsNotStuck | pwrapic/src/sockclient.c:284-317 | In every run the caller of a call can go on in each of its phases, unless its process has ended |
| ProtocolProgress.ProcessIsNotStuck | pwrapic/src/sockclient.c:254-282 | In every run a process that has not ended can make a call; its socket thread can hand over the reply in its hand and, without one, send the oldest request and take the oldest reply of its connection |
| ProtocolProgress.ServerIsNotStuck | pwrapis/src/server.c:281-322 | In every run the server can receive what is on an open connection, accept the oldest pending one, serve what it has received, make any reply, and send what it has made |
| ProtocolTheorems.ReplyIsDeliveredIffAwaited | pwrapic/src/sockclient.c:118-130 | In every orderly run an arriving reply goes to the call it is for if that is listed, and is dropped otherwise, exactly in that situation |
| ProtocolWitnesses.ReturnedNodeStaysInList | common/src/pwrbuffer.c:212-227 | A run of eleven steps after which a call has returned and its node is still in the list |
| ProtocolWitnesses.ProcessEnds | common/src/pwrbuffer.c:91-112 | A run in which a reply comes between the timeout of a call and its removal, after which the process has ended |
| ProtocolWitnesses.LateReplyReachesAnotherCall | common/src/pwrmsg.c:25-34 | A run with 65536 draws after which a call has returned the reply to another one |
| PwrMessage.SeqIdsCollide | common/src/pwrmsg.c:25-34 | Two draws of one process have the same id exactly when they are a multiple of 65536 apart |
| PwrMessage.SeqIdIdentifiesDraw | common/src/pwrmsg.c:25-34 | Fewer than 65536 draws apart, an id identifies its draw |
| PwrMessage.MsgFactory.GenerateSeqId | common/src/pwrmsg.c:25-34 | The shifted, wrapping 32-bit computation yields the id of the draw, and the seed wraps at 16 bits |
| PwrMessage.MsgFactory.CreateReqMsg | common/src/pwrmsg.c:42-73 | Every header field of a request, with a newly drawn id |
| PwrMessage.HeadLayout | common/inc/pwrmsg.h:28-46 | At which of the 40 bytes each field lies, least significant byte first |
| PwrMessage.DecodeEncodedHead | common/inc/pwrmsg.h:28-46 | The 40 transmitted bytes decode to the header they were made from, whatever the pointer bytes |
| PwrMessage.EncodeDecodedHead | common/inc/pwrmsg.h:28-46 | Any 40 bytes are the encoding of the header they decode to |
| MsgRing.PwrMsgBuffer.constructor | common/src/pwrbuffer.c:34-41 | An empty ring with 64 empty slots |
| MsgRing.PwrMsgBuffer.AddToBufferTail | common/src/pwrbuffer.c:57-71 | The queue gets the message at its end; a queue of 63 first loses its oldest one, which is released; dead slots stay null |
| MsgRing.PwrMsgBuffer.PopFromBufferHead | common/src/pwrbuffer.c:73-88 | Takes the oldest message out, or nothing from an empty queue |
| MsgRing.PwrMsgBuffer.DeleteFromHead | common/src/pwrbuffer.c:24-31 | Releases the oldest message and clears its slot |
| MsgRing.PwrMsgBuffer.IsEmptyBuffer | common/inc/pwrbuffer.h:51-57 | True exactly for the queue without messages |
| MsgRing.PwrMsgBuffer.ResetPwrMsgBuffer | common/src/pwrbuffer.c:43-55 | Releases all messages but the newest, which is left in its slot |
| MsgRing.ResetReleasesAllIffEmpty | common/src/pwrbuffer.c:43-55 | So it releases everything exactly when there is nothing to release |
| MsgRing.EveryMessageIsAccountedFor | common/src/pwrbuffer.c:57-88 | After any run of adds and pops, what left the ring followed by what is in it is what was added, in order; never more than 63 are in it |
| MsgRing.PoppedInOrder | common/src/pwrbuffer.c:57-88 | The popped messages are a subsequence of the added ones, and each added one is popped, evicted or live, exactly one of these |
| MsgRing.DeparturesSplit | common/src/pwrbuffer.c:57-88 | Popped and evicted messages together are all that left |
| WaitList.ResultWaitingMsgList.MoveFromList | common/src/pwrbuffer.c:91-112 | Unlinks exactly the given node and nulls its links, or ends the process for a node that is not in the list |
| WaitList.ResultWaitingMsgList.Unlink | common/src/pwrbuffer.c:96-111 | In each of its four cases takes out exactly the given node, keeps the order of the rest and the list well linked, and nulls the node's links |
| WaitList.ResultWaitingMsgList.WalkTo | common/src/pwrbuffer.c:216-221 | The walk from a head read earlier gets to the node exactly when that head is the node itself, or in the list and not behind it |
| WaitList.ResultWaitingMsgList.AddToWaitingListTail | common/src/pwrbuffer.c:173-192 | Appends the node at the end |
| WaitList.ResultWaitingMsgList.FindAndMoveWaitingMsg | common/src/pwrbuffer.c:196-210 | Takes out the first node whose request is set and has the id, or nothing if there is none |
| WaitList.ResultWaitingMsgList.MoveOutFrom | common/src/pwrbuffer.c:212-227 | From a head read earlier: takes the node out if it is at or after that head, else changes nothing; ends the process exactly when that head is the node itself and has left the list |
| WaitList.ResultWaitingMsgList.MoveOutWaitingMsg | common/src/pwrbuffer.c:212-227 | Called without interference: exactly the given node leaves, or nothing |
| WaitList.MoveOutSucceedsIff | common/src/pwrbuffer.c:212-227 | The node is out afterwards exactly when it was out already or the starting point is still a list node at or before it |
| WaitList.ResultWaitingMsgList.ReleaseResultWaitingMsgNode | common/src/pwrbuffer.c:129-142 | Clears the node; the list stays well linked exactly when the node is not in it, or alone in it |
| WaitList.ResultWaitingMsgList.ResetResultWaitingList | common/src/pwrbuffer.c:154-171 | Empties the list and clears every node that was in it |
| ClientTable.Clients.AddToClientList | pwrapis/src/pwrclient.c:50-71 | For a known client: succeeds, its descriptor is the new one, and of the open ones just its old one is closed; for a new client: succeeds exactly when an entry is free, and closes none; the map gains this pair or stays; including what happens for the id of free entries |
| ClientTable.Clients.AcceptConnection | pwrapis/src/server.c:107-133 | An accepted descriptor is in the table or closed: in it exactly when the client is known, whose old descriptor is then closed, or an entry is free; for an address that reads as the id of free entries, the table stays well formed exactly if it was full |
| ClientTable.Clients.DeleteFromClientList | pwrapis/src/pwrclient.c:73-82 | Frees exactly the entry, closes its descriptor, and refuses an index outside the table |
| ClientTable.Clients.CloseAllConnections | pwrapis/src/pwrclient.c:84-94 | Leaves an empty table and no open descriptor |
| ClientTable.Clients.GetFdBySysId | pwrapis/src/pwrclient.c:96-104 | The map's lookup, with the unsigned id read as the signed one |
| ClientTable.Clients.GetIdxByFd | pwrapis/src/pwrclient.c:106-114 | The entry of an open descriptor, or none |
| ClientTable.ViewIsInjective | pwrapis/src/pwrclient.c:22-114 | The table is an injective partial map whose range is the descriptors in use |
| ClientTable.ViewSize | pwrapis/src/pwrclient.c:22-30 | The map has as many entries as the table has used slots |
| ClientTable.ViewIs | pwrapis/src/pwrclient.c:96-104 | A pair is in the map exactly when a used entry holds it |
| CircularList.ListInit | common/inc/list.h:25-29 | A ring of one |
| CircularList.ListAdd | common/inc/list.h:34-40 | Between neighbours: the ring with the item inserted there |
| CircularList.ListAddHead | common/inc/list.h:45-48 | The item comes first after the head |
| CircularList.ListAddTail | common/inc/list.h:53-56 | The item comes last |
| CircularList.DelItem | common/inc/list.h:70-73 | The ring without the item, whose own links stay |
| CircularList.DelAndClearItem | common/inc/list.h:75-80 | The ring without the item, whose links are null |
| CircularList.ReplaceItem | common/inc/list.h:85-91 | The ring with the new item in the old one's place |
| CircularList.IsLastItem | common/inc/list.h:96-99 | True exactly for the last item |
| CircularList.IsFirstItem | common/inc/list.h:104-107 | True exactly for the first item (for the head of an empty list, the head itself) |
| CircularList.IsEmptyList | common/inc/list.h:112-115 | True exactly for a ring of one |
| CircularList.JoinList | common/inc/list.h:117-127 | The items of a non-empty source, then those of the target, in one ring |
| CircularList.SpliceList | common/inc/list.h:132-137 | The target becomes the source's items followed by its own, also for an empty source; the source's head keeps its links |
| Framing.Sender.WriteMsg | pwrapic/src/sockclient.c:79-98 | Whatever partial sends occur, exactly the given bytes are sent, in order, exactly when no send fails; each send that fails makes the stream one byte longer (likewise pwrapis/src/server.c:206-231) |
| Framing.Sender.SendOne | pwrapic/src/sockclient.c:183-203 | Header and data go out once, in order, exactly when no send fails, in writes of 1 to 4096 bytes that join to them; likewise pwrapis/src/server.c:250-270 |
| Framing.Sender.SendRest | pwrapic/src/sockclient.c:193-202 | After a first full chunk, the loop and the last write send the rest, with one byte more for each send that fails |
| Framing.Sender.SendMsgToSocket | pwrapic/src/sockclient.c:173-206 | Pops messages off the ring, at most as many as the loop allows; they are sent whole and in order exactly when no send fails |
| Framing.Receiver.ReadMsg | pwrapic/src/sockclient.c:54-77 | Whatever partial receives occur, returns exactly the bytes asked for, or reports a closed connection when fewer come; a negative length is success with nothing read |
| Framing.Receiver.RecvMsg | pwrapic/src/sockclient.c:147-165 | One message off the stream, or none from a cut one; of a message whose length is 0x8000_0000 or more the header alone |
| Framing.Receiver.RecvAll | pwrapic/src/sockclient.c:254-282 | All that is received of a stream, in order, until it ends |
| Framing.RoundTrip | pwrapic/src/sockclient.c:147-206 | What is received of any list of messages is that list exactly when all their lengths are below 0x8000_0000 |
| Framing.CutStream | pwrapic/src/sockclient.c:54-77 | Of a stream cut anywhere, exactly the messages sent whole before the cut are received, exactly when the lengths in all headers before the cut are below 0x8000_0000 |
| Framing.OneIsReceivedAsMany | pwrapic/src/sockclient.c:155-165 | One message of 0x8000_0000 zero bytes is received as 53687092 messages |
| Pipeline.EveryRunKeeps | pwrapis/src/server.c:170-204 | In every run, for messages of any type and length, the bytes between two ends are those of the messages on their way, and only requests with lengths below 0x8000_0000 are delivered to the service |
| Pipeline.HandledInOrder | pwrapis/src/server.c:396-408 | In every run the messages handled for a client are a subsequence, in order and but for the stamped id unchanged, of those its callers enqueued |
| Pipeline.EveryRequestIsAccountedFor | pwrapic/src/sockclient.c:173-206 | In every run each enqueued message is handled, evicted from one of the two rings, waiting in one of them, or on its way, exactly one of these |
| Pipeline.HandledAndEvicted | common/src/pwrbuffer.c:57-88 | In every run the messages handled grow by the oldest of the ring when the service takes one and not otherwise, and those evicted by the oldest of a ring of 63 that takes another one |
| Pipeline.NobodyIsStuck | pwrapis/src/server.c:170-204 | In every run in which the server goes on, what is on its way can be sent, received or delivered, and what is in a ring can be taken |
| Pipeline.ServerEndsIff | pwrapis/src/server.c:142-194 | In every run the server has ended exactly when it has read the header of a message that is not a request, or whose length is 0x8000_0000 or more |
| Pipeline.ServableKeepServer | pwrapis/src/server.c:142-194 | It goes on in every run in which callers enqueue requests below that length only |
| Pipeline.OtherMessageEndsServer | common/inc/pwrmsg.h:93-102 | For every other message the concrete run of four steps that ends it |
| Pipeline.LongRequestEndsServer | pwrapis/src/server.c:142-149 | Such a run with a request of 0x8000_0000 zero bytes |
| TaskService.CollTask.constructor | pwrapis/src/taskservice.c:269-279 | A task with one subscriber and two empty slots |
| TaskService.CollTask.FindSubscriberById | pwrapis/src/taskservice.c:106-114 | The first slot with the id, or none |
| TaskService.CollTask.UpdataTaskInterval | pwrapis/src/taskservice.c:88-104 | With an index the minimum of old interval and that subscriber's; without one the least of the cap and all three slots |
| TaskService.CollTask.AddSubscriber | pwrapis/src/taskservice.c:116-143 | Updates a known subscriber, takes the first free slot for a new one, or refuses |
| TaskService.CollTask.RemoveSubscriber | pwrapis/src/taskservice.c:150-156 | Clears the subscriber's slot and lowers the count, or changes nothing |
| TaskService.TaskTable.FindCollTaskByType | pwrapis/src/taskservice.c:52-63 | The first task of the type, unless the count is 0 |
| TaskService.TaskTable.FindAvailebleTaskSlot | pwrapis/src/taskservice.c:65-73 | The first free slot, or none |
| TaskService.TaskTable.FiniTask | pwrapis/src/taskservice.c:75-81 | Frees the slot and lowers the task count |
| TaskService.TaskTable.AddSubscriber | pwrapis/src/taskservice.c:116-143 | The task in the slot gets the subscriber; an empty slot is an error |
| TaskService.TaskTable.DeleteSubscriber | pwrapis/src/taskservice.c:145-164 | The task in the slot loses the subscriber, and ends or recomputes its interval; an empty slot is an error |
| TaskService.TaskTable.CreateNewTask | pwrapis/src/taskservice.c:262-293 | A new task in the first free slot, or nothing changed and the code of what failed |
| TaskService.TaskTable.CreateTask | pwrapis/src/taskservice.c:297-312 | Subscribes to the running task of the type or starts one |
| TaskService.TaskTable.DeleteTask | pwrapis/src/taskservice.c:314-324 | Removes the client from the task of the type, if there is one |
| TaskService.TaskTable.FiniAllTask | pwrapis/src/taskservice.c:326-335 | Ends the tasks in all slots |
| TaskService.TaskTable.DeleteAllTaskByClient | pwrapis/src/taskservice.c:337-348 | Removes the client from the tasks in all slots |
| TaskTheorems.EveryRunKeeps | pwrapis/src/taskservice.c:52-164 | After any run of create, delete, clean-up and finish: the count is that of the occupied slots, data types are distinct, each task has one to three distinct subscribers, as many as it counts, and an interval at most each one's |
| TaskTheorems.WishesAfterRun | pwrapis/src/taskservice.c:295-348 | After any run each operation changes what clients asked for as in a map from type and client to interval: only the named client's entries |
| TaskTheorems.ClocksAfterRun | pwrapis/src/taskservice.c:116-143 | After any run the clock of a subscription starts when its client subscribes, and no later operation of any client moves it |
| TaskTheorems.CreatedMeans | pwrapis/src/taskservice.c:262-312 | Succeeds exactly when there is room and resources; then records this client's interval, with its clock kept or started now, and touches no other; else changes nothing |
| TaskTheorems.CodeMeans | pwrapis/src/taskservice.c:116-143 | Which code a subscription gets: by the count of subscribers of a running task, else by the count of tasks and by what a new one can have |
| TaskTheorems.DeletedTaskMeans | pwrapis/src/taskservice.c:314-324 | Removes this client's subscription only, and ends the task exactly when nobody else subscribes |
| TaskTheorems.CleanedMeans | pwrapis/src/taskservice.c:337-348 | Takes away this client's subscriptions only, and ends exactly the tasks of which it was the only subscriber |
| TaskTheorems.FinishedIsEmpty | pwrapis/src/taskservice.c:326-335 | Finishing leaves no task and a count of 0 |
| TaskTheorems.DeletedEndsIff | pwrapis/src/taskservice.c:145-164 | A task ends exactly when no other client subscribes to it |
| TaskTheorems.SomebodyAsks | pwrapis/src/taskservice.c:158-160 | Every task in the table has a subscriber |
| TaskTheorems.IntervalIsSoonEnough | pwrapis/src/taskservice.c:88-104 | A task's interval never exceeds what any of its clients asked for |
| TaskTheorems.RecomputedIsLeastIff | pwrapis/src/taskservice.c:97-103 | When a client is removed, the interval becomes the least one that the others ask for exactly when that is not positive, or all slots are taken by other clients and it is not above the cap |
| TaskTheorems.IntervalCollapses | pwrapis/src/taskservice.c:97-103 | After a subscriber has left, non-negative wishes always leave the interval 0 |
| TaskTheorems.AddedIntervalIsLeastIff | pwrapis/src/taskservice.c:88-95 | After subscribing or asking again the interval is the least one asked for exactly when the new wish is at most the old interval or another client asks for that |
| TaskTheorems.CountStaysIff | pwrapis/src/taskservice.c:150-156 | The count stays that of the subscribers exactly for ids other than 0, or when no slot is empty |
| TaskTheorems.ClientZeroEndsTask | pwrapis/src/taskservice.c:145-164 | Removing client 0 ends a task that client 5 still wants |
| Pacing.DistanceBounds | pwrapis/src/utils.c:148-151 | The truncated distance is off by at most 999 microseconds either way |
| Pacing.SendMetadataToSubscribers | pwrapis/src/taskservice.c:166-180 | Sends to the due subscribers for whom memory is had, in slot order, and moves exactly their clocks; to everybody for whom 1000 * interval + 999 microseconds have passed, and to nobody for whom not 1000 * interval - 999 have |
| Pacing.LateReadingDelivers | pwrapis/src/taskservice.c:166-180 | Over any rounds, a reading at least 1000 * interval + 999 microseconds after the last delivery brings the next |
| Pacing.EarlyReadingDoesNot | pwrapis/src/taskservice.c:166-180 | One less than 1000 * interval - 999 microseconds after it brings none |
| Pacing.WholeReadingDeliversIff | pwrapis/src/utils.c:148-151 | Between readings whole milliseconds apart a delivery comes exactly when the interval has passed |
| Pacing.NobodyIsOverdue | pwrapis/src/taskservice.c:166-180 | After a round with memory, the data came in it or not 1000 * interval + 999 microseconds ago |
| Pacing.DeliveriesKeepUp | pwrapis/src/taskservice.c:166-180 | With memory and readings at most gap apart, deliveries are less than 1000 * interval + 999 + gap microseconds apart |
| Pacing.LastSentIsLastDelivery | pwrapis/src/taskservice.c:166-180 | Over any rounds a slot remembers the time of its last delivery |
| Pacing.DeliveriesArePaced | pwrapis/src/taskservice.c:166-180 | For any clock readings the n-th delivery comes at least n * (1000 * interval - 999) microseconds after the subscription |
| Pacing.PaceIsTight | pwrapis/src/utils.c:148-151 | For every interval there are normalised readings that lose all 999 microseconds |
| Pacing.PaceIsTightRepeatedly | pwrapis/src/utils.c:148-151 | For intervals of whole seconds they can be lost up to 1001 times in a row |
| ControlAuth.Authorities.DoAuthRequest | pwrapis/src/comservice.c:27-38 | Takes a free authority; succeeds exactly if the client has it afterwards |
| ControlAuth.Authorities.DoAuthRelease | pwrapis/src/comservice.c:40-53 | Frees the client's own authority only; succeeds exactly if the authority is free afterwards |
| ControlAuth.Authorities.CleanControlAuth | pwrapis/src/comservice.c:78-81 | Frees the client's own authority only |
| ControlAuth.PowerApi.RequestControlAuth | pwrapic/src/powerapi.c:134-142 | Needs a registered client; status authed after success, unchanged otherwise |
| ControlAuth.PowerApi.ReleaseControlAuth | pwrapic/src/powerapi.c:144-152 | Needs an authed client; status registered after success, unchanged otherwise |
| ControlAuth.AnswerMeans | pwrapis/src/comservice.c:27-53 | The server grants a request exactly when nobody or this client has the authority, and a release exactly when nobody or this client has it; it takes the authority from the releasing client only |
| ControlAuth.OwnStepsMean | pwrapic/src/powerapi.c:82-152 | What a client's own steps do to status, call and wire: registering, unregistering, asking and giving up |
| ControlAuth.ReceivedMeans | pwrapic/src/powerapi.c:134-152 | A granted request makes the client authed, a granted release registered, a refusal changes nothing, nor does a reply to a call given up on |
| ControlAuth.StepKeepsIff | pwrapis/src/comservice.c:27-81 | A step keeps the invariant, that every client which believes it has the authority has it or is about to learn otherwise, exactly when it is none of: clean-up of such a client or of one being granted the authority, giving up on a release that was carried out, carrying out a release that was given up on |
| ControlAuth.HolderIsOwner | pwrapic/src/powerapi.c:134-152 | In every run of fair steps, lost requests and replies included, an authed client without a release in progress is the server's recorded owner |
| ControlAuth.AtMostOneHolder | pwrapis/src/comservice.c:27-53 | ... so there is at most one such client |
| ControlAuth.UnfairLoses | pwrapic/src/powerapi.c:134-152 | After every other step from such a state some authed client without a release in progress is not the owner: at once, or when the client gives up its call, or when it has taken the replies already on the wire |
| ControlAuth.FirstUnfairStepLoses | pwrapis/src/comservice.c:27-81 | So every run of fair steps can be continued to that by one unfair step and what that client does by itself |
| ControlAuth.PlainHolderIsOwner | pwrapic/src/powerapi.c:134-152 | In every run in which no call is given up and no client is cleaned up after, an authed client without a release in progress is the server's recorded owner, and no other client is one |
| ControlAuth.LostReleaseMakesTwoHolders | pwrapic/src/powerapi.c:144-152 | A run with one lost reply to a release, given up on, after which two clients are authed |
| ControlAuth.CleanMakesTwoHolders | pwrapis/src/comservice.c:78-81 | A run with one clean-up of a live client after which two clients are authed |
| Cleanup.Server.CleanClientResource | pwrapis/src/server.c:135-140 | As called: cleans the authority and tasks of entry 0's id and frees entry idx |
| Cleanup.CleanedUpMeans | pwrapis/src/server.c:135-140 | What that means for every client's descriptor, authority and subscriptions |
| Cleanup.ClientIsCleanedIff | pwrapis/src/server.c:157-161 | The client meant keeps no authority or subscription exactly when it is in entry 0 or had none; its descriptor is always gone |
| Cleanup.OthersUntouchedIff | pwrapis/src/server.c:220-224 | All other clients keep descriptor, authority and intervals exactly when the client meant is in entry 0 or the one there had nothing |
| Cleanup.EntryZeroIsCleaned | pwrapis/src/server.c:135-140 | For entry 0: its client is gone with all it had, nobody else is touched, and exactly the tasks end of which it was the only subscriber |
| Cleanup.WrongClientIsCleaned | pwrapis/src/server.c:157-161 | Two concrete states in which the wrong client loses, or the right one keeps, the authority |
| Crc32.TableIsShifts | pwrapis/src/utils.c:52-96 | Each of the 256 table entries is eight shift steps of its index |
| Crc32.DivideByteIsTableStep | pwrapis/src/utils.c:596-598 | One table step is eight steps of bit-by-bit division |
| Crc32.Crc32 | pwrapis/src/utils.c:591-600 | The table loop computes the bit-by-bit division, for every seed and buffer |
| Crc32.GetCrc32Val | pwrapis/src/utils.c:602-607 | The inverted CRC with all-ones seed |
| Crc32.CheckValue | pwrapis/src/utils.c:602-607 | The checksum of the digits 1 to 9 is 0xCBF43926 |
| Crc32.GetFileCrc32Val | pwrapis/src/utils.c:609-639 | However the reads split the file: the inverted CRC of its content from the caller's seed, or failure and the caller's value unchanged |
| Crc32.FileAgreesWithBuffer | pwrapis/src/utils.c:602-639 | A file's checksum is the buffer's exactly when the caller seeds with 0xFFFFFFFF |
| Crc32.Chunking | pwrapis/src/utils.c:591-600 | Two pieces in a row give the CRC of the whole |
| Crc32.DivideInjective | pwrapis/src/utils.c:591-600 | The same bytes keep different registers different |
| Crc32.BurstDetected | pwrapis/src/utils.c:591-600 | Buffers that differ within at most 32 consecutive bits have different CRCs |
| Crc32.ByteBurstDetected | pwrapis/src/utils.c:602-607 | Buffers that differ within at most four consecutive bytes have different checksums |
| Crc32.BurstLimitIsTight | pwrapis/src/utils.c:591-600 | Two windows of 33 bits that no register tells apart |
| Policies.FreqSortByPolicy | pwrapis/src/cpuservice.c:41-54 | The first len records are sorted by policy, records of one policy keep their order, the rest of the array is unchanged |
| Policies.StableSortIsUnique | pwrapis/src/cpuservice.c:41-54 | There is one such result, so a list in order stays as it is |
| Policies.StablyPermutedIsPermuted | pwrapis/src/cpuservice.c:41-54 | No record is lost, changed or made up |
| Policies.MergeDuplicatePolicys | pwrapis/src/cpuservice.c:317-340 | The first records get the distinct ids below the number of CPUs in increasing order, never past the original length; frequencies and all other records stay; memory outside the flags is touched exactly for a negative id |
| Policies.MarkIds | pwrapis/src/cpuservice.c:326-330 | Sets exactly the flags of the ids that occur; goes outside the flags exactly for a negative id |
| Policies.WriteIds | pwrapis/src/cpuservice.c:331-339 | Writes the flagged ids in increasing order into the first records and counts them |
| Policies.AscendingMembers | pwrapis/src/cpuservice.c:331-338 | The ids left are exactly the input's below the number of CPUs |
| Policies.AscendingIncreases | pwrapis/src/cpuservice.c:331-338 | They increase strictly |
| Policies.AscendingFits | pwrapis/src/cpuservice.c:331-338 | There are no more of them than records came in |
| Policies.MergeKeepsRecordsIff | pwrapis/src/cpuservice.c:331-338 | The records are left alone exactly when the list begins with increasing ids below the number of CPUs and holds no other such ids behind |
| Policies.PairsKeptIff | pwrapis/src/cpuservice.c:331-338 | Each record of the result pairs a policy with a frequency of its own exactly when the k-th record has a frequency of the k-th least policy; where a frequency tells its policy, exactly when the list is left alone |
| Policies.IncreasingStays | pwrapis/src/cpuservice.c:317-340 | A strictly increasing list of valid ids is its own merge |
| Policies.FrequenciesStayBehind | pwrapis/src/cpuservice.c:331-338 | Two policies whose frequencies end up exchanged, so that neither pair was there before unless the frequencies are equal |
| Fields.GetNthField | pwrapis/src/utils.c:263-294 | Finds exactly the n-th token if there is one and it is no longer than bufLen, and writes it with a terminator; otherwise leaves the buffer alone; the terminator goes behind the buffer exactly when the token found fills it |
| Fields.FieldFillsBuffer | pwrapis/src/utils.c:285-293 | A token that is found for a buffer of its own length |
| Fields.StrSplit | pwrapis/src/utils.c:802-822 | Stores the first itemNum tokens in order, counts them, and leaves the rest of the array |
| Fields.TokensAreClean | pwrapis/src/utils.c:802-822 | Tokens are not empty and hold no separator |
| Fields.TokensKeepText | pwrapis/src/utils.c:802-822 | All tokens in a row are the string without its separators |
| Fields.StrJoin | pwrapis/src/utils.c:823-849 | Says exactly when it refuses, overruns its own line of 256 characters, writes the terminator behind the buffer, or writes the joined line with its terminator; what the buffer then holds; refused, it is left alone |
| Fields.JoinedFront | pwrapis/src/utils.c:834-843 | The joined line of several strings is the first, the separator, and the joined line of the others |
| Fields.FillLine | pwrapis/src/utils.c:836-844 | The line buffer then holds the joined line with its terminator, or was overrun, which is exactly when the line is too long for it |
| Fields.SplitJoined | pwrapis/src/utils.c:802-849 | Splitting a joined line gives the parts back |
| Fields.SplitJoinedIff | pwrapis/src/utils.c:802-849 | It does so exactly for parts that are not empty and hold no separator |

## Left out

- Sysfs, procfs, lscpu, perf and ipmitool access in the CPU, system and disk services: a handler is any reply code and payload, or none.
- Sockets, select, threads, condition variables and malloc themselves: they are steps, partial transfers and parameters; errors of recv are disconnects, and of send they are outcomes in Framing only.
- SIGPIPE, which nothing in either part ignores: a send to a closed peer ends the sender. In Framing a send fails finitely often, and what a failed send reads in front of the buffer is arbitrary memory that can be read; a send that always fails goes back until it cannot.
- The tests `sendLen < 0` in both WriteMsg: the variable is unsigned, so they never hold, and the model has no such branch.
- The data of a message received with a negative length: the code leaves it as malloc returned it, the model has none.
- Data-collection messages in Protocol: they only take room in the server's send ring, which the step Crowd stands for; their delivery to the callback is not modelled.
- Shutting a client down within Protocol: FiniSockClient's reset of ring and wait list is modelled on the classes only.
- Protocol.Damaged: in a list cut by a returned node, Protocol leaves open which nodes behind it a search reaches; the exact links are not tracked.
- FREE_LIST_ITEM and the other list macros: type-punning iteration over the verified operations.
- ClonePwrMsg: messages are values, so a clone is the value itself.
- Liveness beyond ProtocolProgress and Pipeline.NobodyIsStuck: a request may be evicted or its reply come before the caller waits, so no call is sure to get a reply.
- The task threads' loop RunDcTaskProcess beyond the pace of deliveries, and joining them in FiniTask.
- ProtocolWaiting.ReturnedCallsAreOut: states it for orderly runs only, because the stale list head makes it false otherwise.
- ControlAuth.HolderIsOwner: states it for runs of fair steps only, because an unfair one leads to a holder who is not the owner, at once or by what its client can do by itself (ControlAuth.UnfairLoses).
- Pacing.PaceIsTightRepeatedly: states up to 1001 losses, as many as normalised readings can hold in a row.
- ProtocolTheorems.DeliveriesAreOwnIff: states both directions for orderly runs; in others a list cut by a returned node leaves open whom a search finds, and InTurnDeliveriesAreOwn states the direction that holds for all.
- ReadNums, whose test returns null on success, and the other helpers of utils.c.
- The thin wrappers of pwrapic, the configuration, logging, log rotation and process start-up.
