# quicsend: a verified model

quicsend puts a polling interface over the quiche HTTP/3 library. This project models the part quicsend itself
answers for, the stateful layer around quiche, and proves what that layer keeps in every run:

- **Transfer** (`Transport`, `Transfer`, `TransferProofs`, `TransferTheorems`, `Progress`, `CacheSweep`,
  `SingleMessage`, `SecondAnswer`, `TransferEngine`, `EngineRuns`): `SendRequest`, `SendResponse`, `SendBody`, the two sweeps of `FlushEgress` and
  `DestroyStream`. `Transfer` is the state machine over values, with the bodies handed over kept as history;
  `TransferEngine` is the code's own form, a class whose fields the methods update, each method tied to the machine.
- **Reception** (`Receive`, `ReceiveLoop`): the event loop of `ProcessH3Events`, as a fold and as a class over shared
  stream objects.
- **End to end** (`Delivery`, `Journey`): a sender, the transport and a receiver in any interleaving, and from there to
  the Data events in the mailbox.
- **Connections** (`Lifecycle`, `Connections`, `Server`, `ServerRuns`, `ServerEntry`): what a connection posts, the flags and the
  sender's two indexes as objects, all threads of a server interleaved, and the server's handler of a datagram.
- **Threads** (`Mailbox`, `Locks`, `Deadlock`, `Allocator`, `Timer`): the mailbox, the lock discipline, the buffer pool
  and the timer, each over all interleavings.
- **Formats** (`Token`, `ConnectionIds`): the Retry token and the FNV-1a hash of connection ids.

**The transport.** quiche is a `Net`: the frames each stream has accepted and an arbitrary sequence of answers, so a
statement over all of `Net` is a statement over all transports. `send_body` either refuses or accepts some first `k`
bytes, with FIN only after the last. A receiver gets accepted bytes in order, in any pieces, and the end of a stream
only after the last byte and FIN (section 2.2 of RFC 9000, section 4.1 of RFC 9114). Which stream a request opens is
the transport's choice, and the model takes it as a parameter.

**Several bodies for one stream.** Nothing stops an application from answering a stream twice, and nothing in the state
machine does. The history notes which streams were handed a second body, and two counts are kept of a run: how often a
stream was handed a body (`Taken`), and how many sets of headers were accepted for it, by calls and by the sweep of
cached responses alike (`Sent`). Streams handed one body, or with one set of headers, carry a body exactly; everything
else is said of all streams.

**Order of an unordered map.** Each sweep takes the order of its visits as a parameter, or returns it, and every
statement holds for all orders.

**Interleaving.** What runs under one mutex is one step. A sweep of the sender thread holds the sender mutex over many
steps, between which other threads work on the connections.

## Where the code departs from its intent

Each of these is modelled as the code is, with a lemma that says exactly when the intended result holds:

- A FIN refused inside `SendBody` is reported as false and never queued (src/quicsend_quiche.cpp:1056-1062), and
  `SendRequest` drops that result. `SendBodyRoute` says exactly when, `OnlyDirectFinishes` that among streams neither
  queued nor destroyed the finished ones are those for which it returned true, and `LostFinExample` gives a run.
- `FlushCachedResponses` sends the headers again after a partial body, always from the first byte, and never with FIN
  when there is a body (src/quicsend_quiche.cpp:1095-1127). `OnlyDirectFinishes` gives the exact condition for a
  finished stream, `CachedAccounting` what does hold, `CachedBodyExample` a run that delivers one byte twice and
  another never.
- `FlushCachedResponses` drops a response whose body is answered by DONE or by an error, though its headers went out
  (src/quicsend_quiche.cpp:1104-1117), where `SendBody` reads the same answers as lack of room and queues
  (src/quicsend_quiche.cpp:1044-1054). `SweepSettles` says on which answers a response is lost and on which it stays,
  `DroppedBodyExample` gives a run.
- The bytes of a cached body accepted in several turns are right only by coincidence: a turn keeps them a prefix of the
  body if and only if the body repeats its beginning there (`CachedBytesIff`).
- Whether a stream answered several times, or sent in several turns, is a message is decided by how many sets of headers
  were accepted for it: over every run it has one set, and carries one of its bodies, if and only if that number is one
  (`OneMessageIff`). So an answer is carried if and only if nothing was on its stream before and no other headers are
  accepted for it after (`AnswerIsWhole`, and `CachedIsWhole` for one that the sweep sends); a cached answer beside it
  does harm only if its headers are accepted too (`AnswerBesideCachedExample`), and a second set of headers is never
  undone (`MixedForEver`). `AnswerAppends` says what a stream holds after another answer, `TwoAnswersExample` and
  `AnswerAfterLostFinExample` give runs.
- One stream that is refused first in every sweep keeps all others from moving, because the loop breaks
  (src/quicsend_quiche.cpp:1150-1153, src/quicsend_quiche.cpp:1163-1166). `SweepIdleIff` says exactly when a sweep sends
  nothing, `OneStreamStarvesAll` that this can go on.
- Reading a token throws when its address family is not the peer's (src/quicsend_quiche.cpp:161-177). `ThrownIff` says
  exactly when, `ThrownExample` gives a token.
- Reading a token copies as many bytes as its length byte says into a connection id, which has room for 16, before any
  byte of the address is compared (src/quicsend_quiche.cpp:151-156). `OverlongIff` says on which tokens that is too many;
  tokens minted for ids of up to 16 bytes never are such (`MintedFit`). The model stops there with an answer of its own.
- A client sends its token bare without a body and after "Bearer " with one (src/quicsend_client.cpp:108-144), so one
  expected string never admits both kinds; `OneKindOpensTheGate` is the exact condition.

These are worked around in the model:

- The server's Connect event is filled from itself, because an inner variable hides the outer one
  (src/quicsend_server.cpp:231-235). Events carry the connection that posted them instead.
- The server never assigns its settings (src/quicsend_server.cpp:7-32). The expected authorization is a parameter.
- The sender's sweep reads a connection through a reference into a map node it has erased
  (src/quicsend_quiche.cpp:1255-1263). The model reads the connection before it erases.
- The body loop repeats after an error (src/quicsend_quiche.cpp:799-815). The results of its reads are a finite list,
  which is the assumption that errors do not recur for ever.

## Model

| member | source | states |
|---|---|---|
| TransferProofs.StepKeepsInv | src/quicsend_quiche.cpp:925-1198 | every operation, on every transport answer, keeps for every stream handed one body: accepted bytes followed by the buffer past the offset make the body; FIN only last; a cached entry owes what was not accepted; and for all streams, offsets stay in range and what is queued has been opened |
| TransferProofs.RunKeepsInv | src/quicsend_quiche.cpp:908-1198 | the same over every run |
| TransferTheorems.TakenCounts | src/quicsend_quiche.cpp:925-1033 | the history tells exactly how often the headers of a stream were accepted or cached: never, once, or more |
| TransferTheorems.FinishedIsExact | src/quicsend_quiche.cpp:1035-1198 | in every reachable state a finished stream was handed a body, and if only one it carries exactly that, FIN came once and last, and nothing is queued or cached for it |
| TransferTheorems.FinishedIsFinal | src/quicsend_quiche.cpp:1145-1189 | no run sends anything on a finished stream unless it hands it a second body |
| TransferTheorems.LeavesFinishedOrDestroyed | src/quicsend_quiche.cpp:1191-1197 | from any state whatever, a queued stream leaves the map only by DestroyStream or in a FlushTransfers that got a new FIN accepted for it, wherever the sweep stops |
| TransferTheorems.DestroyErases | src/quicsend_quiche.cpp:908-923 | DestroyStream takes exactly its stream out of the queue and changes neither the cache nor what was sent |
| SingleMessage.DestroyedIsSilent | src/quicsend_quiche.cpp:908-923 | whatever was queued of a destroyed stream, no later run sends anything on it until headers are accepted for it anew |
| SingleMessage.RunPasses | src/quicsend_quiche.cpp:1135-1198 | a stream that is not queued stays as it is through every run in which no headers are accepted for it |
| TransferTheorems.SendBodyRoute | src/quicsend_quiche.cpp:1035-1068 | FIN is refused if and only if the whole body was accepted at once and the next call was refused |
| TransferTheorems.OnlyDirectFinishes | src/quicsend_quiche.cpp:1009-1063 | a nonempty body that is no longer queued and whose stream was not destroyed or answered again is finished if and only if SendBody took it and returned true |
| TransferTheorems.RefusedFinIsLost | src/quicsend_quiche.cpp:1055-1063 | after a refused FIN every byte is accepted and no later run finishes the stream without a second body |
| TransferTheorems.LostFinExample | src/quicsend_quiche.cpp:966-968 | a request reported as sent that no run ever finishes |
| TransferTheorems.CachedBodyExample | src/quicsend_quiche.cpp:1095-1127 | a cached body in two parts: headers and first byte twice, second byte never, no FIN, entry gone |
| TransferTheorems.TwoAnswersExample | src/quicsend_quiche.cpp:1051-1054 | an example: a second answer takes the place of what is queued of the first |
| SecondAnswer.AnswerTakes | src/quicsend_quiche.cpp:1001-1029 | for every state, an answer leaves stream and cache as they were if and only if its headers are neither accepted nor blocked while established |
| SecondAnswer.AnswerAppends | src/quicsend_quiche.cpp:1035-1068 | after accepted headers the stream holds and awaits what it held, the new body, and what was queued before unless the new body was cut short |
| SingleMessage.RunHeads | src/quicsend_quiche.cpp:925-1198 | from any state, a run adds as many sets of headers to a stream as calls and cached turns get accepted for it |
| SingleMessage.OneMessageIff | src/quicsend_quiche.cpp:925-1198 | over every run and on every transport, a stream has one set of headers if and only if one was accepted for it, and then and only then it carries one of the bodies it was handed: from the first byte on, the rest queued, FIN last and only after all of it |
| SingleMessage.RunCarries | src/quicsend_quiche.cpp:1070-1198 | a stream that carries a body carries it through every run in which no more headers are accepted for it, whatever else is answered, cached or flushed |
| SingleMessage.CachedBytesIff | src/quicsend_quiche.cpp:1095-1127 | while the accepted bytes of a cached body are its first p, a turn that gets k more accepted keeps them so if and only if the body repeats its first k bytes at p |
| SecondAnswer.AnswerIsWhole | src/quicsend_quiche.cpp:1001-1068 | an answer whose headers are accepted is carried, after any run that follows, if and only if nothing was on its stream before and no other headers are accepted for it in that run |
| SecondAnswer.MixedForEver | src/quicsend_quiche.cpp:1032-1068 | headers accepted on a stream that held something leave it with one set of headers in no later run |
| SecondAnswer.CachedIsWhole | src/quicsend_quiche.cpp:1077-1127 | the same of a cached response when the sweep gets its headers accepted |
| SecondAnswer.AnswerBesideCachedExample | src/quicsend_quiche.cpp:1009-1089 | a second answer delivered whole although a first one was cached: the sweep finds the cached headers refused and drops it |
| SecondAnswer.UntouchedStartsAfresh | src/quicsend_quiche.cpp:979-1198 | a stream for which nothing was sent, queued or cached may be answered as if for the first time: the invariant holds without its history, and every run is the same |
| SecondAnswer.AnswerAfterLostFinExample | src/quicsend_quiche.cpp:1055-1063 | a second answer after a lost FIN, with nothing queued: both bodies on one stream, then FIN |
| TransferTheorems.RunGrows | src/quicsend_quiche.cpp:925-1198 | accepted frames, recorded bodies and destroyed streams are never taken back |
| Progress.SweepConserves | src/quicsend_quiche.cpp:1135-1198 | what a sweep owes falls by exactly what the transport accepted, and falls if and only if any stream accepted something, in every order, wherever it stops, and however often streams were answered |
| Progress.VolumeMeaning | src/quicsend_quiche.cpp:1135-1198 | what is counted as accepted of a stream is its payload bytes and its FIN |
| Progress.OwedOfBody | src/quicsend_quiche.cpp:1051-1054 | of a queued stream handed one body, what is owed and what was accepted add up to the body and its FIN |
| Progress.SweepIdleIff | src/quicsend_quiche.cpp:1140-1189 | a sweep sends nothing if and only if every visit before the first refusal was answered with a count of 0 |
| Progress.Drains | src/quicsend_quiche.cpp:711-752 | if no flush is idle by its answers, as many flushes as the measure empty the queue, with every queued stream finished, and with its body if it was handed one |
| Progress.GenerousMoves | src/quicsend_quiche.cpp:1135-1198 | on a transport that always takes something no flush is idle |
| Progress.OneStreamStarvesAll | src/quicsend_quiche.cpp:1145-1167 | while the stream visited first is refused, no number of flushes moves any queued stream |
| CacheSweep.SweepThins | src/quicsend_quiche.cpp:1070-1133 | from any state, the loop that erases while it iterates leaves exactly the entries it kept, in the original order, each owing no more |
| CacheSweep.KeptIff | src/quicsend_quiche.cpp:1077-1131 | from any state and on every transport, an entry is kept if and only if, at its turn, its headers are blocked while established, or its body is blocked or accepted in part; so none whose headers are blocked is dropped |
| CacheSweep.TurnReached | src/quicsend_quiche.cpp:1074-1131 | every entry has its turn, whatever was erased before it, and the rest of the sweep follows from there |
| CacheSweep.SweepSettles | src/quicsend_quiche.cpp:1085-1131 | on every transport, after a sweep a response is still cached, or its whole length was counted and it is finished exactly if empty, if and only if its turn did not lose it: headers refused otherwise than by blocking, or a body answered by DONE or an error |
| CacheSweep.DroppedBodyExample | src/quicsend_quiche.cpp:1104-1107 | headers out, body answered by DONE, nothing of it sent, entry gone |
| CacheSweep.CachedAccounting | src/quicsend_quiche.cpp:1009-1025 | in every reachable state bytes_left is the length less what was accepted, and what was accepted is a series of prefixes of the body |
| TransferEngine.QuicheConnection.SendBody | src/quicsend_quiche.cpp:1035-1068 | the method's whole new state is the machine's, with a flush of the whole queue exactly when it returns true |
| TransferEngine.QuicheConnection.SendResponse | src/quicsend_quiche.cpp:979-1033 | nothing after a timeout; else true exactly when the headers were accepted and the FIN was not refused, with a flush of the whole queue; a blocked response is cached whole |
| TransferEngine.QuicheConnection.TryRequest | src/quicsend_quiche.cpp:945-971 | what happens under the mutex at each attempt: one step of the machine, and with the headers accepted a flush of the whole queue unless the FIN is refused |
| TransferEngine.QuicheConnection.SendRequest | src/quicsend_quiche.cpp:925-977 | with no other thread between its attempts: retries exactly while blocked on an established connection and not timed out; the stream is reported whatever became of the body |
| TransferEngine.QuicheConnection.FlushCachedResponses | src/quicsend_quiche.cpp:1070-1133 | the loop over the vector ends and equals the recursive sweep |
| TransferEngine.QuicheConnection.TryCachedResponse | src/quicsend_quiche.cpp:1074-1131 | one turn of it, with the answer whether the entry stays |
| TransferEngine.QuicheConnection.FlushTransfers | src/quicsend_quiche.cpp:1135-1198 | with erasure put off to the end, equals the sweep that erases at once, for the order the map was visited in |
| TransferEngine.QuicheConnection.VisitStreams | src/quicsend_quiche.cpp:1140-1189 | the loop with its break: what it visited, what completed, what it did not reach |
| TransferEngine.QuicheConnection.VisitStream | src/quicsend_quiche.cpp:1140-1189 | one queued stream: send from the offset, advance, or finish |
| TransferEngine.QuicheConnection.EraseCompleted | src/quicsend_quiche.cpp:1191-1197 | exactly the completed streams leave the map |
| TransferEngine.QuicheConnection.FlushEgress | src/quicsend_quiche.cpp:711-715 | cached responses first, then transfers |
| TransferEngine.QuicheConnection.DestroyStream | src/quicsend_quiche.cpp:908-923 | the outgoing half: the queued stream goes |
| TransferEngine.SweepTurn | src/quicsend_quiche.cpp:1140-1197 | erasing a completed stream at once or after the loop makes no difference to any later visit |
| EngineRuns.SendIsARun | src/quicsend_quiche.cpp:1035-1068 | a send that returns true is exactly the operation, the sweep of cached responses and that of transfers; one that returns false makes no call of the transport after the refused FIN, and flushes nothing |
| EngineRuns.SendFlushes | src/quicsend_quiche.cpp:1062-1068 | after a send that returns true less is owed than the operation left, if anything was queued and the answers to the sweep were not idle |
| EngineRuns.RequestIsARun | src/quicsend_quiche.cpp:940-977 | a whole SendRequest is its refused attempts, then the one that is not with the two sweeps if its body was taken, if no other thread comes between; the invariant holds after it |
| Receive.ReadAllConcat | src/quicsend_quiche.cpp:799-818 | reads append in the order they are made |
| Receive.ReadAllOne | src/quicsend_quiche.cpp:808-814 | a read appends its bytes, an error nothing |
| Receive.ReadAllStops | src/quicsend_quiche.cpp:808-810 | nothing after a read of nothing counts |
| Receive.DestroyCalls | src/quicsend_quiche.cpp:838-850 | DestroyStream is called for a reset, and on the client, not on the server, for the end of a stream that was being received, in the order of the events |
| Receive.LoopIsPerStream | src/quicsend_quiche.cpp:754-870 | the loop over interleaved events is, for every stream, the loop over that stream's events alone |
| Receive.MessageSummary | src/quicsend_quiche.cpp:489-510 | each field is the last value of its header, the buffer all chunks in order |
| Receive.StreamOutcome | src/quicsend_quiche.cpp:822-852 | a stream that ends posts exactly one Data event, the summary of its message; a reset stream posts none |
| ReceiveLoop.IncomingStream.OnHeaders | src/quicsend_quiche.cpp:489-504 | fields updated in place as the fold says |
| ReceiveLoop.IncomingStream.ReadBody | src/quicsend_quiche.cpp:799-818 | the inner loop appends every chunk until DONE or a read of nothing, errors in between notwithstanding |
| ReceiveLoop.ReceivingConnection.GetIncomingStream | src/quicsend_quiche.cpp:872-888 | the object under its id, or a new one under it |
| ReceiveLoop.ReceivingConnection.ProcessH3Events | src/quicsend_quiche.cpp:754-870 | equals the fold, and no stream object already posted changes again |
| Delivery.ReadAllReadsOff | src/quicsend_quiche.cpp:799-818 | if the transport hands over in each read the next accepted bytes, what the receiver appends is what was accepted, in its order |
| Delivery.DataEventsAreExact | src/quicsend_quiche.cpp:506-1198 | for every interleaving of sends, flushes, destructions and receptions, every transport and every cutting of the bytes: no stream has two Data events, each one's stream was handed a body, and if it had one set of headers or was handed one body, the event carries exactly a body passed to SendRequest or SendResponse for it |
| Journey.SectionDatas | src/quicsend_quiche.cpp:603-653 | a locked section posts Data for exactly the streams its gate lets through, in their order: all that finished in a processed datagram if the connection is connected by then, on a server else those from the first authorized one on, on a client else none; and which flags it sets |
| Journey.FromAuthorizedIs | src/quicsend_server.cpp:220-239 | those from the first authorized one on: none before it, it and everything after it |
| Journey.MailIsExact | src/quicsend_quiche.cpp:603-1198 | over every run of a connection and its peer: a server's Data events are all that its receiver posted from the first authorized stream on, a client's are all once it is connected; they have different streams, each carries exactly the body the peer handed over if its stream is one message, and Connect and Timeout are in order |
| Journey.ServerMailIsExact | src/quicsend_server.cpp:92-248 | the same of each connection in the history of a server under all its threads: the Data events are all that finished in its processed datagrams from the first authorized one on |
| Delivery.JobsWereHandedOver | src/quicsend_quiche.cpp:925-1068 | the bodies in the history are those of the calls |
| Delivery.FinishedCanBeReceived | src/quicsend_quiche.cpp:754-870 | from every reachable state a finished stream not yet closed can be received to its end, and posts all its bytes, the body if it was handed one |
| Lifecycle.RunKeepsTrace | src/quicsend_quiche.cpp:603-709 | every section of a connection keeps its posts in step with its flags; the timeout flag never clears |
| Lifecycle.ConnectionTrace | src/quicsend_server.cpp:207-239 | over every run of a client or server connection: at most one Connect, every Data after it, at most one Timeout and the flag exactly then; a server's Connect is followed at once by a request with the expected authorization |
| Lifecycle.ClientConnectIsVerified | src/quicsend_client.cpp:48-58 | the client posts Connect in the section that sets HTTP/3 up with a matching certificate, and in no other |
| Lifecycle.ClosedIsReported | src/quicsend_quiche.cpp:644-680 | a section that finds the connection closed, before or after the flush, sets the flag and posts Timeout last, if and only if it was not set before |
| Lifecycle.OneKindOpensTheGate | src/quicsend_client.cpp:108-144 | a request without a body opens the gate if and only if the expected string is the token, one with a body if and only if it is "Bearer " and the token; never both |
| Connections.QuicheConnection.OnDatagram | src/quicsend_quiche.cpp:603-653 | flags and mailbox after a datagram, branch by branch |
| Connections.QuicheConnection.OnData | src/quicsend_server.cpp:220-239 | the gate of server and client, as SectionDatas says what it lets through |
| Connections.QuicheConnection.TickTimeout | src/quicsend_quiche.cpp:671-680 | a Timeout is posted exactly when the flag is first set |
| Connections.QuicheConnection.ProcessFinished | src/quicsend_quiche.cpp:822-846 | on_data is called for each finished stream in order |
| Connections.LettersAre | src/quicsend_server.cpp:207-239 | every post becomes one event, in order, with the connection that made it |
| Connections.MailIsPosts | src/quicsend_quiche.cpp:1354-1362 | and reaches the mailbox as a Post of its machine |
| Connections.QuicheSender.Add | src/quicsend_quiche.cpp:1286-1296 | both maps are extended, and still agree if both keys were new |
| Connections.QuicheSender.Find | src/quicsend_quiche.cpp:1298-1306 | among all connections in the index exactly the result has the dcid, and it is in both maps; null if none has |
| Connections.QuicheSender.FindById | src/quicsend_quiche.cpp:1308-1316 | among all connections in the index exactly the result has the id, and it is in both maps; null if none has |
| Connections.QuicheSender.Sweep | src/quicsend_quiche.cpp:1248-1283 | in any order: exactly the connections timed out when visited leave both maps and are reported once, every other one is flushed once, the posts come in the order of the visits, and the maps still agree |
| Connections.RemainingIs | src/quicsend_quiche.cpp:1254-1272 | what a sweep leaves indexed is exactly what had not timed out |
| Connections.FreedIs | src/quicsend_quiche.cpp:1256-1257 | what it frees is exactly what it visited and had timed out |
| Connections.SweepMailIs | src/quicsend_quiche.cpp:671-680 | what it posts is a Timeout for each connection whose flush finds it closed for the first time, and nothing else |
| Connections.SweptIs | src/quicsend_quiche.cpp:671-680 | the flags it leaves: a timeout where one was or the flush found the connection closed |
| Server.ApplyKeepsInv | src/quicsend_server.cpp:92-248 | every step of the I/O thread, the sender thread and the others keeps the invariant |
| Server.RunKeepsInv | src/quicsend_quiche.cpp:1238-1316 | so does every interleaving |
| Server.HeldKeysStillFit | src/quicsend_server.cpp:114-142 | across other threads' steps, a key the sweep has yet to visit stays indexed under the same connection, and a connection about to be registered displaces none in either map |
| Server.IndexAgreement | src/quicsend_quiche.cpp:1286-1296 | in every reachable state both maps hold the same connections, each under its own dcid and assigned id |
| Server.IdsIncrease | src/quicsend_server.cpp:203-206 | a later connection has a larger id, so no id is used twice |
| Server.EventsInOrder | src/quicsend_server.cpp:207-239 | the trace property for each connection inside the interleaved history |
| Server.TimeoutBeforeRemoval | src/quicsend_quiche.cpp:1256-1266 | a registered connection that has left the index has exactly one Timeout in the history already |
| Server.SweepRemovesTheClosed | src/quicsend_quiche.cpp:1253-1272 | at every moment of a sweep the index is the one it began with less the connections found closed, all of which posted Timeout |
| ServerRuns.LookDecides | src/quicsend_quiche.cpp:1254-1272 | a connection looked at that has timed out leaves both maps and is freed and not flushed, another stays and is to be flushed |
| ServerRuns.LookedAtIff | src/quicsend_quiche.cpp:1253-1272 | at every later moment of the sweep a key that was looked at is indexed if and only if its connection had not timed out then |
| ServerRuns.SweepMissesNone | src/quicsend_quiche.cpp:1253-1272 | at every moment of a sweep, what had timed out when it began is out of the index once visited, and what has not timed out is in it |
| ServerRuns.SweepLeavesNone | src/quicsend_quiche.cpp:1248-1274 | when a sweep ends, no connection that had timed out when it began is left in either map |
| ServerRuns.KnownIsFound | src/quicsend_server.cpp:114-115 | a known dcid leads to its connection |
| ServerRuns.UnknownIsRefused | src/quicsend_server.cpp:115-139 | an unknown dcid that is refused, or not accepted by quiche, changes no index |
| ServerRuns.UnknownIsRegistered | src/quicsend_server.cpp:195-248 | one that is admitted and accepted ends in both maps under its keys, with the next id |
| ServerRuns.DeliveredIsProcessed | src/quicsend_server.cpp:142 | the connection found or registered processes the datagram, and nothing else changes |
| ServerRuns.FlushReports | src/quicsend_quiche.cpp:671-680 | a flush by a timer or by the sweep reports a connection that the transport has closed; a sweep begins with every key to visit |
| ServerEntry.AdmitWithoutToken | src/quicsend_server.cpp:116-127 | an unsupported version is negotiated, and only that; without a token the answer is a Retry whose token the same address can use, and only then |
| ServerEntry.CreatedIffToken | src/quicsend_server.cpp:115-140 | a datagram with an unknown dcid leads to a connection if and only if its version is supported and its token begins with one for the address it came from and an id of up to 16 bytes |
| ServerEntry.RetryIsHonoured | src/quicsend_server.cpp:162-193 | the token of a Retry admits from the same address, recovering the first dcid, and from no other |
| ServerEntry.QuicSendServer.CreateConnection | src/quicsend_server.cpp:195-248 | the id is spent either way; a connection enters both maps if and only if quiche accepts it |
| ServerEntry.QuicSendServer.OnDatagram | src/quicsend_server.cpp:92-143 | a known dcid reaches its connection and changes no index; an unknown one enters the index exactly by its token; all else changes nothing |
| Mailbox.RunIsQueue | src/quicsend_quiche.cpp:1322-1362 | over every interleaving delivered, in hand and queued make the posted history |
| Mailbox.EveryRunIsQueue | src/quicsend_quiche.cpp:1322-1362 | the same from the start |
| Mailbox.SwapTakesAll | src/quicsend_quiche.cpp:1344-1348 | a swap not stopped by the shutdown takes all that was posted |
| Mailbox.CallbacksDeliver | src/quicsend_quiche.cpp:1350-1353 | a batch in hand can be worked through, and then all that was taken is delivered |
| Mailbox.ShutdownStops | src/quicsend_quiche.cpp:1322-1346 | Shutdown is what ends it: no run after it takes a batch |
| Mailbox.NothingTakenAfterShutdown | src/quicsend_quiche.cpp:1322-1352 | after Shutdown no batch is taken, whatever is posted |
| Mailbox.QuicheMailbox.Poll | src/quicsend_quiche.cpp:1328-1352 | one swap, then a callback for each event of the batch in order |
| Mailbox.QuicheMailbox.Post | src/quicsend_quiche.cpp:1354-1362 | the event goes to the end of the queue and of the history |
| Locks.EntryBalanced | src/quicsend_quiche.cpp:461-1362 | every entry point of the I/O, sender and application threads, whatever its data, takes locks in rank order, works on nothing without its lock, and ends holding none; Poll holds none when its callbacks begin |
| Locks.DatagramWork | src/quicsend_quiche.cpp:603-653 | a datagram works on the mailbox exactly once for each event it posts, wherever a close is found |
| Locks.SweepWork | src/quicsend_quiche.cpp:1248-1275 | a sweep works on the indexes once, under the sender mutex, and within that twice on each connection it flushes |
| Deadlock.RunKeepsInv | src/quicsend_quiche.cpp:711-752 | over every interleaving mutual exclusion holds and every thread keeps to the order |
| Deadlock.NoRace | src/quicsend_quiche.cpp:377-402 | in no state of any run are two threads at work on what one lock protects |
| Deadlock.NoWaitCycle | src/quicsend_quiche.cpp:1248-1283 | the wait-for graph has no cycle, and no chain of more than four threads |
| Deadlock.DeadlockFree | src/quicsend_quiche.cpp:1248-1362 | while a thread is inside an entry point some thread can go on |
| Allocator.RunIsLinear | src/quicsend_quiche.cpp:377-402 | over every interleaving, with counter reads however stale: no buffer is free twice, held twice, or free and held; the counter is the length of the list |
| Allocator.EveryRunIsLinear | src/quicsend_quiche.cpp:377-402 | the same from the empty pool |
| Allocator.RunConserves | src/quicsend_quiche.cpp:377-483 | over every interleaving, buffers made less those dropped are in the pool or held |
| Allocator.FreedIsReused | src/quicsend_quiche.cpp:377-402 | a buffer that is freed or whose send completes is the next handed out, and none is made for it |
| Allocator.SendAllocator.Allocate | src/quicsend_quiche.cpp:377-395 | the last free buffer if the counter read as positive and there is one, else a new one |
| Allocator.SendAllocator.Free | src/quicsend_quiche.cpp:397-402 | the buffer goes to the end of the list; a buffer not yet there keeps the list without duplicates |
| Allocator.EmitPackets | src/quicsend_quiche.cpp:717-751 | one buffer for each packet before the first DONE or error, each with its packet's length, none in the pool; another one is left in hand |
| Allocator.EmitAndFree | include/quicsend_quiche.hpp:304-309 | the buffer left in hand is the last in the pool and not in flight, and no buffer in flight is in the pool |
| Timer.RunHasOneTimer | src/quicsend_quiche.cpp:671-709 | over every interleaving at most one timer is outstanding or firing, and the flag is set while it is |
| Timer.EveryRunHasOneTimer | src/quicsend_quiche.cpp:671-709 | the same from the start |
| Timer.TimerIsArmed | src/quicsend_quiche.cpp:682-697 | with the flag clear TickTimeout arms the timer, and it is outstanding |
| Timer.TimerFires | src/quicsend_quiche.cpp:697-708 | an outstanding timer fires once, and its handler clears the flag |
| Timer.IdleStates | src/quicsend_quiche.cpp:682-685 | between TickTimeouts the flag is clear, or one wait is outstanding or about to clear it, and then TickTimeout leaves it alone |
| Token.MintToken | src/quicsend_quiche.cpp:103-133 | the bytes written in place are the token of the id and endpoint |
| Token.ParseToken | src/quicsend_quiche.cpp:135-181 | the walk over the bytes answers as ReadToken does on every input, truncated ones and those that throw included |
| Token.RoundTrip | src/quicsend_quiche.cpp:103-181 | for ids of up to 16 bytes and every endpoint, reading a minted token gives the id back |
| Token.AcceptedIffMinted | src/quicsend_quiche.cpp:135-181 | a token is accepted if and only if it is one for that endpoint and the returned id of up to 16 bytes, up to a nonzero v4 flag, with any suffix |
| Token.OverlongIff | src/quicsend_quiche.cpp:151-156 | the copy of the id goes past the room for it if and only if the checks before it pass and the length byte says more than 16 |
| Token.MintedFit | src/quicsend_quiche.cpp:103-156 | a token minted for an id of up to 16 bytes, with any suffix, never makes it so, from whatever address it comes |
| Token.TokenExamples | src/quicsend_quiche.cpp:103-133 | a v4 and a v6 token, byte by byte |
| Token.TokensArePrefixFree | src/quicsend_quiche.cpp:103-133 | minting is injective, even with suffixes |
| Token.OtherEndpointsAreRefused | src/quicsend_quiche.cpp:135-181 | a minted token is accepted from no other endpoint |
| Token.ThrownIff | src/quicsend_quiche.cpp:161-177 | reading throws if and only if every check before the address passes, the id has room, enough bytes follow, and the token's family is not the peer's |
| Token.ThrownExample | src/quicsend_quiche.cpp:161-177 | a token on which it does |
| Token.WriteUint16Le | include/quicsend_tools.hpp:133-137 | two bytes of the buffer change, to the little-endian form |
| Token.WriteUint32Le | include/quicsend_tools.hpp:145-151 | four bytes of the buffer change, to the little-endian form |
| Token.Uint16RoundTrip | include/quicsend_tools.hpp:133-143 | reading what was written |
| Token.Uint32RoundTrip | include/quicsend_tools.hpp:145-159 | reading what was written |
| ConnectionIds.HashConnectionId | src/quicsend_quiche.cpp:38-45 | the loop computes the fold |
| ConnectionIds.SameConnectionId | src/quicsend_quiche.cpp:10-15 | equality is equality of the first Length bytes and of Length |
| ConnectionIds.HashExamples | src/quicsend_quiche.cpp:38-45 | the hash of the empty id and of the byte 0x61 |
| ConnectionIds.MixIsPermutation | src/quicsend_quiche.cpp:38-45 | one step of the hash is a permutation of the 32-bit words |
| ConnectionIds.FoldIsInjective | src/quicsend_quiche.cpp:38-45 | so is the whole hash in the state it starts from, for ids of any length |
| ConnectionIds.OneByteNeverCollides | src/quicsend_quiche.cpp:38-45 | ids of equal length that differ in exactly one byte never hash equal |

## Left out

- Byte-exact delivery of a cached response: not what the code does; see the section on departures for what is proved instead.
- quiche itself, TLS, congestion control and packet contents: the transport assumptions above stand for them; that packets are emitted changes no state of the transfer.
- Sockets, host resolution, clocks and sleeping: completions, timer firings and the end of patience are steps or parameters.
- Lifetime of C++ objects and raw memory, with header pointers kept in a cached response: values are used; connection ids are byte strings, and where the source would write past their 16 bytes the model stops.
- Headers of outgoing messages: a `Head` frame stands for them.
- Integer width of body sizes: `bytes` is an `int` in the source, and bodies here have any length, zero included.
- `OutgoingStream` and `CachedResponse` as shared objects: they are values in the map and the vector, since only the connection refers to them.
- The interval of the sender's loop, chosen by whether a flush sent anything: pacing only.
- `Server` starts from lookups by dcid: what `Respond` and `Close` do with a connection they found is module Transfer and the transport.
- The client's second connection attempt (src/quicsend_quiche.cpp:583-599): its locks are in `Locks`, its new quiche connection is not modelled.
- TransferProofs.StepKeepsInv: of a stream handed a second body it claims the general shape only; SingleMessage and SecondAnswer have the rest.
- quiche's own debug log, which the repository never switches on: its lines would be more leaf sections.
- GOAWAY and `Close`: they act on quiche alone, and what follows arrives as a closed connection.
- Several threads in `Poll` at once: one application thread takes batches.
- Callbacks that throw out of `Poll`: every callback returns.
- TransferEngine.QuicheConnection.SendRequest: nothing happens between its attempts, where the source releases the mutex and sleeps; the attempts one by one are TryRequest, and runs of the machine admit anything between them.
- EngineRuns.RequestIsARun: the same of the whole call.
- Journey.ServerMailIsExact: that the streams which finish in a connection's datagrams are those its receiver posts is a premise of its second half; for one connection and its peer, Journey.MailIsExact derives them.
- Server.RunKeepsInv: runs with fewer than 2^64 connections, beyond which the id counter would wrap.
- ServerEntry.QuicSendServer.OnDatagram: one datagram with no other thread in between; the interleaving is module Server.
- Connections.QuicheSender.Sweep: one pass with no other thread in between; the interleaving is module Server.
- Allocator.EmitPackets: completions of other sends do not run in between; module Allocator's machine lets them.
- Mailbox.QuicheMailbox.Poll: nothing is posted during the callbacks of the method; the machine of the same module lets posts run between them.
- ReceiveLoop.ReceivingConnection.DestroyStream: the incoming half of DestroyStream; the outgoing half is in TransferEngine, and Delivery joins them only by letting both happen at any moment.
- Flags that the source reads without a lock (`timeout_` in `IsClosed` and before a send, `timer_set_` in its handler, the pool's counter): `Deadlock.NoRace` speaks of locked work; the counter and the timer flag have their own machines.
- The logger, the Python binding, certificates and configuration, `ConnectionId::operator<`, address conversion and text formatting: easy, or not this layer's logic.
