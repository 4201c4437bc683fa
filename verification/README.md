# hxrpc verified model

A Dafny model of hxrpc, a small RPC stack: pooled TCP client, event-driven server, a length-prefixed codec with
proto3 headers, a coroutine runtime, a YAML-subset configuration loader and ZooKeeper service discovery. The theorems
are about whole byte streams and whole runs, with every interleaving, segmentation, short read or write, timeout and
close that the code can meet.

`dafny verify dfyconfig.toml` verifies everything.

## Main results

- **Answers match requests (`Pipeline`).** The client never compares the id in a response with the one it sent. In
  every run with any number of threads sharing pooled connections, a successful round trip nevertheless returns what
  dispatch at the called endpoint makes of that very request, so the ids agree. End to end (`CallerGets`): the last
  registration of exactly the requested names was called with the request's own metadata and payload, and the caller
  gets its reply or the error of the stage that failed. What carries this is that every idle pooled
  connection is quiet: no byte in flight in either direction, every call answered. A call can complete, on a fresh or
  a pooled connection, if and only if request and reply are within the accepted length; a request that wraps its length
  field breaks the matching, and a run shows how. The client's loops and the server's events are runs of this step
  system (`Loops`).
- **Waits (`AsyncRuntime`).** Over every interleaving of enqueue, batch registration, readiness, expiry and
  destruction: tokens of live waits are distinct, no wait is lost or held twice, each coroutine is resumed at most once
  and never after its awaiter was destroyed. A finished wait of a live awaiter was resumed if and only if no public
  `Cancel` hit its token; no destructor's cancel ever settles another awaiter's wait. An expiry pass times out
  exactly what is due, a wait reports a timeout only for a reason, and no wait outlives the deadline it was enqueued
  with once the loop has turned.
- **Streams (`Framing`, `ConnectionManager`, `ClientIo`, `Server`).** Cutting a stream into events never matters; the
  server's loops in place, with the dispatcher as frame handler, keep "wire + unsent tail = one answer per received
  frame, in order" for every script of system call results; the client returns the splitter's first frame if and only
  if there is one and the system calls deliver it.
- **Codec (`Wire`, `Headers`, `Codec`, `UserMessages`).** Header bytes are modelled down to base-128 varints. Requests
  and responses survive the wire if and only if their sizes fit; frames are prefix-free; parsing concatenated messages
  merges them, nested messages and ten-byte negative numbers included.
- **Text (`Config`, `Endpoints`).** Printing a configuration tree in any layout and loading it gives the flat
  dotted-path map; endpoint lists round-trip, `ToString` is injective, and ports come back exactly when they are nonzero
  16-bit numbers.
- **Caches (`Discovery`, `Registry`, `MessagePool`, `ConnectionPool`).** The discovery cache is current or a
  notification is on its way, and each of the three conditions for that is shown to be needed; the registry agrees with a scan of
  its registrations; every pooled message and every client socket has exactly one owner in every run.

## Layout

| module | what it models |
|---|---|
| Bytes, Wire, Headers, UserMessages, Codec | bytes, proto3 records, the two headers, generated messages, frames |
| Framing, ClientIo | splitting streams, the client's socket loops |
| Registry, Dispatcher, ConnectionManager, Server | the server |
| ConnectionPool, Pipeline | socket ownership, the whole RPC exchange as a step system |
| Loops | the loops in place as runs of that step system |
| AsyncRuntime | waits of coroutines as a step system, and the runtime's locked regions |
| Text, Config, Endpoints | configuration |
| Discovery, MessagePool | the watched cache, the pool of message objects |

Code that changes state step by step is a class whose methods are proved against functions on values; concurrent parts
are step systems (`Apply` gives the state after one step, `Run` after many) whose atomic steps are the source's lock
regions. Connections, sockets, waits and messages are named by numbers, not by descriptors or addresses.

## Assumptions

- System calls are scripts of results: a finite sequence of what `recv`, `send` and `accept` return next. A script that
  has run out reads as "would block" on the server and as failure on the client.
- `HandleReadable` drops complete frames that arrived in the same event as end of stream
  (src/connection_manager.cc:170-173); the model does too.
- `ProcessInput` and the reactor's loop keep references across handler calls (src/connection_manager.cc:228-248,
  src/reactor.cc:61-100). The model stops when the connection is gone.
- Two waits on one descriptor share one epoll slot (src/async_runtime.cc:169-171). In the model any registered token may
  become ready at any time, or never.
- A destructor cancels with the token that it read from its own wait; any other caller of `Cancel` may pass any token.
- In `ResumeReady` the cancelled check and the resume are one step; an awaiter is awaited once, before it is destroyed;
  fewer than 2^64 tokens are handed out.
- `static_cast<uint16_t>` truncates ports (src/settings.cc:38); `Endpoints.PortTruncated` says what then comes back.
- `HandleFrame` ignores `controller.Failed()` (src/rpc_dispatcher.cc:76-92), and so does the model.
- `EncodeFrame` truncates lengths to 32 bits. `Codec` proves that exactly the frames below 2^32 bytes can be read back;
  `Pipeline` starts calls whose request fits, and services whose payload leaves 38 bytes of room for the header.
- Protobuf refuses a length-delimited field longer than 2^31 - 17 bytes and does not serialize a message of 2^31 bytes.
- A configuration line fits the 1023 characters that one `fgets` reads (src/config.cc:80-82); `Config.LongValueCut` says
  what a longer one loses.
- Services are registered before the server runs. What they would do with any call (which registration, which metadata,
  which argument bytes) is an input of each dispatch, since they may keep state.
- A descriptor that is still open is not returned by another `accept`.
- Discovery nodes carry data, as the registrar writes it; `GetData` cuts it at 512 bytes.

## Model

| member | source | states |
|---|---|---|
| `Pipeline.RoundTripsMatch` | src/client_transport.cc:62-84 | in every run, every successful round trip was made on a socket of the endpoint called and returned what `OnFrame` with that endpoint's methods makes of this very request; it decodes to that answer, its id is the id sent, and it is the right answer for whatever was registered there |
| `Pipeline.CallerGets` | src/rpc_client.cc:81-128 | in every run, the caller of a completed call gets the reply of the last registration of exactly the requested names to the request's own metadata and payload, or the code and text of the stage that failed |
| `Pipeline.IdsDistinct` | src/rpc_client.cc:69-70 | in every run of fewer than 2^64 calls, no two calls carry the same id and none carries 0 |
| `Pipeline.CompletedCallsFit` | src/connection_manager.cc:229-242 | in every run, every completed call had a request and a response within the accepted length |
| `Pipeline.IdleConnectionsAreQuiet` | src/client_transport.cc:382-449 | in every run, an idle pooled connection has nothing in flight, buffered or unsent on either side, and every call on it was answered, in order |
| `Pipeline.SocketsHaveOneOwner` | src/client_transport.cc:438-449 | in every run, a socket is idle under the key of its own endpoint, or held by exactly one thread, or closed exactly once; buckets hold one to eight |
| `Pipeline.StepInv` | src/rpc_client.cc:69-101 | every step of clients, server, network, pool and destructor keeps the invariant behind these theorems |
| `Pipeline.StepOrigin` | src/rpc_server.cc:59-87 | every step keeps: each logged reply is dispatch at the socket's own endpoint applied to its frame, and each completed call was made to its socket's endpoint |
| `Pipeline.OnlyWholeFrame` | src/connection_manager.cc:222-250 | a complete frame in the server's buffer is the whole frame of the one call in flight, never a piece of it or of another |
| `Pipeline.HandleKeeps` | src/rpc_server.cc:59-78 | handling a frame keeps what every client phase relies on about the connection |
| `Pipeline.CompleteFrameIsReply` | src/client_transport.cc:301-325 | a frame-shaped prefix of what the client read is the whole reply, and the connection is then quiet |
| `Pipeline.CallCanComplete` | src/rpc_client.cc:40-101 | from any state, a free thread has a run that completes its call on a fresh connection with exactly the reply that dispatch computes for it, and pools the connection if fewer than eight are idle there |
| `Pipeline.CallCanCompleteReused` | src/client_transport.cc:382-406 | the same on a pooled connection that the server has not closed, from any state that keeps the invariant; pool and sockets end as they were |
| `Pipeline.CompletesExactly` | src/client_transport.cc:301-325 | after any run, a call that may start has a continuation that completes it if and only if request and reply are within the accepted length |
| `Pipeline.TruncationBreaksMatching` | src/codec.cc:18-34 | with metadata of a multiple of 2^32 bytes, a run completes the call with the answer to another request of the same id and leaves bytes in flight: the condition on sizes is needed |
| `Loops.SendIsRun` | src/client_transport.cc:190-242 | the send loop with any script is a run of sends that puts exactly the reported bytes on the connection |
| `Loops.FailedSendIsRun` | src/client_transport.cc:73-76 | a failed send loop is such a run, ended by closing the socket |
| `Loops.ReceiveFrameIsRun` | src/client_transport.cc:77-84 | receiving a frame with any script is a run of receives, ended by returning the socket when a frame came and by closing it otherwise |
| `Loops.EventIsRun` | src/connection_manager.cc:156-216 | what an event does to a connection's buffers, log and wire is a run of one receive, one handle per complete frame and one send |
| `Loops.ReactorEventIsRun` | src/reactor.cc:61-100 | the connection table's invariant before and after any event that leaves the connection open yields that run |
| `AsyncRuntime.StepInv` | src/async_runtime.cc:63-95 | every step of enqueueing, registering, firing, expiring, resuming, destroying and public cancelling keeps the invariant |
| `AsyncRuntime.TokensDistinct` | src/async_runtime.cc:135-148 | in every run, live waits have distinct nonzero tokens |
| `AsyncRuntime.ExactlyOnePlace` | src/async_runtime.cc:158-183 | in every run, an enqueued unfinished wait is in exactly one of pending list, loop thread and registration table, and there once |
| `AsyncRuntime.ResumedAtMostOnce` | src/async_runtime.cc:185-200 | in every run, no coroutine is resumed twice |
| `AsyncRuntime.DestroyedNeverResumed` | src/async_runtime.cc:31-43 | from any state, a wait whose awaiter was marked destroyed is not resumed by any continuation, even while in transit |
| `AsyncRuntime.ExpiryPass` | src/async_runtime.cc:202-223 | however others interleave, what an expiry pass took out ends timed out and resumed, or cancelled, and nothing registered is due |
| `AsyncRuntime.LoopIteration` | src/async_runtime.cc:225-265 | whatever others do in between, once the loop took the pending list and ran an expiry pass at `now`, every registration held before with a deadline of at most `now` is finished |
| `AsyncRuntime.FinishedMeansResumed` | src/async_runtime.cc:63-95 | in every run, a finished wait whose awaiter lives was resumed, exactly once, if and only if no public cancel hit its token |
| `AsyncRuntime.TimedOutHadReason` | src/async_runtime.cc:202-223 | in every run, a wait reports a timeout only if epoll refused its descriptor or an expiry pass took it at or after the deadline it was enqueued with |
| `AsyncRuntime.ReadyIsNoTimeout` | src/async_runtime.cc:240-261 | a registered wait whose descriptor became ready is resumed exactly once and never reports a timeout, in every continuation, unless its awaiter is destroyed before the resume |
| `AsyncRuntime.ResumeReports` | src/async_runtime.cc:165-200 | the resuming steps report no timeout for a ready descriptor and a timeout for a refused or expired one |
| `AsyncRuntime.EnqueueHolds` | src/async_runtime.cc:135-148 | enqueueing adds exactly one registration, with the deadline asked for and a token that nothing else holds |
| `AsyncRuntime.EnqueuedIsFinished` | src/async_runtime.cc:225-265 | a wait enqueued with a deadline is finished once the loop has, at any time after, taken the pending list and completed an expiry pass at or after that deadline |
| `AsyncRuntime.DestructorCleansUp` | src/async_runtime.cc:31-43 | a destructor that runs undisturbed takes its wait out of list and table, finished and not resumed |
| `AsyncRuntime.PublicCancelLoses` | src/async_runtime.cc:63-95 | a public cancel of the token of a pending or registered wait finishes it, and no continuation ever resumes it |
| `AsyncRuntime.GuessedToken` | src/async_runtime.cc:135-148 | the shortest such run: tokens count up from 1 |
| `AsyncRuntime.FinishedStays` | src/async_runtime.cc:240-261 | no step changes whether a finished wait timed out or how often it was resumed |
| `AsyncRuntime.SweepInv` | src/async_runtime.cc:69-82 | the pending half of a cancel removes exactly the registration with that token, settles exactly its wait, and changes nothing if there is none |
| `AsyncRuntime.Runtime.EnqueueLocked` | src/async_runtime.cc:135-148 | the locked region in place is the step system's enqueue and keeps the invariant |
| `AsyncRuntime.Runtime.CancelPending` | src/async_runtime.cc:69-82 | the first region of a cancel is the step system's sweep and keeps the invariant |
| `AsyncRuntime.Runtime.ErasePending` | src/async_runtime.cc:71-81 | the erasing loop leaves the list without the token and settles its waits |
| `AsyncRuntime.Runtime.CancelRegistered` | src/async_runtime.cc:84-94 | the table loses the token, its wait is settled, and the invariant is kept |
| `AsyncRuntime.Runtime.CancelPendingPublic` | src/async_runtime.cc:69-82 | the first region for any caller is the matching step and keeps the invariant |
| `AsyncRuntime.Runtime.CancelRegisteredPublic` | src/async_runtime.cc:84-94 | the second region for any caller is the matching step and keeps the invariant |
| `AsyncRuntime.Runtime.TakeBatch` | src/async_runtime.cc:158-163 | the swap moves the whole pending list to the loop thread |
| `AsyncRuntime.Runtime.RegisterFront` | src/async_runtime.cc:165-182 | one turn of the registering loop: into the table, or resumed as timed out when epoll refuses |
| `AsyncRuntime.Runtime.TakeReady` | src/async_runtime.cc:249-259 | a ready token leaves the table, an unknown one changes nothing |
| `AsyncRuntime.Runtime.TakeExpired` | src/async_runtime.cc:202-218 | the locked half of an expiry pass is the step system's and leaves nothing due in the table |
| `AsyncRuntime.Runtime.CollectExpired` | src/async_runtime.cc:207-217 | the table walk, in any order, removes exactly the due registrations and lists each once |
| `AsyncRuntime.Runtime.ResumeExpiredFront` | src/async_runtime.cc:220-222 | one turn of the resuming loop keeps the invariant |
| `AsyncRuntime.Runtime.Resume` | src/async_runtime.cc:185-200 | a coroutine runs exactly when its awaiter is alive; the wait is settled either way |
| `Framing.SegmentationIndependent` | src/connection_manager.cc:156-184 | for every stream and every cutting, frames, leftover and open or closed are those of the whole stream at once |
| `Framing.SplitAppend` | src/connection_manager.cc:222-250 | splitting what is buffered and then more is splitting the concatenation |
| `Framing.ValidFramesDelivered` | src/connection_manager.cc:222-250 | a concatenation of valid frames and an unfinished tail yields exactly those frames and that tail |
| `Framing.DeliveredValid` | src/connection_manager.cc:236-242 | only frames with an accepted length are delivered |
| `Framing.BadLengthCloses` | src/connection_manager.cc:229-237 | a length below 4 or above 4194304 closes the connection after exactly the frames before it |
| `Framing.GoodLengthOpens` | src/connection_manager.cc:229-243 | any length from 4 to 4194304 is accepted, and its frame delivered when it is complete |
| `Bytes.BigEndian` | src/codec.cc:18-55 | length fields are big-endian |
| `Framing.SplitSpells` | src/connection_manager.cc:222-250 | while open, frames and leftover spell the stream, and the leftover is shorter than 4 bytes plus 4 MiB |
| `ConnectionManager.ConnectionManager.Flush` | src/connection_manager.cc:187-216 | for any script, exactly the bytes that the kernel takes go out, in order; drained iff they are all, broken iff a failure or zero write stopped them, and the rest of the script is untouched |
| `ConnectionManager.ConnectionManager.HandleWritable` | src/connection_manager.cc:187-220 | the connection is flushed as far as the kernel takes and closed iff a send failed first; afterwards write interest is set exactly when bytes remain, and other connections are untouched |
| `ConnectionManager.ConnectionManager.Send` | src/connection_manager.cc:88-97 | the frame joins the connection's output exactly once and is flushed with it as far as the kernel takes |
| `ConnectionManager.ConnectionManager.Close` | src/connection_manager.cc:99-115 | the connection and its handler go together and nothing else changes |
| `ConnectionManager.ConnectionManager.AcceptLoop` | src/connection_manager.cc:126-153 | after the event the connections are the old ones, unchanged, and exactly the descriptors accepted and made non-blocking before the loop stopped, with no history; handler keys stay the live connections plus the listening descriptor |
| `ConnectionManager.ConnectionManager.ReceiveAll` | src/connection_manager.cc:156-183 | the receive loop gathers all bytes up to EAGAIN, or reports that the peer is gone |
| `ConnectionManager.EventBytesAre` | src/connection_manager.cc:162-182 | an event delivers everything received up to EAGAIN, interruptions aside, and closes when the stream ends or fails before that |
| `ConnectionManager.ConnectionManager.ProcessInput` | src/connection_manager.cc:222-250 | the split loop handles every complete frame, and closes exactly on a bad length unless a send fails |
| `ConnectionManager.ConnectionManager.RunHandler` | src/connection_manager.cc:244-248 | one run of the handler logs the frame with exactly the reply that dispatch computes for it, appends that reply and flushes |
| `ConnectionManager.ConnectionManager.HandleReadable` | src/connection_manager.cc:156-184 | the stream received so far grows by the event's bytes; the connection stays open exactly when that stream is well formed, unless a send fails or the event ends it |
| `ConnectionManager.ConnectionManager.Dispatch` | src/reactor.cc:61-100 | every reactor event on a connection keeps the invariant of all connections, touches only its own and undoes nothing; an error closes it, a readable event adds exactly its bytes, a writable one flushes, and it stays open unless the stream, a send or the event ends it |
| `ConnectionManager.InputStep` | src/connection_manager.cc:236-248 | taking a frame off the buffer and logging it keeps the log in step with the received stream |
| `Server.Conversation` | src/rpc_server.cc:59-87 | in every state that the handlers leave, on every open connection, wire plus unsent tail is one answer per received frame, in order, each encoding what dispatch makes of that frame, decoding to it unless it outgrows the length field, and then the right answer for whatever was registered |
| `Server.PeerReadsAnswers` | src/rpc_server.cc:59-87 | when no answer exceeds the accepted length, wire plus unsent tail splits back into exactly the answers |
| `Dispatcher.ExactlyOneAnswer` | src/rpc_server.cc:59-87 | whichever stage fails, exactly one response is sent, carrying the frame's id, or 0 when the frame does not decode |
| `Dispatcher.AnswerDecodes` | src/rpc_dispatcher.cc:40-93 | an answer decodes to its response and delimits itself, unless a service replies beyond what the length field can say |
| `Dispatcher.AnswerIsRight` | src/rpc_dispatcher.cc:40-93 | for all registrations, frames and services: the answer is the reply of the last registration of exactly the requested names, called with the request's metadata and payload, or the status and text of the failing stage, with the request's id; an undecodable frame gets id 0 and INVALID_PACKET |
| `Dispatcher.AnswerLength` | src/rpc_dispatcher.cc:76-92 | an answer adds at most 42 bytes to the larger of the longest reply and 64 bytes of error text |
| `Dispatcher.AnswersInOrder` | src/rpc_server.cc:59-78 | for every sequence of frames, as many answers, in order, each with its frame's id |
| `ClientIo.ReceiveMatchesSplitter` | src/client_transport.cc:301-351 | for every stream, segmentation and failure: the splitter's first frame is returned, and exactly its bytes consumed, if and only if there is one and the system calls deliver it; a length is rejected if and only if the splitter closes there; all else is a network error |
| `ClientIo.ReceiveGets` | src/client_transport.cc:244-299 | the receive loop gets the least of what is wanted, what the stream has and what the system calls move |
| `ClientIo.SendMoves` | src/client_transport.cc:190-242 | the send loop moves the least of what is to be sent and what the system calls take |
| `ClientIo.AsyncReceive` | src/client_transport.cc:244-299 | unless a wait times out, the asynchronous receive loop gives the bytes, rest and verdict of the blocking one |
| `ClientIo.AsyncSend` | src/client_transport.cc:190-242 | unless a wait times out, the asynchronous send loop gives the offset and verdict of the blocking one |
| `ClientIo.AsyncReceiveFrame` | src/client_transport.cc:327-351 | the same for whole frames |
| `ClientIo.Socket.SendAll` | src/client_transport.cc:190-242 | success means every byte was written, failure that a proper prefix was |
| `ClientIo.Socket.RecvAll` | src/client_transport.cc:244-299 | the loop reads exactly the next bytes of the stream, or stops short and says so |
| `ClientIo.Socket.ReceiveOne` | src/client_transport.cc:301-325 | length, check, body, in place, as specified |
| `ConnectionPool.PopIdleOk` | src/client_transport.cc:387-395 | popping takes exactly the newest idle socket and never leaves an empty bucket |
| `ConnectionPool.PushIdleOk` | src/client_transport.cc:440-448 | pushing adds exactly that socket and keeps buckets within eight |
| `ConnectionPool.TakeOwned` | src/client_transport.cc:382-406 | reuse moves one socket from its endpoint's bucket to one borrower |
| `ConnectionPool.GiveBackOwned` | src/client_transport.cc:438-449 | returning or, on a full bucket, closing keeps every socket with one owner or closed once |
| `ConnectionPool.DestroyOwned` | src/client_transport.cc:48-60 | destruction closes all idle sockets, each once, and no borrowed one |
| `ConnectionPool.TcpClientTransport.BorrowConnection` | src/client_transport.cc:382-406 | the newest idle socket is reused, and nothing else changes, exactly when it can be made blocking and configured; otherwise it is closed, and a new socket is connected |
| `ConnectionPool.BorrowingIs` | src/client_transport.cc:382-406 | the same on values, for every pool, key and outcome of the settings |
| `ConnectionPool.TcpClientTransport.ReturnConnection` | src/client_transport.cc:438-449 | the socket joins its endpoint's idle sockets when fewer than eight are there, and is closed otherwise; nothing else changes |
| `ConnectionPool.GiveBackIs` | src/client_transport.cc:438-449 | the same on values |
| `ConnectionPool.TcpClientTransport.RoundTrip` | src/client_transport.cc:62-84 | after a success a reused socket is back where it was and a new one is pooled while there is room; after a failure exactly that socket is closed; the result is what sending and receiving give |
| `ConnectionPool.ReturnIs` | src/client_transport.cc:62-84 | the same on values |
| `ConnectionPool.TcpClientTransport.CloseAll` | src/client_transport.cc:48-60 | the nested loops close every idle socket exactly once |
| `Codec.FrameRoundTrip` | src/codec.cc:18-67 | a frame splits back into header and payload exactly when it is shorter than the length field can say |
| `Codec.RequestRoundTrip` | src/codec.cc:73-95 | decoding an encoded request gives it back if and only if its sizes fit |
| `Codec.TruncatedRequest` | src/codec.cc:18-34 | with metadata of a multiple of 2^32 bytes both lengths wrap, and the front of the frame decodes to another request of the same id |
| `Codec.RequestFitsRoundTrip` | src/codec.cc:116-149 | a request that fits encodes to a self-delimiting frame that decodes to it, with metadata and payload cut at the right place |
| `Codec.ResponseRoundTrip` | src/codec.cc:151-178 | decoding an encoded response gives it back if and only if its sizes fit |
| `Codec.ResponseFitsRoundTrip` | src/codec.cc:97-114 | a response that fits encodes to a self-delimiting frame that decodes to it |
| `Codec.PrefixFree` | src/codec.cc:38-55 | no self-delimiting frame is a proper prefix of another |
| `Codec.RequestsUniquelyDecodable` | src/codec.cc:73-95 | distinct requests have distinct frames, neither a prefix of the other |
| `Codec.AcceptedRequest` | src/codec.cc:116-149 | in any accepted frame the lengths add up and metadata followed by payload is its suffix |
| `Codec.RequestAccepted` | src/codec.cc:116-149 | a frame is taken for a request if and only if its lengths, its header and the header's sizes agree; any other is INVALID_PACKET |
| `Codec.ResponseAccepted` | src/codec.cc:151-178 | a frame is taken for a response if and only if its lengths, its header and the payload size agree, and then it says just what they say |
| `Headers.RequestHeaderRoundTrip` | src/header.proto:5-11 | header bytes parse back to the header |
| `Headers.RequestHeaderLayout` | src/header.proto:5-11 | the header bytes are the fields in order behind the tag bytes 0x08, 0x12, 0x1a, 0x20 and 0x28, zero and empty ones left out |
| `Headers.RequestNumbersRead` | src/header.proto:6-10 | any 64-bit varint is taken for a number field and truncated to its width |
| `Headers.RequestHeaderMerge` | src/header.proto:5-11 | two headers end to end parse to their merge, later fields winning |
| `Headers.OversizedNameRejected` | src/header.proto:7-8 | a name over the field limit makes the header unreadable |
| `Headers.ResponseHeaderRoundTrip` | src/header.proto:13-18 | response header bytes parse back, negative status codes included |
| `Headers.ResponseHeaderLayout` | src/header.proto:13-18 | the response header bytes are the fields in order behind the tag bytes 0x08, 0x10, 0x1a and 0x20 |
| `Headers.ResponseNumbersRead` | src/header.proto:14-17 | any 64-bit varint is taken for a number field; a status keeps its low 32 bits as a signed number |
| `Headers.ResponseHeaderMerge` | src/header.proto:13-18 | two response headers end to end parse to their merge, later fields winning |
| `Headers.OversizedTextRejected` | src/header.proto:16 | an error text over the field limit makes the header unreadable |
| `Headers.ResponseHeaderSmall` | src/header.proto:13-18 | a response header adds at most 34 bytes to its error text |
| `Wire.VarintRoundTrip` | benchmark/user.pb.cc:267-311 | a varint followed by anything reads back as the number and that rest |
| `Wire.VarintMeans` | benchmark/user.pb.cc:313-337 | seven bits a byte, least significant first, a continuation bit on all but the last, and no superfluous zero |
| `Wire.VarintLength` | benchmark/user.pb.cc:339-359 | the logarithm-based size is the number of bytes written |
| `Wire.RecordRoundTrip` | benchmark/user.pb.cc:313-337 | a written record followed by anything reads back as the record and that rest |
| `Wire.ParseEncoded` | benchmark/user.pb.cc:267-311 | the field loop over encoded records applies them in order |
| `Wire.ParseAppend` | benchmark/user.pb.cc:267-311 | parsing accepted bytes followed by more continues from the message parsed so far, unknown fields and groups included |
| `Wire.FixedSkipped` | benchmark/user.pb.cc:289-303 | fields of the fixed-size wire types are stepped over by eight and four bytes |
| `Wire.GroupSkipped` | benchmark/user.pb.cc:289-303 | a group is stepped over to its own end tag with everything in it |
| `Wire.BadTagRefused` | benchmark/user.pb.cc:289-303 | field number zero, stray end tags, undefined wire types and too deep groups are refused |
| `Wire.OverlongRefused` | benchmark/user.pb.cc:267-311 | a tag of more than five bytes and a value of more than ten are refused |
| `Wire.Int32RoundTrip` | benchmark/user.pb.cc:313-337 | every int32 survives sign extension and truncation, and negative ones take ten bytes |
| `UserMessages.ResultMerges` | benchmark/user.pb.cc:267-384 | parsing a serialized ResultCode into any message is merging it, and into an empty one gives it back |
| `UserMessages.ResultConcatenation` | benchmark/user.pb.cc:369-384 | serialized results end to end parse to their merge |
| `UserMessages.ResultLength` | benchmark/user.pb.cc:339-359 | the serialized length is the computed size |
| `UserMessages.ResultLayout` | benchmark/user.pb.cc:313-337 | the bytes are errcode behind 0x08 and errmsg behind 0x12 |
| `UserMessages.LoginMerges` | benchmark/user.pb.cc:734-852 | the same for LoginResponse with its nested ResultCode |
| `UserMessages.LoginLength` | benchmark/user.pb.cc:806-826 | the serialized length is the computed size, nested length included |
| `UserMessages.LoginLayout` | benchmark/user.pb.cc:779-804 | the bytes are the nested result, even an empty one, behind 0x0a and the flag behind 0x10 |
| `UserMessages.FlagRead` | benchmark/user.pb.cc:748-755 | any nonzero varint is read as true |
| `UserMessages.LoginConcatenation` | benchmark/user.pb.cc:836-852 | serialized messages end to end parse to their merge |
| `UserMessages.RegisterMerges` | benchmark/user.pb.cc:975-1117 | the same for RegisterRequest |
| `UserMessages.RegisterConcatenation` | benchmark/user.pb.cc:1099-1117 | serialized requests end to end parse to their merge |
| `UserMessages.RegisterLength` | benchmark/user.pb.cc:1062-1089 | the serialized length is the computed size |
| `UserMessages.RegisterLayout` | benchmark/user.pb.cc:1030-1060 | the bytes are id, name and pwd behind 0x08, 0x12 and 0x1a |
| `UserMessages.ResultCode.InternalParse` | benchmark/user.pb.cc:267-311 | the parse loop in place computes the fold over the records, or fails where it does |
| `UserMessages.ResultCode.MergeFrom` | benchmark/user.pb.cc:369-384 | merging in place overwrites exactly the fields that are set |
| `UserMessages.ResultCode.ByteSizeLong` | benchmark/user.pb.cc:339-359 | the accumulated total is the serialized length |
| `UserMessages.LoginResponse.InternalParse` | benchmark/user.pb.cc:734-777 | the parse loop in place, merging a repeated nested message |
| `UserMessages.LoginResponse.MergeFrom` | benchmark/user.pb.cc:836-852 | merging in place, nested message included |
| `UserMessages.LoginResponse.ByteSizeLong` | benchmark/user.pb.cc:806-826 | the accumulated total is the serialized length |
| `Registry.KeyInjective` | src/service_registry.cc:22-26 | a joined key of dot-free registered names equals the key of no other pair of strings, whatever dots a request contains |
| `Registry.IndexAgrees` | src/service_registry.cc:11-20 | after any registrations the index agrees with a scan for the last one of exactly that pair, for arbitrary request strings |
| `Registry.ServiceAgrees` | src/service_registry.cc:27-36 | some indexed entry has a service name exactly when some registration has it |
| `Registry.LookupIsScan` | src/service_registry.cc:22-38 | lookup returns the last registration, else reports an unknown method exactly when the service name is registered |
| `Registry.ServiceRegistry.RegisterService` | src/service_registry.cc:11-20 | the loop appends the service's methods in order to what was registered |
| `Registry.ServiceRegistry.Find` | src/service_registry.cc:22-38 | finds the last registration of exactly that pair, or the right error |
| `Config.PrintedTreeLoads` | src/config.cc:68-92 | a tree printed with growing indents, any spacing, quoting and trailing comments, any blank or comment lines between, and with or without a last newline, loads to its flat dotted-path map, last write winning |
| `Config.LongValueCut` | src/config.cc:80-82 | a value on a line of its own is stored as far as the first 1023 characters go, so it comes back exactly when it fits |
| `Config.LayoutRead` | src/config.cc:24-42 | every layout of a line is read as the item it prints |
| `Config.PrintedLine` | src/config.cc:32-42 | key, value and indent are found whatever the padding and comment |
| `Config.NoiseLine` | src/config.cc:24-30 | blank and comment lines say nothing |
| `Config.NoColonNothing` | src/config.cc:35-38 | a line without a colon before its comment says nothing |
| `Config.SkipIsRead` | src/config.cc:81-88 | the loader's early skip of blank and comment lines changes nothing |
| `Config.ForestLoads` | src/config.cc:44-65 | from any stack, the lines of a forest add exactly its flattening below the names of the open sections |
| `Config.PathIs` | src/config.cc:53-65 | the path of a stack is its section names joined with dots, leading empty names aside |
| `Config.FullKeySplits` | src/config.cc:53-65 | with nonempty dot-free names a setting's name splits back into them, so different settings never collide |
| `Config.LinesKeepIncreasing` | src/config.cc:44-51 | section indents are strictly increasing after any lines |
| `Config.ChunksAreLines` | src/config.cc:80-82 | lines that fit the buffer are read one by one, the last with or without a newline |
| `Config.NulHides` | src/config.cc:80-82 | what follows a NUL in a line is not seen |
| `Config.Loader.ParseYamlLine` | src/config.cc:16-66 | one line in place updates stack and map as specified and keeps the indents increasing |
| `Config.Loader.CloseSections` | src/config.cc:44-46 | exactly the sections indented at least as far are closed |
| `Config.Loader.LoadText` | src/config.cc:68-92 | the read loop computes the loaded map |
| `Text.TrimPadded` | src/string_utils.cc:8-15 | trimming takes off exactly the surrounding blanks |
| `Text.CountIndent` | src/string_utils.cc:25-32 | counts the leading spaces and tabs |
| `Text.SplitJoin` | src/settings.cc:94-108 | splitting joined parts gives the parts back |
| `Text.JoinSplit` | src/settings.cc:94-108 | joining a split gives the text back |
| `Text.Split` | src/string_utils.cc:34-48 | the cursor loop computes that split |
| `Endpoints.ListRoundTrip` | src/settings.cc:110-122 | the comma-joined texts of a nonempty list of valid endpoints parse to that list |
| `Endpoints.ParseEndpointList` | src/settings.cc:110-122 | the loop succeeds exactly when every item parses, with their endpoints in order, and otherwise reports the first bad item |
| `Endpoints.ParseAllIs` | src/settings.cc:110-122 | the same for any list of items |
| `Endpoints.EndpointRoundTrip` | src/settings.cc:28-48 | a valid endpoint with a plain host parses back from its text |
| `Endpoints.EndpointHalves` | src/settings.cc:28-48 | the first colon separates host and port, both trimmed here and neither in discovery; without a colon there is no endpoint |
| `Endpoints.StoulReads` | src/settings.cc:36-42 | spaces, a sign and digits are read, the rest is ignored, a minus negates modulo 2^64, and more than 64 bits are refused |
| `Endpoints.StoulRefuses` | src/settings.cc:36-42 | without a digit there is no port |
| `Endpoints.PortTruncated` | src/settings.cc:34-46 | any number comes back as its low 16 bits, is refused when those are 0 or when it exceeds 64 bits, and is unchanged exactly when it is a nonzero 16-bit number |
| `Endpoints.InstanceRoundTrip` | src/service_discovery.cc:104-129 | discovery parses what registration writes, for any host without a colon |
| `Endpoints.ToStringInjective` | src/types.cc:8-11 | equal texts mean equal endpoints, whatever the hosts contain |
| `Discovery.CacheIsFresh` | src/service_discovery.cc:139-186 | in every run with non-overlapping refreshes and successful reads, a cached path at rest holds exactly the registered instances that parse, with a watch armed, or a notification for it is undelivered |
| `Discovery.ResolveIsCurrent` | src/service_discovery.cc:69-87 | resolving such a path with nothing undelivered gives an instance registered now, and fails exactly when there is none |
| `Discovery.CallbackKeepsKey` | src/service_discovery.cc:172-180 | the callback refreshes the path it was called for exactly for the paths that `Resolve` builds, for all strings |
| `Discovery.StepInv` | src/zookeeperutil.cc:182-210 | every careful step of registrations, watches, notifications and refreshes keeps the invariant |
| `Discovery.FoundReflects` | src/service_discovery.cc:149-164 | reading every listed child yields exactly the parseable instances, each once |
| `Discovery.FailedReadGoesStale` | src/service_discovery.cc:181-185 | with failing watched reads, every cached path can be lost: from any state where it is right and at rest, a run leads to a wrong cache with no watch and no notification |
| `Discovery.OverlapGoesStale` | src/service_discovery.cc:166-169 | with overlapping refreshes, every path not cached yet can end with the older listing in the cache and nothing undelivered, whatever was registered before |
| `Discovery.FailedDataGoesStale` | src/service_discovery.cc:152-156 | with failing data reads, every uncached path with a live instance can be cached without it and nothing undelivered |
| `Discovery.RegisteredIsLive` | src/service_discovery.cc:191-213 | an endpoint registered under its own text becomes a live instance |
| `Discovery.CollectIsFound` | src/service_discovery.cc:149-164 | the refresh loop's result is what the step system's single reads find |
| `Discovery.RefreshIsRun` | src/service_discovery.cc:139-170 | a refresh against an unchanged tree, failed data reads included, is the run from its watched read to its store |
| `Discovery.ZkResolver.RefreshMethod` | src/service_discovery.cc:139-170 | skips unreadable and malformed instances, replaces only this path's entry and only after a successful watched read, and is a run of the step system for any tree that gave its replies |
| `Discovery.ZkResolver.Resolve` | src/service_discovery.cc:69-87 | a hit changes nothing and chooses from the cache; a miss fills the entry and chooses from it |
| `Discovery.ZkResolver.OnMethodChanged` | src/service_discovery.cc:172-186 | overwrites exactly the entry of the path that changed |
| `MessagePool.OneOwner` | src/message_pool.cc:7-79 | in every run, each message object is in one handle or one bucket slot, never in two places and never lost |
| `MessagePool.BucketsAreClean` | src/message_pool.cc:68-79 | in every run, buckets hold at most the limit, all cleared and of the bucket's type |
| `MessagePool.AcquiredIsClean` | src/message_pool.cc:43-66 | in every run, an acquired message is empty, of the prototype's type and in no other handle |
| `MessagePool.StepInv` | src/message_pool.cc:12-41 | acquire, write, move, move-assign (to itself too) and destroy keep the invariant |
| `MessagePool.TakeCachedInv` | src/message_pool.cc:57-63 | clearing a reused message changes nothing, since cached messages are already cleared |
| `MessagePool.Pool.AcquireMessage` | src/message_pool.cc:43-66 | reuses the newest cached message of the type, creates one only without, and hands it out empty |
| `MessagePool.Pool.ReturnMessage` | src/message_pool.cc:68-79 | a cleared message joins its bucket while there is room, and is deleted otherwise; nothing else changes |
| `MessagePool.Pool.ReleaseHandle` | src/message_pool.cc:31-41 | a handle gives its message back, cleared, at most once and ends empty; an empty one changes nothing |
| `MessagePool.Pool.MoveConstructFrom` | src/message_pool.cc:12-15 | the new handle takes over the message and the source ends empty |
| `MessagePool.Pool.MoveAssignTo` | src/message_pool.cc:17-27 | the target takes over the source's message, its own is released, and self-assignment changes nothing |
| `MessagePool.Pool.DestroyHandle` | src/message_pool.cc:29 | destroying a handle releases its message |

## Left out

- System calls, socket options, `epoll` and threads themselves: only their results and the byte stream are modelled; C++
  memory ordering is taken as sequentially consistent.
- src/include/task.h: coroutine handles are resumed only by the runtime.
- `BorrowConnectionAsync` and `ConnectToAsync`: unused by the default path, since `RoundTripAsync` calls `RoundTrip`.
- `AsyncRuntime::Run` has no method of its own: each region and each resume inside it is a method that is one step of
  the step system, because other threads may run between any two of them.
- RegisterRequest and LoginRequest as objects: RegisterRequest is modelled on values only, so its in-place update is
  not captured; LoginRequest repeats its shape.
- Protobuf reflection, arenas, descriptors and the storage of unknown fields: unknown fields are skipped, with the
  library's nesting limit of 100, and not kept.
- UTF-8 validation: all modelled text fields are `bytes`.
- The texts of client network errors: one text stands for each kind of failure.
- Connection by a fresh socket is allowed in `Pipeline` even when an idle one exists, which only adds runs.
- ServiceRegistry::ListMethods, StaticResolver and NoopRegistrar: easy reads of one map.
- Loops.ReactorEventIsRun: covers events that leave the connection open; what a connection sends in the very event that
  closes it is not recorded, and the close itself is the pipeline's `ServerClose`.
- ZooKeeper sessions, the C client, nodes without data and a registrar's partial failure: foreign code; a watched read
  is one step.
- The random draw among instances: a parameter.
- Logger, controller accessors, status strings, enum settings, benchmark metrics: easy or I/O-bound.
