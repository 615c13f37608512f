# A verified model of the reactor HTTP server

This project models, in Dafny, the parts of a C++ multi-reactor HTTP server whose correctness
depends on state kept over many calls and many threads, and proves what they promise.

* **HTTP/1.1 parsing** (`HttpContext`, `HttpRequest`, `HttpServer`). The incremental parser is a
  class that works on its buffer in place (`HttpContexts.HttpContext`); each method is proved
  equal to a function of the state before. About that function it is proved that the result does
  not depend on how the stream was cut, exactly when no body runs until the connection closes;
  that what a client renders is read back, for every cut; which requests are refused and which
  make the parser throw; that the chunk decoder takes exactly the complete frames; and that
  pipelined requests are served in order, with every other byte accounted for.
* **Connection life cycle** (`TcpServer`, `TcpConnection`, `Channel`, `Epoller`, `EventLoop`). One
  main loop and any number of other loops interleave freely; shared pointers are references
  counted in the state; an object dies when the last one goes, and its descriptor may then be
  handed out again. It is proved what never goes wrong, and also that what has been queued or
  reported can always still run, so that every connection can come to its end.
* **Event-loop queue and wake-up** (`EventLoop`). The push under the lock and the write to the
  wake-up descriptor are separate steps of any number of threads.
* **Timers and idle connections** (`TimerQueue`, `Timer`, `TimerStamp`, `HttpServer`). Callbacks
  add timers in the middle of a firing; the clock is monotone and otherwise arbitrary.
* **Asynchronous log and byte buffers** (`AsyncLogger`, `LogFile`, `LogStream`, `Buffer`,
  `FixedBuffer`), and the **send path** of a connection over them.

Each file holds one module. Where the source changes fields step by step there is a class with
those fields, and its methods are tied to functions on the abstract state; where threads
interleave there is a state machine whose actions are the source's atomic sections, with the
theorems stated over all runs (`Legal`, `After`). Strings stand for byte sequences.
Whatever the system decides - how many bytes `write` takes, what `read` answers, what `poll`
reports, how far the clock moves, how a hash map is walked, which loop a connection goes to - is
arbitrary.

`dafny verify dfyconfig.toml` checks everything.

## Where the code differs from what it says

* The constructor of `HttpContext` leaves `complete_headers_` unset (http/HttpContext.cpp:17-20),
  and nothing calls `Reset` before the first parse. `HttpRoundTrip.ConstructedParserNeedsFlag`
  shows that a new parser reads a message if and only if it finds the flag false. The other
  theorems start from the state that `Reset` leaves.
* A body that lasts until the connection closes (`Connection: close`, or any version but
  HTTP/1.1) is whatever has arrived when the head is complete (http/HttpContext.cpp:92-94), so it
  does depend on the cuts: `HttpFragments.FragmentationIndependenceIff` says exactly when.
* An unknown method is taken for GET and an unknown version for HTTP/1.0, because the "invalid"
  codes share their values with them (http/HttpRequest.h:15, http/HttpRequest.h:21).
* A comment says that the worker's batch is empty before each swap (utils/AsyncLogger.cpp:56).
  It is not when the batch before had more than two buffers: those left are put back and written
  again. `LoggerProtocol.ExactlyOnceIff` says exactly when the file equals what was appended, and
  `LoggerProtocol.WrittenTwiceAtFullSize` gives a run in which it does not.
* `formatInteger` tests the sign when the value is already zero (utils/LogStream.h:107-114):
  `LogStreams.FormattedIsDecimalIff` says that the text is right exactly for the non-negative
  values.
* One reading serves one request at most (http/HttpServer.cpp:82-97). Of two requests that arrive
  together the second waits, complete, until more bytes come: `HttpPipeline.SecondRequestWaits`.
* A request that arrives in the same reading as the end of the stream is not answered: the
  connection is closed before the message callback runs (tcp/TcpConnection.cpp:92-96,
  http/HttpServer.cpp:70). `HttpPipeline.AnsweredUnlessReadingCloses` says exactly when, and
  `HttpPipeline.RequestBeforeEndOfFileIsDropped` gives one such request.

## Model

| member | source | states |
|---|---|---|
| `HttpFragments.FragmentationIndependenceIff` | http/HttpContext.cpp:55-178 | For any byte stream: every way of cutting it gives the verdict, request and left-over bytes of the uncut stream, if and only if no until-close body follows the head |
| `HttpFragments.FragmentationIndependence` | http/HttpContext.cpp:55-178 | The same from any state between calls, so also in the middle of a request |
| `HttpFragments.StepSplit` | http/HttpContext.cpp:55-115 | One call on bytes and then on more is one call on both: what is parsed is final, what is buffered is parsed on |
| `HttpFragments.BodySplit` | http/HttpContext.cpp:87-114 | The same for the part after the head, for each framing of the body |
| `HttpFragments.ChunkedSplit` | http/HttpContext.cpp:153-178 | Chunks decoded from a prefix and then from the rest are the chunks of the whole |
| `HttpFragments.CutLosesBody` | http/HttpContext.cpp:92-113 | A cut right after the head of a request with an until-close body loses that body |
| `HttpErrors.OtherVersionsDependOnCuts` | http/HttpContext.cpp:92-113 | Every request whose head is one start line of another version, if bytes follow, is read differently depending on the cuts |
| `HttpErrors.OldRequestDependsOnCuts` | http/HttpContext.cpp:92-113 | A concrete one: a GET in HTTP 1.0 followed by one byte |
| `HttpHeads.CutsMatterIff` | http/HttpContext.cpp:87-95 | On the text: for any start line and distinct well-formed fields, the parse depends on the cuts if and only if the transfer is not chunked, the connection is to be closed or the version is not HTTP/1.1, and something follows the head |
| `HttpHeads.RestIsBody` | http/HttpContext.cpp:92-114 | For such a head one call is accepted and complete, with whatever follows the head as the body and nothing left, whatever length is announced |
| `HttpHeads.HeadIsRead` | http/HttpContext.cpp:59-85 | Any start line of three parts, of any version, with well-formed fields is read into its parts, and what follows is left for the body |
| `HttpHeads.FramingOfHead` | http/HttpContext.cpp:88-93 | Which fields and versions make a body chunked or until close |
| `HttpHeads.MethodsByName` | http/HttpRequest.cpp:8-34 | The names of the methods; every other name is taken for GET |
| `HttpHeads.VersionsByName` | http/HttpRequest.cpp:66-80 | Exactly the text HTTP/1.1 is taken for it |
| `HttpFragments.CutStaysHarmless` | http/HttpContext.cpp:59-95 | A stream without such a body stays one after a call that left the request open |
| `HttpChunks.DecoderTakesFrames` | http/HttpContext.cpp:153-178 | The buffer before is the complete frames at its front followed by the buffer after; the body grew by exactly their data; it is complete exactly after an empty chunk; it throws exactly at a size that is no number |
| `HttpChunks.FirstFrameIsPrefix` | http/HttpContext.cpp:157-166 | A complete chunk is its size line, as many bytes as that says, and two more |
| `HttpRoundTrip.RenderThenParse` | http/HttpContext.cpp:55-178 | Any well-formed request, bodiless, length-framed or chunked in any partition, is read back with nothing taken of what follows it |
| `HttpRoundTrip.FragmentsRoundTrip` | http/HttpContext.cpp:55-178 | The same for every way of cutting it, with nothing left over |
| `HttpRoundTrip.ConstructedParserNeedsFlag` | http/HttpContext.cpp:17-20 | A new parser reads a message if and only if the unset flag is false; otherwise the whole message becomes the body of a blank request |
| `HttpRoundTrip.HeadParses` | http/HttpContext.cpp:59-85 | The head ends at the rendered blank line and yields method, target and header map |
| `HttpRoundTrip.StartLineParses` | http/HttpContext.cpp:117-131 | The start line is read into the rendered method, target and version |
| `HttpRoundTrip.FieldLinesParse` | http/HttpContext.cpp:134-151 | Field lines are read into the map in order, later ones overriding |
| `HttpRoundTrip.FieldMapHolds` | http/HttpRequest.cpp:128-131 | With distinct keys the map holds exactly the fields |
| `HttpRoundTrip.LastFieldCounts` | http/HttpRequest.cpp:128-131 | When a key comes more than once, its last field counts |
| `HttpRoundTrip.CharBehindColonSkipped` | http/HttpContext.cpp:146-147 | The character behind the first colon is skipped, whatever it is |
| `HttpRoundTrip.ChunksParse` | http/HttpContext.cpp:153-178 | Any list of non-empty chunks with the zero chunk is read into the concatenation of their data |
| `HttpRoundTrip.ContentParses` | http/HttpContext.cpp:87-114 | The announced content is read completely and no further |
| `HttpRoundTrip.FramingIsRead` | http/HttpContext.cpp:88-95 | The header map selects the framing that the request announced |
| `HttpErrors.RequestVerdict` | http/HttpContext.cpp:55-178 | For any head, also with stray carriage returns or an empty first line, and whatever follows: refused if and only if the start line, a field line or the length is bad in the stated way; throws if and only if a field line ends with its only colon or a chunk size is no number |
| `HttpErrors.HeadHasLines` | http/HttpContext.cpp:61-73 | Any bytes that contain a blank line are the lines of such a head, the blank line and what follows, so that verdict covers every request whose head has arrived |
| `HttpErrors.StartLineVerdict` | http/HttpContext.cpp:117-131 | A start line is accepted exactly when it is a word, a space, a non-empty word, a space and anything |
| `HttpErrors.FieldLinesVerdict` | http/HttpContext.cpp:134-151 | For any lines without a line end inside: the first that is not accepted decides; no colon is refused, nothing after the only colon throws |
| `HttpErrors.StartPartsRead` | http/HttpContext.cpp:117-131 | What is read from a proper start line, whatever its three parts |
| `HttpErrors.HeadIsJudged` | http/HttpContext.cpp:59-85 | The verdict on any head is that on its lines, and does not depend on what follows it |
| `HttpErrors.BodyVerdict` | http/HttpContext.cpp:87-114 | The part after the head refuses exactly a bad length and throws exactly at a bad chunk size |
| `HttpErrors.ThrowsAtBadChunk` | http/HttpContext.cpp:155-164 | The chunk decoder throws exactly when a size that is no number follows the complete chunks |
| `HttpContexts.HttpContext.ParseRequest` | http/HttpContext.cpp:55-115 | The object's new state and verdict are those of the parsing function on its old state and the new bytes |
| `HttpContexts.HttpContext.ParseBody` | http/HttpContext.cpp:87-114 | The same for the part after the head |
| `HttpContexts.HttpContext.ParseChunkedBody` | http/HttpContext.cpp:153-178 | The loop terminates on every buffer and computes the decoding function |
| `HttpContexts.HttpContext.ParseRequestHeaders` | http/HttpContext.cpp:134-151 | The loop over positions computes the recursive reading of lines, with its two failures |
| `HttpContexts.HttpContext.ParseRequestLine` | http/HttpContext.cpp:117-131 | The request fields set, and when the line is refused |
| `HttpContexts.HttpContext.Reset` | http/HttpContext.cpp:24-30 | A fresh request and cleared flags; the buffered bytes stay |
| `HttpContexts.HttpContext.ClearBuffer` | http/HttpContext.cpp:32-35 | The buffered bytes are dropped |
| `HttpContexts.HttpContext.constructor` | http/HttpContext.cpp:17-20 | A blank request and an empty buffer; the head flag has any value |
| `HttpRequests.MethodRoundTrip` | http/HttpRequest.cpp:8-64 | Reading the text of a method gives the method |
| `HttpRequests.HttpRequest.SetMethod` | http/HttpRequest.cpp:8-34 | The code of a name; unknown names get that of GET |
| `HttpRequests.HttpRequest.SetVersion` | http/HttpRequest.cpp:66-80 | The code of a version; unknown ones get that of 1.0 |
| `HttpRequests.HttpRequest.SetHeader` | http/HttpRequest.cpp:128-131 | The last value of a key counts |
| `HttpRequests.HttpRequest.AddBody` | http/HttpRequest.cpp:149-152 | The text goes to the end of the body |
| `Text.StoulNumeral` | http/HttpContext.cpp:98 | A number that fits 64 bits, printed in base ten or sixteen, is converted back to itself |
| `Text.StoulReads` | http/HttpContext.cpp:161 | A number between white space and other text is converted to itself if and only if it fits 64 bits; otherwise the conversion fails |
| `Text.StoulSigned` | http/HttpContext.cpp:161 | A plus sign and, in base sixteen, the prefix change nothing; a minus sign negates modulo 2^64 |
| `Text.StoulFails` | http/HttpContext.cpp:98 | Without a digit behind white space and sign the conversion fails |
| `Text.Find` | http/HttpContext.cpp:61 | The first occurrence at or after an index, or none at all |
| `Text.FindInPrefix` | http/HttpContext.cpp:57-61 | Bytes that arrive later do not change an occurrence already found |
| `Text.BlankLineEndsBlock` | http/HttpContext.cpp:61 | The first blank line after a block of lines, of which only the first may be empty, is the one that ends it |
| `HttpPipeline.PipelineSafety` | http/HttpServer.cpp:69-104 | For any stream of well-formed requests read in any pieces, whether or not a reading meets its end or an error: the requests handed on are a prefix of those sent, each answered once and in order, and while the connection is open the other bytes read are exactly those the parser and its buffer stand for |
| `HttpPipeline.AccountsKept` | http/HttpServer.cpp:69-104 | One more reading keeps that account |
| `HttpPipeline.ServedOnCompletion` | http/HttpServer.cpp:82-97 | A reading serves the next request if and only if it leaves the connection open and the bytes read by then complete it |
| `HttpPipeline.AnsweredUnlessReadingCloses` | tcp/TcpConnection.cpp:90-96 | A whole request that arrives in one reading is answered if and only if this reading does not meet the end of the stream or an error; otherwise nothing is sent |
| `HttpPipeline.RequestBeforeEndOfFileIsDropped` | tcp/TcpConnection.cpp:177-181 | A concrete one: `GET /` followed by end of file is not answered, and is when the client waits |
| `HttpPipeline.SecondRequestWaits` | http/HttpServer.cpp:77-97 | Of two requests in one reading only the first is served; the second stays buffered, complete |
| `HttpPipeline.FrontMessage` | http/HttpContext.cpp:55-115 | A prefix of a stream of requests is decided if and only if the first request is complete in it, and then yields that request and leaves the surplus |
| `HttpPipeline.ServeConnection` | tcp/TcpConnection.cpp:90-103 | The server, connection, buffer and parser objects, driven by any run of read events, also those that meet end of file or an error, end where the session model ends and serve the same requests |
| `HttpPipeline.ServeOne` | tcp/TcpConnection.cpp:90-103 | One read event on the objects, however the reading ends, is one delivery to the session |
| `HttpServers.HttpServer.OnMessage` | http/HttpServer.cpp:69-104 | Outcome, output, connection state, parser state and activity time, for every branch |
| `HttpServers.HttpServer.Conclude` | http/HttpServer.cpp:82-102 | What follows each verdict of the parser |
| `HttpServers.HttpServer.OnRequest` | http/HttpServer.cpp:106-123 | The answer goes behind all earlier output, and the connection closes exactly when the answer says so |
| `HttpServers.HttpServer.Refuse` | http/HttpServer.cpp:87-92 | A refused request is answered with the 400 line and the connection closes |
| `HttpServers.HttpServer.HandleMessage` | tcp/TcpConnection.cpp:90-103 | All that can be read reaches the message callback in order, unless the reading closed the connection; the activity time is recorded exactly in the first case |
| `HttpServers.HttpServer.OnConnection` | http/HttpServer.cpp:48-51 | The first idle check is due one timeout after the connection was established, if there is a timeout |
| `HttpAnswers.KeptByDefault` | http/HttpServer.cpp:108-112 | Every well-formed HTTP/1.1 request that does not ask for closing is handed over as one to keep open |
| `HttpAnswers.DecisionOnHead` | http/HttpServer.cpp:108-112 | On the text: the application is told to close if and only if the fields say close, or the version is another and they do not say Keep-Alive |
| `HttpAnswers.WellFormedIsKept` | http/HttpServer.cpp:106-122 | With an application that follows the default, a well-formed request in one reading is answered and the connection stays open |
| `HttpAnswers.UntilCloseIsAnswered` | http/HttpServer.cpp:69-122 | A request whose body ends with the connection is served with what came in the reading, and the connection stays exactly if its head does not ask for closing |
| `HttpAnswers.BadRequestIsRefused` | http/HttpServer.cpp:87-92 | A request with a bad start line, field line or length gets the 400 line and nothing else, is not handed on, and the connection closes |
| `HttpAnswers.ThrowIsNotAnswered` | http/HttpContext.cpp:161 | One that makes the parser throw is not handed on and gets no answer |
| `HttpServers.HttpServer.HandleActiveClose` | http/HttpServer.cpp:54-66 | Closes exactly when the last activity is more than the timeout ago, and otherwise asks to be run again |
| `HttpResponses.HeadersReadBack` | http/HttpResponse.cpp:20-41 | For every iteration order a reader of the field lines sees the connection field, overridden by the response's own headers, overridden by the cache policy |
| `HttpResponses.ConnectionReadsBack` | http/HttpResponse.cpp:24-37 | A reader sees `close` if the response closes the connection and `Keep-Alive` if it keeps it, unless the response has its own field; and always the cache policy |
| `HttpResponses.StatusReadsBack` | http/HttpResponse.cpp:23 | The block starts with HTTP/1.1, a number that converts back to the status code, and the message |
| `HttpResponses.OrderIrrelevant` | http/HttpResponse.cpp:32-35 | The fields printed in any iteration order make up the same map |
| `HttpResponses.LengthReadsBack` | http/HttpResponse.h:39 | After `SetContentLength` a reader of the block converts the field back to the length, whatever other headers there are |
| `HttpResponses.MessageSplits` | http/HttpResponse.cpp:15-41 | The first blank line of a response is the one that ends its header block, and the body follows untouched |
| `HttpResponses.HttpResponse.GetHeaderString` | http/HttpResponse.cpp:20-41 | The printed block, for any iteration order |
| `HttpResponses.HttpResponse.Message` | http/HttpResponse.cpp:15-18 | The block and then the body, which a reader finds right after the first blank line |
| `LifecycleSafety.EveryActionSafe` | tcp/TcpServer.cpp:44-82 | In every run: a channel whose handler starts belongs to a living connection of that loop; an accepted descriptor is no key of the map and in no kernel set; an erasure finds its own entry, whether the main loop runs it from its queue or at once in a close; the deregistration finds its channel registered, on the channel's loop |
| `LifecycleSafety.DestroyedOnlyAfterDeregistration` | tcp/TcpConnection.cpp:40-62 | In every run: a destroyed connection has been closed, erased and deregistered once each, and no loop watches it or still walks a list that names it |
| `LifecycleSafety.AtMostOnce` | tcp/TcpServer.cpp:68-82 | In every run no connection is closed, erased or deregistered twice |
| `LifecycleSafety.QuietMeansNoLeak` | tcp/TcpServer.cpp:72-82 | Whenever all loops have settled, as they always can, exactly the closed connections are destroyed, and the open ones are in the map under their descriptors |
| `LifecycleLiveness.QueuedFunctionsRun` | tcp/EventLoop.cpp:84-96 | From every reachable state the swap and one step for each function queued is a run, after which every one of them has had its effect |
| `LifecycleLiveness.CanAlwaysSettle` | tcp/EventLoop.cpp:42-50 | Every run can go on until no loop has anything left to do; then every connection closed before is destroyed |
| `LifecycleLiveness.EveryConnectionCanEnd` | tcp/TcpConnection.cpp:40-62 | From every reachable state every connection can be brought to its destruction |
| `LifecycleLiveness.WholeLife` | tcp/TcpServer.cpp:44-82 | From every settled reachable state a client can connect with any free descriptor on any loop, is then connected there, and can later be closed and destroyed |
| `LifecycleLiveness.ReportedIsHandled` | tcp/EventLoop.cpp:45-47 | A loop with a channel on its list of reported ones can always come to its handler |
| `LifecycleLiveness.CheckCloses` | http/HttpServer.cpp:54-60 | An open connection of a settled state can also be closed by an idle check on its loop |
| `LifecycleLiveness.FinishWalk` | tcp/EventLoop.cpp:45-48 | Every walk over reported channels can be brought to its end, and then exactly what was queued is swapped out |
| `LifecycleLiveness.FinishBatch` | tcp/EventLoop.cpp:94-96 | Every batch can be run to its end; it queues deregistrations only |
| `LifecycleInvariant.InvAlways` | tcp/EventLoop.cpp:42-50 | The invariant holds after every run of every number of loops |
| `LifecycleInvariant.InvKept` | tcp/EventLoop.cpp:42-50 | Every action keeps the invariant, including the death of objects it releases |
| `LifecycleInvariant.AcceptKept` | tcp/TcpServer.cpp:44-57 | Accepting keeps it, on whichever loop the connection goes |
| `LifecycleInvariant.AcceptedFdIsNew` | tcp/TcpServer.cpp:56 | A descriptor the system hands out is no key of the map: whatever is there is alive and holds its descriptor open |
| `LifecycleInvariant.EstablishKept` | tcp/TcpConnection.cpp:45-54 | Making the channel listen keeps it |
| `LifecycleInvariant.CloseKept` | tcp/TcpConnection.cpp:77-88 | A first close on any loop keeps it: one erasure becomes pending on the main loop, or happens there at once |
| `LifecycleInvariant.ErasureKept` | tcp/TcpServer.cpp:72-82 | The erasure keeps it and hands one deregistration to the connection's loop |
| `LifecycleInvariant.DeregistrationKept` | tcp/TcpConnection.cpp:56-62 | The deregistration keeps it |
| `LifecycleInvariant.TaskInPlace` | tcp/TcpServer.cpp:72-77 | A bound function about to run finds its connection in exactly the stage that it ends |
| `LifecycleInvariant.ClosesInPlace` | tcp/TcpConnection.cpp:77-88 | A connection that an event handler or an idle check closes is alive and on that loop, and for a first close the map holds it under its descriptor |
| `LifecycleInvariant.RegisteredIsAlive` | tcp/Channel.cpp:17-24 | While its channel is registered an object is referenced, so the weak pointer yields it |
| `LifecycleInvariant.ApplyKeepsDead` | tcp/TcpConnection.cpp:40-43 | The destroyed objects are those nothing refers to, and none comes back |
| `LifecycleInvariant.EnabledIsDefined` | tcp/EventLoop.cpp:45-47 | No action ever follows a pointer to an object that was never made |
| `TcpServers.TcpServer.HandleNewConnection` | tcp/TcpServer.cpp:44-57 | The map gains exactly the new descriptor, which it did not hold; the method is the machine's action |
| `TcpServers.TcpServer.HandleClose` | tcp/TcpConnection.cpp:77-88 | Only a first close has an effect; off the main loop it queues the erasure there |
| `TcpServers.TcpServer.CloseFrom` | tcp/TcpServer.cpp:68-77 | In any state of the machine an event handler or an idle check may close: what the two methods around it demand is met, also when the main loop erases at once, and the map loses exactly that entry |
| `TcpServers.TcpServer.HandleCloseInLoop` | tcp/TcpServer.cpp:72-82 | The map loses exactly this descriptor, and the deregistration is queued on the connection's loop |
| `TcpServers.TcpServer.ConnectionDestructor` | tcp/TcpConnection.cpp:56-62 | The channel leaves the kernel set of its loop, where it is |
| `TcpServers.TcpServer.RunNext` | tcp/EventLoop.cpp:94-96 | In any state of the machine the next bound function may run: the assertions inside hold |
| `TcpServers.TcpServer.DoToDoList` | tcp/EventLoop.cpp:84-99 | What was queued is swapped out and run to its end, and every function in it has had its effect |
| `TcpServers.TcpServer.SwapOut` | tcp/EventLoop.cpp:88-93 | The batch is exactly what was queued, and the queue is empty; the method is the machine's action |
| `EventLoops.NoLostWakeup` | tcp/EventLoop.cpp:42-108 | In every run: when the loop is about to block with a function queued, the descriptor is readable or another thread is between its push and its write |
| `EventLoops.GlobalPushOrder` | tcp/EventLoop.cpp:67-99 | In every run: executed, then the rest of the batch, then the queue are the pushed functions in push order |
| `EventLoops.InvKept` | tcp/EventLoop.cpp:67-108 | Every action of any thread keeps both |
| `EventLoops.WakeupReadSucceeds` | tcp/EventLoop.cpp:101-108 | In every run the assertion that the wake-up read succeeds holds |
| `EventLoops.WakeupDrains` | tcp/EventLoop.cpp:42-99 | Once the descriptor is readable, the loop's own next steps turn everything queued so far into the batch it runs |
| `EventLoops.EventLoop.QueueOneFunc` | tcp/EventLoop.cpp:67-82 | While others move in between: the function goes to the end of the queue, and the wake-up is written exactly for other threads and for running functions |
| `EventLoops.EventLoop.RunOneFunc` | tcp/EventLoop.cpp:59-65 | On the loop's thread the function runs at once and nothing is queued; otherwise it is queued with a wake-up |
| `EventLoops.EventLoop.DoToDoList` | tcp/EventLoop.cpp:84-99 | A run of the machine in which other threads push throughout: exactly the functions queued before the swap run, in order; what they queue stays, with one wake-up each; and the next poll does not block on anything queued |
| `EventLoops.EventLoop.Turn` | tcp/EventLoop.cpp:42-50 | One turn of the loop is a run of the machine; what was queued before, and what event handlers queue without a wake-up, runs in it |
| `EventLoops.EventLoop.OthersMove` | tcp/EventLoop.cpp:67-82 | Any pushes and wake-up writes of other threads only lengthen the queue and raise the counter |
| `EventLoops.EventLoop.Push` | tcp/EventLoop.cpp:68-72 | The push is the machine's step, and the object stays where its history leads |
| `EventLoops.EventLoop.WriteWakeup` | tcp/EventLoop.cpp:76-81 | The same for the decision to write the wake-up |
| `EventLoops.EventLoop.HandleRead` | tcp/EventLoop.cpp:101-108 | In any state the object can reach the read succeeds, and the counter is emptied |
| `TimerQueues.TimerQueue.HandleRead` | utils/TimerQueue.cpp:35-49 | Every timer due at the clock reading runs, once and in order, and no other; one-shot timers are gone, repeating ones are there again one interval after a moment of the firing, all others are untouched; the kernel timer is then set in time for the earliest, whatever the callbacks added |
| `TimerQueues.Drive` | utils/TimerQueue.cpp:35-117 | Over any sequence of additions, firings and waits: the kernel timer is in time for the earliest timer whenever control is back in the loop, and a one-shot timer has run exactly once if it is gone and never if it exists |
| `TimerQueues.TimerQueue.AddTimer` | utils/TimerQueue.cpp:96-103 | A timer added at any moment, also in the middle of a firing, is owned once; an arming that was in time stays so |
| `TimerQueues.TimerQueue.Insert` | utils/TimerQueue.cpp:105-117 | The set gains exactly this entry, and the answer tells whether it is strictly the earliest |
| `TimerQueues.TimerQueue.ResetTimerFd` | utils/TimerQueue.cpp:51-74 | The deadline is not before the timer's, and late by at most the minimal wait and the time between reading the clock and arming |
| `TimerQueues.TimerQueue.ResetTimers` | utils/TimerQueue.cpp:76-94 | Repeating timers of the batch return, one interval after a clock reading taken meanwhile, one-shot ones are deleted, and the queue is valid again |
| `TimerQueues.TimerQueue.Dispose` | utils/TimerQueue.cpp:78-89 | The same for one timer, whose ownership moves or ends |
| `TimerQueues.TimerQueue.TakeDue` | utils/TimerQueue.cpp:40-43 | The entries up to the clock reading, in order, leave the set, and no others |
| `TimerQueues.TimerQueue.RunAll` | utils/TimerQueue.cpp:44-47 | Each timer of the batch runs once, after its expiry, while callbacks add others |
| `TimerQueues.TimerQueue.Run` | utils/Timer.h:28 | One run, whose callback may add any number of timers, keeps the ownership of all |
| `TimerQueues.RestartKeeps` | utils/Timer.h:30 | A restarted timer's new key is its new expiry, and it is owned by the set alone |
| `TimerQueues.AddKeepsPunctual` | utils/TimerQueue.cpp:105-117 | Arming anew exactly when the new timer is strictly the earliest is enough |
| `Times.MicrosTruncate` | utils/TimerStamp.h:49-52 | Seconds are converted to the whole part of a million times their number, with its sign |
| `Times.WholeSeconds` | utils/TimerStamp.h:49-52 | Whole seconds are exact |
| `Times.LaterIsNotEarlier` | utils/TimerStamp.h:49-52 | Adding more seconds never gives an earlier stamp |
| `IdleClose.ExactlyOnePendingCheck` | http/HttpServer.cpp:48-66 | In every run a connection has exactly one pending check until a check closes it or finds it gone, and none after; then it is closed |
| `IdleClose.NeverClosedWithinTimeout` | http/HttpServer.cpp:57-60 | In every run a check never closes a connection within the timeout of any activity recorded before |
| `IdleClose.NeverClosedWhenNew` | http/HttpServer.cpp:48-51 | In every run no check closes a connection before one timeout has passed since it was accepted |
| `IdleClose.ChecksApart` | http/HttpServer.cpp:61-64 | In every run two checks of a connection are at least one timeout apart |
| `IdleClose.OneCheckAfterGone` | http/HttpServer.cpp:54-56 | In every run at most one check runs after the object is gone |
| `IdleClose.NoCheckAfterClosing` | http/HttpServer.cpp:57-60 | In every run no check runs after one that closed the connection |
| `HttpIdle.WatchConnection` | http/HttpServer.cpp:48-73 | The objects, driven by any run of messages, closes and checks, end where the machine of idle checks ends |
| `IdleClose.IdleConnectionIsClosed` | http/HttpServer.cpp:54-66 | In every run with timers late by at most some lag, a connection still open shows activity (or was accepted) no more than two timeouts and twice the lag ago |
| `IdleClose.ClosedWithinTwoTimeouts` | http/HttpServer.cpp:54-66 | The same from any state in which the pending check is near |
| `TcpConnections.RunSendPath` | tcp/TcpConnection.cpp:105-140 | Over any run of sends and write events, whatever the kernel takes: wire and pending bytes are the sent messages in order, and pending bytes are watched for |
| `TcpConnections.TcpConnection.Send` | tcp/TcpConnection.cpp:125-135 | The message goes behind all earlier output, and write interest is on when anything is left |
| `TcpConnections.TcpConnection.HandleWrite` | tcp/TcpConnection.cpp:105-113 | No byte is lost or doubled, and write interest goes exactly when nothing is left |
| `TcpConnections.TcpConnection.WriteNonBlocking` | tcp/TcpConnection.cpp:192-205 | What the kernel takes moves from the buffer to the wire |
| `TcpConnections.TcpConnection.ReadNonBlocking` | tcp/TcpConnection.cpp:157-188 | The buffer gains the bytes of the answers in order, and the connection closes exactly at end of file or an error |
| `TcpConnections.ReadingMeans` | tcp/TcpConnection.cpp:160-187 | Reading goes on over bytes and interruptions; the first other answer ends it, and closes exactly if it is end of file or an error |
| `TcpConnections.TcpConnection.HandleClose` | tcp/TcpConnection.cpp:77-88 | The close callback is invoked once, however often it is called |
| `TcpConnections.Channel.Update` | tcp/Epoller.cpp:38-53 | The kernel then watches exactly what the channel asks for |
| `TcpConnections.Channel.Enable` | tcp/Channel.cpp:45-53 | The interest is added, the others stay, and the kernel's copy agrees |
| `TcpConnections.Channel.DisableWrite` | tcp/Channel.cpp:60-63 | The write interest goes, the others stay, and the kernel's copy agrees |
| `TcpConnections.Channel.Delete` | tcp/Epoller.cpp:55-61 | The kernel no longer watches the channel |
| `Buffers.Run` | utils/Buffer.cpp:15-126 | A new buffer under any legal run of operations is the byte queue, and its array never exceeds 8 plus twice the most it ever held |
| `Buffers.QueueConserves` | utils/Buffer.cpp:31-126 | Over any run: what went in is what came out followed by what is held |
| `Buffers.PeakIsReached` | utils/Buffer.cpp:15-29 | The peak in the bound is the number of bytes held at some point of the run |
| `Buffers.PeakIsLargest` | utils/Buffer.cpp:15-29 | At no point of the run are more held |
| `Buffers.Buffer.EnsureWritableBytes` | utils/Buffer.cpp:15-29 | Room is made by moving or growing, and the readable bytes stay |
| `Buffers.Buffer.MoveToFront` | utils/Buffer.cpp:21-23 | The overlapping copy in place keeps the readable bytes |
| `Buffers.Buffer.Append` | utils/Buffer.cpp:31-36 | The bytes go to the end; the array grows only when it must |
| `Buffers.Buffer.Retrieve` | utils/Buffer.cpp:98-110 | Exactly so many bytes leave the front, also when that empties the buffer |
| `Buffers.Buffer.RetrieveAsString` | utils/Buffer.cpp:112-118 | They are returned in order |
| `Buffers.Buffer.RetrieveAllAsString` | utils/Buffer.cpp:120-126 | Everything is returned and the buffer is empty |
| `Buffers.Buffer.RetrieveUtil` | utils/Buffer.cpp:128-133 | What is left starts at the given place |
| `Buffers.CopyDown` | utils/Buffer.cpp:21 | A copy within one array to a place not after its source, also when they overlap |
| `Buffers.FixedBuffer.Append` | utils/Buffer.h:92-99 | Text that leaves at least one byte free is added; other text is dropped |
| `Buffers.FixedBuffer.Reset` | utils/Buffer.h:103-105 | The buffer is empty and its bytes are zero |
| `LogStreams.LogStream.FormatInteger` | utils/LogStream.h:100-118 | The digits are added behind the earlier bytes, which stay; at most 20; under the guard the buffer is not overrun |
| `LogStreams.LogStream.WriteDigits` | utils/LogStream.h:107-111 | The loop writes the remainders low end first |
| `LogStreams.LogStream.ReverseRange` | utils/LogStream.h:115 | The range is reversed in place and what precedes it stays |
| `LogStreams.FormattedIsDecimalIff` | utils/LogStream.h:107-114 | The text is the decimal text of the value if and only if this is not negative |
| `LogStreams.FormattedNegative` | utils/LogStream.h:107-114 | What a negative value is printed as: for each digit of its magnitude the character as far before the zero, and no sign |
| `LogStreams.MinusFive` | utils/LogStream.h:107-114 | A concrete value that is printed wrongly: minus five as a plus sign |
| `LogStreams.FormattedReadsBack` | utils/LogStream.h:107-115 | The text of a non-negative 64-bit value parses back to it |
| `LogStreams.AtMostTwentyDigits` | utils/Buffer.h:78 | No 64-bit value takes more than 20 characters |
| `LoggerProtocol.NothingLost` | utils/AsyncLogger.cpp:30-133 | In every run, after the final drain, everything appended has been written, in append order |
| `LoggerProtocol.ExactlyOnceIff` | utils/AsyncLogger.cpp:30-133 | The files hold exactly what was appended if and only if every batch but the last had at most two buffers |
| `LoggerProtocol.FirstBufferTwice` | utils/AsyncLogger.cpp:71-130 | For every buffer size and any lines that fill three buffers before the first swap: a run after which the file holds what was appended and then the first buffer again |
| `LoggerProtocol.WrittenTwiceAtFullSize` | utils/Buffer.h:77 | At the real size, with lines as long as the front end can make them: 3000 lines are appended and 4000 are in the file |
| `LoggerProtocol.BuffersNeverMissing` | utils/AsyncLogger.cpp:30-133 | In no run is a null buffer pointer followed |
| `LoggerProtocol.BuffersOwnedOnce` | utils/AsyncLogger.cpp:30-118 | No step doubles or loses a buffer, apart from those it allocates and those it frees |
| `LoggerProtocol.SwapRefillsBoth` | utils/AsyncLogger.cpp:71-82 | In every run, after every swap an empty current and an empty spare buffer are ready |
| `LoggerProtocol.AnyLineCanBeAppended` | utils/AsyncLogger.cpp:30-47 | In every run any shorter line can be appended at any time before the final drain, also while a batch is written |
| `LoggerProtocol.CanAlwaysStop` | utils/AsyncLogger.cpp:86-132 | Every run can go on until the logger has stopped |
| `LoggerProtocol.InvKept` | utils/AsyncLogger.cpp:30-133 | Every action of any thread keeps what these rest on |
| `LoggerProtocol.SwapKept` | utils/AsyncLogger.cpp:71-82 | The swap puts what is left of the batch before behind everything still to be written |
| `LoggerProtocol.AppendKept` | utils/AsyncLogger.cpp:30-47 | A line goes to the end of the total text, in either branch |
| `LoggerProtocol.RecycleKept` | utils/AsyncLogger.cpp:98-118 | Recycling leaves the total text alone |
| `LoggerProtocol.WrittenIsARun` | utils/AsyncLogger.cpp:87-89 | Writing a batch without interruption is so many steps of the protocol, and adds the batch to the file |
| `LoggerProtocol.DrainedIsARun` | utils/AsyncLogger.cpp:122-130 | The drain is so many steps of the protocol, and adds the full buffers and then the current one |
| `AsyncLoggers.AsyncLogger.Append` | utils/AsyncLogger.cpp:30-47 | The object's action is that of the protocol |
| `AsyncLoggers.AsyncLogger.SwapBuffers` | utils/AsyncLogger.cpp:66-84 | The same for the worker's critical section |
| `AsyncLoggers.AsyncLogger.WriteBatch` | utils/AsyncLogger.cpp:86-96 | The loop is a run of the protocol's steps; a new file is started exactly when more than 2^30 bytes have been written to the old one |
| `AsyncLoggers.AsyncLogger.RecycleBuffers` | utils/AsyncLogger.cpp:98-118 | The same for the recycling |
| `AsyncLoggers.AsyncLogger.Drain` | utils/AsyncLogger.cpp:122-132 | The final loop and the last buffer are the protocol's drain, and everything is flushed after it |
| `AsyncLoggers.LogFile.Write` | utils/LogFile.cpp:29-49 | The whole line reaches the file, however little each call takes, and is counted; the file is flushed exactly when the last periodic flush is more than three seconds ago |

## Left out

- Machine integers: buffer indices, times and the sum of a chunk size and its framing (http/HttpContext.cpp:164) are unbounded; wrap-around near 2^31 or 2^64 is not modelled. `std::stoul` is, to 64 bits.
- Real time stamps: `AddSec` multiplies a real number, not a double, and truncates it.
- TcpConnections.TcpConnection.WriteNonBlocking: hard write errors are not modelled. After one, the source passes -1 to `Retrieve` (tcp/TcpConnection.cpp:200-204); the kernel here takes between none and all of the bytes.
- Events before `EnableRead`: the constructor registers the channel with no event but the edge-triggered flag (tcp/TcpConnection.cpp:31); such a channel is taken not to be reported, and `tied_`, which the constructor leaves unset, to be false until `Tie`.
- LifecycleSafety.EveryActionSafe: the life cycle is modelled on values, because loops interleave; the class `TcpServers.TcpServer` shows the actions on fields. Loops hold each other's queues directly and the choice of a loop is arbitrary, so the round robin of the thread pool is a special case. The debugging id of connections, which is reused, is not modelled.
- HttpPipeline.PipelineSafety: requests with `Connection: close` or in HTTP 1.0 are excluded, since their bodies depend on the cuts; delivery of all queued output before a close is not claimed, since the server closes right after `Send` (http/HttpServer.cpp:116-122).
- HttpServers.HttpServer.OnRequest: the application's callback is an arbitrary function from the request and the default decision to a response text and a decision.
- Data races of the accept path: adding a timer from another loop's thread, and the plain flag that stops the logger, are atomic steps; a timer is added from another thread only between firings.
- EventLoops.NoLostWakeup: the wake-up counter is unbounded, so a write to it never fails; that the loop in the end does run is stated as the steps it can take, not as fairness.
- TimerQueues.TimerQueue.HandleRead: timers due at the same time are ordered by identity instead of address; the callback's effect on anything but the queue is not modelled; what the callbacks add is arbitrary.
- AsyncLoggers.AsyncLogger.Append: the logger's buffers are shown by their texts, so the memory they share with nobody is not; lines are shorter than a buffer, and appending ends before the final drain. `FixedBuffer` is verified separately.
- File names of the log, and an `fwrite` that takes nothing for ever.
- LogStreams.LogStream.FormatInteger: floating-point and pointer formatting of the log stream are left out.
- Request parameters and the protocol field of `HttpRequest`, which the parser never sets.
- Chunk trailers, checking the two bytes behind a chunk, and case-insensitive header names (section 7.1.2 of RFC 9112, section 5.1 of RFC 9110): not implemented by the code, and modelled as the code has it.
- File serving and directory listings, socket set-up, thread start-up and the front end of the logger: they would only add easy members.
