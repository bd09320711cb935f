# Verification of kubernetes-lab

A Dafny model of the parts of the repository that carry state and protocol, with proofs about
every input, every run and every interleaving.

- **Watch client.** `TextLines` and `PeekableReader` are the line reader and its peek queue.
  `Percent`, `Decimal` and `Query` are the query builder, `WatchDetection` the search that
  recognises a watch, and `WatchHandler` the body that is swapped for its first line. `Watch` is
  the pump with its nested handlers, `WatchLaws` what holds of every execution and `WatchSteps` the
  same execution one entry at a time; `Controller` is the endpoints that collect and cancel. `LinkedToken` is the token that stands for two.
  `ApiServer` is the server as an environment shared with other clients, for `CreateOrReplace`,
  `CreateRace` (any number of such calls racing for one name) and `ListThenWatch`.
- **Graceful shutdown.** `ConnectionState` is the shared counter under interleaved calls, `Drain`
  the polling loop with its deadline.
- **Game servers.** `AgonesSdk` is the send with its body cache, `HealthLoop` the health loop beside
  the commands. `EchoUdpServer` and `GameServer` are the C# and Go command loops over `UdpText`, and
  `Dispatch` compares them.
- **Small parts.** `GuestbookEnv` and `JsonConverters`.

Callbacks, decoders, timers and other clients are arbitrary functions or sequences, so a statement
about them holds for all behaviours. A callback or timer is a function of everything that has
happened in the execution so far. A stream is a finite text that ends, or breaks, at its end.
Exceptions are values. Library pieces follow their documentation: `ReadLineAsync` stops at CR, LF
or CRLF, cancellation flags never go back.

Run `dafny verify dfyconfig.toml` to check everything.

Where code and expectations differ, the code is modelled:

- The search for `watch=true` is exact for the queries the client builds, not for all queries
  (`WatchDetection.DetectionIsFirstLookalike` has the exact condition).
- A watch whose first line is empty yields null instead of that line (`WatchHandler.TwoLayerFirstLine`).
  The call that decodes it throws on the null, and so does a watch whose stream ends without an event
  (`ListThenWatch.NullTextIff`, `ListThenWatch.QuietWatchThrows`).
- A label selector that hides an existing object makes create-or-replace conflict
  (`CreateOrReplace.RefinesMapUpdate`).
- A cached body is stored but not attached by the send that creates it (`AgonesSdk.FirstSendIsBare`).
- `RESERVE` without argument ends the C# loop, and so does `GAMESERVER` when the response has no port
  (`EchoUdpServer.OneStep`). A second `UNHEALTHY` ends the Go process,
  and so does a `GAMESERVER` answered without metadata (`GameServer.ServeStops`).
- A datagram longer than 1024 bytes is cut by the Go server only (`Dispatch.SameCommandIff`).

## Model

| member | source | states |
|---|---|---|
| `TextLines.LinesOfCutting` | clientapi/csharp/KubernetesClient/KubernetesClient/Internals/WatcherDelegatingHandler.cs:192 | Reading a text to its end gives the lines of any cutting of that text into lines and CR, LF or CRLF stops, so no character is lost, repeated or moved to another line |
| `TextLines.CuttingExists` | clientapi/csharp/KubernetesClient/KubernetesClient/Internals/WatcherDelegatingHandler.cs:192 | Every text has such a cutting, and its lines are those the reader delivers |
| `TextLines.CuttingUnique` | clientapi/csharp/KubernetesClient/KubernetesClient/Internals/WatcherDelegatingHandler.cs:192 | A text has one such cutting only |
| `TextLines.LinesOfBroken` | clientapi/csharp/KubernetesClient/KubernetesClient/Internals/WatcherDelegatingHandler.cs:192 | When the connection breaks after the text, the reader delivers the same lines without the last one, and with it exactly when the text is empty or ends in LF |
| `PeekableReader.ReadRefines` | clientapi/csharp/KubernetesClient/KubernetesClient/Internals/WatcherDelegatingHandler.cs:185-193 | From every state with at most one queued entry, a read returns the first line still to come and removes just that one |
| `PeekableReader.PeekRefines` | clientapi/csharp/KubernetesClient/KubernetesClient/Internals/WatcherDelegatingHandler.cs:195-200 | A peek returns that same line, queues it (the null end marker too), queues nothing when reading fails, and leaves the lines to come unchanged |
| `PeekableReader.RunRefines` | clientapi/csharp/KubernetesClient/KubernetesClient/Internals/WatcherDelegatingHandler.cs:172-200 | Over every sequence of reads and peeks the queue holds at most one entry and all answers are those of a plain cursor over the lines |
| `PeekableReader.PeeksAgree` | clientapi/csharp/KubernetesClient/KubernetesClient/Internals/WatcherDelegatingHandler.cs:195-200 | Any number of peeks and the read after them all return the same line, and the peeks change nothing for later reads |
| `PeekableReader.PeekableStreamReader.constructor` | clientapi/csharp/KubernetesClient/KubernetesClient/Internals/WatcherDelegatingHandler.cs:177-181 | A new reader has an empty queue and all lines of its stream to come |
| `PeekableReader.PeekableStreamReader.ReadLineAsync` | clientapi/csharp/KubernetesClient/KubernetesClient/Internals/WatcherDelegatingHandler.cs:185-193 | The imperative read advances the lines to come by one and empties the queue |
| `PeekableReader.PeekableStreamReader.PeekLineAsync` | clientapi/csharp/KubernetesClient/KubernetesClient/Internals/WatcherDelegatingHandler.cs:195-200 | The imperative peek keeps the lines to come and holds the peeked one in the queue |
| `Percent.Utf8RoundTrip` | clientapi/csharp/KubernetesClient/KubernetesClient/Kubernetes.cs:283-286 | Strict UTF-8 decoding (section 3 of RFC 3629) undoes the UTF-8 form of every text |
| `Percent.EscapeRoundTrip` | clientapi/csharp/KubernetesClient/KubernetesClient/Kubernetes.cs:283-286 | Percent-decoding undoes Uri.EscapeDataString for every text (sections 2.1 and 2.3 of RFC 3986) |
| `Percent.EscapeIsTriplets` | clientapi/csharp/KubernetesClient/KubernetesClient/Kubernetes.cs:283-286 | For every text, the escaped form consists of letters, digits, '-', '.', '_', '~' and triplets of '%' with two upper-case hex digits, so it holds no separator of a query |
| `Percent.EscapesItselfIff` | clientapi/csharp/KubernetesClient/KubernetesClient/Kubernetes.cs:283-286 | Exactly those characters stand for themselves; any other becomes one triplet for each byte of its UTF-8 form (section 2.3 of RFC 3986) |
| `Percent.Utf8Table` | clientapi/csharp/KubernetesClient/KubernetesClient/Kubernetes.cs:283-286 | The number of bytes of every character and the bits they hold, as the table in section 3 of RFC 3629 has them |
| `Percent.EscapeExamples` | clientapi/csharp/KubernetesClient/KubernetesClient/Kubernetes.cs:286 | A blank is sent as %20, and one character of three bytes as its three triplets |
| `Percent.EscapeSuffix` | clientapi/csharp/KubernetesClient/KubernetesClient/Internals/WatcherDelegatingHandler.cs:25-26 | A word of lower-case letters ends an escaped text exactly when it ends the text itself; triplets cannot fake one |
| `Percent.EscapePrefix` | clientapi/csharp/KubernetesClient/KubernetesClient/Internals/WatcherDelegatingHandler.cs:25-26 | The same for a word at the start |
| `Decimal.ParsePrint` | clientapi/csharp/KubernetesClient/KubernetesClient/Kubernetes.Pod.cs:111 | The printed timeout (and any printed integer) reads back as itself |
| `Decimal.PrintIsDecimal` | clientapi/csharp/KubernetesClient/KubernetesClient/Kubernetes.Pod.cs:111 | Numbers are written in decimal: one digit for each place, the last one last, and '-' in front of a negative one |
| `Decimal.NoLeadingZero` | clientapi/csharp/KubernetesClient/KubernetesClient/Kubernetes.Pod.cs:111 | A written number begins with zero only when it is zero |
| `Query.AddQueryParameter` | clientapi/csharp/KubernetesClient/KubernetesClient/Kubernetes.cs:275-288 | Throws for a null builder or an empty key and then changes nothing; otherwise a builder that renders a list of parameters renders the list with the new one at the end |
| `Query.SetQuery` | clientapi/csharp/KubernetesClient/KubernetesClient/Kubernetes.cs:289-298 | A null or empty builder leaves the URL alone; otherwise the query of the URL is the rendered list with its '?' |
| `Query.QueryRoundTrip` | clientapi/csharp/KubernetesClient/KubernetesClient/Kubernetes.cs:275-298 | Splitting the rendered query at '&' and '=' and decoding gives back all parameters in order, null and empty values identified, for all keys and values |
| `Query.QueryText` | clientapi/csharp/KubernetesClient/KubernetesClient/Kubernetes.cs:275-298 | How two parameters look in a URL, character by character |
| `Query.BuildListQuery` | clientapi/csharp/KubernetesClient/KubernetesClient/Kubernetes.Pod.cs:51-64 | A server reads from the list query watch=true exactly when asked for, then labelSelector with the selector when it is given and not empty, then timeoutSeconds with the number when given, and nothing else |
| `Query.BuildWatchQuery` | clientapi/csharp/KubernetesClient/KubernetesClient/Kubernetes.Pod.cs:98-112 | A server reads from the watch query watch=true, then resourceVersion, labelSelector and timeoutSeconds with the given values, each exactly when given, and nothing else |
| `WatchDetection.IsWatchQueryIff` | clientapi/csharp/KubernetesClient/KubernetesClient/Internals/WatcherDelegatingHandler.cs:22-30 | A query counts as a watch exactly when the first "watch=true" in it has a '?' or a '&' in front of it |
| `WatchDetection.DetectionIsFirstLookalike` | clientapi/csharp/KubernetesClient/KubernetesClient/Internals/WatcherDelegatingHandler.cs:24-26 | For every parameter list: the search succeeds exactly when the first parameter whose key ends in watch and whose value starts with true has the key watch |
| `WatchDetection.ListDetectionExact` | clientapi/csharp/KubernetesClient/KubernetesClient/Internals/WatcherDelegatingHandler.cs:22-30 | For the list queries it succeeds exactly when the watch flag was set, whatever the selector and timeout |
| `WatchDetection.WatchDetectionExact` | clientapi/csharp/KubernetesClient/KubernetesClient/Kubernetes.Pod.cs:98-112 | For the watch queries it always succeeds, whatever version and selector |
| `WatchDetection.HiddenWatch` | clientapi/csharp/KubernetesClient/KubernetesClient/Internals/WatcherDelegatingHandler.cs:25-26 | Queries not built by the client where the search fails to see a watch, and where it sees one that is none |
| `WatchHandler.SendAsync` | clientapi/csharp/KubernetesClient/KubernetesClient/Internals/WatcherDelegatingHandler.cs:17-33 | The content is wrapped exactly for a successful GET whose query is recognised, and the wrapper is over the original body |
| `WatchHandler.LineSeparatedHttpContent.SerializeToStreamAsync` | clientapi/csharp/KubernetesClient/KubernetesClient/Internals/WatcherDelegatingHandler.cs:151-163 | The body becomes the first line (nothing for an empty response, an error for a failing one) while the kept reader still has every line of the response to come |
| `WatchHandler.GetApiAsync` | clientapi/csharp/KubernetesClient/KubernetesClient/Kubernetes.cs:94-106 | A list call returns the first line for a recognised watch and the whole text otherwise, fails on a bad status or connection, and leaves a reader with every line exactly for a watch |
| `WatchHandler.GetStreamApiAsync` | clientapi/csharp/KubernetesClient/KubernetesClient/Kubernetes.cs:116-130 | The stream call on a watch returns the first line through the peeked body and a second reader, while the first reader keeps every line |
| `WatchHandler.TwoLayerFirstLine` | clientapi/csharp/KubernetesClient/KubernetesClient/Kubernetes.cs:126-129 | For every response, the line that the second reader takes from the peeked body is what one reader of the response would have delivered exactly when there is no line or the first one is not empty; an empty first line becomes null |
| `WatchHandler.EmptyFirstLine` | clientapi/csharp/KubernetesClient/KubernetesClient/Kubernetes.cs:126-129 | Every response that opens with LF shows that difference |
| `Watch.Watch.Execute` | clientapi/csharp/KubernetesClient/KubernetesClient/Watch.cs:92-140 | Every execution of the imperative pump is the execution of the semantics: the same calls with the same value of Watching at each, the same exception, the same lines left in the reader; Watching is false in the end |
| `Watch.Watch.ReadLoop` | clientapi/csharp/KubernetesClient/KubernetesClient/Watch.cs:101-127 | The loop over the lines, with its exits by end of stream, flag and exception |
| `Watch.Watch.ProcessLine` | clientapi/csharp/KubernetesClient/KubernetesClient/Watch.cs:106-125 | One line: OnEvent, or OnError for null, and the inner handler around both |
| `WatchSteps.ExecutionFollows` | clientapi/csharp/KubernetesClient/KubernetesClient/Watch.cs:92-140 | Every entry of every execution is the one that must follow the entries in front of it: which line is taken, whether it is processed, which event or exception a callback is given, and when the execution closes |
| `WatchSteps.StepsDetermine` | clientapi/csharp/KubernetesClient/KubernetesClient/Watch.cs:92-140 | These steps determine the execution: a log that follows them to the end is the log of the pump with its nested handlers |
| `WatchSteps.ErrorsAreExplained` | clientapi/csharp/KubernetesClient/KubernetesClient/Watch.cs:113-133 | The exception of every OnError: behind a line what is wrong with that line, behind a call that threw exactly what it threw, otherwise the failure of the factory or of a reader read to its end |
| `WatchLaws.LinesConserved` | clientapi/csharp/KubernetesClient/KubernetesClient/Watch.cs:101-104 | For every callback behaviour the lines received and the lines left in the reader together are the lines of the stream, in order |
| `WatchLaws.EveryLineOnce` | clientapi/csharp/KubernetesClient/KubernetesClient/Watch.cs:98-127 | With nothing cancelling and OnError not throwing, an execution on a response takes every line of its text once, raises exactly the decoded events and answers every line |
| `WatchLaws.ClosedExactlyOnce` | clientapi/csharp/KubernetesClient/KubernetesClient/Watch.cs:135-139 | On every exit OnClosed is raised exactly once, as the last call |
| `WatchLaws.WatchingDuringCallbacks` | clientapi/csharp/KubernetesClient/KubernetesClient/Watch.cs:94-139 | Watching is true at every OnEvent and OnError of every execution, and false at OnClosed and after it |
| `WatchLaws.FailsOnlyByCallbacks` | clientapi/csharp/KubernetesClient/KubernetesClient/Watch.cs:130-139 | Execute throws exactly when OnClosed threw or the call before it was an OnError that threw, and with that exception, the one of OnClosed first |
| `WatchLaws.EventsAreDecoded` | clientapi/csharp/KubernetesClient/KubernetesClient/Watch.cs:101-111 | OnEvent is called for exactly the events that the processed lines decode to, in stream order, and processed lines are a prefix of the stream |
| `WatchLaws.LineAccounting` | clientapi/csharp/KubernetesClient/KubernetesClient/Watch.cs:101-127 | With an OnError that never throws, processed lines equal returned OnEvent calls plus OnError calls, one more for a failing reader |
| `WatchLaws.ThrowingOnErrorCounts` | clientapi/csharp/KubernetesClient/KubernetesClient/Watch.cs:113-133 | An OnError that always throws is called once for a factory or reader failure, twice for an undecodable line or a throwing OnEvent, three times for a null event, and never without one |
| `WatchLaws.UndisturbedProcessesAll` | clientapi/csharp/KubernetesClient/KubernetesClient/Watch.cs:101-127 | Without cancellation a bad line never stops later ones: all lines are taken and all their events raised |
| `WatchLaws.AtMostOneLineAfterCancel` | clientapi/csharp/KubernetesClient/KubernetesClient/Watch.cs:101-104 | After any callback that cancels, at most one more line is taken from the reader, whatever happens |
| `Controller.Collector.OnEvent` | clientapi/csharp/KubernetesClient/KubernetesApiSample/Controllers/KubernetesController.cs:127-139 | The endpoint callback over its captured variables behaves as the pure callback used in the laws: count, cancel at the limit, collect; throw first for an item without metadata |
| `Controller.Collector.OnError` | clientapi/csharp/KubernetesClient/KubernetesApiSample/Controllers/KubernetesController.cs:350-355 | The error callback cancels and, for jobs, rethrows |
| `Controller.Watch2` | clientapi/csharp/KubernetesClient/KubernetesApiSample/Controllers/KubernetesController.cs:111-151 | An endpoint fails when it has to list for a version and cannot; otherwise it returns the items collected by the execution on its own watch request, or the exception that left it |
| `Controller.CollectedIsBoundedPrefix` | clientapi/csharp/KubernetesClient/KubernetesApiSample/Controllers/KubernetesController.cs:124-147 | For every stream, error and timer the collected items are a prefix of the items of the ADDED events, no longer than the limit |
| `Controller.CollectedIsExact` | clientapi/csharp/KubernetesClient/KubernetesApiSample/Controllers/KubernetesController.cs:124-147 | Without a timer they are exactly the first ones in front of the first bad line, up to the limit, however the stream ends |
| `Controller.EndpointResultIsBoundedPrefix` | clientapi/csharp/KubernetesClient/KubernetesApiSample/Controllers/KubernetesController.cs:334-359 | Whatever the server, the errors and the timer do, a result holds a prefix of the items of the ADDED events, at most 5 for pods and deployments and 1 for jobs |
| `Controller.EndpointReturnsFirstItems` | clientapi/csharp/KubernetesClient/KubernetesApiSample/Controllers/KubernetesController.cs:111-151 | Pods and deployments without a timer return exactly the first 5 items in front of the first bad line, and none when the watch cannot start |
| `Controller.JobsReturnFirstItem` | clientapi/csharp/KubernetesClient/KubernetesApiSample/Controllers/KubernetesController.cs:316-359 | Jobs without a timer, exactly: the first line that is bad or ADDED decides, a bad one by its exception, an ADDED one as the only item unless the reader fails right behind it; without a reader the request fails |
| `Controller.PodsAndDeploymentsReturn` | clientapi/csharp/KubernetesClient/KubernetesApiSample/Controllers/KubernetesController.cs:140-151 | The pods and deployments endpoints fail exactly when the list for a version fails, and otherwise return what was collected, whatever errors there were |
| `Controller.ErrorsFailJobs` | clientapi/csharp/KubernetesClient/KubernetesApiSample/Controllers/KubernetesController.cs:350-355 | The jobs endpoint fails exactly when that list fails or an error was raised, then with the exception that OnError was given, which is the same one each time |
| `LinkedToken.LinkedTokenAgreement` | clientapi/csharp/KubernetesClient/KubernetesClient/Internals/WatcherDelegatingHandler.cs:105-128 | In every run that creates, links and cancels sources, the selected token is cancelled exactly when one of the two tokens is, for all four combinations |
| `LinkedToken.SelectTies` | clientapi/csharp/KubernetesClient/KubernetesClient/Internals/WatcherDelegatingHandler.cs:114-126 | The constructor establishes this also for tokens cancelled before |
| `CreateOrReplace.CreateOrReplaceHttpAsync` | clientapi/csharp/KubernetesClient/KubernetesClient/Kubernetes.Deployment.cs:139-162 | The call lists, decides and writes as the call semantics prescribe, with other clients acting in between |
| `CreateOrReplace.ExactlyOneWrite` | clientapi/csharp/KubernetesClient/KubernetesClient/Kubernetes.Job.cs:121-163 | Exactly one write request follows a list that could be searched, none otherwise |
| `CreateOrReplace.SentExactly` | clientapi/csharp/KubernetesClient/KubernetesClient/Kubernetes.Pod.cs:139-176 | The requests of a call: the list, then a PUT of the name when it was listed, else a POST, and neither after a list that failed or could not be searched |
| `CreateOrReplace.ResultExactly` | clientapi/csharp/KubernetesClient/KubernetesClient/Kubernetes.cs:152 | The result of a call by what went wrong first: list, search, write, response |
| `CreateOrReplace.WriteOrNoChange` | clientapi/csharp/KubernetesClient/KubernetesClient/Kubernetes.cs:152 | With arbitrary other clients the write binds that one name to the new body, or the call fails having changed nothing; success is reported only for a write that took effect |
| `CreateOrReplace.WritesIffListingHolds` | clientapi/csharp/KubernetesClient/KubernetesClient/Kubernetes.Pod.cs:143-156 | The write takes effect exactly when what the list showed about the name is still so at the write and the server does not refuse |
| `CreateOrReplace.RefinesMapUpdate` | clientapi/csharp/KubernetesClient/KubernetesClient/Kubernetes.Deployment.cs:139-162 | Undisturbed, the call is a map update of the namespace, unless the selector hides the existing object: then it conflicts and changes nothing |
| `CreateOrReplace.HiddenPodConflicts` | clientapi/csharp/KubernetesClient/KubernetesClient/Kubernetes.Pod.cs:139-156 | A concrete hidden pod |
| `CreateOrReplace.SecondCallReplaces` | clientapi/csharp/KubernetesClient/KubernetesClient/Kubernetes.Deployment.cs:143-146 | A second call replaces by PUT what the first one put, whatever was there |
| `CreateRace.OneCallerCreates` | clientapi/csharp/KubernetesClient/KubernetesClient/Kubernetes.Job.cs:139-162 | Over every interleaving of any number of calls for one free name that nobody else touches, whatever selectors hide and whatever the server refuses: the name stays free only while every write is refused; otherwise exactly one call created the object, every other unrefused call replaced it or wanted to create it too late, and the object holds the body of the last call that took effect |
| `CreateRace.ChangesAccounted` | clientapi/csharp/KubernetesClient/KubernetesClient/Kubernetes.cs:141-182 | Over every interleaving with clients doing anything, the changes on the server are one per call that took effect plus the accepted foreign requests; a failed call leaves none |
| `CreateRace.AloneIsTheCall` | clientapi/csharp/KubernetesClient/KubernetesClient/Kubernetes.Pod.cs:139-162 | One caller alone among foreign clients ends as the create-or-replace call of `CreateOrReplace` does, so the race is made of those calls |
| `CreateRace.MoveKeepsFair` | clientapi/csharp/KubernetesClient/KubernetesClient/Kubernetes.Deployment.cs:139-162 | Every listing, write and foreign request keeps the race fair: a call replaces only what is there, an unrefused replacement never fails, and at most one creation has succeeded |
| `ListThenWatch.WatchAsync` | clientapi/csharp/KubernetesClient/KubernetesClient/Kubernetes.Pod.cs:27-36 | With other clients writing in between and during the watch, the call returns the earliest change of the kind in the namespace after the version of the list (or the given one), and fails exactly when the list fails, the server refuses the watch, or there is no such change: then with the null text of an ended stream or the read error of a broken one |
| `ListThenWatch.WatchHttpAsync` | clientapi/csharp/KubernetesClient/KubernetesClient/Kubernetes.Pod.cs:95-119 | The built query, the peeked body, the second reader and the decoder, which takes no null text, give the watch result of the history |
| `ListThenWatch.WatchResultExact` | clientapi/csharp/KubernetesClient/KubernetesClient/Kubernetes.Deployment.cs:95-119 | That result is the first change after the version, and a fault exactly when there is none or the status is bad |
| `ListThenWatch.NullTextIff` | clientapi/csharp/KubernetesClient/KubernetesClient/Serializers/JsonConvert.cs:45-49 | For every response, the call throws on a null text exactly when the response ends without any line or opens with an empty one |
| `ListThenWatch.QuietWatchThrows` | clientapi/csharp/KubernetesClient/KubernetesClient/Kubernetes.Pod.cs:114-115 | A watch of one pod from the version of that pod throws when the stream ends; from the version before it returns the pod |
| `ListThenWatch.WatchIsGapFree` | clientapi/csharp/KubernetesClient/KubernetesClient/Kubernetes.Deployment.cs:27-36 | Applying that event to the listed objects gives the state right after the event; for jobs, whose version comes from the deployments, no such claim is made |
| `ListThenWatch.FirstAfterIsEarliest` | clientapi/csharp/KubernetesClient/KubernetesClient/Kubernetes.Job.cs:27-36 | The first delivered event has the lowest version above the start, which for jobs needs the counter to be shared by all kinds |
| `ConnectionState.ConnectionStateProvider.Connect` | gracefulshutdown/grpc-dotnet/src/GrpcService/ExtendHostLifeExtensions.cs:35-38 | Increments in 32 bits |
| `ConnectionState.ConnectionStateProvider.Disconnect` | gracefulshutdown/grpc-dotnet/src/GrpcService/ExtendHostLifeExtensions.cs:40-43 | Decrements in 32 bits |
| `ConnectionState.CallHistory` | gracefulshutdown/grpc-dotnet/src/GrpcService/Services/ConnectorService.cs:28-30 | Over every interleaving a call is connected, registered or cancelled by its own steps only, and has disconnected only after all three |
| `ConnectionState.CounterCountsOpenCalls` | gracefulshutdown/grpc-dotnet/src/GrpcService/Services/ConnectorService.cs:28-30 | Over every interleaving of connecting, registering, cancelling and callbacks, of any number of calls, the counter is the number of calls connected and not disconnected, in 32 bits |
| `ConnectionState.CounterExactBelowLimit` | gracefulshutdown/grpc-dotnet/src/GrpcService/ExtendHostLifeExtensions.cs:28-44 | It is that number exactly when fewer than 2^31 calls are open, is then not negative, and is zero only when every connected call has disconnected |
| `ConnectionState.Serve` | gracefulshutdown/grpc-dotnet/src/GrpcService/Services/ConnectorService.cs:26-30 | The calls' own code keeps the shared provider at the counter of the interleaving |
| `Drain.ExtendLifeService.StopAsync` | gracefulshutdown/grpc-dotnet/src/GrpcService/ExtendHostLifeExtensions.cs:64-71 | Shutdown ends after the first poll before the deadline that reads zero, else when the deadline has passed, plus the tail |
| `Drain.ExtendLifeService.MonitorDisconnectAsync` | gracefulshutdown/grpc-dotnet/src/GrpcService/ExtendHostLifeExtensions.cs:73-88 | The polling loop that decides this, with calls coming and going between the polls |
| `Drain.DrainBound` | gracefulshutdown/grpc-dotnet/src/GrpcService/ExtendHostLifeExtensions.cs:19 | Shutdown takes at most deadline, timer lag, one round and tail, polls at most once per interval, and stays below the host timeout when lag, round and tail fit into the minute between |
| `Drain.NominalDrain` | gracefulshutdown/grpc-dotnet/src/GrpcService/ExtendHostLifeExtensions.cs:64-88 | With nominal delays: at most 360 polls and 30 minutes and 5 seconds, and exactly that when connections remain |
| `Drain.DrainedMeansNoOpenCalls` | gracefulshutdown/grpc-dotnet/src/GrpcService/ExtendHostLifeExtensions.cs:78-82 | Leaving early means that every connected call had disconnected, and a poll that finds none open is never passed over |
| `AgonesSdk.AgonesSdk.constructor` | agones/simple-udp-csharp/Agones/AgonesSdk.cs:30-35 | Seeds the shared cache with the empty body, never replacing an entry |
| `AgonesSdk.AgonesSdk.SendRequestAsync` | agones/simple-udp-csharp/Agones/AgonesSdk.cs:149-192 | A hit attaches the cached content; a miss stores the new content and attaches nothing; a cancelled source stops the call before both. The call succeeds exactly with a decodable answer of status 200 and never throws from the transport or the decoder |
| `AgonesSdk.CacheHoldsStored` | agones/simple-udp-csharp/Agones/AgonesSdk.cs:20 | After any interleaved steps the cache holds exactly the texts stored so far, each under itself |
| `AgonesSdk.AttachedIffStored` | agones/simple-udp-csharp/Agones/AgonesSdk.cs:159-171 | A send attaches its own text exactly when some earlier send had stored it, and the empty body always |
| `AgonesSdk.SecondSendAttaches` | agones/simple-udp-csharp/Agones/AgonesSdk.cs:159-171 | For sends one after the other, a body is attached exactly from its second send on |
| `AgonesSdk.FirstSendIsBare` | agones/simple-udp-csharp/Agones/AgonesSdk.cs:161-170 | A new body sent twice goes out empty the first time |
| `AgonesSdk.SendAll` | agones/simple-udp-csharp/Agones/AgonesSdk.cs:145-192 | Sends one after the other through the code attach just these bodies, whatever is answered |
| `HealthLoop.HealthChecker.HealthCheckAsync` | agones/simple-udp-csharp/Agones/AgonesSdk.cs:122-143 | The loop with its two catch clauses, interleaved with any commands and cancellations, does what the run of the schedule does, and leaves with the exception of that run or none |
| `HealthLoop.OneRound` | agones/simple-udp-csharp/Agones/AgonesSdk.cs:124-142 | An undisturbed round looks at the flag first, then at the token, pings once, logs the exception of the ping if any, and is at its check again |
| `HealthLoop.ClearedStaysCleared` | agones/simple-udp-csharp/Agones/AgonesSdk.cs:124-142 | Once the flag is cleared it stays so, and only a loop already past its check starts one more ping |
| `HealthLoop.AtMostOnePingAfterUnhealthy` | agones/simple-udp-csharp/Agones/AgonesSdk.cs:122-143 | Over every interleaving at most one ping starts after UNHEALTHY |
| `HealthLoop.FailingPingsNeverEnd` | agones/simple-udp-csharp/Agones/AgonesSdk.cs:124-143 | Whatever the pings throw, an exception leaves the loop exactly when the loop finds the token cancelled at its own check, and it is the one thrown there; and the loop ends quietly exactly when it finds the flag cleared |
| `HealthLoop.FailuresAreLogged` | agones/simple-udp-csharp/Agones/AgonesSdk.cs:128-139 | Every ping that throws is logged once with its exception, in order, and nothing else is; every ping started has ended but for one in flight |
| `HealthLoop.FatesDecideNothing` | agones/simple-udp-csharp/Agones/AgonesSdk.cs:128-142 | Two runs that differ only in how pings end ping equally often and stand at the same place |
| `EchoUdpServer.EchoUdpServer.ServerLoop` | agones/simple-udp-csharp/Agones/EchoUdpServer.cs:31-124 | The server marks itself as ready or gives up, then obeys one datagram after the other until one ends it or the socket breaks |
| `EchoUdpServer.EchoUdpServer.Obey` | agones/simple-udp-csharp/Agones/EchoUdpServer.cs:51-123 | The switch of the source makes the SDK call of the command, then answers, fails or stays silent, as the tables of calls and answers have it |
| `EchoUdpServer.OneStep` | agones/simple-udp-csharp/Agones/EchoUdpServer.cs:51-123 | The loop goes on after a datagram exactly when it is no EXIT, CRASH or RESERVE without argument, no GAMESERVER whose response lacks a first port, and no datagram whose reply cannot be sent; each way of stopping has exactly its own causes |
| `EchoUdpServer.ServeStops` | agones/simple-udp-csharp/Agones/EchoUdpServer.cs:46-124 | Nothing is read after the first such datagram, and the status tells which kind it was |
| `EchoUdpServer.NoPortsLikeNoArgument` | agones/simple-udp-csharp/Agones/EchoUdpServer.cs:66 | A GAMESERVER answered with an empty list of ports throws what a RESERVE without argument throws |
| `EchoUdpServer.ServeEffects` | agones/simple-udp-csharp/Agones/EchoUdpServer.cs:43-122 | Everything the loop does is determined by the words of the datagrams read: behind the first Ready, for each in order its SDK call and then its reply, as listed word by word, a GAMESERVER getting the address of that moment; only a datagram over which the loop threw lacks its reply |
| `EchoUdpServer.FlagFollowsCommands` | agones/simple-udp-csharp/Agones/EchoUdpServer.cs:60-63 | The flag is cleared exactly by a handled UNHEALTHY, as the health loop sees it, and never set again |
| `Dispatch.SameDispatch` | agones/simple-udp-csharp/Agones/EchoUdpServer.cs:49-51 | Every datagram that both game servers read whole is the same command with the same arguments and text to both, which for the Go server is at most 1024 bytes |
| `Dispatch.SameCommandIff` | agones/simple-udp/main.go:98-102 | For datagrams of any length, the 1024 bytes that reach the Go server are the same command as the whole is to the C# one exactly when they are, trimmed, at least as long as the first word, or neither word is a command |
| `Dispatch.LongDatagramDiffers` | agones/simple-udp/main.go:99 | EXIT behind 1024 or more spaces ends the C# server and is an unknown command for the Go one |
| `UdpText.TrimTwice` | agones/simple-udp/main.go:102 | Trimming an already trimmed datagram changes nothing |
| `UdpText.TrimIs` | agones/simple-udp-csharp/Agones/EchoUdpServer.cs:49 | Trimming takes all white space off both ends and nothing else |
| `UdpText.SpaceIs` | agones/simple-udp-csharp/Agones/EchoUdpServer.cs:49 | White space is the 25 characters of Unicode |
| `UdpText.VerbIs` | agones/simple-udp/main.go:104-145 | Which word is which command, and no other word is one |
| `GameServer.Process.ReadWriteLoop` | agones/simple-udp/main.go:98-161 | The loop reads and handles datagrams as prescribed, with any send or SDK call failing, until the process ends or a read fails |
| `GameServer.Process.Obey` | agones/simple-udp/main.go:104-159 | The switch on one datagram and the acknowledgement behind it |
| `GameServer.ServeStops` | agones/simple-udp/main.go:104-145 | When nothing fails, nothing is read after the first EXIT, CRASH, second UNHEALTHY or GAMESERVER answered without metadata, and the process ends with code 0, code 1 or a panic accordingly |
| `GameServer.ServeClosesStop` | agones/simple-udp/main.go:112-113 | The stop channel is closed exactly when an UNHEALTHY was read |
| `GameServer.ServeEffects` | agones/simple-udp/main.go:98-161 | When nothing fails, everything the process does is determined by the words of the datagrams read: for each in order its SDK call and the texts of its replies, as listed word by word |
| `GameServer.ServeAnswers` | agones/simple-udp/main.go:98-161 | One reply for each datagram read, one more for each GAMESERVER, none for CRASH or the datagram that panics |
| `GameServer.ServeCut` | agones/simple-udp/main.go:163-215 | Whatever sends and SDK calls fail, the process does what it would do without failures, its panics included, up to the first fatal one, which ends it with status 1, and reads no further than it would have; only the shutdown call of EXIT may be missing without consequence |
| `GuestbookEnv.EnvHandler` | argocd/sample-local-image/guestbook-go/main.go:53-60 | Every key is in the map and has the value of the last item with that key |
| `GuestbookEnv.ItemRebuilds` | argocd/sample-local-image/guestbook-go/main.go:56-58 | Key, '=' and value rebuild every item that contains '='; any other item is all key |
| `JsonConverters.IntegersKeepTheirText` | clientapi/csharp/KubernetesClient/KubernetesClient/Serializers/JsonConverters.cs:13-33 | 64-bit integers become their own decimal text, different ones stay different, and a second reading changes nothing |
| `JsonConverters.ReadIs` | clientapi/csharp/KubernetesClient/KubernetesClient/Serializers/JsonConverters.cs:13-33 | Integers from -2^63 to 2^63 - 1 keep their text, other numbers go through a double, strings and other values keep theirs, and what is written is a string |

## Left out

- HTTP transport, sockets, TLS, gRPC framing and disposal: I/O and library behaviour. Only their success or failure appears, as a parameter.
- Culture: `IndexOf(string)` is culture-sensitive and `int.ToString()` uses the current culture; the model takes the search as ordinal and the minus sign as '-'.
- UTF-16: texts are sequences of Unicode scalar values, so lone surrogates are not modelled.
- `Uri` canonicalisation, and namespace or object names that need escaping in a path.
- The chunking of streams and byte decoding of responses; a stream never goes on for ever.
- JSON and YAML: decoding is an arbitrary function of the text, and the manifest is its metadata and its text.
- A label selector on a watch, outdated versions (410 Gone), bookmarks and generated names on the server.
- ListThenWatch.WatchAsync: requires a decoder that reads back the events the server writes; and a non-empty namespace, because the watch path has no form for all namespaces.
- Watch.Watch.Execute: a reader that is null because the content was never buffered counts as a failing factory; both are caught at the same place.
- Callbacks that start a second execution of the same watch from inside the first.
- Drain.ExtendLifeService.StopAsync: takes the rounds of the loop as given lengths of at least the nominal one; work outside the delays counts as part of a round.
- Whether a gRPC call's token is ever cancelled: cancellation is a step of the environment. The write loop of `Subscribe` does not touch the counter.
- LinkedToken.LinkedTokenAgreement: covers the time until the linked source is disposed, and takes cancellation of linked sources as one step.
- EchoUdpServer.EchoUdpServer.ServerLoop: takes SDK calls as not throwing, since the send catches what the transport and the decoder throw, and keeps the seconds of a RESERVE as text.
- HealthLoop.HealthChecker.HealthCheckAsync: takes the delay as a step that neither fails nor ends early.
- GameServer.Process.ReadWriteLoop: receives datagrams as text of at most one buffer.
- The value of `resourceVersion` in the `watch2` endpoints, which is never sent; only the failure of its list call counts.
- The Go health loop: its select chooses between stop and tick at random, so it has no bound on further pings.
- JsonConverters.IntegersKeepTheirText: numbers that are no 64-bit integer go through a double, whose printing is a parameter.
- `ResourceQuantityConverter`, `Base64ToString`, configuration setters and `Models`: no logic of their own.
- Deployments and jobs repeat the pod code with other paths; one model serves all three where they agree.
- Manifests, scripts, kustomize/app and the guestbook's other handlers.
