# Verification of libpapago

Dafny models of the parts of libpapago that keep state, parse or share data between threads, and proofs
about them. libmicrohttpd and libwebsockets are an environment: upload chunks, iterator calls, writable
callbacks and the results of system calls are inputs.

`dafny verify dfyconfig.toml` checks everything.

| modules | what they model |
|---|---|
| `WsSteps`, `WsFacts`, `WsOwnership`, `WsSafety`, `WsTheorems`, `WsProgress`, `WsCalls`, `WsCallbacks` | the WebSocket send path as interleaved atomic steps: user threads in `papago_ws_send`, `papago_ws_send_binary` and `papago_ws_broadcast`, the service thread in its callbacks, `ws_mutex` and one `send_mutex` per connection |
| `MessageQueue`, `LinkedQueue`, `WsConnection`, `WscClient` | the linked send queues and the connection table as objects; those of the server refine the values the step model uses |
| `RateLimit`, `RateTrace` | the fixed-window rate limiter and its bounds over request traces |
| `Splitting`, `PathSegments`, `Router`, `MethodMask`, `Dispatch`, `Middleware` | paths, route matching, dispatch with 404, 405 and Allow, and the hooks around it |
| `UrlCodec`, `FormParser` | percent encoding and the form parser that cuts the body in place |
| `Upload`, `MultipartField`, `Multipart`, `MultipartRun`, `MultipartResults` | request bodies: the size cap, parts streamed to memory or temp files, settling, cleanup |
| `Metrics` | the request counters and the endpoint table |

In the step model one `Exec` event is one lock operation, one critical section or one call into
libwebsockets. Its environment promises that a writable callback follows when a partial write has been
flushed (`Flushed`), and calls ESTABLISHED once, WRITEABLE only when asked for, and CLOSED last.

## Findings

Places where the code does not do what it promises, or not what a caller may expect, each with the lemmas
that give an input and the exact condition.

* Rate limit: the counter is a `uint32_t`. A window of a tracked client admits at most the limit (one request
  if the limit is 0) if and only if it sees fewer than 2^32 requests of the client (`WindowBound`; input:
  `BurstBreaksLimit`).
* Multipart: `value_len` is not reset after a file part, so a text part that directly follows a non-empty
  file is appended to uninitialised memory; and a text part without a name is not stored and not reset, so
  the next text is stored behind it. Where nothing fails, the form of NUL-free parts is exactly the text parts
  sent, names cut at 255 bytes and whatever was in memory, if and only if neither occurs (`FormExactIff`;
  inputs: `WorstFormDiffers`, `NamelessGlued`).
* Multipart: the value buffer is freed when a text part with a name is settled and nowhere else. Where nothing
  fails, it is never freed if and only if a non-empty text part without a name is followed by none with a name
  (`BufferHeld`, `MultipartRun.Receive`; input: `NamelessLeaks`).
* Metrics: an endpoint path is cut at 127 bytes but compared with the whole URL. A URL of 128 bytes or more
  is never found, and takes a new slot with every request while there is one (`LongUrlNeverFound`,
  `LongUrlNewSlot`; inputs: `LongUrlTwice`, `LongUrlFills`). The slots have different paths with exact counts
  if and only if no such URL came while there was room (`SlotsExactIff`). The slot counts add up to the total
  if and only if no request came without a slot to a full table; where the slots are exact, that is if and
  only if no more than 64 different URLs were asked for (`CountsComplete`).
* Static routes are compared with `strcmp`, so extra slashes count for them and for no other route. For a
  canonical pattern, comparison and matcher agree if and only if the path is canonical too or has other
  segments (`StaticFastPath`; input: `StaticTrailingSlash`).
* An upload that passes the cap frees the body but goes on keeping later chunks. Before hooks run ahead of the
  413; with memory, what they see is nothing or the whole body if and only if the cap was not passed or the
  last chunk was one that passed it (`FragmentSeen`; input: `FragmentKept`). Handlers do not run then.
* An upload chunk for which realloc finds no memory is dropped without a flag, so a handler can run on a body
  with a hole. A request that is served has its whole body if and only if no chunk was dropped (`BodyWhole`,
  `HandlerBody`; input: `HoleServed`).
* When a before hook refuses, or the body is too large, no after hook runs. The before hooks that ran are all
  answered by their after hooks if and only if all before hooks pass and the body fits, or no slot with an
  after hook applies and has only passing ones before it (`AnsweredExactly`; input: `RefusedUnanswered`).
* WebSocket client: after a writable callback another one is due if and only if messages remain and the write
  did not fail, so a failed write leaves the rest of the queue unannounced until the next send
  (`WscClient.Client.OnWriteable`; input: `Strand`).

## Model

| member | source | states |
|---|---|---|
| WsCalls.BroadcastDelivers | papago.c:3172-3211 | in every run, a broadcast that has returned created exactly one message of its length for each connection in the table while it held ws_mutex and none for any other; each one that found memory and, at its push, fewer than 256 messages and room within 1 MiB was accepted there, once, with a writable callback asked for after it; the others left nothing |
| WsCalls.SendDelivers | papago.c:3113-3142 | in every run, a papago_ws_send that has returned did exactly that for its one connection if that was live under ws_mutex, and sent nothing otherwise; no other connection got anything |
| WsCalls.BinaryDelivers | papago.c:3145-3170 | the same of papago_ws_send_binary, which does not look at the connection first |
| WsCallbacks.NoPartialWrite | papago.c:2321-2331 | lws_write is never called while libwebsockets still holds a part of the connection's last message |
| WsCallbacks.WritesInOrder | papago.c:2328-2331 | every message popped is given to lws_write, once and in the order of acceptance |
| WsCallbacks.EstablishedOpens | papago.c:2292-2297 | behind ESTABLISHED the connection is live |
| WsCallbacks.OpenRegistered | papago.c:2292-2297 | an open connection is in the table, unless the table held 256 when it came; what is in the table is open, failed or about to leave |
| WsCallbacks.TableBounded | papago.c:2293-2295 | the table never holds more than 256 connections |
| WsCallbacks.ClosedDrains | papago.c:2373-2392 | behind CLOSED the connection is out of the table and drained, and every message found in its queue has been freed |
| WsTheorems.NoLostWakeup | papago.c:2316-2363 | in every reachable state an open connection with queued messages has a writable callback pending, a partial write in lws, a sender between its push and its wake-up, or the service thread on its way to its has_more test |
| WsTheorems.FifoHistory | papago.c:2122-2197 | what a connection accepted is what was popped, then drained, then is queued, in order; until the drain the counters are the list's length and bytes and stay within 256 and 1 MiB |
| WsTheorems.HistoryGrows | papago.c:2122-2197 | accepted, popped and freed messages stay so in the same order for the rest of every run |
| WsTheorems.OneOwner | papago.c:2113-2120 | every message ever created is in one thread's hand, in one queue or freed, in exactly one of these places and there once; none is freed twice |
| WsTheorems.BroadcastNeverHitsDrained | papago.c:2373-2393 | a broadcast at its push always has a registered connection whose queue has not been drained |
| WsTheorems.QuiescentBroadcastsFreed | papago.c:3181-3204 | once all calls have returned and all connections are closed, every broadcast message has been freed exactly once, and any other message not freed sits in the queue of a connection drained before |
| WsTheorems.LockOrder | papago.c:2061-2197 | no thread asks for a lock while it holds a send_mutex, none asks for ws_mutex while it holds it, and user code runs with neither |
| WsTheorems.NoDeadlock | papago.c:3113-3211 | as long as some call is in progress, some call can take its next step |
| WsProgress.QueueCanEmpty | papago.c:2316-2363 | from every reachable state with an open connection, some continuation without new calls, closes and failures pops everything the connection ever accepted |
| WsProgress.CallsEnd | papago.c:3113-3211 | all calls in progress can be run to their end |
| WsProgress.RankFalls | papago.c:3113-3211 | every step brings its call nearer to its end |
| WsProgress.SendOne | papago.c:2316-2363 | with no call in progress, an open connection with messages is called back and sends one |
| WsTheorems.CanExecEnabled | papago.c:3113-3211 | such a step is open to the thread whatever malloc and lws_write answer |
| WsTheorems.InflightCounts | papago.c:2061-2089 | inflight is the number of papago_ws_send calls between acquire and release |
| WsTheorems.Reachable | papago.c:2209-2397 | the invariant of the send path holds in every state of every run |
| WsSafety.StepInv | papago.c:2209-2397 | every enabled step of every thread keeps locks, registry, queues, ownership, wake-ups and inflight counts right |
| WsSafety.KeepWake | papago.c:2316-2363 | a step leaves no open non-empty queue unannounced, unless a thread is about to announce it |
| WsSafety.KeepRegistry | papago.c:2292-2297 | the connection table never lists a connection twice or after its close, and a broadcast stays at the entry it pushes to |
| WsSafety.KeepInflight | papago.c:2061-2089 | a step changes inflight as it changes the number of calls in flight |
| WsSafety.RegistryEntries | papago.c:2379-2388 | unregistering leaves no entry of the connection and adds none |
| WsOwnership.StepOwn | papago.c:2113-2197 | a step moves messages only between the stepping thread, the queue at hand and the heap, and keeps all ownership exact |
| MessageQueue.PushBounded | papago.c:2127-2142 | a push that passes the limit test keeps both counters exact and within the limits |
| LinkedQueue.MessageList.Append | papago.c:2133-2138 | the node becomes the last; head, tail and links stay consistent, tail being NULL exactly with head |
| LinkedQueue.MessageList.TakeFirst | papago.c:2152-2158 | the first node comes off, the rest keeps its order, and an emptied list has no tail |
| LinkedQueue.MessageList.FreeAll | papago.c:2187-2196 | the list is empty and every node of it freed, each once |
| WsConnection.Connection.Push | papago.c:2122-2144 | refused exactly when a limit would be passed, and then unchanged; otherwise the queue of the step model, one message longer |
| WsConnection.Connection.Pop | papago.c:2146-2164 | the oldest message comes off as in the step model, or NULL from an empty queue |
| WsConnection.Connection.HasMore | papago.c:2166-2176 | tells whether a message is queued |
| WsConnection.Connection.DrainAndFree | papago.c:2178-2197 | a live connection's messages are all freed and its counters left as they were; one that is not live is untouched |
| WsConnection.Registry.Register | papago.c:2292-2297 | appends to the table unless it holds 256 connections, as the step model does |
| WsConnection.Registry.Unregister | papago.c:2379-2388 | the shifting loop removes the first entry of the connection and keeps the order of the others |
| WsConnection.UnregisterAt | papago.c:2379-2388 | removal cuts exactly one position out of the table |
| WscClient.Client.Enqueue | papago_wsc.c:408-451 | the message is appended and a writable callback requested, or nothing changes |
| WscClient.Client.OnWriteable | papago_wsc.c:90-131 | accepted messages are the gone ones and then the queued ones, in order; one message leaves and is freed; a callback is requested exactly while messages remain and the write did not fail |
| WscClient.Client.OnClosedOrError | papago_wsc.c:174-198 | the queue outlives the connection |
| WscClient.Client.Destroy | papago_wsc.c:387-402 | everything accepted has been freed, each message once |
| WscClient.Strand | papago_wsc.c:112-118 | two messages and a failed first write leave the second on an open connection with no callback due |
| RateLimit.Limiter.Check | papago.c:3597-3664 | verdict and new table are those of a map from address to window with expired entries removed |
| RateLimit.LiveMapRepresents | papago.c:3608-3648 | the map lists exactly the live slots, none of them twice |
| RateLimit.SweptFound | papago.c:3617-3647 | stopping the sweep at the client's entry is as good as sweeping the whole table |
| RateLimit.SweptFresh | papago.c:3650-3659 | a swept or free slot taken for a new client keeps addresses unique and the map exact |
| RateLimit.SweptFull | papago.c:3650-3663 | a request goes untracked only when 1024 other clients are live |
| RateLimit.LiveMapLater | papago.c:3617-3625 | removing expired entries late makes no difference to the map |
| RateTrace.TableRefinesMap | papago.c:3608-3659 | over every run with a clock that does not go back, array and map agree call by call |
| RateTrace.ClientEntry | papago.c:3627-3631 | what is stored for a client depends on its own requests only: its count modulo 2^32 since its window began |
| RateTrace.ClientVerdict | papago.c:3632-3646 | a request is refused exactly when it is not the first of its window and the wrapped count is over the limit |
| RateTrace.WindowBound | papago.c:3627-3646 | a window admits at most the limit if and only if it has seen fewer than 2^32 requests of the client, and then exactly the first ones up to it |
| RateTrace.BurstBreaksLimit | papago.c:3630-3633 | 2^32 requests of one client within a second break the limit |
| RateTrace.IntervalBound | papago.c:3608-3659 | any half-open interval of one window width admits at most twice the limit less one, for any trace without a wrap |
| RateTrace.CompliantNeverRefused | papago.c:3627-3646 | a client within the limit in every such interval is never refused, even with a full table |
| Splitting.SplitAt | papago.c:467-476 | a separator splits a string whatever is on its two sides |
| Splitting.SplitJoin | papago.c:467-476 | splitting gives back the parts that were joined |
| PathSegments.NextSegment | papago.c:467-476 | finds the next non-empty segment, and none exactly at the end |
| PathSegments.CollapseSlashes | papago.c:570-591 | the in-place scan writes the non-empty segments joined with one slash |
| PathSegments.CollapseMeans | papago.c:570-591 | what is left has the same segments, no slash at either end and no two in a row |
| PathSegments.CollapseIdempotent | papago.c:570-591 | collapsing twice is collapsing once |
| Router.CountRouteParams | papago.c:478-493 | counts the capturing segments |
| Router.MatchRoute | papago.c:500-553 | the two-pointer matcher on raw strings agrees with the recursive matcher on segment lists, in its verdict and its captures |
| Router.MatchMeans | papago.c:500-553 | a pattern matches exactly when its segments up to a lone star, or all of them, fit those of the path one by one; the captures are then each colon segment's name with its path segment, in order, and the star's remainder |
| Router.CapturesCounted | papago.c:513-530 | a match never captures more than the pattern has parameters, so the 16-span guard drops none on an accepted route |
| Router.StaticFastPath | papago.c:555-568 | a static pattern matches exactly the paths with its segments; on equal strings strcmp agrees always, and for a canonical pattern if and only if the path is canonical or has other segments |
| Router.StaticTrailingSlash | papago.c:563-565 | every static pattern matches itself with a slash behind it, which strcmp rejects |
| Router.SlashInsensitive | papago.c:467-553 | doubled, leading and trailing slashes of the path change neither verdict nor params of a pattern |
| Router.Request.CommitParams | papago.c:597-627 | the request has all captures of the match as params, or none exactly when one finds no memory |
| MethodMask.AddHas | papago.c:1918-1927 | setting a method's bit adds that method to the mask and no other |
| Dispatch.ParseMethod | papago.c:1575-1589 | a known token gives its method, any other token Unknown, case-sensitively |
| Dispatch.AllowWhole | papago.c:1595-1616 | with all nine methods the value is the nine names in the table's order, separated by comma and blank |
| Dispatch.AllowedHas | papago.c:1595-1616 | a method's name is in the Allow value exactly when its bit is set |
| Dispatch.SetAllowHeader | papago.c:1595-1616 | for every subset the 64-byte buffer holds the comma-separated names in table order, untruncated |
| Dispatch.FirstMatchMeans | papago.c:1891-1914 | the selected route is the first registered one of the method that matches |
| Dispatch.SameSegments | papago.c:1891-1914 | two spellings of a path with the same segments select the same route with the same params, static routes spelled like one of them aside |
| Dispatch.Server.AddRoute | papago.c:2856-2888 | a route is appended with its static flag, or refused for an unknown method, 512 routes, more than 16 parameters or no memory |
| Dispatch.Server.RouteMatches | papago.c:555-568 | a static route matches the path equal to its own, any other what the matcher makes of it, with the matcher's captures |
| Dispatch.Server.Dispatch | papago.c:1886-1937 | the first route of the method that serves the path runs: one without colon and star for the equal path only and without params, any other with exactly the matcher's captures; otherwise 405 with exactly the other methods that have such a route, or 404 when there is none |
| Dispatch.StaticHandled | papago.c:1891-1914 | a request spelled like a route without colon and star, which no earlier route serves, is handled by that route |
| Dispatch.SelectedMeans | papago.c:1891-1937 | going by static flags and the first match gives what dispatch owes, told by the patterns alone |
| Dispatch.Server.Refuse | papago.c:1916-1937 | 405 exactly when another method's route matches or the method is unknown, and the mask holds exactly those methods |
| Middleware.Pipeline.Add | papago.c:2898-2921 | slots are appended in order up to 256; a failed copy of the path takes the slot back |
| Middleware.HooksPass | papago.c:1868-1951 | when every hook whose path is a prefix of the request's passes, exactly those run, the request is dispatched unless its body is too large, and exactly those with an after hook are answered then |
| Middleware.HookRefuses | papago.c:1868-1878 | a refusing slot whose path is a prefix, with only passing ones before it, ends the request: no later hook, no handler and no after hook runs |
| Middleware.Pipeline.Run | papago.c:1868-1951 | hooks, handler and after hooks run in this order and no others: before hooks up to a refusal, then dispatch and the after hooks in reverse if all pass and the body fits; the handler runs when dispatch selects a route that finds memory |
| Middleware.ServedExactly | papago.c:1868-1884 | dispatch runs if and only if every before hook that applies passes and the body fits |
| Middleware.AnsweredExactly | papago.c:1868-1951 | the before hooks that ran are all answered if and only if all pass and the body fits, or no slot that applies and is reached has an after hook |
| Middleware.RefusedUnanswered | papago.c:1875-1877 | when the second of two global hooks refuses, the first goes without its after hook |
| Middleware.BeforesMeans | papago.c:1868-1878 | before hooks run once each, in order of registration, for exactly the slots whose path is a prefix |
| Middleware.MirrorMeans | papago.c:1939-1951 | an after hook runs exactly for the slots whose before hook ran and that have one |
| Middleware.MirrorReverses | papago.c:1939-1951 | after hooks run in strictly descending order of registration |
| UrlCodec.UrlEncode | papago.c:3254-3282 | the loop over the output buffer computes the encoding within its bounds |
| UrlCodec.UrlDecode | papago.c:3287-3319 | the loop over the output buffer computes the decoding within its bounds, whatever sscanf makes of malformed escapes |
| UrlCodec.RoundTrip | papago.c:3254-3319 | decoding undoes encoding on every NUL-free byte string |
| UrlCodec.EncodeMeans | papago.c:3267-3278 | letters, digits and - _ . ~ stay, a space becomes a plus sign, and any other byte a percent sign and its two upper-case hexadecimal digits, wherever it stands |
| UrlCodec.DecodeMeans | papago.c:3300-3316 | a percent sign with two hexadecimal digits of either case is one byte, a plus sign a space, anything else itself |
| UrlCodec.EncodedSafe | papago.c:3267-3278 | the encoding has only letters, digits and - _ . ~ + %, and at most three times the length |
| UrlCodec.EncodeFixed | papago.c:3267-3278 | a string is its own encoding exactly when all its characters are unreserved |
| UrlCodec.DecodeShorter | papago.c:3301-3316 | decoding never grows a string |
| FormParser.Strtok | papago.c:1318-1341 | each call cuts the next non-empty token out of the buffer and leaves the rest intact |
| FormParser.StorePair | papago.c:1321-1341 | a token becomes a field at its first equals sign, or a bare key, or nothing when memory runs out |
| FormParser.ParseForm | papago.c:1306-1344 | the in-place parser yields the fields of the body's tokens in order, less those that found no memory |
| FormParser.FormRoundTrip | papago.c:1306-1344 | parsing undoes serializing for every list of NUL-free fields, empty keys and values included |
| FormParser.BareKey | papago.c:1334-1340 | a key without an equals sign is a field with an empty value |
| FormParser.FirstEquals | papago.c:1321-1333 | the first equals sign ends the key and the others belong to the value |
| FormParser.FormConcat | papago.c:1318-1341 | an ampersand separates: the fields of both sides, in order |
| FormParser.ExtraAmpersands | papago.c:1318-1341 | extra ampersands change nothing, for any body |
| Upload.Body.Receive | papago.c:1720-1744 | buffer, length, terminator and flag follow the history of chunks |
| Upload.OverflowExact | papago.c:1720-1728 | with memory, the flag is set exactly when the total is over the cap, however the body is cut |
| Upload.OverflowStays | papago.c:1720-1728 | once set, the flag stays |
| Upload.BodyWhole | papago.c:1730-1743 | below the cap the body is the concatenation of all chunks exactly when no chunk met a failed realloc |
| Upload.HandlerBody | papago.c:1880-1884 | a request that is dispatched, and any whose handler runs, has a body within the cap, and the whole of it exactly when memory did not run out |
| Upload.FragmentSeen | papago.c:1720-1743 | with memory, what is kept is nothing or the whole body if and only if the cap was not passed or the last chunk was one that passed it |
| Upload.FragmentKept | papago.c:1720-1743 | a short chunk after an overflow is kept by itself |
| Upload.HoleServed | papago.c:1730-1734 | when the middle one of three chunks finds no memory, the request is served with the other two |
| MultipartField.Field.AppendText | papago.c:1477-1493 | the chunk and its terminator are written behind value_len, within the buffer, and what the buffer held before that position stays |
| MultipartField.Field.Reserve | papago.c:1477-1489 | doubling makes room and realloc keeps the text received so far |
| MultipartField.WrittenAtStart | papago.c:1491-1493 | a text written at the buffer's start is the C string the buffer holds, whatever else is in it |
| MultipartField.StoredExactly | papago.c:1477-1493 | the stored C string is the text whatever was in buffer and memory if and only if value_len started at 0 |
| Multipart.Request.SettleFile | papago.c:1359-1400 | the upload takes the temp file over, or it is unlinked; nothing else changes |
| Multipart.Request.SettleText | papago.c:1401-1413 | a committed text with a name becomes a form field with the C string of its buffer, and the buffer is given up |
| Multipart.Request.SettleNothing | papago.c:1354-1357 | a text part without a name is neither stored nor reset |
| Multipart.Request.Settle | papago.c:1351-1414 | afterwards the field is idle and holds no temp file; an abort adds nothing to form and uploads |
| Multipart.Request.OpenTemp | papago.c:1448-1464 | the field holds the new temp file, or none is left on disk |
| MultipartField.Field.Enter | papago.c:1437-1447 | a new part is stored under its name, cut at 255 bytes |
| Multipart.Request.StartPart | papago.c:1437-1465 | the previous part is settled before the next begins |
| Multipart.Request.WriteFile | papago.c:1471-1475 | the file grows by the chunk |
| Multipart.Request.Iterate | papago.c:1421-1497 | temp files stay conserved whatever fails, and without failures the parts evolve as specified |
| Multipart.Request.Upload | papago.c:1697-1718 | passing the cap, a malformed body or a failed call sets the flag and discards the current part; otherwise nothing is lost |
| Multipart.Request.Finish | papago.c:1746-1752 | the last part is settled and all temp files belong to uploads; a value buffer is left behind exactly when the parts end in one |
| Multipart.Request.Complete | papago.c:1522-1551 | after request_completed no temp file is left, whatever happened before; a value buffer is unless a text with a name was at hand or there was none |
| MultipartResults.NamelessLeaks | papago.c:1354-1357 | a single non-empty text without a name leaves its buffer behind |
| Multipart.BufferHeld | papago.c:1406-1409 | the parts leave a value buffer behind if and only if a non-empty text without a name is followed by no text with one |
| Multipart.PartReceived | papago.c:1437-1494 | a part has the name, file name and type of its first call and the data of all its calls in order; the part before it is done |
| Multipart.FillsMore | papago.c:1491-1493 | a text that comes in several calls fills the buffer as one that comes at once |
| Multipart.NamelessSettled | papago.c:1354-1357 | behind a text part without a name the next text starts after all it wrote |
| Multipart.StepsConcat | papago.c:1709-1714 | it makes no difference where upload calls cut a body |
| MultipartRun.Receive | papago.c:1637-1752 | over every run of upload calls: too large if the total is over the cap, temp files are exactly those of the uploads, and without failures form and uploads are those of the parts sent, a value buffer leaks exactly when the parts end in one, and the form is the list of names and texts sent where all names have 1 to 255 bytes and nothing spoils a text |
| MultipartResults.ReqFiles | papago.c:768-804 | the oldest uploads of the field in body order, as many as there are or fit, and no other entry of the array is touched |
| MultipartResults.UploadsInBodyOrder | papago.c:1364-1388 | the uploads of a field are its file parts in body order, each with its size and its whole content on disk |
| MultipartResults.FormAsSent | papago.c:1401-1410 | where all names have 1 to 255 bytes and no non-empty text directly follows a non-empty file, the form is exactly the list of names and texts sent |
| MultipartResults.UploadsAsSent | papago.c:1364-1388 | where no name has more than 255 bytes, the uploads of a field are exactly the files sent with its name, each with its file name, type, size and content |
| MultipartResults.FormExactIff | papago.c:1354-1410 | the form is exactly the text parts in body order, each name cut at 255 bytes, whatever was in memory, if and only if every text part has a name and no non-empty one directly follows a non-empty file part |
| MultipartResults.WorstFormDiffers | papago.c:1476-1494 | with NUL bytes in memory, the form differs whenever a non-empty text part directly follows a non-empty file part |
| MultipartResults.NamelessGlued | papago.c:1354-1357 | of a text without a name and a text with one, the form holds one field with both texts |
| MultipartResults.FormLength | papago.c:1354-1357 | the form has a field for each text part exactly when all have names |
| Metrics.Metrics.Update | papago.c:994-1088 | counters, extremes and endpoint slots describe the whole history of requests |
| Metrics.Metrics.Totals | papago.c:1004-1059 | the counters by method and by status each add up to the total, the errors are the 4xx and 5xx counters, and the average duration lies between minimum and maximum |
| Metrics.Metrics.EndpointTotals | papago.c:1061-1085 | over any history: when the endpoint slots have different paths with exact counts and times, and when their counts add up to the total |
| Metrics.SlotsExactIff | papago.c:1061-1085 | different paths with exact counts and times if and only if no URL of 128 bytes or more came while there was room |
| Metrics.CountsComplete | papago.c:1061-1085 | the counts add up to the total if and only if no request came without a slot to a full table; with exact slots, if and only if at most 64 different URLs were asked for |
| Metrics.FoundMeans | papago.c:1063-1084 | what is found at any time are the paths of the requests that came while there was room |
| Metrics.FoundAgain | papago.c:1063-1084 | a URL that comes while there is room is found at any later time exactly when it is under 128 bytes |
| Metrics.LongUrlNeverFound | papago.c:1063-1070 | no history makes a URL of 128 bytes or more found |
| Metrics.LongUrlNewSlot | papago.c:1063-1084 | after any history every request for such a URL takes a new slot while there is one |
| Metrics.LongUrlTwice | papago.c:1063-1084 | after any history with room, two requests for such a URL take two slots with one path |
| Metrics.LongUrlFills | papago.c:1063-1084 | requests for one such URL fill the table, and none is counted from the 65th on |
| Metrics.ExtremesStep | papago.c:1053-1059 | minimum and maximum are durations that occurred and bound all others |

## Left out

- The return values of the three send calls: they tell the caller whether, or on how many connections, the messages were accepted that `WsCalls` speaks of.
- `lws_cancel_service`, which only makes the service thread look sooner.
- The `closing` and `drain_cond` handshake: nothing in the code sets `closing`, so the model does not claim that CLOSED waits for calls in flight or refuses a direct send after it.
- Use of a connection whose memory libwebsockets has released after CLOSED, and `papago_ws_send_binary` without the acquire step racing with it.
- A connection that matches no endpoint or whose mutex or condition variable cannot be created: comments in ESTABLISHED (papago.c:2309-2311) say that CLOSED skips the teardown of what was never created, the code destroys `send_mutex` in any case (papago.c:2393).
- The step model works on values: its queue and registry steps are those of the objects in `WsConnection`, but aliasing between connections is not part of it.
- `ws_msg_t` has its payload as a length only; text and binary messages differ in nothing but the lws_write flag.
- send_head and send_tail are fields of one list object that server and client connections share the code of.
- WscClient: one call at a time; the client's mutex and its service thread are not interleaved.
- Router.Request.CommitParams: the one to four allocations of a capture succeed or fail together.
- UrlCodec.UrlDecode: the result for malformed escapes depends on sscanf, which is a parameter; NUL bytes do not occur in what is encoded, and isalnum is that of the C locale.
- MethodMask.AddHas: the mask is an unbounded integer; only the ten low bits of the unsigned int are used.
- Multipart.Request.Iterate: what a failed fwrite leaves in the file is unspecified, and mkstemp is a parameter that names a file that was not there.
- Upload.BodyWhole: size_t overflow of a length is not modelled, sizes being far below it.
- Metrics.Metrics.Update: counters are unbounded; the source's uint64_t would wrap after 2^64 requests or milliseconds.
- RateLimit.Limiter.Check: the client's address is an input; peers without an address are let through before it, as in the source.
- The chunks of a multipart body that arrive after it failed go to the plain body branch; the flag is set by then.
- Query string and header collection, which are calls of the same append as the form's.
- The in-memory stream (papago.c:3321-3502), template rendering, MIME lookup, CORS, Prometheus text: straight-line code or easier versions of the above.
- Static and embedded files, sendfile, gzip, TLS and client certificates, server start and stop: input and output, and foreign calls.
- papago_client.c: a wrapper around curl.
