# Requests for Android: request front-end and request engine

This project models two classes of the Requests for Android client library.

- **`HttpRequest`** (requestsj, `pk.codebase.requests`) is the front-end an application calls.
  It resolves the call's URL against the client's base URL. It defaults the `Content-Type`
  header, then runs the call through the transport layer (`HttpBase`). It holds one listener
  of each kind: response, error and upload progress. It posts their callbacks to the
  main-looper handler. The model is module `HttpRequests` in `http_request.dfy`. Headers
  default and URLs compose as pure functions. The client object is a class whose
  `handlerQueue` field records, in order, the runnables posted to the handler.
- **`BaseHttpRequest`** (library, `com.byteshaft.requests`) is the XmlHttpRequest-style
  engine. It opens and connects an `HttpURLConnection` and sends a plain or a multipart body.
  It streams upload files in 512-byte chunks, emitting progress events, then reads the
  response. It reports ready-state changes and error codes through `EventCentral`. The model
  is module `BaseHttpRequests` in `base_http_request.dfy`, a class with the same fields.
  - Everything outside the class is a `Transport` value fixed in advance: the connection, its
    output stream, the response streams and the files on disk. Output-stream operations
    (write, flush, close) are numbered in the order they are attempted, and the transport
    says which of them throw.
  - The events `EventCentral` is asked to emit are appended to `events`.
  - Every successful write is appended to `writes`.

`common.dfy` (module `Common`) holds `Option` and the sequence helpers both modules use.

Properties proved about the model:

- A composed URL is the base without one trailing `/`, then `/`, then the path without one
  leading `/`.
- Content-Type is defaulted with the code's `||` test, and no other header is touched.
- A request posts at most one terminal callback, after the progress callbacks HttpBase made
  while `request` ran.
- A fully uploaded file reports progress counts that strictly increase, by at most 512 bytes a
  step, and end at the number of bytes sent.
- The ready states of a request never go back once it is set up.
- The recorded error is always the code of the last error event (taking `EventCentral` to store what it emits), so `hasError()` holds exactly
  when some error has been emitted.
- A multipart body puts every part's framing and content on the wire, in order, with the
  closing line after them. On a failure the model states exactly what reached the stream, which
  progress events were emitted and how many files were counted, up to the first failing stream
  operation or unreadable file. That is proved to be a prefix of the full body and of the full
  events.
- The response text, read back line by line, gives the lines it was built from.

## Where the code departs from its XmlHttpRequest names

The engine's ready states (OPENED, HEADERS_RECEIVED, LOADING, DONE) and error codes are named
after the browser's XmlHttpRequest. Where the code does less or other than those names
suggest, the model follows the code:

- **Content-Type default.** `actuallyRequest` sets `application/json` unless both the
  `Content-Type` and the `content-type` keys are present. The test is `!a || !b`, so a lone
  caller-supplied `Content-Type` is overwritten.
- **Failed connect.** `establishConnection` emits an error only for a `ConnectException`
  whose message contains `ECONNREFUSED`, or for an `SSLHandshakeException`. Any other
  failure to connect stops the request silently. A `ConnectException` without a message makes
  the `ECONNREFUSED` test throw a NullPointerException. That exception escapes the worker
  thread uncaught; the model only keeps that no further event follows (see "## Left out").
- **Failed body read.** A failure while reading the response body emits UNKNOWN inside
  `readFromInputStream`. `readResponse` then still reads the status line and emits DONE when
  it can.
- **Null status text.** `getResponseMessage()` may return null. The status text is then null
  and DONE still follows.
- **Error stream.** The error stream is read only when `getInputStream()` itself throws.

## Model

| member | source | states |
|---|---|---|
| HttpRequests.ComposeUrl | requestsj/src/main/java/pk/codebase/requests/HttpRequest.java:79-90 | a null URL stays null; a URL starting with "http", or any URL when the base is empty, is used as given; otherwise the result starts with the base and is the base without a trailing "/", one "/", then the path without a leading "/" |
| HttpRequests.DefaultContentType | requestsj/src/main/java/pk/codebase/requests/HttpRequest.java:98-113 | GET leaves the headers alone; a FormData payload gets the multipart type; any other payload gets application/json unless both "Content-Type" and "content-type" are present; no key other than "Content-Type" is added or changed |
| HttpRequests.HttpRequest.ApplyContentTypeDefault | requestsj/src/main/java/pk/codebase/requests/HttpRequest.java:106-113 | the caller's header object, updated in place through put, ends up as DefaultContentType of its old entries |
| HttpRequests.HttpRequest.constructor | requestsj/src/main/java/pk/codebase/requests/HttpRequest.java:47-51 | the base URL is stored, no listener is set and nothing is posted |
| HttpRequests.HttpRequest.WithoutBase | requestsj/src/main/java/pk/codebase/requests/HttpRequest.java:43-45 | a client without a base URL is one with the empty base |
| HttpRequests.HttpRequest.SetOnErrorListener | requestsj/src/main/java/pk/codebase/requests/HttpRequest.java:65-67 | replaces the error listener only; the other slots and the queue are unchanged |
| HttpRequests.HttpRequest.SetOnFileUploadProgressListener | requestsj/src/main/java/pk/codebase/requests/HttpRequest.java:69-71 | replaces the progress listener only |
| HttpRequests.HttpRequest.SetOnResponseListener | requestsj/src/main/java/pk/codebase/requests/HttpRequest.java:73-75 | replaces the response listener only |
| HttpRequests.HttpRequest.EmitOnResponse | requestsj/src/main/java/pk/codebase/requests/HttpRequest.java:261-270 | the response is posted exactly when a response listener is set, otherwise dropped |
| HttpRequests.HttpRequest.EmitOnFileUploadProgress | requestsj/src/main/java/pk/codebase/requests/HttpRequest.java:272-281 | the progress is posted exactly when a progress listener is set |
| HttpRequests.HttpRequest.EmitOnError | requestsj/src/main/java/pk/codebase/requests/HttpRequest.java:283-292 | the error is posted exactly when an error listener is set |
| HttpRequests.ProgressPosts | requestsj/src/main/java/pk/codebase/requests/HttpRequest.java:272-281 | a run of progress callbacks posts all of them, in order, when a listener is set, and none otherwise |
| HttpRequests.HttpRequest.ForwardProgress | requestsj/src/main/java/pk/codebase/requests/HttpRequest.java:92-97 | the listener installed on HttpBase re-emits every progress callback: the queue grows by ProgressPosts of them |
| HttpRequests.HttpRequest.ActuallyRequest | requestsj/src/main/java/pk/codebase/requests/HttpRequest.java:77-121 | HttpBase receives the verb, the payload, ComposeUrl's URL, the caller's headers and options or fresh empty ones, and headers defaulted as DefaultContentType says; the queue grows by the progress posts and then the terminal post of the outcome |
| HttpRequests.NoTerminalInProgress | requestsj/src/main/java/pk/codebase/requests/HttpRequest.java:272-281 | progress posts hold no response or error |
| HttpRequests.TerminalCountConcat | requestsj/src/main/java/pk/codebase/requests/HttpRequest.java:114-120 | the terminal posts of two runs of posts add up |
| HttpRequests.TerminalPostsShape | requestsj/src/main/java/pk/codebase/requests/HttpRequest.java:114-120 | the end of a call posts at most one event, which is a response or an error, and exactly one when both the response and error listeners are set |
| HttpRequests.OneTerminalOutcome | requestsj/src/main/java/pk/codebase/requests/HttpRequest.java:114-120 | one call posts at most one response or error, exactly one when both listeners are set, and only as its last post |
| BaseHttpRequests.BaseHttpRequest.constructor | library/src/main/java/com/byteshaft/requests/BaseHttpRequest.java:55-57 | a new request has no connection, no stream, no status, no text, no error and no events |
| BaseHttpRequests.BaseHttpRequest.EmitOnReadyStateChange | library/src/main/java/com/byteshaft/requests/BaseHttpRequest.java:65 | one state change is appended to the events |
| BaseHttpRequests.BaseHttpRequest.EmitOnError | library/src/main/java/com/byteshaft/requests/BaseHttpRequest.java:68-72 | one error event is appended and the error is recorded |
| BaseHttpRequests.BaseHttpRequest.EmitOnFileUploadProgress | library/src/main/java/com/byteshaft/requests/BaseHttpRequest.java:212 | one progress event is appended |
| BaseHttpRequests.BaseHttpRequest.ObtainOutputStream | library/src/main/java/com/byteshaft/requests/BaseHttpRequest.java:179-181 | the stream is obtained at most once; afterwards it is open exactly when it was open or could be obtained |
| BaseHttpRequests.BaseHttpRequest.Write | library/src/main/java/com/byteshaft/requests/BaseHttpRequest.java:182 | a write consumes one stream operation and records the bytes exactly when that operation does not throw |
| BaseHttpRequests.BaseHttpRequest.Flush | library/src/main/java/com/byteshaft/requests/BaseHttpRequest.java:183 | a flush consumes one stream operation and succeeds exactly when it does not throw |
| BaseHttpRequests.BaseHttpRequest.Close | library/src/main/java/com/byteshaft/requests/BaseHttpRequest.java:185 | a close consumes one stream operation and closes the stream exactly when it does not throw |
| BaseHttpRequests.BaseHttpRequest.SetupConnection | library/src/main/java/com/byteshaft/requests/BaseHttpRequest.java:59-76 | OPENED on success; otherwise INVALID_URL, INVALID_REQUEST_METHOD or UNKNOWN by the kind of failure, which becomes the recorded error, with no state change; a connection exists after success or a rejected method |
| BaseHttpRequests.BaseHttpRequest.EstablishConnection | library/src/main/java/com/byteshaft/requests/BaseHttpRequest.java:78-94 | true and OPENED exactly when connect succeeds, error unchanged; on failure exactly the connect errors ConnectErrors gives, the last of them becoming the recorded error |
| BaseHttpRequests.BaseHttpRequest.SendRequestData | library/src/main/java/com/byteshaft/requests/BaseHttpRequest.java:176-194 | true exactly when the stream is available and the write, flush and (when asked) close all go through; the bytes are recorded exactly when the write goes through; HEADERS_RECEIVED after a close; any failure emits UNKNOWN |
| BaseHttpRequests.BaseHttpRequest.SendChunk | library/src/main/java/com/byteshaft/requests/BaseHttpRequest.java:209-212 | one turn of the upload loop: goes on exactly when the write and the flush go through, and then reports the new cumulative count; the chunk is recorded as written exactly when its write goes through |
| BaseHttpRequests.BaseHttpRequest.StreamChunks | library/src/main/java/com/byteshaft/requests/BaseHttpRequest.java:208-213 | succeeds exactly when every read delivers bytes and every write and flush goes through; then every chunk is written in order and reported with its cumulative count; otherwise the loop stops at the first chunk whose read, write or flush fails (StreamStop): exactly the progress events of the chunks before it, and exactly their writes followed by the failing chunk when its write went through before its flush failed |
| BaseHttpRequests.BaseHttpRequest.WriteContent | library/src/main/java/com/byteshaft/requests/BaseHttpRequest.java:196-220 | succeeds exactly when the stream is available, the file opens and reads completely, and every operation goes through; then the file's chunks are written and its progress events emitted; otherwise UNKNOWN, with exactly FileWrites and FileProgress: nothing when the stream, the first flush or the file open fails, else the chunks and progress events up to the chunk at which the loop stops, that chunk's bytes included when its write went through |
| BaseHttpRequests.BaseHttpRequest.ReadFromInputStream | library/src/main/java/com/byteshaft/requests/BaseHttpRequest.java:161-174 | the response text becomes every line followed by a newline, unless reading fails, which emits UNKNOWN and keeps the old text |
| BaseHttpRequests.BaseHttpRequest.AssignResponseCodeAndMessage | library/src/main/java/com/byteshaft/requests/BaseHttpRequest.java:149-159 | true exactly when code and message can be read; the code is stored cut to a short, even when the message then fails; a failure emits UNKNOWN |
| BaseHttpRequests.BaseHttpRequest.ReadResponse | library/src/main/java/com/byteshaft/requests/BaseHttpRequest.java:138-147 | LOADING, the body from the input stream or from the error stream when the input stream cannot be had, then DONE exactly when the status line is readable; UNKNOWN for each failed read |
| BaseHttpRequests.BaseHttpRequest.SendRequest | library/src/main/java/com/byteshaft/requests/BaseHttpRequest.java:96-109 | nothing happens when an error is already recorded; otherwise the plain worker's outcome; the ready states stay in order and the recorded error stays the last error emitted |
| BaseHttpRequests.BaseHttpRequest.RunPlain | library/src/main/java/com/byteshaft/requests/BaseHttpRequest.java:100-107 | a failed connect emits only its connect errors and records the last; otherwise the Content-Type is set, the body (if any) is written and the stream closed, and the response is read only if that went through; the error becomes UNKNOWN after a failed send, a failed body read or an unreadable status line, and is kept otherwise |
| BaseHttpRequests.BaseHttpRequest.SendPlainBody | library/src/main/java/com/byteshaft/requests/BaseHttpRequest.java:101-106 | once connected: the body's bytes are written when the write goes through, the response is read exactly when there is no body or it was sent completely, and the error becomes UNKNOWN exactly when the send, the body read or the status line fails |
| BaseHttpRequests.BaseHttpRequest.SendPart | library/src/main/java/com/byteshaft/requests/BaseHttpRequest.java:122-129 | one part goes through exactly when the stream is available, a file part's file reads completely, and all its operations succeed; then its framing and content are written in order with its progress events; otherwise UNKNOWN after exactly PartProgress's events, with exactly PartWritten's bytes (the leading framing if its write went through, and the rest only after that framing went through); a file part is counted once its leading framing is out |
| BaseHttpRequests.BaseHttpRequest.SendPartRest | library/src/main/java/com/byteshaft/requests/BaseHttpRequest.java:123-129 | a part's text or file, then its trailing framing only once the content went through: on failure exactly RestWritten's bytes and RestProgress's events, then UNKNOWN |
| BaseHttpRequests.BaseHttpRequest.SendContent | library/src/main/java/com/byteshaft/requests/BaseHttpRequest.java:123-127 | a text part writes its text; a file part counts one more file, then uploads it; goes through exactly when the file (if any) reads completely and every operation succeeds; on failure exactly ContentWritten's bytes and ContentProgress's events, then UNKNOWN |
| BaseHttpRequests.BaseHttpRequest.SendFile | library/src/main/java/com/byteshaft/requests/BaseHttpRequest.java:127 | a file part's content goes through exactly when the file reads completely and every operation succeeds; then its bytes and progress events; otherwise UNKNOWN after exactly the progress events of the chunks sent before the failure, with exactly the bytes WriteContent wrote (ContentWritten, ContentProgress) |
| BaseHttpRequests.BaseHttpRequest.SendParts | library/src/main/java/com/byteshaft/requests/BaseHttpRequest.java:120-130 | when all parts go through: every part's bytes, progress events, operations and file count in order, error unchanged; otherwise UNKNOWN after exactly FormProgress's events, with exactly FormWritten's bytes and exactly FilesReached files counted: everything of the parts before the failing one, then what that part got out |
| BaseHttpRequests.BaseHttpRequest.SendNextPart | library/src/main/java/com/byteshaft/requests/BaseHttpRequest.java:120-130 | turn i of the loop extends the first i parts sent to the first i + 1, or leaves the failure state of the whole loop (FormWritten, FormProgress, FilesReached) |
| BaseHttpRequests.BaseHttpRequest.SendMultipartRequest | library/src/main/java/com/byteshaft/requests/BaseHttpRequest.java:111-136 | nothing happens when an error is already recorded; otherwise the multipart worker's outcome, exactly as RunMultipart states it; the ready states stay in order and the recorded error stays the last error emitted |
| BaseHttpRequests.BaseHttpRequest.RunMultipart | library/src/main/java/com/byteshaft/requests/BaseHttpRequest.java:114-134 | a failed connect emits only its connect errors and records the last; otherwise Content-Type, fixed length and file count are set, OPENED is followed by the parts' progress and the closing events, and the body's bytes, events, files and response are exactly as SendFormBody says |
| BaseHttpRequests.BaseHttpRequest.SendFormBody | library/src/main/java/com/byteshaft/requests/BaseHttpRequest.java:120-133 | when the parts go through: exactly their bytes, events and files, followed by the closing line's bytes when its write went through; when the closing line also goes through, the stream is closed and the response read; when a part fails: exactly FormWritten's bytes, FormProgress's events and FilesReached files, no closing line and UNKNOWN |
| BaseHttpRequests.BaseHttpRequest.FinishForm | library/src/main/java/com/byteshaft/requests/BaseHttpRequest.java:132-133 | the closing line is recorded as written exactly when the stream is available and its write goes through; it finishes (stream closed, HEADERS_RECEIVED, response read) exactly when the write, flush and close go through; otherwise only UNKNOWN |
| HttpRequests.TerminalPosts | requestsj/src/main/java/pk/codebase/requests/HttpRequest.java:114-120 | the end of a run posts at most one runnable, a terminal one: the response exactly when the call returned and a response listener is set; an error exactly when it threw and an error listener is set, the thrown HttpError itself or, for any other exception, UNKNOWN at an unknown stage with that cause |
| BaseHttpRequests.BaseHttpRequest.HasError | library/src/main/java/com/byteshaft/requests/BaseHttpRequest.java:222-224 | with the error recorded as the last error event, true exactly when some error event has been emitted |
| BaseHttpRequests.ConnectErrors | library/src/main/java/com/byteshaft/requests/BaseHttpRequest.java:84-90 | a failed connect emits at most one error; a ConnectException gives CONNECTION_REFUSED exactly when it has a message containing "ECONNREFUSED", and nothing otherwise (never SSL_CERTIFICATE_INVALID); a handshake failure gives SSL_CERTIFICATE_INVALID; a success or another IOException gives nothing |
| BaseHttpRequests.ResponseEventsShape | library/src/main/java/com/byteshaft/requests/BaseHttpRequest.java:139-146 | readResponse emits LOADING first, ends with DONE exactly when the status line is readable, and emits UNKNOWN exactly when the body read or the status line fails |
| BaseHttpRequests.JoinLinesShape | library/src/main/java/com/byteshaft/requests/BaseHttpRequest.java:164-169 | the response text is empty exactly when no line was read, and otherwise ends with a newline, at least one character per line |
| BaseHttpRequests.ErrorAfterSome | library/src/main/java/com/byteshaft/requests/BaseHttpRequest.java:222-224 | an error is recorded after some events exactly when one was recorded before or one of the events is an error |
| BaseHttpRequests.ErrorAfterConcat | library/src/main/java/com/byteshaft/requests/BaseHttpRequest.java:96-136 | the error recorded after two runs of events is that of the second run started from the first's |
| BaseHttpRequests.ErrorAfterNoErrors | library/src/main/java/com/byteshaft/requests/BaseHttpRequest.java:208-213 | events without an error, such as upload progress, leave the recorded error unchanged |
| BaseHttpRequests.BodyErrorAfter | library/src/main/java/com/byteshaft/requests/BaseHttpRequest.java:101-106 | after a plain body and the response, the recorded error is UNKNOWN exactly when the send, the body read or the status line failed, and unchanged otherwise |
| BaseHttpRequests.PlainErrorAfter | library/src/main/java/com/byteshaft/requests/BaseHttpRequest.java:100-107 | the same for a connected plain run, OPENED included |
| BaseHttpRequests.MultipartErrorAfter | library/src/main/java/com/byteshaft/requests/BaseHttpRequest.java:114-134 | after a connected multipart run, the recorded error is unchanged when the body and response go through, and UNKNOWN otherwise |
| BaseHttpRequests.FilesReached | library/src/main/java/com/byteshaft/requests/BaseHttpRequest.java:121-130 | the files counted before the parts loop stops are never more than the file parts |
| BaseHttpRequests.FilesReachedThrough | library/src/main/java/com/byteshaft/requests/BaseHttpRequest.java:121-130 | when every part goes through, every file part is counted |
| BaseHttpRequests.FormStopsAtFailure | library/src/main/java/com/byteshaft/requests/BaseHttpRequest.java:121-130 | once some first parts fail, the parts after them add nothing: not to the files counted, the bytes written or the progress reported |
| BaseHttpRequests.ProgressEventsPrefix | library/src/main/java/com/byteshaft/requests/BaseHttpRequest.java:208-213 | the progress events of a file's first chunks begin its events for all chunks |
| BaseHttpRequests.ToShort | library/src/main/java/com/byteshaft/requests/BaseHttpRequest.java:151 | the `(short)` cast lands in [-32768, 32768), agrees with its input modulo 65536, and keeps values already in range |
| BaseHttpRequests.JoinLinesAppend | library/src/main/java/com/byteshaft/requests/BaseHttpRequest.java:166-168 | appending a line to the text appends the line and one newline |
| BaseHttpRequests.LineEnd | library/src/main/java/com/byteshaft/requests/BaseHttpRequest.java:166 | the first line ends at the first newline, or at the end of the text |
| BaseHttpRequests.FirstLine | library/src/main/java/com/byteshaft/requests/BaseHttpRequest.java:166-167 | a line without a newline, followed by a newline, is read back as the first line, and reading continues right after the newline |
| BaseHttpRequests.SplitJoinLines | library/src/main/java/com/byteshaft/requests/BaseHttpRequest.java:163-169 | splitting the response text back at its newlines gives the lines read, when none of them holds a newline |
| BaseHttpRequests.ProgressEventsAppend | library/src/main/java/com/byteshaft/requests/BaseHttpRequest.java:208-213 | one more chunk adds one progress event whose count is the bytes so far plus the chunk |
| BaseHttpRequests.ProgressEventsAreProgress | library/src/main/java/com/byteshaft/requests/BaseHttpRequest.java:208-213 | an upload emits one progress event per chunk and nothing else |
| BaseHttpRequests.ProgressStrictlyIncreasing | library/src/main/java/com/byteshaft/requests/BaseHttpRequest.java:208-213 | progress counts strictly increase, all carry the file and its length, and the last is the number of bytes sent; when the length matches what was read, every count is in (0, length] |
| BaseHttpRequests.ProgressFirst | library/src/main/java/com/byteshaft/requests/BaseHttpRequest.java:208-213 | the first progress event reports a positive count |
| BaseHttpRequests.ProgressStep | library/src/main/java/com/byteshaft/requests/BaseHttpRequest.java:211-212 | consecutive progress counts differ by the size of the chunk between them |
| BaseHttpRequests.ProgressLastCount | library/src/main/java/com/byteshaft/requests/BaseHttpRequest.java:211-212 | the last progress count is every byte of the chunks |
| BaseHttpRequests.FileUploadProgress | library/src/main/java/com/byteshaft/requests/BaseHttpRequest.java:196-220 | a fully uploaded file reports one event per read, with counts that strictly increase by 1 to 512 bytes each and end at the file's bytes; they stay within the reported length when it matches |
| BaseHttpRequests.StatesConcat | library/src/main/java/com/byteshaft/requests/BaseHttpRequest.java:138-147 | the states of two runs of events add up |
| BaseHttpRequests.StatesOfProgress | library/src/main/java/com/byteshaft/requests/BaseHttpRequest.java:120-130 | events with no state change contribute no states |
| BaseHttpRequests.ResponseStates | library/src/main/java/com/byteshaft/requests/BaseHttpRequest.java:138-147 | reading the response goes through LOADING, then DONE exactly when the status line is readable |
| BaseHttpRequests.ExtendMonotone | library/src/main/java/com/byteshaft/requests/BaseHttpRequest.java:96-136 | a worker's events, whose states are ordered and start at OPENED, keep the request's states in order |
| BaseHttpRequests.PlainSendStates | library/src/main/java/com/byteshaft/requests/BaseHttpRequest.java:100-107 | a plain request goes OPENED, then HEADERS_RECEIVED when a body was sent, LOADING and DONE when readable; nothing after a failed send; always in order |
| BaseHttpRequests.RestStates | library/src/main/java/com/byteshaft/requests/BaseHttpRequest.java:102-106 | after OPENED, a plain request's states are in order and are those of the body and response |
| BaseHttpRequests.SentStates | library/src/main/java/com/byteshaft/requests/BaseHttpRequest.java:102-106 | a sent body adds HEADERS_RECEIVED before the response's states |
| BaseHttpRequests.MultipartStates | library/src/main/java/com/byteshaft/requests/BaseHttpRequest.java:114-134 | a multipart request goes through the same states as a plain request with a body, so in order |
| BaseHttpRequests.MultipartMonotone | library/src/main/java/com/byteshaft/requests/BaseHttpRequest.java:114-134 | a multipart run keeps the request's states in order |
| BaseHttpRequests.FormPrefix | library/src/main/java/com/byteshaft/requests/BaseHttpRequest.java:120-130 | the bytes and events of a prefix of the parts are prefixes of those of all parts, and its operations and files no more |
| BaseHttpRequests.FormEventsAreProgress | library/src/main/java/com/byteshaft/requests/BaseHttpRequest.java:120-130 | the parts emit nothing but progress events when they go through |
| BaseHttpRequests.ProgressEventsOfPart | library/src/main/java/com/byteshaft/requests/BaseHttpRequest.java:122-127 | one part emits nothing but progress events |
| BaseHttpRequests.FormStep | library/src/main/java/com/byteshaft/requests/BaseHttpRequest.java:120-130 | one more part adds its bytes, events, file and operations, and is readable with the rest exactly when both are |
| BaseHttpRequests.PartsFailure | library/src/main/java/com/byteshaft/requests/BaseHttpRequest.java:120-130 | when some first parts do not go through, the parts do not either, and their bytes and events begin with those of the first parts |
| BaseHttpRequests.ComposeSteps | library/src/main/java/com/byteshaft/requests/BaseHttpRequest.java:121-129 | a sending step that succeeded, followed by a second step, make one step whose operations, bytes and events are joined; on failure it leaves the first step's bytes and events followed by what the second wrote and reported |
| BaseHttpRequests.BaseHttpRequest.StreamNext | library/src/main/java/com/byteshaft/requests/BaseHttpRequest.java:208-212 | one turn of the upload loop with its read: it goes on exactly when the read delivers bytes and their write and flush go through, extending the chunks streamed so far by that one; otherwise no event is emitted, and the chunk is recorded as written exactly when the read delivered it and its write went through |
| BaseHttpRequests.StreamedStep | library/src/main/java/com/byteshaft/requests/BaseHttpRequest.java:209-212 | a chunk written and flushed, followed by its progress event with the new cumulative count, extends what has been streamed by that chunk |
| BaseHttpRequests.ReadableChunks | library/src/main/java/com/byteshaft/requests/BaseHttpRequest.java:207-208 | every read of a readable file delivers 1 to 512 bytes |
| BaseHttpRequests.ResponseErrorAfter | library/src/main/java/com/byteshaft/requests/BaseHttpRequest.java:138-147 | reading the response leaves the recorded error UNKNOWN exactly when the body read or the status line fails, and unchanged otherwise |
| BaseHttpRequests.PartsFailedWithin | library/src/main/java/com/byteshaft/requests/BaseHttpRequest.java:120-130 | when the first parts already fail, the whole list fails with the same bytes, progress and file count |
| BaseHttpRequests.StreamStopIsFirstFailure | library/src/main/java/com/byteshaft/requests/BaseHttpRequest.java:208-213 | every chunk before the one the upload loop stops at was read and its write and flush went through, and the chunk it stops at, if any, was not |
| BaseHttpRequests.StreamStopsAt | library/src/main/java/com/byteshaft/requests/BaseHttpRequest.java:208-213 | conversely, when every chunk before chunk i went through and chunk i fails, the upload loop stops at i |
| BaseHttpRequests.StreamFailed | library/src/main/java/com/byteshaft/requests/BaseHttpRequest.java:208-219 | the chunks before i streamed, then chunk i failing, leave exactly the loop's failure state, and the upload does not go through |
| BaseHttpRequests.FileWritesPrefix | library/src/main/java/com/byteshaft/requests/BaseHttpRequest.java:196-220 | what a failing upload writes begins the file's bytes, and what it reports begins the file's progress events |
| BaseHttpRequests.PartWrittenPrefix | library/src/main/java/com/byteshaft/requests/BaseHttpRequest.java:121-129 | what one part writes and reports begins its bytes and events, and is all of them when it goes through |
| BaseHttpRequests.FormWrittenPrefix | library/src/main/java/com/byteshaft/requests/BaseHttpRequest.java:120-130 | what the parts loop writes and reports begins the parts' bytes and events, and is all of them when every part goes through |
| BaseHttpRequests.NextPartSent | library/src/main/java/com/byteshaft/requests/BaseHttpRequest.java:121-129 | one more part that goes through extends the parts sent by its bytes, events, file and operations |
| BaseHttpRequests.NextPartFailed | library/src/main/java/com/byteshaft/requests/BaseHttpRequest.java:121-130 | a part that fails after the earlier parts went through leaves the loop's exact failure state |
| BaseHttpRequests.FormBodyFailed | library/src/main/java/com/byteshaft/requests/BaseHttpRequest.java:130-131 | parts that stop early leave the body with no closing line and no response, UNKNOWN recorded |
| BaseHttpRequests.FormBodySent | library/src/main/java/com/byteshaft/requests/BaseHttpRequest.java:131-133 | parts that went through, then the closing line and the response, make the whole body's outcome |

## Left out

- Threads: the executor of `HttpRequest` and the worker `Thread` of `sendRequest` are run to completion in the calling method. The Android `Handler` is the `handlerQueue` sequence; posted runnables are never run, and which listener they call is decided when they run.
- The per-verb overloads of `HttpRequest` (`get`, `post`, `put`, `patch`, `delete`) and `request`, which only fill in null arguments and submit `actuallyRequest`, are not modelled one by one.
- `HttpBase.request` and `FormData` are not part of this model. `HttpHeaders` is modelled as a mutable string map (`Headers`) and `HttpOptions` as an opaque object (`Options`); `HttpResponse` and `HttpError` are values holding their fields. Everything else about these classes is left out. HttpBase's result is the `RequestOutcome` parameter. FormData is its parts, content length and file count. `FormData.BOUNDARY` and `FormData.FINISH_LINE` are constants of unknown value. The content length is passed on unchecked.
- `EventCentral` is not part of this model. Its emit methods append to `events`, and `hasError()` is "an error has been recorded". That `emitOnError` stores the emitted code as the error `hasError()` reads is taken as given; the property "the recorded error is the code of the last error event" rests on it.
- `Log.e` calls and the Android `Context` are left out.
- Strings and bytes: `getBytes()` and the charset of `InputStreamReader` are not modelled. Bodies are byte sequences and response lines are character sequences.
- `readLine` is taken to split at '\n' only. '\r' and "\r\n" terminators are not modelled.
- A null error stream: `getErrorStream()` may return null, which makes `readFromInputStream` throw a NullPointerException. The model always has an error stream.
- The transport is a fixed script. Which stream operations throw, what files contain and how connect ends are chosen before the request runs, and cannot depend on timing.
- BaseHttpRequests.FileUploadProgress: its premise that each read returns 1 to 512 bytes is a property of `FileInputStream.read` into a 512-byte buffer, taken as given. The code itself never checks `uploaded <= total`, so that bound is proved only when the file's length matches what was read.
- BaseHttpRequests.BaseHttpRequest.SetupConnection: the connection object and the request method are not stored beyond "a connection exists". `setRequestMethod` throwing after `openConnection` leaves the connection in place, as in the code. A URL whose connection is not an `HttpURLConnection` (an `ftp:` URL, say) makes the cast throw a ClassCastException, which `catch (IOException)` does not catch; that outcome is not modelled.
- BaseHttpRequests.BaseHttpRequest.EstablishConnection: a `ConnectException` without a message makes `getMessage().contains` throw a NullPointerException inside the catch block. It skips the `Log.e` call and escapes the worker's `run()` uncaught, reaching the thread's default handler, which on Android ends the process. The model renders it as a false return without an error event and captures only that no further event follows.
- BaseHttpRequests.BaseHttpRequest.RunPlain, RunMultipart: a request object is modelled for one run. After a connected run the outcome does not state the stream-operation counter or whether the output stream is open, so a second `sendRequest` on the same object is not reasoned about.
- BaseHttpRequests.BaseHttpRequest.SendPlainBody: `setRequestProperty` after `connect()` is taken to succeed. `HttpURLConnection` documents an IllegalStateException once connected, which would end the worker right after OPENED. The connection class is not part of this model.
- BaseHttpRequests.BaseHttpRequest.RunMultipart: `setRequestProperty` and `setFixedLengthStreamingMode` after `connect()` are taken to succeed, for the same reason.
- HttpRequests.HttpRequest.constructor: the base URL is never null in the model. With `new HttpRequest(null)` and a relative URL, `mBaseURL.isEmpty()` throws a NullPointerException in the executor before `HttpBase.request` is called, and nothing is posted.
- HttpRequests.HttpRequest.ActuallyRequest: HttpBase is taken to make all of its progress callbacks before `request` returns or throws. Only then do the progress posts all come before the terminal post. A callback HttpBase made later, from another thread, is not modelled.
