/**
 * The request engine of the byteshaft client (class BaseHttpRequest): opening and connecting
 * the connection, sending a plain or multipart body, streaming upload files in 512-byte
 * chunks with progress events, and draining the response.
 *
 * The HttpURLConnection, its streams and the files on disk are replaced by a `Transport`
 * value that says in advance how each of them behaves; the events that EventCentral emits
 * are appended to `events`.
 */
module BaseHttpRequests {
  import opened Common

  newtype byte = x: int | 0 <= x < 256

  /** The size of the read buffer that files are streamed through. */
  const ChunkSize := 512

  // ---------------------------------------------------------------------------------------
  // States, error codes and events
  // ---------------------------------------------------------------------------------------

  datatype ReadyState = Unsent | Opened | HeadersReceived | Loading | Done
  {
    function Ordinal(): nat
    {
      match this
      case Unsent => 0
      case Opened => 1
      case HeadersReceived => 2
      case Loading => 3
      case Done => 4
    }
  }

  /** The ERROR_ codes this class reports; ERROR_NONE is the absence of an error. */
  datatype ErrorCode = InvalidUrl | InvalidRequestMethod | ConnectionRefused | SslCertificateInvalid | Unknown

  /** What EventCentral is asked to emit, in order. */
  datatype Event =
    | StateChange(state: ReadyState)
    | ErrorEvent(code: ErrorCode)
    | UploadProgress(file: string, uploaded: int, total: int)

  // ---------------------------------------------------------------------------------------
  // The transport, as a script of outcomes
  // ---------------------------------------------------------------------------------------

  /** How `new URL(url).openConnection()` and `setRequestMethod` end. */
  datatype OpenOutcome =
    | OpenOk
    | MalformedUrl          // new URL throws MalformedURLException
    | OpenIOFailure         // openConnection throws another IOException
    | MethodRejected        // setRequestMethod throws ProtocolException

  /**
   * How `connect()` ends. A ConnectException may carry no message; then the `contains` test on
   * it throws a NullPointerException out of the worker thread, uncaught. The model renders that
   * as a false return without an error event: no further event follows either way.
   */
  datatype ConnectOutcome =
    | ConnectOk
    | ConnectExceptionThrown(message: Option<string>)
    | SslHandshakeExceptionThrown
    | OtherIOExceptionThrown

  /** One `read(buffer)` on a file: some bytes, or an IOException. */
  datatype ReadStep = Bytes(data: seq<byte>) | ReadFailure
  {
    function Data(): seq<byte>
    {
      if Bytes? then data else []
    }
  }

  /**
   * A file to upload: what File.length() says, whether FileInputStream opens it, and the
   * results of its successive reads before end of file.
   */
  datatype UploadFile = UploadFile(length: int, opens: bool, steps: seq<ReadStep>)

  /** What `getResponseMessage()` does: return a message, which may be null, or throw an IOException. */
  datatype MessageOutcome = Message(text: Option<string>) | MessageFails

  /** A response stream as BufferedReader.readLine sees it: its lines, then EOF or an IOException. */
  datatype LineSource = LineSource(lines: seq<string>, failsAtEnd: bool)

  /**
   * The behaviour of everything outside this class. The output stream's operations (write,
   * flush, close) are numbered in the order they are attempted; operation k throws exactly
   * when k is in `failingOps`. `input` is None when getInputStream() throws, and
   * `responseCode` None when getResponseCode() throws.
   */
  datatype Transport = Transport(
    open: OpenOutcome,
    connect: ConnectOutcome,
    outputStreamFails: bool,
    failingOps: set<nat>,
    input: Option<LineSource>,
    errorStream: LineSource,
    responseCode: Option<int>,
    responseMessage: MessageOutcome,
    files: map<string, UploadFile>)

  /** A read into a 512-byte buffer returns between 1 and 512 bytes until end of file. */
  predicate WellFormedFile(f: UploadFile)
  {
    forall i :: 0 <= i < |f.steps| ==> f.steps[i].Bytes? ==> 1 <= |f.steps[i].data| <= ChunkSize
  }

  predicate WellFormed(env: Transport)
  {
    forall path :: path in env.files ==> WellFormedFile(env.files[path])
  }

  /** `new File(path)`: a missing file has length 0 and cannot be opened. */
  function FileAt(env: Transport, path: string): (f: UploadFile)
    ensures WellFormed(env) ==> WellFormedFile(f)
  {
    if path in env.files then env.files[path] else UploadFile(0, false, [])
  }

  predicate FileReadable(f: UploadFile)
  {
    f.opens && forall i :: 0 <= i < |f.steps| ==> f.steps[i].Bytes?
  }

  predicate OpsSucceed(env: Transport, from: nat, count: nat)
  {
    forall k :: from <= k < from + count ==> k !in env.failingOps
  }

  lemma OpsSucceedWithin(env: Transport, from: nat, count: nat, from': nat, count': nat)
    requires from <= from' && from' + count' <= from + count
    ensures OpsSucceed(env, from, count) ==> OpsSucceed(env, from', count')
  {
  }

  /** A run of operations succeeds exactly when both of its halves do. */
  lemma OpsSucceedSplit(env: Transport, from: nat, count: nat, count': nat)
    ensures OpsSucceed(env, from, count + count') <==> OpsSucceed(env, from, count) && OpsSucceed(env, from + count, count')
  {
  }

  lemma OpsSucceedJoin(env: Transport, from: nat, count: nat, count': nat)
    requires OpsSucceed(env, from, count) && OpsSucceed(env, from + count, count')
    ensures OpsSucceed(env, from, count + count')
  {
  }

  // ---------------------------------------------------------------------------------------
  // Multipart forms
  // ---------------------------------------------------------------------------------------

  datatype PartContent = TextContent(value: seq<byte>) | FileContent(path: string)

  /** A FormData.MultiPartData: the framing before and after, and the content. */
  datatype Part = Part(pre: seq<byte>, content: PartContent, post: seq<byte>)

  /** A FormData as this class reads it; FormData itself is not part of this model. */
  datatype FormData = FormData(parts: seq<Part>, contentLength: int, filesCount: int)

  /** FormData.FINISH_LINE, the closing boundary; its value is defined by FormData. */
  const FinishLine: seq<byte>

  /** The chunks a file's reads deliver, in order (a failed read delivers none). */
  function Chunks(steps: seq<ReadStep>): seq<seq<byte>>
  {
    seq(|steps|, i requires 0 <= i < |steps| => steps[i].Data())
  }

  /** One chunk per read, in order: a read's bytes, or nothing for a failed read. */
  lemma ChunkOfStep(steps: seq<ReadStep>, i: nat)
    requires i < |steps|
    ensures |Chunks(steps)| == |steps| && Chunks(steps)[i] == steps[i].Data()
  {
  }

  /** A readable, well-formed file is read in chunks of 1 to 512 bytes. */
  lemma ReadableChunks(f: UploadFile)
    requires WellFormedFile(f) && FileReadable(f)
    ensures forall i :: 0 <= i < |Chunks(f.steps)| ==> 1 <= |Chunks(f.steps)[i]| <= ChunkSize
  {
    forall i | 0 <= i < |Chunks(f.steps)|
      ensures 1 <= |Chunks(f.steps)[i]| <= ChunkSize
    {
      ChunkOfStep(f.steps, i);
    }
  }

  /** The bytes a successful upload of the file sends. */
  function FileBytes(f: UploadFile): seq<byte>
  {
    Flatten(Chunks(f.steps))
  }

  /** The progress events for the chunks sent so far: cumulative count and the file length. */
  function ProgressEvents(file: string, total: int, chunks: seq<seq<byte>>): seq<Event>
  {
    if chunks == [] then []
    else ProgressEvents(file, total, chunks[..|chunks| - 1]) + [UploadProgress(file, |Flatten(chunks)|, total)]
  }

  lemma ProgressEventsAppend(file: string, total: int, chunks: seq<seq<byte>>, c: seq<byte>)
    ensures ProgressEvents(file, total, chunks + [c])
         == ProgressEvents(file, total, chunks) + [UploadProgress(file, |Flatten(chunks)| + |c|, total)]
  {
    assert (chunks + [c])[..|chunks|] == chunks;
    FlattenAppendOne(chunks, c);
  }

  /** The events for the first chunks of a file begin the events for all of them. */
  lemma {:induction false} ProgressEventsPrefix(file: string, total: int, chunks: seq<seq<byte>>, k: nat)
    requires k <= |chunks|
    ensures ProgressEvents(file, total, chunks[..k]) <= ProgressEvents(file, total, chunks)
    decreases |chunks|
  {
    if k == |chunks| {
      assert chunks[..k] == chunks;
    } else {
      var init := chunks[..|chunks| - 1];
      assert init[..k] == chunks[..k];
      ProgressEventsPrefix(file, total, init, k);
      PrefixTrans(ProgressEvents(file, total, init[..k]), ProgressEvents(file, total, init), ProgressEvents(file, total, chunks));
    }
  }

  function ContentBytes(env: Transport, content: PartContent): seq<byte>
  {
    match content
    case TextContent(value) => value
    case FileContent(path) => FileBytes(FileAt(env, path))
  }

  function PartBytes(env: Transport, part: Part): seq<byte>
  {
    part.pre + ContentBytes(env, part.content) + part.post
  }

  /** The bytes of the parts, each part's framing and content in order. */
  function FormBytes(env: Transport, parts: seq<Part>): seq<byte>
  {
    if parts == [] then [] else FormBytes(env, parts[..|parts| - 1]) + PartBytes(env, parts[|parts| - 1])
  }

  function PartEvents(env: Transport, part: Part): seq<Event>
  {
    match part.content
    case TextContent(_) => []
    case FileContent(path) =>
      var f := FileAt(env, path);
      ProgressEvents(path, f.length, Chunks(f.steps))
  }

  function FormEvents(env: Transport, parts: seq<Part>): seq<Event>
  {
    if parts == [] then [] else FormEvents(env, parts[..|parts| - 1]) + PartEvents(env, parts[|parts| - 1])
  }

  function FileCount(parts: seq<Part>): nat
  {
    if parts == [] then 0
    else FileCount(parts[..|parts| - 1]) + (if parts[|parts| - 1].content.FileContent? then 1 else 0)
  }

  /** The stream operations one part's text or file takes when nothing fails. */
  function ContentOps(env: Transport, content: PartContent): nat
  {
    match content
    case TextContent(_) => 2
    case FileContent(path) => 1 + 2 * |FileAt(env, path).steps|
  }

  /** The stream operations one part takes when nothing fails: framing, content, framing. */
  function PartOps(env: Transport, part: Part): nat
  {
    2 + ContentOps(env, part.content) + 2
  }

  function FormOps(env: Transport, parts: seq<Part>): nat
  {
    if parts == [] then 0 else FormOps(env, parts[..|parts| - 1]) + PartOps(env, parts[|parts| - 1])
  }

  predicate PartReadable(env: Transport, part: Part)
  {
    part.content.FileContent? ==> FileReadable(FileAt(env, part.content.path))
  }

  predicate FormReadable(env: Transport, parts: seq<Part>)
  {
    forall i :: 0 <= i < |parts| ==> PartReadable(env, parts[i])
  }

  predicate OnlyProgress(evs: seq<Event>)
  {
    forall i :: 0 <= i < |evs| ==> evs[i].UploadProgress?
  }

  // ---------------------------------------------------------------------------------------
  // Responses
  // ---------------------------------------------------------------------------------------

  /** The response text built from the lines read: every line followed by '\n'. */
  function JoinLines(lines: seq<string>): string
  {
    if lines == [] then "" else lines[0] + "\n" + JoinLines(lines[1..])
  }

  /** The text is empty exactly when no line was read; otherwise it ends with '\n', one per line at least. */
  lemma {:induction false} JoinLinesShape(lines: seq<string>)
    ensures |JoinLines(lines)| >= |lines|
    ensures JoinLines(lines) == [] <==> lines == []
    ensures JoinLines(lines) != [] ==> JoinLines(lines)[|JoinLines(lines)| - 1] == '\n'
  {
    if lines != [] {
      JoinLinesShape(lines[1..]);
    }
  }

  lemma {:induction false} JoinLinesAppend(lines: seq<string>, line: string)
    ensures JoinLines(lines + [line]) == JoinLines(lines) + line + "\n"
  {
    if lines != [] {
      assert (lines + [line])[1..] == lines[1..] + [line];
      JoinLinesAppend(lines[1..], line);
    }
  }

  /** Where the first line of `s` ends: the index of its first '\n', or its length. */
  function LineEnd(s: string): (k: nat)
    ensures k <= |s|
    ensures forall j :: 0 <= j < k ==> s[j] != '\n'
    ensures k < |s| ==> s[k] == '\n'
  {
    if s == [] || s[0] == '\n' then 0 else 1 + LineEnd(s[1..])
  }

  /** The lines `readLine` returns from `s`, each without its '\n'. */
  function SplitLines(s: string): seq<string>
    decreases |s|
  {
    if s == [] then []
    else
      var k := LineEnd(s);
      [s[..k]] + if k < |s| then SplitLines(s[k + 1..]) else []
  }

  /** Reading the response text back line by line gives the lines it was built from. */
  lemma {:induction false} SplitJoinLines(lines: seq<string>)
    requires forall i, j :: 0 <= i < |lines| && 0 <= j < |lines[i]| ==> lines[i][j] != '\n'
    ensures SplitLines(JoinLines(lines)) == lines
  {
    if lines != [] {
      var rest := JoinLines(lines[1..]);
      FirstLine(lines[0], rest);
      SplitJoinLines(lines[1..]);
    }
  }

  /** A line without a newline, then a newline, is the first line of whatever follows. */
  lemma FirstLine(line: string, rest: string)
    requires forall j :: 0 <= j < |line| ==> line[j] != '\n'
    ensures var s := line + "\n" + rest;
            && LineEnd(s) == |line| && s[..|line|] == line && s[|line| + 1..] == rest
  {
    var s := line + "\n" + rest;
    assert forall j :: 0 <= j < |line| ==> s[j] == line[j];
    assert s[|line|] == '\n';
    assert s[..|line|] == line;
    assert s[|line| + 1..] == rest;
  }

  /** The stream the response is read from: the error stream when getInputStream() throws. */
  function ResponseSource(env: Transport): LineSource
  {
    if env.input.Some? then env.input.value else env.errorStream
  }

  predicate StatusReadable(env: Transport)
  {
    env.responseCode.Some? && env.responseMessage.Message?
  }

  /** Java's `(short)` cast: the low 16 bits, read as two's complement. */
  function ToShort(x: int): (r: int)
    ensures -0x8000 <= r < 0x8000
    ensures (x - r) % 0x1_0000 == 0
    ensures -0x8000 <= x < 0x8000 ==> r == x
  {
    (x + 0x8000) % 0x1_0000 - 0x8000
  }

  /** What readResponse emits: LOADING, a read error if any, then DONE or a status error. */
  function ResponseEvents(env: Transport): seq<Event>
  {
    [StateChange(Loading)]
    + (if ResponseSource(env).failsAtEnd then [ErrorEvent(Unknown)] else [])
    + (if StatusReadable(env) then [StateChange(Done)] else [ErrorEvent(Unknown)])
  }
  /**
   * readResponse starts with LOADING and ends with DONE exactly when the status line is
   * readable; it reports UNKNOWN exactly when reading the body or the status line fails.
   */
  lemma ResponseEventsShape(env: Transport)
    ensures var evs := ResponseEvents(env);
            && 2 <= |evs| <= 3 && evs[0] == StateChange(Loading)
            && (evs[|evs| - 1] == StateChange(Done) <==> StatusReadable(env))
            && (ErrorEvent(Unknown) in evs <==> ResponseSource(env).failsAtEnd || !StatusReadable(env))
  {
  }


  function ResponseTextAfter(env: Transport, before: Option<string>): Option<string>
  {
    var source := ResponseSource(env);
    if source.failsAtEnd then before else Some(JoinLines(source.lines))
  }

  function StatusAfter(env: Transport, before: int): int
  {
    if env.responseCode.Some? then ToShort(env.responseCode.value) else before
  }

  function StatusTextAfter(env: Transport, before: Option<string>): Option<string>
  {
    if StatusReadable(env) then env.responseMessage.text else before
  }

  /**
   * What establishConnection emits when connect() fails: at most one error. A ConnectException
   * gives CONNECTION_REFUSED exactly when it has a message containing "ECONNREFUSED", and
   * nothing otherwise; a handshake failure gives SSL_CERTIFICATE_INVALID; any other IOException,
   * like a successful connect, gives nothing.
   */
  function ConnectErrors(outcome: ConnectOutcome): (errs: seq<Event>)
    ensures errs == [] || errs == [ErrorEvent(ConnectionRefused)] || errs == [ErrorEvent(SslCertificateInvalid)]
    ensures errs == [ErrorEvent(ConnectionRefused)] ==> outcome.ConnectExceptionThrown?
    ensures outcome.ConnectOk? || outcome.OtherIOExceptionThrown? ==> errs == []
    ensures outcome.SslHandshakeExceptionThrown? ==> errs == [ErrorEvent(SslCertificateInvalid)]
    ensures outcome.ConnectExceptionThrown? ==>
              && errs != [ErrorEvent(SslCertificateInvalid)]
              && (errs == [ErrorEvent(ConnectionRefused)]
                  <==> outcome.message.Some? && Contains(outcome.message.value, "ECONNREFUSED"))
  {
    match outcome
    case ConnectOk => []
    case ConnectExceptionThrown(message) =>
      if message.Some? && Contains(message.value, "ECONNREFUSED") then [ErrorEvent(ConnectionRefused)] else []
    case SslHandshakeExceptionThrown => [ErrorEvent(SslCertificateInvalid)]
    case OtherIOExceptionThrown => []
  }

  // ---------------------------------------------------------------------------------------
  // The event log
  // ---------------------------------------------------------------------------------------

  /** The readyState changes among the events, in order. */
  function States(evs: seq<Event>): seq<ReadyState>
  {
    if evs == [] then []
    else States(evs[..|evs| - 1]) + (if evs[|evs| - 1].StateChange? then [evs[|evs| - 1].state] else [])
  }

  /**
   * The error EventCentral holds after emitting `evs`, starting from `before`: the code of the
   * last error among them, or `before` when none of them is an error.
   */
  function ErrorAfter(before: Option<ErrorCode>, evs: seq<Event>): Option<ErrorCode>
  {
    if evs == [] then before
    else if evs[|evs| - 1].ErrorEvent? then Some(evs[|evs| - 1].code)
    else ErrorAfter(before, evs[..|evs| - 1])
  }

  /** An error is held after some events exactly when one was held before or one was emitted. */
  lemma {:induction false} ErrorAfterSome(before: Option<ErrorCode>, evs: seq<Event>)
    ensures ErrorAfter(before, evs).Some? <==> before.Some? || exists i :: 0 <= i < |evs| && evs[i].ErrorEvent?
    decreases |evs|
  {
    if evs != [] {
      var init := evs[..|evs| - 1];
      ErrorAfterSome(before, init);
      if exists i :: 0 <= i < |init| && init[i].ErrorEvent? {
        var i :| 0 <= i < |init| && init[i].ErrorEvent?;
        assert evs[i] == init[i];
      }
      if !evs[|evs| - 1].ErrorEvent? && exists i :: 0 <= i < |evs| && evs[i].ErrorEvent? {
        var i :| 0 <= i < |evs| && evs[i].ErrorEvent?;
        assert init[i] == evs[i];
      }
    }
  }

  predicate NoErrors(evs: seq<Event>)
  {
    forall i :: 0 <= i < |evs| ==> !evs[i].ErrorEvent?
  }

  /** Events in two runs leave the error that the second run leaves after the first. */
  lemma {:induction false} ErrorAfterConcat(before: Option<ErrorCode>, a: seq<Event>, b: seq<Event>)
    ensures ErrorAfter(before, a + b) == ErrorAfter(ErrorAfter(before, a), b)
    decreases |b|
  {
    if b == [] {
      assert a + b == a;
    } else {
      assert (a + b)[..|a + b| - 1] == a + b[..|b| - 1];
      ErrorAfterConcat(before, a, b[..|b| - 1]);
    }
  }

  /** Events without an error leave the recorded error as it was. */
  lemma {:induction false} ErrorAfterNoErrors(before: Option<ErrorCode>, evs: seq<Event>)
    requires NoErrors(evs)
    ensures ErrorAfter(before, evs) == before
    decreases |evs|
  {
    if evs != [] {
      ErrorAfterNoErrors(before, evs[..|evs| - 1]);
    }
  }

  predicate Monotone(states: seq<ReadyState>)
  {
    forall i, j :: 0 <= i < j < |states| ==> states[i].Ordinal() <= states[j].Ordinal()
  }

  predicate AllAtMost(states: seq<ReadyState>, bound: ReadyState)
  {
    forall i :: 0 <= i < |states| ==> states[i].Ordinal() <= bound.Ordinal()
  }

  predicate AllAtLeast(states: seq<ReadyState>, bound: ReadyState)
  {
    forall i :: 0 <= i < |states| ==> bound.Ordinal() <= states[i].Ordinal()
  }


  /** Every part goes through: the stream is there, every file readable, no operation fails. */
  predicate PartsGoThrough(env: Transport, parts: seq<Part>, streamAvailable: bool, from: nat)
  {
    (parts == [] || streamAvailable) && FormReadable(env, parts) && OpsSucceed(env, from, FormOps(env, parts))
  }

  /** The whole multipart body, closing line included, goes through. */
  predicate FormGoesThrough(env: Transport, parts: seq<Part>, streamAvailable: bool, from: nat)
  {
    && streamAvailable
    && PartsGoThrough(env, parts, streamAvailable, from)
    && OpsSucceed(env, from + FormOps(env, parts), 3)
  }

  /** What the plain `sendRequest` emits after a successful connect. */
  function PlainSendEvents(env: Transport, hasBody: bool, sent: bool): seq<Event>
  {
    [StateChange(Opened)] + PlainBodyEvents(env, hasBody, sent)
  }

  /** What the plain `sendRequest` emits after OPENED. */
  function PlainBodyEvents(env: Transport, hasBody: bool, sent: bool): seq<Event>
  {
    if !sent then [ErrorEvent(Unknown)]
    else (if hasBody then [StateChange(HeadersReceived)] else []) + ResponseEvents(env)
  }

  /**
   * The error recorded once a connected request is over: UNKNOWN when its body could not be
   * sent, the response body could not be read or the status line could not be read; otherwise
   * the error recorded before.
   */
  function ErrorAfterSend(env: Transport, sent: bool, before: Option<ErrorCode>): Option<ErrorCode>
  {
    if !sent || ResponseSource(env).failsAtEnd || !StatusReadable(env) then Some(Unknown) else before
  }

  /** The error stated for a connected request is the one EventCentral holds after its events. */
  /** readResponse records UNKNOWN exactly when the body read or the status line fails. */
  lemma ResponseErrorAfter(before: Option<ErrorCode>, env: Transport)
    ensures ErrorAfter(before, ResponseEvents(env))
         == if ResponseSource(env).failsAtEnd || !StatusReadable(env) then Some(Unknown) else before
  {
    var read := if ResponseSource(env).failsAtEnd then [ErrorEvent(Unknown)] else [];
    var last := if StatusReadable(env) then [StateChange(Done)] else [ErrorEvent(Unknown)];
    ErrorAfterNoErrors(before, [StateChange(Loading)]);
    ErrorAfterConcat(before, [StateChange(Loading)], read);
    ErrorAfterConcat(before, [StateChange(Loading)] + read, last);
    if StatusReadable(env) {
      ErrorAfterNoErrors(ErrorAfter(before, [StateChange(Loading)] + read), last);
    }
  }

  lemma BodyErrorAfter(before: Option<ErrorCode>, env: Transport, hasBody: bool, sent: bool)
    ensures ErrorAfter(before, PlainBodyEvents(env, hasBody, sent)) == ErrorAfterSend(env, sent, before)
  {
    if sent {
      var head := if hasBody then [StateChange(HeadersReceived)] else [];
      ErrorAfterNoErrors(before, head);
      ErrorAfterConcat(before, head, ResponseEvents(env));
      ResponseErrorAfter(before, env);
    }
  }


  /** The same for the whole plain run, OPENED included. */
  lemma PlainErrorAfter(before: Option<ErrorCode>, env: Transport, hasBody: bool, sent: bool)
    ensures ErrorAfter(before, PlainSendEvents(env, hasBody, sent)) == ErrorAfterSend(env, sent, before)
  {
    ErrorAfterConcat(before, [StateChange(Opened)], PlainBodyEvents(env, hasBody, sent));
    ErrorAfterNoErrors(before, [StateChange(Opened)]);
    BodyErrorAfter(before, env, hasBody, sent);
  }

  // ---------------------------------------------------------------------------------------
  // Properties
  // ---------------------------------------------------------------------------------------

  lemma {:induction false} StatesConcat(a: seq<Event>, b: seq<Event>)
    ensures States(a + b) == States(a) + States(b)
    decreases |b|
  {
    if b == [] {
      assert a + b == a;
    } else {
      assert (a + b)[..|a + b| - 1] == a + b[..|b| - 1];
      StatesConcat(a, b[..|b| - 1]);
    }
  }

  lemma {:induction false} StatesOfProgress(evs: seq<Event>)
    requires forall i :: 0 <= i < |evs| ==> !evs[i].StateChange?
    ensures States(evs) == []
    decreases |evs|
  {
    if evs != [] {
      StatesOfProgress(evs[..|evs| - 1]);
    }
  }

  lemma {:induction false} ProgressEventsAreProgress(file: string, total: int, chunks: seq<seq<byte>>)
    ensures |ProgressEvents(file, total, chunks)| == |chunks|
    ensures OnlyProgress(ProgressEvents(file, total, chunks))
    decreases |chunks|
  {
    if chunks != [] {
      ProgressEventsAreProgress(file, total, chunks[..|chunks| - 1]);
    }
  }

  /**
   * The progress events of a file upload report strictly increasing byte counts, all with the
   * file's length as total, ending at the number of bytes sent; when the file's length equals
   * the bytes read, no count exceeds the total.
   */
  lemma {:induction false} ProgressStrictlyIncreasing(file: string, total: int, chunks: seq<seq<byte>>)
    requires forall i :: 0 <= i < |chunks| ==> |chunks[i]| > 0
    ensures var evs := ProgressEvents(file, total, chunks);
            && |evs| == |chunks|
            && (forall i :: 0 <= i < |evs| ==> evs[i].UploadProgress? && evs[i].file == file && evs[i].total == total)
            && (forall i, j :: 0 <= i < j < |evs| ==> evs[i].uploaded < evs[j].uploaded)
            && (evs != [] ==> evs[|evs| - 1].uploaded == |Flatten(chunks)|)
            && (total == |Flatten(chunks)| ==> forall i :: 0 <= i < |evs| ==> 0 < evs[i].uploaded <= total)
    decreases |chunks|
  {
    if chunks != [] {
      var init := chunks[..|chunks| - 1];
      var last := chunks[|chunks| - 1];
      ProgressStrictlyIncreasing(file, total, init);
      assert chunks == init + [last];
      FlattenAppendOne(init, last);
      var evs := ProgressEvents(file, total, chunks);
      var prev := ProgressEvents(file, total, init);
      assert evs == prev + [UploadProgress(file, |Flatten(chunks)|, total)];
      forall i | 0 <= i < |prev|
        ensures 0 < evs[i].uploaded <= |Flatten(init)|
      {
        if i < |prev| - 1 {
          assert prev[i].uploaded < prev[|prev| - 1].uploaded;
        }
        if i == 0 {
          assert prev[..1] == [prev[0]];
          assert init[..0] == [];
          ProgressFirst(file, total, init);
        } else {
          assert prev[0].uploaded < prev[i].uploaded;
          ProgressFirst(file, total, init);
        }
      }
    }
  }

  /** The first progress event reports the first chunk's size. */
  lemma {:induction false} ProgressFirst(file: string, total: int, chunks: seq<seq<byte>>)
    requires chunks != [] && forall i :: 0 <= i < |chunks| ==> |chunks[i]| > 0
    ensures ProgressEvents(file, total, chunks) != []
    ensures ProgressEvents(file, total, chunks)[0].UploadProgress?
    ensures ProgressEvents(file, total, chunks)[0].uploaded > 0
    decreases |chunks|
  {
    if |chunks| > 1 {
      ProgressFirst(file, total, chunks[..|chunks| - 1]);
    } else {
      assert chunks[..0] == [];
      assert Flatten(chunks) == chunks[0];
    }
  }

  /** readResponse's states are LOADING, then DONE exactly when the status line is readable. */
  lemma ResponseStates(env: Transport)
    ensures States(ResponseEvents(env)) == [Loading] + if StatusReadable(env) then [Done] else []
  {
    var read := if ResponseSource(env).failsAtEnd then [ErrorEvent(Unknown)] else [];
    var last := if StatusReadable(env) then [StateChange(Done)] else [ErrorEvent(Unknown)];
    StatesConcat([StateChange(Loading)] + read, last);
    StatesConcat([StateChange(Loading)], read);
    assert States(read) == [] by {
      if read != [] {
        assert read[..0] == [];
      }
    }
    assert States([StateChange(Loading)]) == [Loading] by {
      assert [StateChange(Loading)][..0] == [];
    }
    assert last[..0] == [];
  }

  /** The states of a run after setup are OPENED and then never go back. */
  lemma MonotoneAfterOpened(before: seq<ReadyState>, after: seq<ReadyState>)
    requires Monotone(before) && AllAtMost(before, Opened)
    requires Monotone(after) && AllAtLeast(after, Opened)
    ensures Monotone(before + after)
  {
  }

  /** What the multipart `sendRequest` emits after a successful connect. */
  function MultipartEvents(env: Transport, progress: seq<Event>, finished: bool): seq<Event>
  {
    [StateChange(Opened)] + progress + PlainBodyEvents(env, true, finished)
  }

  /** Progress events record no error: a multipart run records what a plain run with a body does. */
  lemma MultipartErrorAfter(before: Option<ErrorCode>, env: Transport, progress: seq<Event>, finished: bool)
    requires OnlyProgress(progress)
    ensures ErrorAfter(before, MultipartEvents(env, progress, finished)) == ErrorAfterSend(env, finished, before)
  {
    var head := [StateChange(Opened)] + progress;
    assert NoErrors(head) by {
      forall i | 0 <= i < |head| ensures !head[i].ErrorEvent? {
        if i > 0 { assert head[i] == progress[i - 1]; }
      }
    }
    ErrorAfterNoErrors(before, head);
    ErrorAfterConcat(before, head, PlainBodyEvents(env, true, finished));
    BodyErrorAfter(before, env, true, finished);
  }

  /** Progress events add no state: the multipart states are those of a plain request with a body. */
  lemma MultipartStates(env: Transport, progress: seq<Event>, finished: bool)
    requires OnlyProgress(progress)
    ensures var states := States(MultipartEvents(env, progress, finished));
            && states == States(PlainSendEvents(env, true, finished))
            && Monotone(states) && AllAtLeast(states, Opened)
  {
    var openedEvs := [StateChange(Opened)];
    var rest := PlainBodyEvents(env, true, finished);
    StatesOfProgress(progress);
    StatesConcat(openedEvs, progress);
    StatesConcat(openedEvs + progress, rest);
    StatesConcat(openedEvs, rest);
    assert States(openedEvs + progress) == States(openedEvs) + [];
    PlainSendStates(env, true, finished);
  }

  /** A multipart run keeps the states monotone when it starts from at most OPENED. */
  lemma MultipartMonotone(before: seq<Event>, env: Transport, progress: seq<Event>, finished: bool)
    requires OnlyProgress(progress)
    ensures Monotone(States(before)) && AllAtMost(States(before), Opened) ==>
              Monotone(States(before + MultipartEvents(env, progress, finished)))
  {
    MultipartStates(env, progress, finished);
    ExtendMonotone(before, MultipartEvents(env, progress, finished));
  }

  /** Events whose states start at OPENED and rise, appended after setup, keep the order. */
  lemma ExtendMonotone(before: seq<Event>, added: seq<Event>)
    requires Monotone(States(added)) && AllAtLeast(States(added), Opened)
    ensures Monotone(States(before)) && AllAtMost(States(before), Opened) ==> Monotone(States(before + added))
  {
    StatesConcat(before, added);
    if Monotone(States(before)) && AllAtMost(States(before), Opened) {
      MonotoneAfterOpened(States(before), States(added));
    }
  }

  /** The plain body's states: OPENED, HEADERS_RECEIVED, LOADING, DONE, each at most once in order. */
  lemma PlainSendStates(env: Transport, hasBody: bool, sent: bool)
    ensures var states := States(PlainSendEvents(env, hasBody, sent));
            && Monotone(states) && AllAtLeast(states, Opened)
            && states == [Opened] + if !sent then [] else
                 (if hasBody then [HeadersReceived] else []) + [Loading] + (if StatusReadable(env) then [Done] else [])
  {
    var openedEvs := [StateChange(Opened)];
    assert States(openedEvs) == [Opened] by {
      assert openedEvs[..0] == [];
    }
    var rest := PlainBodyEvents(env, hasBody, sent);
    StatesConcat(openedEvs, rest);
    RestStates(env, hasBody, sent);
  }

  lemma RestStates(env: Transport, hasBody: bool, sent: bool)
    ensures var rest := PlainBodyEvents(env, hasBody, sent);
            var states := [Opened] + States(rest);
            && Monotone(states) && AllAtLeast(states, Opened)
            && States(rest) == if !sent then [] else
                 (if hasBody then [HeadersReceived] else []) + [Loading] + (if StatusReadable(env) then [Done] else [])
  {
    if !sent {
      assert [ErrorEvent(Unknown)][..0] == [];
    } else {
      SentStates(env, hasBody);
      SentStatesMonotone(env, hasBody);
    }
  }

  lemma SentStatesMonotone(env: Transport, hasBody: bool)
    ensures var states := [Opened] + (if hasBody then [HeadersReceived] else []) + [Loading]
                          + (if StatusReadable(env) then [Done] else []);
            Monotone(states) && AllAtLeast(states, Opened)
  {
    var hdrStates := if hasBody then [HeadersReceived] else [];
    var done := if StatusReadable(env) then [Done] else [];
    MonotoneAppend([Opened], hdrStates, HeadersReceived);
    MonotoneAppend([Opened] + hdrStates, [Loading], Loading);
    MonotoneAppend([Opened] + hdrStates + [Loading], done, Done);
  }

  lemma SentStates(env: Transport, hasBody: bool)
    ensures States((if hasBody then [StateChange(HeadersReceived)] else []) + ResponseEvents(env))
         == (if hasBody then [HeadersReceived] else []) + [Loading] + (if StatusReadable(env) then [Done] else [])
  {
    var hdr := if hasBody then [StateChange(HeadersReceived)] else [];
    assert States(hdr) == if hasBody then [HeadersReceived] else [] by {
      if hasBody {
        assert hdr[..0] == [];
      }
    }
    ResponseStates(env);
    StatesConcat(hdr, ResponseEvents(env));
  }

  /** Appending states no lower than everything before keeps the order. */
  lemma MonotoneAppend(before: seq<ReadyState>, after: seq<ReadyState>, s: ReadyState)
    requires Monotone(before) && AllAtLeast(before, Opened) && AllAtMost(before, s)
    requires forall i :: 0 <= i < |after| ==> after[i] == s
    requires Opened.Ordinal() <= s.Ordinal()
    ensures Monotone(before + after) && AllAtLeast(before + after, Opened) && AllAtMost(before + after, s)
  {
  }

  /** The framing and contents of a prefix of the parts are a prefix of the whole body. */
  lemma {:induction false} FormPrefix(env: Transport, parts: seq<Part>, k: nat)
    requires k <= |parts|
    ensures FormBytes(env, parts[..k]) <= FormBytes(env, parts)
    ensures FormEvents(env, parts[..k]) <= FormEvents(env, parts)
    ensures FormOps(env, parts[..k]) <= FormOps(env, parts)
    ensures FileCount(parts[..k]) <= FileCount(parts)
    decreases |parts|
  {
    if k < |parts| {
      var init := parts[..|parts| - 1];
      assert parts[..k] == init[..k];
      FormPrefix(env, init, k);
    } else {
      assert parts[..k] == parts;
    }
  }

  lemma {:induction false} FormEventsAreProgress(env: Transport, parts: seq<Part>)
    ensures OnlyProgress(FormEvents(env, parts))
    decreases |parts|
  {
    if parts != [] {
      FormEventsAreProgress(env, parts[..|parts| - 1]);
      var last := parts[|parts| - 1];
      if last.content.FileContent? {
        var f := FileAt(env, last.content.path);
        ProgressEventsAreProgress(last.content.path, f.length, Chunks(f.steps));
      }
    }
  }

  lemma ProgressEventsOfPart(env: Transport, part: Part)
    ensures OnlyProgress(PartEvents(env, part))
  {
    if part.content.FileContent? {
      var f := FileAt(env, part.content.path);
      ProgressEventsAreProgress(part.content.path, f.length, Chunks(f.steps));
    }
  }

  /**
   * A file that uploads completely reports, chunk by chunk, strictly increasing counts of at
   * most 512 more bytes each, ending at the number of bytes read; the counts stay within the
   * reported total when the file's length matches what was read.
   */
  lemma FileUploadProgress(env: Transport, path: string)
    requires WellFormed(env) && FileReadable(FileAt(env, path))
    ensures var f := FileAt(env, path);
            var evs := PartEvents(env, Part([], FileContent(path), []));
            && |evs| == |f.steps|
            && (forall i :: 0 <= i < |evs| ==> evs[i].UploadProgress? && evs[i].file == path && evs[i].total == f.length)
            && (forall i :: 0 < i < |evs| ==> 0 < evs[i].uploaded - evs[i - 1].uploaded <= ChunkSize)
            && (forall i, j :: 0 <= i < j < |evs| ==> evs[i].uploaded < evs[j].uploaded)
            && (evs != [] ==> evs[|evs| - 1].uploaded == |FileBytes(f)|)
            && (f.length == |FileBytes(f)| ==> forall i :: 0 <= i < |evs| ==> 0 < evs[i].uploaded <= f.length)
  {
    var f := FileAt(env, path);
    var chunks := Chunks(f.steps);
    ReadableChunks(f);
    ProgressStrictlyIncreasing(path, f.length, chunks);
    var evs := ProgressEvents(path, f.length, chunks);
    assert PartEvents(env, Part([], FileContent(path), [])) == evs;
    forall i | 0 < i < |evs|
      ensures evs[i].uploaded - evs[i - 1].uploaded == |chunks[i]|
    {
      ProgressStep(path, f.length, chunks, i);
    }
  }

  /** Consecutive progress events differ by the size of the chunk in between. */
  lemma {:induction false} ProgressStep(file: string, total: int, chunks: seq<seq<byte>>, i: nat)
    requires 0 < i < |chunks|
    ensures |ProgressEvents(file, total, chunks)| == |chunks|
    ensures ProgressEvents(file, total, chunks)[i].UploadProgress?
    ensures ProgressEvents(file, total, chunks)[i - 1].UploadProgress?
    ensures ProgressEvents(file, total, chunks)[i].uploaded - ProgressEvents(file, total, chunks)[i - 1].uploaded
         == |chunks[i]|
    decreases |chunks|
  {
    ProgressEventsAreProgress(file, total, chunks);
    var init := chunks[..|chunks| - 1];
    ProgressEventsAreProgress(file, total, init);
    if i < |chunks| - 1 {
      ProgressStep(file, total, init, i);
    } else {
      assert init[..i - 1] == chunks[..i - 1];
      if i - 1 > 0 {
        assert init == init[..|init| - 1] + [init[|init| - 1]];
      }
      assert chunks == init + [chunks[i]];
      FlattenAppendOne(init, chunks[i]);
      ProgressLastCount(file, total, init);
    }
  }

  /** The last progress event counts every byte of the chunks so far. */
  lemma ProgressLastCount(file: string, total: int, chunks: seq<seq<byte>>)
    requires chunks != []
    ensures |ProgressEvents(file, total, chunks)| == |chunks|
    ensures ProgressEvents(file, total, chunks)[|chunks| - 1].UploadProgress?
    ensures ProgressEvents(file, total, chunks)[|chunks| - 1].uploaded == |Flatten(chunks)|
  {
    ProgressEventsAreProgress(file, total, chunks);
  }

  /** Adding one part to the parts sent adds its bytes, events, files and operations. */
  lemma FormStep(env: Transport, done: seq<Part>, part: Part)
    ensures FormBytes(env, done + [part]) == FormBytes(env, done) + PartBytes(env, part)
    ensures FormEvents(env, done + [part]) == FormEvents(env, done) + PartEvents(env, part)
    ensures FileCount(done + [part]) == FileCount(done) + if part.content.FileContent? then 1 else 0
    ensures FormOps(env, done + [part]) == FormOps(env, done) + PartOps(env, part)
    ensures FormReadable(env, done + [part]) == (FormReadable(env, done) && PartReadable(env, part))
  {
    assert (done + [part])[..|done|] == done;
    if FormReadable(env, done) && PartReadable(env, part) {
      forall j | 0 <= j < |done| + 1
        ensures PartReadable(env, (done + [part])[j])
      {
        if j < |done| {
          assert (done + [part])[j] == done[j];
        }
      }
    }
    if FormReadable(env, done + [part]) {
      assert (done + [part])[|done|] == part;
      forall j | 0 <= j < |done|
        ensures PartReadable(env, done[j])
      {
        assert (done + [part])[j] == done[j];
      }
    }
  }

  /** The chunks in `sent` have been written, flushed and reported between `start` and `now`. */
  ghost predicate Streamed(env: Transport, start: Snapshot, now: Snapshot, path: string, total: int,
                           sent: seq<seq<byte>>)
  {
    && now.writes == start.writes + sent
    && now.events == start.events + ProgressEvents(path, total, sent)
    && now.opCount == start.opCount + 2 * |sent|
    && OpsSucceed(env, start.opCount, 2 * |sent|)
  }

  /** One more chunk written, flushed and reported extends what has been streamed. */
  lemma StreamedStep(env: Transport, start: Snapshot, a: Snapshot, b: Snapshot, path: string, total: int,
                     sent: seq<seq<byte>>, data: seq<byte>)
    requires Streamed(env, start, a, path, total, sent)
    requires OpsSucceed(env, a.opCount, 2) && b.opCount == a.opCount + 2 && b.writes == a.writes + [data]
    requires b.events == a.events + [UploadProgress(path, |Flatten(sent)| + |data|, total)]
    ensures Streamed(env, start, b, path, total, sent + [data])
    ensures |Flatten(sent + [data])| == |Flatten(sent)| + |data|
  {
    OpsSucceedJoin(env, start.opCount, 2 * |sent|, 2);
    ProgressEventsAppend(path, total, sent, data);
    FlattenAppendOne(sent, data);
  }

  /** Where the multipart body starts: what its outcome is stated against. */
  datatype Before = Before(streamAvailable: bool, opCount: nat, writes: seq<seq<byte>>, fileNumber: int, closed: bool,
                           responseText: Option<string>, status: int, statusText: Option<string>,
                           error: Option<ErrorCode>)

  /** The fields the sending steps and the multipart body are compared against, as they were at some point. */
  datatype Snapshot = Snapshot(writes: seq<seq<byte>>, events: seq<Event>, opCount: nat, fileNumber: int,
                               error: Option<ErrorCode>, closed: bool, streamAvailable: bool,
                               responseText: Option<string>, status: int, statusText: Option<string>)

  /**
   * One step of sending a part, from state `a` to state `b`: on success `ops` operations,
   * `bytes` written and `okEvents` emitted; on failure exactly `sent` written and `shown`
   * (progress events only) emitted before UNKNOWN. The stream is never closed.
   */
  ghost predicate StepBetween(a: Snapshot, b: Snapshot, ok: bool, ops: int, bytes: seq<byte>, okEvents: seq<Event>,
                              sent: seq<byte>, shown: seq<Event>, written: seq<seq<byte>>, progress: seq<Event>)
  {
    && b.closed == a.closed && b.opCount >= a.opCount
    && b.writes == a.writes + written
    && (ok ==> && b.opCount == a.opCount + ops
               && Flatten(written) == bytes
               && b.events == a.events + okEvents
               && b.error == a.error)
    && (!ok ==> && b.error == Some(Unknown)
                && Flatten(written) == sent
                && progress == shown
                && b.events == a.events + progress + [ErrorEvent(Unknown)]
                && OnlyProgress(progress))
  }

  /** A file uploaded completely is one successful sending step: its chunks and its progress events. */
  lemma FileOkStep(env: Transport, path: string, a: Snapshot, b: Snapshot)
    requires b.closed == a.closed && b.error == a.error
    requires b.opCount == a.opCount + ContentOps(env, FileContent(path))
    requires b.writes == a.writes + Chunks(FileAt(env, path).steps)
    requires b.events == a.events + PartEvents(env, Part([], FileContent(path), []))
    ensures StepBetween(a, b, true, ContentOps(env, FileContent(path)), ContentBytes(env, FileContent(path)),
                        PartEvents(env, Part([], FileContent(path), [])),
                        ContentWritten(env, FileContent(path), a.opCount), ContentProgress(env, FileContent(path), a.opCount),
                        Chunks(FileAt(env, path).steps), [])
  {
  }

  /** An upload that stops early is a failed sending step: the chunks written and the progress reported. */
  lemma FileFailedStep(env: Transport, path: string, a: Snapshot, b: Snapshot)
    requires b.closed == a.closed && b.opCount >= a.opCount && b.error == Some(Unknown)
    requires b.writes == a.writes + FileWrites(env, path, true, a.opCount)
    requires b.events == a.events + FileProgress(env, path, true, a.opCount) + [ErrorEvent(Unknown)]
    ensures StepBetween(a, b, false, ContentOps(env, FileContent(path)), ContentBytes(env, FileContent(path)),
                        PartEvents(env, Part([], FileContent(path), [])),
                        ContentWritten(env, FileContent(path), a.opCount), ContentProgress(env, FileContent(path), a.opCount),
                        FileWrites(env, path, true, a.opCount), FileProgress(env, path, true, a.opCount))
  {
    FileProgressIsProgress(env, path, true, a.opCount);
  }

  lemma FileProgressIsProgress(env: Transport, path: string, streamAvailable: bool, from: nat)
    ensures OnlyProgress(FileProgress(env, path, streamAvailable, from))
  {
    var f := FileAt(env, path);
    ProgressEventsAreProgress(path, f.length, Chunks(f.steps)[..StreamStop(env, f.steps, from + 1)]);
  }

  /**
   * A step that succeeds followed by a second step make one step: its operations, bytes and
   * events those of both, and on failure what the first left followed by what the second did.
   */
  lemma ComposeSteps(a: Snapshot, b: Snapshot, c: Snapshot,
                     ops1: int, bytes1: seq<byte>, ev1: seq<Event>, s1: seq<byte>, sh1: seq<Event>,
                     w1: seq<seq<byte>>, p1: seq<Event>, ok2: bool, ops2: int, bytes2: seq<byte>, ev2: seq<Event>, s2: seq<byte>, sh2: seq<Event>,
                     w2: seq<seq<byte>>, p2: seq<Event>,
                     ops: int, bytes: seq<byte>, okEvents: seq<Event>, sent: seq<byte>, shown: seq<Event>)
    requires StepBetween(a, b, true, ops1, bytes1, ev1, s1, sh1, w1, p1) && OnlyProgress(ev1)
    requires StepBetween(b, c, ok2, ops2, bytes2, ev2, s2, sh2, w2, p2)
    requires ops == ops1 + ops2 && bytes == bytes1 + bytes2 && okEvents == ev1 + ev2
    requires sent == bytes1 + s2 && shown == ev1 + sh2
    ensures StepBetween(a, c, ok2, ops, bytes, okEvents, sent, shown, w1 + w2, ev1 + p2)
  {
    FlattenConcat(w1, w2);
    ConcatAssoc(a.writes, w1, w2);
    if ok2 {
      ConcatAssoc(a.events, ev1, ev2);
    } else {
      ConcatAssoc(a.events, ev1, p2);
      ProgressConcat(ev1, p2);
    }
  }

  /** When a prefix of the parts does not go through, neither do the parts; the prefix's bytes and events begin theirs. */
  lemma PartsFailure(env: Transport, parts: seq<Part>, k: nat, streamAvailable: bool, from: nat)
    requires 0 < k <= |parts|
    requires !PartsGoThrough(env, parts[..k], streamAvailable, from)
    ensures !PartsGoThrough(env, parts, streamAvailable, from)
    ensures FormBytes(env, parts[..k]) <= FormBytes(env, parts)
    ensures FormEvents(env, parts[..k]) <= FormEvents(env, parts)
  {
    FormPrefix(env, parts, k);
    OpsSucceedWithin(env, from, FormOps(env, parts), from, FormOps(env, parts[..k]));
  }

  /**
   * How many file parts the parts loop has counted (`currentFileNumber` is raised as a file's
   * content starts, after its leading framing) when it runs from operation `from`: all of
   * them if every part goes through, otherwise those before the failing part, plus that part
   * if it is a file whose leading framing went out.
   */
  function FilesReached(env: Transport, parts: seq<Part>, streamAvailable: bool, from: nat): (n: nat)
    ensures n <= FileCount(parts)
    decreases |parts|
  {
    if parts == [] then 0
    else
      var done, last := parts[..|parts| - 1], parts[|parts| - 1];
      if !PartsGoThrough(env, done, streamAvailable, from) then FilesReached(env, done, streamAvailable, from)
      else FileCount(done)
           + (if last.content.FileContent? && streamAvailable && OpsSucceed(env, from + FormOps(env, done), 2) then 1 else 0)
  }

  /** When every part goes through, every file is counted. */
  lemma FilesReachedThrough(env: Transport, parts: seq<Part>, streamAvailable: bool, from: nat)
    requires PartsGoThrough(env, parts, streamAvailable, from)
    ensures FilesReached(env, parts, streamAvailable, from) == FileCount(parts)
  {
    if parts != [] {
      var done := parts[..|parts| - 1];
      assert parts == done + [parts[|parts| - 1]];
      FormStep(env, done, parts[|parts| - 1]);
      OpsSucceedSplit(env, from, FormOps(env, done), PartOps(env, parts[|parts| - 1]));
      OpsSucceedWithin(env, from + FormOps(env, done), PartOps(env, parts[|parts| - 1]), from + FormOps(env, done), 2);
    }
  }

  /**
   * Once a prefix of the parts fails, the parts after it change nothing: not the files counted,
   * not the bytes written, not the progress reported.
   */
  lemma {:induction false} FormStopsAtFailure(env: Transport, parts: seq<Part>, k: nat, streamAvailable: bool, from: nat)
    requires 0 < k <= |parts|
    requires !PartsGoThrough(env, parts[..k], streamAvailable, from)
    ensures FilesReached(env, parts, streamAvailable, from) == FilesReached(env, parts[..k], streamAvailable, from)
    ensures FormWritten(env, parts, streamAvailable, from) == FormWritten(env, parts[..k], streamAvailable, from)
    ensures FormProgress(env, parts, streamAvailable, from) == FormProgress(env, parts[..k], streamAvailable, from)
    decreases |parts|
  {
    if k == |parts| {
      assert parts[..k] == parts;
    } else {
      var done := parts[..|parts| - 1];
      assert done[..k] == parts[..k];
      PartsFailure(env, done, k, streamAvailable, from);
      FormStopsAtFailure(env, done, k, streamAvailable, from);
    }
  }

  /** What a failing upload writes begins the file's bytes, and what it reports begins the file's events. */
  lemma FileWritesPrefix(env: Transport, path: string, streamAvailable: bool, from: nat)
    ensures Flatten(FileWrites(env, path, streamAvailable, from)) <= FileBytes(FileAt(env, path))
    ensures FileProgress(env, path, streamAvailable, from) <= PartEvents(env, Part([], FileContent(path), []))
  {
    var f := FileAt(env, path);
    var chunks := Chunks(f.steps);
    var r := StreamStop(env, f.steps, from + 1);
    if UploadStarts(env, path, streamAvailable, from) {
      if r < |f.steps| && f.steps[r].Bytes? && from + 1 + 2 * r !in env.failingOps {
        FlattenPrefix(chunks, r + 1);
      } else {
        FlattenPrefix(chunks, r);
      }
      ProgressEventsPrefix(path, f.length, chunks, r);
    }
  }

  /**
   * What one part writes and reports from operation `from` begins its bytes and its events,
   * and is all of them when the part goes through.
   */
  lemma PartWrittenPrefix(env: Transport, part: Part, streamAvailable: bool, from: nat)
    ensures PartWritten(env, part, streamAvailable, from) <= PartBytes(env, part)
    ensures PartProgress(env, part, streamAvailable, from) <= PartEvents(env, part)
    ensures streamAvailable && PartReadable(env, part) && OpsSucceed(env, from, PartOps(env, part)) ==>
              PartWritten(env, part, streamAvailable, from) == PartBytes(env, part)
              && PartProgress(env, part, streamAvailable, from) == PartEvents(env, part)
  {
    var content := ContentWritten(env, part.content, from + 2);
    var body := ContentBytes(env, part.content);
    assert PartBytes(env, part) == part.pre + (body + part.post);
    if part.content.FileContent? {
      FileWritesPrefix(env, part.content.path, true, from + 2);
    }
    PrefixAppend(body, DataWritten(env, part.post, true, from + 2 + ContentOps(env, part.content)), part.post);
    PrefixTrans(content, body, body + part.post);
    PrefixAppend(part.pre, RestWritten(env, part, from + 2), body + part.post);
    OpsSucceedSplit(env, from, 2, PartOps(env, part) - 2);
    OpsSucceedSplit(env, from + 2, ContentOps(env, part.content), 2);
  }

  /**
   * What the parts loop writes and reports from operation `from` begins the parts' bytes and
   * events, and is all of them when every part goes through.
   */
  lemma {:induction false} FormWrittenPrefix(env: Transport, parts: seq<Part>, streamAvailable: bool, from: nat)
    ensures FormWritten(env, parts, streamAvailable, from) <= FormBytes(env, parts)
    ensures FormProgress(env, parts, streamAvailable, from) <= FormEvents(env, parts)
    ensures PartsGoThrough(env, parts, streamAvailable, from) ==>
              FormWritten(env, parts, streamAvailable, from) == FormBytes(env, parts)
              && FormProgress(env, parts, streamAvailable, from) == FormEvents(env, parts)
    decreases |parts|
  {
    if parts != [] {
      var done, last := parts[..|parts| - 1], parts[|parts| - 1];
      assert parts == done + [last];
      FormStep(env, done, last);
      FormWrittenPrefix(env, done, streamAvailable, from);
      PartWrittenPrefix(env, last, streamAvailable, from + FormOps(env, done));
      if PartsGoThrough(env, done, streamAvailable, from) {
        PrefixAppend(FormBytes(env, done), PartWritten(env, last, streamAvailable, from + FormOps(env, done)),
                     PartBytes(env, last));
        PrefixAppend(FormEvents(env, done), PartProgress(env, last, streamAvailable, from + FormOps(env, done)),
                     PartEvents(env, last));
        OpsSucceedSplit(env, from, FormOps(env, done), PartOps(env, last));
      } else {
        PartsFailure(env, parts, |done|, streamAvailable, from);
        PrefixTrans(FormWritten(env, done, streamAvailable, from), FormBytes(env, done), FormBytes(env, parts));
        PrefixTrans(FormProgress(env, done, streamAvailable, from), FormEvents(env, done), FormEvents(env, parts));
      }
    }
  }

  // ---------------------------------------------------------------------------------------
  // What a send that stops early leaves behind
  // ---------------------------------------------------------------------------------------

  /**
   * How many chunks the upload loop, starting at operation `from`, reads, writes, flushes and
   * reports before it stops: all of them, or those before the first failed read, write or flush.
   */
  function StreamStop(env: Transport, steps: seq<ReadStep>, from: nat): (r: nat)
    ensures r <= |steps|
  {
    if steps == [] || !(steps[0].Bytes? && OpsSucceed(env, from, 2)) then 0
    else 1 + StreamStop(env, steps[1..], from + 2)
  }

  /**
   * The loop stops at the first chunk whose read, write or flush fails: every chunk before it
   * was read and its two operations succeeded, and the chunk it stops at, if any, was not.
   */
  lemma {:induction false} StreamStopIsFirstFailure(env: Transport, steps: seq<ReadStep>, from: nat)
    ensures var r := StreamStop(env, steps, from);
            && (forall j :: 0 <= j < r ==> steps[j].Bytes?)
            && OpsSucceed(env, from, 2 * r)
            && (r < |steps| ==> !(steps[r].Bytes? && OpsSucceed(env, from + 2 * r, 2)))
    decreases |steps|
  {
    if steps != [] && steps[0].Bytes? && OpsSucceed(env, from, 2) {
      var rest := steps[1..];
      StreamStopIsFirstFailure(env, rest, from + 2);
      var r := StreamStop(env, rest, from + 2);
      forall j | 0 <= j < r + 1
        ensures steps[j].Bytes?
      {
        if j > 0 {
          assert steps[j] == rest[j - 1];
        }
      }
      OpsSucceedJoin(env, from, 2, 2 * r);
      if r < |rest| {
        assert steps[r + 1] == rest[r];
      }
    }
  }

  /**
   * Conversely, when every chunk before `i` went through and chunk `i` fails, the upload loop
   * stops at `i`.
   */
  lemma {:induction false} StreamStopsAt(env: Transport, steps: seq<ReadStep>, i: nat, from: nat)
    requires i < |steps| && (forall j :: 0 <= j < i ==> steps[j].Bytes?) && OpsSucceed(env, from, 2 * i)
    requires !(steps[i].Bytes? && OpsSucceed(env, from + 2 * i, 2))
    ensures StreamStop(env, steps, from) == i
    decreases i
  {
    if i > 0 {
      OpsSucceedWithin(env, from, 2 * i, from, 2);
      OpsSucceedWithin(env, from, 2 * i, from + 2, 2 * (i - 1));
      var rest := steps[1..];
      forall j | 0 <= j < i - 1
        ensures rest[j].Bytes?
      {
        assert rest[j] == steps[j + 1];
      }
      assert rest[i - 1] == steps[i];
      StreamStopsAt(env, rest, i - 1, from + 2);
    }
  }

  /**
   * The upload loop stopped early between `start` and `now`: the progress events of the chunks
   * before the one it stopped at, and their writes, with that chunk's if its write went through
   * before its flush failed.
   */
  ghost predicate StreamStopped(env: Transport, start: Snapshot, now: Snapshot, path: string, total: int,
                                steps: seq<ReadStep>)
  {
    var r := StreamStop(env, steps, start.opCount);
    && r < |steps|
    && now.events == start.events + ProgressEvents(path, total, Chunks(steps)[..r])
    && now.writes == start.writes
         + Chunks(steps)[..if steps[r].Bytes? && start.opCount + 2 * r !in env.failingOps then r + 1 else r]
  }

  /**
   * The chunks before `i` streamed, then chunk `i` failing, leave the upload loop's failure
   * state: the earlier chunks' progress events, and their writes with chunk `i`'s if its write
   * went through.
   */
  lemma StreamFailed(env: Transport, start: Snapshot, mid: Snapshot, now: Snapshot, path: string, total: int,
                     steps: seq<ReadStep>, i: nat, unreported: bool)
    requires i < |steps| && (forall j :: 0 <= j < i ==> steps[j].Bytes?)
    requires Streamed(env, start, mid, path, total, Chunks(steps)[..i])
    requires !(steps[i].Bytes? && OpsSucceed(env, mid.opCount, 2))
    requires unreported == (steps[i].Bytes? && mid.opCount !in env.failingOps)
    requires now.events == mid.events && now.writes == mid.writes + if unreported then [steps[i].data] else []
    ensures !((forall j :: 0 <= j < |steps| ==> steps[j].Bytes?) && OpsSucceed(env, start.opCount, 2 * |steps|))
    ensures StreamStopped(env, start, now, path, total, steps)
  {
    assert |Chunks(steps)[..i]| == i;
    StreamStopsAt(env, steps, i, start.opCount);
    OpsSucceedWithin(env, start.opCount, 2 * |steps|, mid.opCount, 2);
    if unreported {
      ChunkOfStep(steps, i);
      assert Chunks(steps)[..i + 1] == Chunks(steps)[..i] + [steps[i].data];
    }
  }

  /** Whether `writeContent` reaches its upload loop: the stream is there, the first flush succeeds and the file opens. */
  predicate UploadStarts(env: Transport, path: string, streamAvailable: bool, from: nat)
  {
    streamAvailable && from !in env.failingOps && FileAt(env, path).opens
  }

  /**
   * The chunks `writeContent`, starting at operation `from`, writes: none unless its upload
   * loop starts; then those the loop reports, and the one it stops at if that chunk's write
   * went through before its flush failed.
   */
  function FileWrites(env: Transport, path: string, streamAvailable: bool, from: nat): seq<seq<byte>>
  {
    var steps := FileAt(env, path).steps;
    var r := StreamStop(env, steps, from + 1);
    if !UploadStarts(env, path, streamAvailable, from) then []
    else if r < |steps| && steps[r].Bytes? && from + 1 + 2 * r !in env.failingOps then Chunks(steps)[..r + 1]
    else Chunks(steps)[..r]
  }

  /** The progress events `writeContent`, starting at operation `from`, emits: one per chunk the loop reports. */
  function FileProgress(env: Transport, path: string, streamAvailable: bool, from: nat): seq<Event>
  {
    var f := FileAt(env, path);
    if !UploadStarts(env, path, streamAvailable, from) then []
    else ProgressEvents(path, f.length, Chunks(f.steps)[..StreamStop(env, f.steps, from + 1)])
  }

  /** The bytes `sendRequestData` (without closing) writes from operation `from`: the body, or nothing if its write fails. */
  function DataWritten(env: Transport, body: seq<byte>, streamAvailable: bool, from: nat): seq<byte>
  {
    if streamAvailable && from !in env.failingOps then body else []
  }

  /** Whether a part's text or file goes through from operation `from`. */
  predicate ContentGoesThrough(env: Transport, content: PartContent, from: nat)
  {
    PartReadable(env, Part([], content, [])) && OpsSucceed(env, from, ContentOps(env, content))
  }

  /** The bytes a part's text or file writes on the open stream from operation `from`. */
  function ContentWritten(env: Transport, content: PartContent, from: nat): seq<byte>
  {
    match content
    case TextContent(value) => DataWritten(env, value, true, from)
    case FileContent(path) => Flatten(FileWrites(env, path, true, from))
  }

  /** The progress events a part's text or file emits from operation `from`. */
  function ContentProgress(env: Transport, content: PartContent, from: nat): seq<Event>
  {
    match content
    case TextContent(_) => []
    case FileContent(path) => FileProgress(env, path, true, from)
  }

  /** The bytes a part's content and trailing framing write from operation `from`: the framing only once the content went through. */
  function RestWritten(env: Transport, part: Part, from: nat): seq<byte>
  {
    if ContentGoesThrough(env, part.content, from)
    then ContentBytes(env, part.content) + DataWritten(env, part.post, true, from + ContentOps(env, part.content))
    else ContentWritten(env, part.content, from)
  }

  function RestProgress(env: Transport, part: Part, from: nat): seq<Event>
  {
    if ContentGoesThrough(env, part.content, from) then PartEvents(env, part)
    else ContentProgress(env, part.content, from)
  }

  /** The bytes one part writes from operation `from`: the leading framing, then the rest once that framing went through. */
  function PartWritten(env: Transport, part: Part, streamAvailable: bool, from: nat): seq<byte>
  {
    if streamAvailable && OpsSucceed(env, from, 2) then part.pre + RestWritten(env, part, from + 2)
    else DataWritten(env, part.pre, streamAvailable, from)
  }

  /** The progress events one part emits from operation `from`. */
  function PartProgress(env: Transport, part: Part, streamAvailable: bool, from: nat): seq<Event>
  {
    if streamAvailable && OpsSucceed(env, from, 2) then RestProgress(env, part, from + 2) else []
  }

  /** The rest of a part goes through when its text or file does and then its trailing framing. */
  lemma RestGoesThrough(env: Transport, part: Part, from: nat)
    ensures (PartReadable(env, part) && OpsSucceed(env, from, PartOps(env, part) - 2))
            == (ContentGoesThrough(env, part.content, from) && OpsSucceed(env, from + ContentOps(env, part.content), 2))
  {
    OpsSucceedSplit(env, from, ContentOps(env, part.content), 2);
  }

  /** A part goes through when its leading framing does and then its rest. */
  lemma PartGoesThrough(env: Transport, part: Part, from: nat)
    ensures (PartReadable(env, part) && OpsSucceed(env, from, PartOps(env, part)))
            == (OpsSucceed(env, from, 2) && PartReadable(env, part) && OpsSucceed(env, from + 2, PartOps(env, part) - 2))
  {
    OpsSucceedSplit(env, from, 2, PartOps(env, part) - 2);
  }

  /** A part whose leading framing fails stops there. */
  lemma PartFails(env: Transport, part: Part, streamAvailable: bool, a: Snapshot, b: Snapshot, w: seq<seq<byte>>)
    requires !(streamAvailable && OpsSucceed(env, a.opCount, 2))
    requires StepBetween(a, b, false, 2, part.pre, [], DataWritten(env, part.pre, streamAvailable, a.opCount), [], w, [])
    ensures StepBetween(a, b, false, PartOps(env, part), PartBytes(env, part), PartEvents(env, part),
                        PartWritten(env, part, streamAvailable, a.opCount), PartProgress(env, part, streamAvailable, a.opCount), w, [])
  {
  }

  /** A part whose text or file fails stops there, before its trailing framing. */
  lemma RestFails(env: Transport, part: Part, a: Snapshot, b: Snapshot, w: seq<seq<byte>>, p: seq<Event>)
    requires !ContentGoesThrough(env, part.content, a.opCount)
    requires StepBetween(a, b, false, ContentOps(env, part.content), ContentBytes(env, part.content),
                         PartEvents(env, Part([], part.content, [])),
                         ContentWritten(env, part.content, a.opCount), ContentProgress(env, part.content, a.opCount), w, p)
    ensures StepBetween(a, b, false, PartOps(env, part) - 2, ContentBytes(env, part.content) + part.post, PartEvents(env, part),
                        RestWritten(env, part, a.opCount), RestProgress(env, part, a.opCount), w, p)
  {
  }

  /** A part's text or file that went through, then its trailing framing, make the step of the part's rest. */
  lemma RestStep(env: Transport, part: Part, streamAvailable: bool, a: Snapshot, b: Snapshot, c: Snapshot,
                 ok: bool, w1: seq<seq<byte>>, p1: seq<Event>, w2: seq<seq<byte>>)
    requires streamAvailable && ContentGoesThrough(env, part.content, a.opCount)
    requires StepBetween(a, b, true, ContentOps(env, part.content), ContentBytes(env, part.content),
                         PartEvents(env, Part([], part.content, [])),
                         ContentWritten(env, part.content, a.opCount), ContentProgress(env, part.content, a.opCount), w1, p1)
    requires StepBetween(b, c, ok, 2, part.post, [], DataWritten(env, part.post, streamAvailable, b.opCount), [], w2, [])
    ensures StepBetween(a, c, ok, PartOps(env, part) - 2, ContentBytes(env, part.content) + part.post, PartEvents(env, part),
                        RestWritten(env, part, a.opCount), RestProgress(env, part, a.opCount),
                        w1 + w2, PartEvents(env, Part([], part.content, [])) + [])
  {
    var contentEvents := PartEvents(env, Part([], part.content, []));
    assert PartEvents(env, part) == contentEvents + [];
    ProgressEventsOfPart(env, Part([], part.content, []));
    ComposeSteps(a, b, c, ContentOps(env, part.content), ContentBytes(env, part.content), contentEvents,
                 ContentWritten(env, part.content, a.opCount), ContentProgress(env, part.content, a.opCount), w1, p1,
                 ok, 2, part.post, [], DataWritten(env, part.post, true, b.opCount), [], w2, [],
                 PartOps(env, part) - 2, ContentBytes(env, part.content) + part.post, PartEvents(env, part),
                 RestWritten(env, part, a.opCount), RestProgress(env, part, a.opCount));
  }

  /** Once a part's leading framing went through, the part writes and shows what its rest does. */
  lemma PartAfterFraming(env: Transport, part: Part, streamAvailable: bool, from: nat)
    requires streamAvailable && OpsSucceed(env, from, 2)
    ensures PartWritten(env, part, streamAvailable, from) == part.pre + RestWritten(env, part, from + 2)
    ensures PartProgress(env, part, streamAvailable, from) == [] + RestProgress(env, part, from + 2)
  {
  }

  /** A part's leading framing that went through, then the rest of the part, make the part's step. */
  lemma PartStep(env: Transport, part: Part, streamAvailable: bool, a: Snapshot, b: Snapshot, c: Snapshot,
                 ok: bool, w1: seq<seq<byte>>, w2: seq<seq<byte>>, p2: seq<Event>)
    requires streamAvailable && OpsSucceed(env, a.opCount, 2)
    requires StepBetween(a, b, true, 2, part.pre, [], DataWritten(env, part.pre, streamAvailable, a.opCount), [], w1, [])
    requires StepBetween(b, c, ok, PartOps(env, part) - 2, ContentBytes(env, part.content) + part.post, PartEvents(env, part),
                         RestWritten(env, part, b.opCount), RestProgress(env, part, b.opCount), w2, p2)
    ensures StepBetween(a, c, ok, PartOps(env, part), PartBytes(env, part), PartEvents(env, part),
                        PartWritten(env, part, streamAvailable, a.opCount), PartProgress(env, part, streamAvailable, a.opCount),
                        w1 + w2, [] + p2)
  {
    assert PartBytes(env, part) == part.pre + (ContentBytes(env, part.content) + part.post);
    assert [] + PartEvents(env, part) == PartEvents(env, part);
    PartAfterFraming(env, part, streamAvailable, a.opCount);
    ComposeSteps(a, b, c, 2, part.pre, [], DataWritten(env, part.pre, streamAvailable, a.opCount), [], w1, [],
                 ok, PartOps(env, part) - 2, ContentBytes(env, part.content) + part.post, PartEvents(env, part),
                 RestWritten(env, part, b.opCount), RestProgress(env, part, b.opCount), w2, p2,
                 PartOps(env, part), PartBytes(env, part), PartEvents(env, part),
                 PartWritten(env, part, streamAvailable, a.opCount), PartProgress(env, part, streamAvailable, a.opCount));
  }

  /**
   * The bytes the parts loop writes from operation `from`: every part's bytes while they go
   * through, then what the part that fails writes; nothing after it.
   */
  function FormWritten(env: Transport, parts: seq<Part>, streamAvailable: bool, from: nat): seq<byte>
    decreases |parts|
  {
    if parts == [] then []
    else
      var done, last := parts[..|parts| - 1], parts[|parts| - 1];
      if !PartsGoThrough(env, done, streamAvailable, from) then FormWritten(env, done, streamAvailable, from)
      else FormBytes(env, done) + PartWritten(env, last, streamAvailable, from + FormOps(env, done))
  }

  /** The progress events the parts loop emits from operation `from`, in the same way. */
  function FormProgress(env: Transport, parts: seq<Part>, streamAvailable: bool, from: nat): seq<Event>
    decreases |parts|
  {
    if parts == [] then []
    else
      var done, last := parts[..|parts| - 1], parts[|parts| - 1];
      if !PartsGoThrough(env, done, streamAvailable, from) then FormProgress(env, done, streamAvailable, from)
      else FormEvents(env, done) + PartProgress(env, last, streamAvailable, from + FormOps(env, done))
  }

  /** The parts in `done` went through between `start` and `now`: their bytes, events, files and operations. */
  ghost predicate PartsSent(env: Transport, start: Snapshot, now: Snapshot, done: seq<Part>, written: seq<seq<byte>>)
  {
    && now.writes == start.writes + written
    && Flatten(written) == FormBytes(env, done)
    && now.events == start.events + FormEvents(env, done)
    && now.fileNumber == start.fileNumber + FileCount(done)
    && now.opCount == start.opCount + FormOps(env, done)
    && OpsSucceed(env, start.opCount, FormOps(env, done))
    && FormReadable(env, done)
    && now.error == start.error && now.closed == start.closed
  }

  /**
   * The parts loop stopped early between `start` and `now`: UNKNOWN after the progress events
   * reported before the failing operation, the bytes written before it, and the files up to
   * the failing part counted.
   */
  ghost predicate PartsFailed(env: Transport, start: Snapshot, now: Snapshot, streamOk: bool, parts: seq<Part>,
                              written: seq<seq<byte>>, progress: seq<Event>)
  {
    && !PartsGoThrough(env, parts, streamOk, start.opCount)
    && now.error == Some(Unknown) && now.closed == start.closed && now.opCount >= start.opCount
    && now.writes == start.writes + written
    && Flatten(written) == FormWritten(env, parts, streamOk, start.opCount)
    && now.events == start.events + progress + [ErrorEvent(Unknown)]
    && OnlyProgress(progress)
    && progress == FormProgress(env, parts, streamOk, start.opCount)
    && now.fileNumber == start.fileNumber + FilesReached(env, parts, streamOk, start.opCount)
  }

  /** How the parts loop between `start` and `now` ended: every part sent, or the failure state. */
  ghost predicate PartsEnded(env: Transport, start: Snapshot, now: Snapshot, streamOk: bool, parts: seq<Part>,
                             written: seq<seq<byte>>, progress: seq<Event>)
  {
    var through := PartsGoThrough(env, parts, streamOk, start.opCount);
    && (through ==> PartsSent(env, start, now, parts, written))
    && (!through ==> PartsFailed(env, start, now, streamOk, parts, written, progress))
  }

  /** Parts that were all sent, the stream there when there was one, went through. */
  lemma PartsAllSent(env: Transport, start: Snapshot, now: Snapshot, streamOk: bool, parts: seq<Part>,
                     written: seq<seq<byte>>, progress: seq<Event>)
    requires PartsSent(env, start, now, parts, written) && (parts != [] ==> streamOk)
    ensures PartsEnded(env, start, now, streamOk, parts, written, progress)
  {
  }

  /** Failing within some first parts is failing within all of them. */
  lemma PartsFailedWithin(env: Transport, start: Snapshot, now: Snapshot, streamOk: bool, parts: seq<Part>, k: nat,
                          written: seq<seq<byte>>, progress: seq<Event>)
    requires 0 < k <= |parts| && PartsFailed(env, start, now, streamOk, parts[..k], written, progress)
    ensures PartsFailed(env, start, now, streamOk, parts, written, progress)
    ensures PartsEnded(env, start, now, streamOk, parts, written, progress)
  {
    PartsFailure(env, parts, k, streamOk, start.opCount);
    FormStopsAtFailure(env, parts, k, streamOk, start.opCount);
  }

  /** One more part that goes through extends the parts sent. */
  lemma NextPartSent(env: Transport, start: Snapshot, mid: Snapshot, now: Snapshot, streamOk: bool, done: seq<Part>,
                     part: Part, written: seq<seq<byte>>, w: seq<seq<byte>>)
    requires PartsSent(env, start, mid, done, written)
    requires streamOk && PartReadable(env, part) && OpsSucceed(env, mid.opCount, PartOps(env, part))
    requires StepBetween(mid, now, true, PartOps(env, part), PartBytes(env, part), PartEvents(env, part),
                         PartWritten(env, part, streamOk, mid.opCount), PartProgress(env, part, streamOk, mid.opCount), w, [])
    requires now.fileNumber == mid.fileNumber + if part.content.FileContent? then 1 else 0
    ensures PartsSent(env, start, now, done + [part], written + w)
  {
    FlattenConcat(written, w);
    FormStep(env, done, part);
    ConcatAssoc(start.writes, written, w);
    ConcatAssoc(start.events, FormEvents(env, done), PartEvents(env, part));
    OpsSucceedJoin(env, start.opCount, FormOps(env, done), PartOps(env, part));
  }

  /** One more part that fails turns the parts sent into parts that failed. */
  lemma NextPartFailed(env: Transport, start: Snapshot, mid: Snapshot, now: Snapshot, streamOk: bool, done: seq<Part>,
                       part: Part, written: seq<seq<byte>>, w: seq<seq<byte>>, p: seq<Event>)
    requires PartsSent(env, start, mid, done, written) && (done != [] ==> streamOk)
    requires !(streamOk && PartReadable(env, part) && OpsSucceed(env, mid.opCount, PartOps(env, part)))
    requires StepBetween(mid, now, false, PartOps(env, part), PartBytes(env, part), PartEvents(env, part),
                         PartWritten(env, part, streamOk, mid.opCount), PartProgress(env, part, streamOk, mid.opCount), w, p)
    requires now.fileNumber == mid.fileNumber
               + if part.content.FileContent? && streamOk && OpsSucceed(env, mid.opCount, 2) then 1 else 0
    ensures PartsFailed(env, start, now, streamOk, done + [part], written + w, FormEvents(env, done) + p)
  {
    var parts := done + [part];
    assert parts[..|done|] == done && parts[|done|] == part;
    assert PartsGoThrough(env, done, streamOk, start.opCount);
    FlattenConcat(written, w);
    FormStep(env, done, part);
    ConcatAssoc(start.writes, written, w);
    ConcatAssoc(start.events, FormEvents(env, done), p);
    OpsSucceedWithin(env, start.opCount, FormOps(env, parts), mid.opCount, PartOps(env, part));
    FormEventsAreProgress(env, done);
    ProgressConcat(FormEvents(env, done), p);
  }

  lemma ProgressConcat(a: seq<Event>, b: seq<Event>)
    requires OnlyProgress(a) && OnlyProgress(b)
    ensures OnlyProgress(a + b)
  {
    forall i | 0 <= i < |a + b|
      ensures (a + b)[i].UploadProgress?
    {
      if i >= |a| {
        assert (a + b)[i] == b[i - |a|];
      }
    }
  }

  /** The closing line written, or not, is the bytes `sendRequestData` writes for it. */
  lemma FinishWritten(env: Transport, streamAvailable: bool, from: nat, extra: seq<seq<byte>>)
    requires extra == if streamAvailable && from !in env.failingOps then [FinishLine] else []
    ensures Flatten(extra) == DataWritten(env, FinishLine, streamAvailable, from)
  {
    FlattenAppendOne([], FinishLine);
    assert [] + [FinishLine] == [FinishLine];
  }

  /**
   * What the multipart body leaves behind, from `b` to `n`: the parts as the parts loop
   * leaves them, then, if they went through, the closing line (closing the stream when it goes
   * through) and the response; UNKNOWN otherwise.
   */
  ghost predicate FormBodyOutcome(env: Transport, parts: seq<Part>, b: Snapshot, n: Snapshot, written: seq<seq<byte>>,
                                  progress: seq<Event>)
  {
    var through := PartsGoThrough(env, parts, b.streamAvailable, b.opCount);
    var finished := FormGoesThrough(env, parts, b.streamAvailable, b.opCount);
    && n.writes == b.writes + written
    && OnlyProgress(progress)
    && (through ==> && progress == FormEvents(env, parts)
                    && n.fileNumber == b.fileNumber + FileCount(parts)
                    && Flatten(written) == FormBytes(env, parts)
                         + DataWritten(env, FinishLine, b.streamAvailable, b.opCount + FormOps(env, parts)))
    && (!through ==> && progress == FormProgress(env, parts, b.streamAvailable, b.opCount)
                     && Flatten(written) == FormWritten(env, parts, b.streamAvailable, b.opCount)
                     && n.fileNumber == b.fileNumber + FilesReached(env, parts, b.streamAvailable, b.opCount))
    && (finished ==>
          && Flatten(written) == FormBytes(env, parts) + FinishLine && n.closed
          && n.responseText == ResponseTextAfter(env, b.responseText)
          && n.status == StatusAfter(env, b.status)
          && n.statusText == StatusTextAfter(env, b.statusText)
          && n.error == if ResponseSource(env).failsAtEnd || !StatusReadable(env) then Some(Unknown) else b.error)
    && (!finished ==>
          && n.closed == b.closed
          && n.responseText == b.responseText && n.status == b.status && n.statusText == b.statusText
          && n.error == Some(Unknown))
  }

  /** What the closing line and the response leave behind, from `m` to `n`. */
  ghost predicate FinishOutcome(env: Transport, m: Snapshot, n: Snapshot, finished: bool, extra: seq<seq<byte>>)
  {
    && finished == (m.streamAvailable && OpsSucceed(env, m.opCount, 3))
    && n.writes == m.writes + extra
    && extra == (if m.streamAvailable && m.opCount !in env.failingOps then [FinishLine] else [])
    && n.closed == (m.closed || finished)
    && (finished ==>
          && n.responseText == ResponseTextAfter(env, m.responseText)
          && n.status == StatusAfter(env, m.status)
          && n.statusText == StatusTextAfter(env, m.statusText)
          && n.error == if ResponseSource(env).failsAtEnd || !StatusReadable(env) then Some(Unknown) else m.error)
    && (!finished ==>
          && n.responseText == m.responseText && n.status == m.status
          && n.statusText == m.statusText && n.error == Some(Unknown))
  }

  /** The body's outcome does not depend on the events before it. */
  lemma FormBodyOutcomeFrom(env: Transport, parts: seq<Part>, b: Snapshot, b': Snapshot, n: Snapshot,
                            written: seq<seq<byte>>, progress: seq<Event>)
    requires b' == b.(events := b'.events)
    requires FormBodyOutcome(env, parts, b, n, written, progress)
    ensures FormBodyOutcome(env, parts, b', n, written, progress)
  {
  }

  /** Parts that stop early leave the body as they left it: UNKNOWN, no closing line, no response. */
  lemma FormBodyFailed(env: Transport, parts: seq<Part>, b: Snapshot, n: Snapshot, written: seq<seq<byte>>,
                       progress: seq<Event>)
    requires PartsFailed(env, b, n, b.streamAvailable, parts, written, progress)
    requires n.responseText == b.responseText && n.status == b.status && n.statusText == b.statusText
    ensures FormBodyOutcome(env, parts, b, n, written, progress)
  {
  }

  /** Parts that go through, then the closing line and the response, make the whole body. */
  lemma FormBodySent(env: Transport, parts: seq<Part>, b: Snapshot, m: Snapshot, n: Snapshot,
                     written: seq<seq<byte>>, extra: seq<seq<byte>>, finished: bool)
    requires PartsGoThrough(env, parts, b.streamAvailable, b.opCount) && PartsSent(env, b, m, parts, written)
    requires m.streamAvailable == b.streamAvailable
    requires m.responseText == b.responseText && m.status == b.status && m.statusText == b.statusText
    requires FinishOutcome(env, m, n, finished, extra) && n.fileNumber == m.fileNumber
    ensures FormBodyOutcome(env, parts, b, n, written + extra, FormEvents(env, parts))
  {
    FormEventsAreProgress(env, parts);
    FlattenConcat(written, extra);
    FinishWritten(env, m.streamAvailable, m.opCount, extra);
    ConcatAssoc(b.writes, written, extra);
  }

  // ---------------------------------------------------------------------------------------
  // The request object
  // ---------------------------------------------------------------------------------------

  class BaseHttpRequest {
    const env: Transport
    var url: string
    /** mConnection != null */
    var hasConnection: bool
    /** The Content-Type request property set on the connection. */
    var requestContentType: Option<string>
    /** The fixed-length streaming mode set on the connection. */
    var fixedLength: Option<int>
    /** mOutputStream != null */
    var outputStreamOpen: bool
    /** How many times getOutputStream() has handed out a stream. */
    ghost var outputStreamCalls: nat
    /** The number of output-stream operations attempted so far. */
    var opCount: nat
    /** Every successful write on the output stream, in order. */
    var writes: seq<seq<byte>>
    var closed: bool
    var filesCount: int
    var currentFileNumber: int
    var status: int
    var statusText: Option<string>
    var responseText: Option<string>
    /** mError, kept by EventCentral. */
    var error: Option<ErrorCode>
    var events: seq<Event>

    ghost predicate Valid()
      reads this
    {
      && -0x8000 <= status < 0x8000
      && outputStreamCalls == (if outputStreamOpen then 1 else 0)
    }

    /** EventCentral's rule for `mError`: the code of the last error emitted, if any. */
    ghost predicate ErrorRecorded()
      reads this
    {
      error == ErrorAfter(None, events)
    }

    /** `hasError()`: an error code is recorded, which is exactly when an error has been emitted. */
    predicate HasError()
      reads this
      ensures ErrorRecorded() ==> (HasError() <==> exists i :: 0 <= i < |events| && events[i].ErrorEvent?)
    {
      ErrorAfterSome(None, events);
      error.Some?
    }

    /** The output stream is, or can be, obtained. */
    predicate StreamAvailable()
      reads this
    {
      outputStreamOpen || !env.outputStreamFails
    }

    constructor (env: Transport)
      ensures Valid() && this.env == env
      ensures !hasConnection && !outputStreamOpen && !closed && opCount == 0 && writes == []
      ensures requestContentType.None? && fixedLength.None?
      ensures filesCount == 0 && currentFileNumber == 0 && status == 0
      ensures statusText.None? && responseText.None? && error.None? && events == []
      ensures ErrorRecorded()
    {
      this.env := env;
      url := "";
      hasConnection, outputStreamOpen, closed := false, false, false;
      outputStreamCalls, opCount, writes := 0, 0, [];
      requestContentType, fixedLength := None, None;
      filesCount, currentFileNumber, status := 0, 0, 0;
      statusText, responseText := None, None;
      error, events := None, [];
    }

    // ----- EventCentral -----

    method EmitOnReadyStateChange(state: ReadyState)
      requires Valid()
      modifies this`events
      ensures Valid()
      ensures events == old(events) + [StateChange(state)]
    {
      events := events + [StateChange(state)];
    }

    method EmitOnError(code: ErrorCode)
      requires Valid()
      modifies this`events, this`error
      ensures Valid()
      ensures events == old(events) + [ErrorEvent(code)] && error == Some(code)
    {
      events := events + [ErrorEvent(code)];
      error := Some(code);
    }

    method EmitOnFileUploadProgress(file: string, uploaded: int, total: int)
      modifies this`events
      ensures events == old(events) + [UploadProgress(file, uploaded, total)]
    {
      events := events + [UploadProgress(file, uploaded, total)];
    }

    // ----- The output stream -----

    /** The lazy `mOutputStream = mConnection.getOutputStream()`, done at most once. */
    method ObtainOutputStream() returns (ok: bool)
      requires Valid() && hasConnection
      modifies this`outputStreamOpen, this`outputStreamCalls
      ensures Valid()
      ensures ok == old(StreamAvailable()) && outputStreamOpen == ok
    {
      if !outputStreamOpen {
        if env.outputStreamFails {
          return false;
        }
        outputStreamOpen := true;
        outputStreamCalls := outputStreamCalls + 1;
      }
      return true;
    }

    method Write(data: seq<byte>) returns (ok: bool)
      modifies this`opCount, this`writes
      ensures ok == (old(opCount) !in env.failingOps) && opCount == old(opCount) + 1
      ensures writes == if ok then old(writes) + [data] else old(writes)
    {
      ok := opCount !in env.failingOps;
      opCount := opCount + 1;
      if ok {
        writes := writes + [data];
      }
    }

    method Flush() returns (ok: bool)
      modifies this`opCount
      ensures ok == (old(opCount) !in env.failingOps) && opCount == old(opCount) + 1
    {
      ok := opCount !in env.failingOps;
      opCount := opCount + 1;
    }

    method Close() returns (ok: bool)
      modifies this`opCount, this`closed
      ensures ok == (old(opCount) !in env.failingOps) && opCount == old(opCount) + 1
      ensures closed == (old(closed) || ok)
    {
      ok := opCount !in env.failingOps;
      opCount := opCount + 1;
      if ok {
        closed := true;
      }
    }

    // ----- Opening and connecting -----

    /**
     * `setupConnection`: OPENED on success; otherwise the error is classified (malformed URL,
     * rejected method, anything else UNKNOWN) and no state change is emitted.
     */
    method SetupConnection(verb: string, url: string)
      requires Valid() && ErrorRecorded()
      modifies this`url, this`hasConnection, this`events, this`error
      ensures Valid() && ErrorRecorded() && this.url == url
      ensures hasConnection == (old(hasConnection) || env.open.OpenOk? || env.open.MethodRejected?)
      ensures events == old(events) + match env.open
        case OpenOk => [StateChange(Opened)]
        case MalformedUrl => [ErrorEvent(InvalidUrl)]
        case OpenIOFailure => [ErrorEvent(Unknown)]
        case MethodRejected => [ErrorEvent(InvalidRequestMethod)]
      ensures error == match env.open
        case OpenOk => old(error)
        case MalformedUrl => Some(InvalidUrl)
        case OpenIOFailure => Some(Unknown)
        case MethodRejected => Some(InvalidRequestMethod)
    {
      this.url := url;
      match env.open
      case OpenOk =>
        hasConnection := true;
        EmitOnReadyStateChange(Opened);
      case MalformedUrl =>
        EmitOnError(InvalidUrl);
      case OpenIOFailure =>
        EmitOnError(Unknown);
      case MethodRejected =>
        // openConnection succeeded before setRequestMethod threw
        hasConnection := true;
        EmitOnError(InvalidRequestMethod);
      assert events[..|events| - 1] == old(events);
    }

    /**
     * `establishConnection`: true and OPENED again on success. On failure false, and an error
     * only for a refused connection (by the text of the message) or a failed TLS handshake.
     */
    method EstablishConnection() returns (ok: bool)
      requires Valid() && hasConnection
      modifies this`events, this`error
      ensures Valid()
      ensures ok == env.connect.ConnectOk?
      ensures ok ==> events == old(events) + [StateChange(Opened)]
      ensures !ok ==> events == old(events) + ConnectErrors(env.connect)
      ensures ok ==> error == old(error)
      ensures error == ErrorAfter(old(error), ConnectErrors(env.connect))
    {
      match env.connect
      case ConnectOk =>
        EmitOnReadyStateChange(Opened);
        return true;
      case ConnectExceptionThrown(message) =>
        if message.Some? && Contains(message.value, "ECONNREFUSED") {
          EmitOnError(ConnectionRefused);
        }
        return false;
      case SslHandshakeExceptionThrown =>
        EmitOnError(SslCertificateInvalid);
        return false;
      case OtherIOExceptionThrown =>
        return false;
    }

    // ----- Sending -----

    /**
     * `sendRequestData`: write the bytes, flush, and when asked close the stream and emit
     * HEADERS_RECEIVED. Any IOException emits UNKNOWN and gives false.
     */
    method SendRequestData(body: seq<byte>, closeOnDone: bool) returns (ok: bool)
      requires Valid() && hasConnection
      modifies this`events, this`error, this`outputStreamOpen, this`outputStreamCalls,
               this`opCount, this`writes, this`closed
      ensures Valid()
      ensures outputStreamOpen == old(StreamAvailable())
      ensures ok == (old(StreamAvailable()) && OpsSucceed(env, old(opCount), if closeOnDone then 3 else 2))
      ensures ok ==> opCount == old(opCount) + (if closeOnDone then 3 else 2)
      ensures opCount >= old(opCount)
      ensures writes == if old(StreamAvailable()) && old(opCount) !in env.failingOps
                        then old(writes) + [body] else old(writes)
      ensures closed == (old(closed) || (ok && closeOnDone))
      ensures ok ==> error == old(error)
      ensures ok ==> events == old(events) + if closeOnDone then [StateChange(HeadersReceived)] else []
      ensures !ok ==> events == old(events) + [ErrorEvent(Unknown)] && error == Some(Unknown)
      ensures !closeOnDone ==>
                StepBetween(old(Current()), Current(), ok, 2, body, [],
                            DataWritten(env, body, old(StreamAvailable()), old(opCount)), [],
                            if old(StreamAvailable()) && old(opCount) !in env.failingOps then [body] else [], [])
    {
      FlattenAppendOne([], body);
      ok := ObtainOutputStream();
      if ok {
        ok := Write(body);
        if ok {
          ok := Flush();
          if ok && closeOnDone {
            ok := Close();
            if ok {
              EmitOnReadyStateChange(HeadersReceived);
            }
          }
        }
      }
      if !ok {
        EmitOnError(Unknown);
      }
    }

    /**
     * One turn of the loop in `writeContent`: write the chunk, flush, and emit the progress
     * event with the new cumulative count. `written` tells whether the write went through.
     */
    method SendChunk(path: string, data: seq<byte>, uploaded: int, total: int)
      returns (ok: bool, ghost written: bool)
      modifies this`events, this`opCount, this`writes
      ensures ok == OpsSucceed(env, old(opCount), 2)
      ensures written == (old(opCount) !in env.failingOps)
      ensures opCount == old(opCount) + (if written then 2 else 1)
      ensures writes == if written then old(writes) + [data] else old(writes)
      ensures ok ==> written && events == old(events) + [UploadProgress(path, uploaded + |data|, total)]
      ensures !ok ==> events == old(events)
    {
      var wrote := Write(data);
      written := wrote;
      if !wrote {
        return false, written;
      }
      ok := Flush();
      if ok {
        EmitOnFileUploadProgress(path, uploaded + |data|, total);
      }
    }

    /**
     * The read-write-flush loop of `writeContent`, after the stream is obtained, flushed, and
     * the file opened: each chunk read is written and flushed, then `uploaded` grows by its
     * size and a progress event with the file's length is emitted. Stops at the first failure.
     */
    method StreamChunks(path: string, steps: seq<ReadStep>, total: int) returns (ok: bool)
      modifies this`events, this`opCount, this`writes
      ensures opCount >= old(opCount)
      ensures ok == ((forall i :: 0 <= i < |steps| ==> steps[i].Bytes?) && OpsSucceed(env, old(opCount), 2 * |steps|))
      ensures ok ==> Streamed(env, old(Current()), Current(), path, total, Chunks(steps))
      ensures !ok ==> StreamStopped(env, old(Current()), Current(), path, total, steps)
    {
      ghost var start := Current();
      ghost var chunks := Chunks(steps);
      var uploaded := 0;
      var i := 0;
      while i < |steps|
        invariant 0 <= i <= |steps|
        invariant forall j :: 0 <= j < i ==> steps[j].Bytes?
        invariant uploaded == |Flatten(chunks[..i])|
        invariant Streamed(env, start, Current(), path, total, chunks[..i])
      {
        ChunkOfStep(steps, i);
        ghost var mid := Current();
        ghost var unreported;
        ok, unreported := StreamNext(path, steps[i], uploaded, total, start, chunks[..i]);
        if !ok {
          StreamFailed(env, start, mid, Current(), path, total, steps, i, unreported);
          return;
        }
        assert chunks[..i + 1] == chunks[..i] + [steps[i].data];
        uploaded := uploaded + |steps[i].data|;
        i := i + 1;
      }
      assert chunks[..i] == chunks;
      ok := true;
    }

    /** One turn of the upload loop: the read, then the chunk it delivered sent and reported. */
    method StreamNext(path: string, step: ReadStep, uploaded: int, total: int, ghost start: Snapshot,
                      ghost sent: seq<seq<byte>>)
      returns (ok: bool, ghost unreported: bool)
      requires Streamed(env, start, Current(), path, total, sent) && uploaded == |Flatten(sent)|
      modifies this`events, this`opCount, this`writes
      ensures ok == (step.Bytes? && OpsSucceed(env, old(opCount), 2))
      ensures opCount >= old(opCount)
      ensures ok ==> && Streamed(env, start, Current(), path, total, sent + [step.data])
                     && |Flatten(sent + [step.data])| == uploaded + |step.data|
      ensures !ok ==> && events == old(events) && unreported == (step.Bytes? && old(opCount) !in env.failingOps)
                      && writes == old(writes) + if unreported then [step.data] else []
    {
      if step.ReadFailure? {
        return false, false;
      }
      ghost var mid := Current();
      ok, unreported := SendChunk(path, step.data, uploaded, total);
      if ok {
        StreamedStep(env, start, mid, Current(), path, total, sent, step.data);
      }
    }

    /**
     * `writeContent`: stream one file in the chunks its reads return, flushing after each and
     * emitting the cumulative byte count with the file's length. Any IOException (no stream,
     * missing file, failed read, write or flush) emits UNKNOWN and gives false.
     */
    method WriteContent(path: string) returns (ok: bool)
      requires Valid() && hasConnection
      modifies this`events, this`error, this`outputStreamOpen, this`outputStreamCalls,
               this`opCount, this`writes
      ensures Valid()
      ensures outputStreamOpen == old(StreamAvailable())
      ensures opCount >= old(opCount)
      ensures ok == (old(StreamAvailable()) && FileReadable(FileAt(env, path))
                     && OpsSucceed(env, old(opCount), 1 + 2 * |FileAt(env, path).steps|))
      ensures ok ==> opCount == old(opCount) + 1 + 2 * |FileAt(env, path).steps|
      ensures ok ==> error == old(error)
      ensures ok ==> writes == old(writes) + Chunks(FileAt(env, path).steps)
      ensures ok ==> events == old(events) + PartEvents(env, Part([], FileContent(path), []))
      ensures !ok ==> error == Some(Unknown)
      ensures !ok ==> writes == old(writes) + FileWrites(env, path, old(StreamAvailable()), old(opCount))
      ensures !ok ==> events == old(events) + FileProgress(env, path, old(StreamAvailable()), old(opCount)) + [ErrorEvent(Unknown)]
    {
      var file := FileAt(env, path);
      ok := ObtainOutputStream();
      if !ok {
        EmitOnError(Unknown);
        return;
      }
      ok := Flush();
      if !ok || !file.opens {
        ok := false;
        EmitOnError(Unknown);
        return;
      }
      ok := StreamChunks(path, file.steps, file.length);
      if !ok {
        EmitOnError(Unknown);
      }
    }

    // ----- Receiving -----

    /**
     * `readFromInputStream`: every line read, each followed by '\n', becomes the response
     * text. An IOException while reading emits UNKNOWN and leaves the text as it was.
     */
    method ReadFromInputStream(source: LineSource)
      requires Valid()
      modifies this`responseText, this`events, this`error
      ensures Valid()
      ensures responseText == if source.failsAtEnd then old(responseText) else Some(JoinLines(source.lines))
      ensures events == old(events) + if source.failsAtEnd then [ErrorEvent(Unknown)] else []
      ensures error == if source.failsAtEnd then Some(Unknown) else old(error)
    {
      var output := "";
      var i := 0;
      while i < |source.lines|
        modifies {}
        invariant 0 <= i <= |source.lines|
        invariant output == JoinLines(source.lines[..i])
      {
        JoinLinesAppend(source.lines[..i], source.lines[i]);
        assert source.lines[..i + 1] == source.lines[..i] + [source.lines[i]];
        output := output + source.lines[i] + "\n";
        i := i + 1;
      }
      assert source.lines[..i] == source.lines;
      if source.failsAtEnd {
        EmitOnError(Unknown);
      } else {
        responseText := Some(output);
      }
    }

    /**
     * `assignResponseCodeAndMessage`: the status code, cut to a Java short, then the status
     * message. If either cannot be read, UNKNOWN is emitted and false returned (a code read
     * before the message failed stays assigned).
     */
    method AssignResponseCodeAndMessage() returns (ok: bool)
      requires Valid()
      modifies this`status, this`statusText, this`events, this`error
      ensures Valid()
      ensures ok == StatusReadable(env)
      ensures status == StatusAfter(env, old(status))
      ensures statusText == StatusTextAfter(env, old(statusText))
      ensures ok ==> events == old(events) && error == old(error)
      ensures !ok ==> events == old(events) + [ErrorEvent(Unknown)] && error == Some(Unknown)
    {
      if env.responseCode.None? {
        EmitOnError(Unknown);
        return false;
      }
      status := ToShort(env.responseCode.value);
      if env.responseMessage.MessageFails? {
        EmitOnError(Unknown);
        return false;
      }
      statusText := env.responseMessage.text;
      return true;
    }

    /**
     * `readResponse`: LOADING, then the body from the input stream, or from the error stream
     * when the input stream cannot be obtained; DONE follows whenever the status line is
     * readable, even after a failed body read.
     */
    method ReadResponse()
      requires Valid()
      modifies this`responseText, this`status, this`statusText, this`events, this`error
      ensures Valid()
      ensures events == old(events) + ResponseEvents(env)
      ensures responseText == ResponseTextAfter(env, old(responseText))
      ensures status == StatusAfter(env, old(status))
      ensures statusText == StatusTextAfter(env, old(statusText))
      ensures error == if ResponseSource(env).failsAtEnd || !StatusReadable(env) then Some(Unknown) else old(error)
    {
      EmitOnReadyStateChange(Loading);
      match env.input {
        case Some(input) =>
          ReadFromInputStream(input);
        case None =>
          ReadFromInputStream(env.errorStream);
      }
      var ok := AssignResponseCodeAndMessage();
      if !ok {
        return;
      }
      EmitOnReadyStateChange(Done);
    }

    // ----- The request bodies -----

    /**
     * `sendRequest` with a string body or none: unless an error is already recorded, start the
     * worker (`RunPlain`), which is run to completion here.
     */
    method SendRequest(contentType: string, data: Option<seq<byte>>)
      requires Valid() && ErrorRecorded() && (hasConnection || HasError())
      modifies this`events, this`error, this`requestContentType, this`outputStreamOpen,
               this`outputStreamCalls, this`opCount, this`writes, this`closed,
               this`responseText, this`status, this`statusText
      ensures Valid()
      ensures ErrorRecorded()
      ensures old(HasError()) ==> unchanged(this)
      ensures !old(HasError()) ==> PlainRunOutcome(contentType, data)
      ensures old(Monotone(States(events)) && AllAtMost(States(events), Opened)) ==> Monotone(States(events))
    {
      if HasError() {
        return;
      }
      ghost var e0 := events;
      ghost var sent := data.None? || (StreamAvailable() && OpsSucceed(env, opCount, 3));
      RunPlain(contentType, data);
      if env.connect.ConnectOk? {
        PlainErrorAfter(old(error), env, data.Some?, sent);
        ErrorAfterConcat(None, e0, PlainSendEvents(env, data.Some?, sent));
      } else {
        ErrorAfterConcat(None, e0, ConnectErrors(env.connect));
      }
    }

    /** What one run of the plain worker leaves behind, against the state before it. */
    twostate predicate PlainRunOutcome(contentType: string, data: Option<seq<byte>>)
      reads this
    {
      && (!env.connect.ConnectOk? ==>
            && events == old(events) + ConnectErrors(env.connect)
            && error == ErrorAfter(old(error), ConnectErrors(env.connect))
            && requestContentType == old(requestContentType) && outputStreamOpen == old(outputStreamOpen)
            && opCount == old(opCount) && writes == old(writes) && closed == old(closed)
            && responseText == old(responseText) && status == old(status) && statusText == old(statusText))
      && (env.connect.ConnectOk? ==>
            var sent := PlainSent(old(Now()), data);
            && events == old(events) + PlainSendEvents(env, data.Some?, sent)
            && PlainBodyOutcome(old(Now()), contentType, data))
    }

    /** Whether the plain body (if any) was written and the stream closed, from snapshot `b`. */
    ghost function PlainSent(b: Before, data: Option<seq<byte>>): bool
      reads this
    {
      data.None? || (b.streamAvailable && OpsSucceed(env, b.opCount, 3))
    }

    /** The state after sending a plain body from snapshot `b`, apart from the events. */
    ghost predicate PlainBodyOutcome(b: Before, contentType: string, data: Option<seq<byte>>)
      reads this
    {
      var sent := PlainSent(b, data);
      && requestContentType == Some(contentType)
      && error == ErrorAfterSend(env, sent, b.error)
      && writes == (if data.Some? && b.streamAvailable && b.opCount !in env.failingOps
                    then b.writes + [data.value] else b.writes)
      && closed == (b.closed || (data.Some? && sent))
      && (sent ==> && responseText == ResponseTextAfter(env, b.responseText)
                   && status == StatusAfter(env, b.status)
                   && statusText == StatusTextAfter(env, b.statusText))
      && (!sent ==> responseText == b.responseText && status == b.status && statusText == b.statusText)
    }
    method RunPlain(contentType: string, data: Option<seq<byte>>)
      requires Valid() && hasConnection
      modifies this`events, this`error, this`requestContentType, this`outputStreamOpen,
               this`outputStreamCalls, this`opCount, this`writes, this`closed,
               this`responseText, this`status, this`statusText
      ensures Valid()
      ensures PlainRunOutcome(contentType, data)
      ensures old(Monotone(States(events)) && AllAtMost(States(events), Opened)) ==> Monotone(States(events))
    {
      ghost var before := events;
      var connected := EstablishConnection();
      if !connected {
        StatesOfProgress(ConnectErrors(env.connect));
        StatesConcat(before, ConnectErrors(env.connect));
        return;
      }
      assert Now() == old(Now());
      ghost var sent := SendPlainBody(contentType, data);
      assert events == before + PlainSendEvents(env, data.Some?, sent) by {
        ConcatAssoc(before, [StateChange(Opened)], PlainBodyEvents(env, data.Some?, sent));
      }
      PlainSendStates(env, data.Some?, sent);
      ExtendMonotone(before, PlainSendEvents(env, data.Some?, sent));
    }
    method SendPlainBody(contentType: string, data: Option<seq<byte>>) returns (sent: bool)
      requires Valid() && hasConnection && env.connect.ConnectOk?
      modifies this`events, this`error, this`requestContentType, this`outputStreamOpen,
               this`outputStreamCalls, this`opCount, this`writes, this`closed,
               this`responseText, this`status, this`statusText
      ensures Valid()
      ensures sent == PlainSent(old(Now()), data)
      ensures events == old(events) + PlainBodyEvents(env, data.Some?, sent)
      ensures PlainBodyOutcome(old(Now()), contentType, data)
    {
      requestContentType := Some(contentType);
      sent := true;
      if data.Some? {
        sent := SendRequestData(data.value, true);
      }
      if sent {
        ReadResponse();
      }
    }

    /** The state the sending steps are stated against. */
    ghost function Current(): Snapshot
      reads this
    {
      Snapshot(writes, events, opCount, currentFileNumber, error, closed, StreamAvailable(), responseText, status, statusText)
    }

    /**
     * One turn of the loop over the parts in the multipart `sendRequest`: the part's leading
     * framing, then its text or file, then its trailing framing; false as soon as one of them
     * fails, which is when the loop breaks. `written` is what reached the stream, `progress`
     * the events before the error on failure.
     */
    method SendPart(part: Part) returns (ok: bool, ghost written: seq<seq<byte>>, ghost progress: seq<Event>)
      requires Valid() && hasConnection
      modifies this`events, this`error, this`outputStreamOpen, this`outputStreamCalls,
               this`opCount, this`writes, this`closed, this`currentFileNumber
      ensures Valid()
      ensures outputStreamOpen == old(StreamAvailable())
      ensures ok == (old(StreamAvailable()) && PartReadable(env, part) && OpsSucceed(env, old(opCount), PartOps(env, part)))
      ensures currentFileNumber == old(currentFileNumber)
                + if part.content.FileContent? && old(StreamAvailable()) && OpsSucceed(env, old(opCount), 2) then 1 else 0
      ensures StepBetween(old(Current()), Current(), ok, PartOps(env, part), PartBytes(env, part), PartEvents(env, part),
                          PartWritten(env, part, old(StreamAvailable()), old(opCount)),
                          PartProgress(env, part, old(StreamAvailable()), old(opCount)), written, progress)
    {
      ghost var s0, op0, avail := Current(), opCount, StreamAvailable();
      written := if StreamAvailable() && opCount !in env.failingOps then [part.pre] else [];
      progress := [];
      ok := SendRequestData(part.pre, false);
      if !ok {
        PartFails(env, part, avail, s0, Current(), written);
        return;
      }
      ghost var s1 := Current();
      ghost var w2, p2;
      ok, w2, p2 := SendPartRest(part);
      PartGoesThrough(env, part, op0);
      PartStep(env, part, avail, s0, s1, Current(), ok, written, w2, p2);
      written, progress := written + w2, [] + p2;
    }

    /** The text or file of one part, then its trailing framing. */
    method SendPartRest(part: Part) returns (ok: bool, ghost written: seq<seq<byte>>, ghost progress: seq<Event>)
      requires Valid() && hasConnection && outputStreamOpen
      modifies this`events, this`error, this`outputStreamOpen, this`outputStreamCalls,
               this`opCount, this`writes, this`closed, this`currentFileNumber
      ensures Valid()
      ensures outputStreamOpen
      ensures ok == (PartReadable(env, part) && OpsSucceed(env, old(opCount), PartOps(env, part) - 2))
      ensures currentFileNumber == old(currentFileNumber) + if part.content.FileContent? then 1 else 0
      ensures StepBetween(old(Current()), Current(), ok, PartOps(env, part) - 2, ContentBytes(env, part.content) + part.post,
                          PartEvents(env, part), RestWritten(env, part, old(opCount)), RestProgress(env, part, old(opCount)),
                          written, progress)
    {
      ghost var s0, op0 := Current(), opCount;
      ok, written, progress := SendContent(part.content);
      if !ok {
        RestFails(env, part, s0, Current(), written, progress);
        return;
      }
      ghost var s1, avail := Current(), StreamAvailable();
      ghost var w2: seq<seq<byte>> := if StreamAvailable() && opCount !in env.failingOps then [part.post] else [];
      ok := SendRequestData(part.post, false);
      RestGoesThrough(env, part, op0);
      RestStep(env, part, avail, s0, s1, Current(), ok, written, progress, w2);
      written, progress := written + w2, PartEvents(env, Part([], part.content, [])) + [];
    }

    /** The middle of one part: its text, or its file through `writeContent` (counted first). */
    method SendContent(content: PartContent) returns (ok: bool, ghost written: seq<seq<byte>>, ghost progress: seq<Event>)
      requires Valid() && hasConnection && outputStreamOpen
      modifies this`events, this`error, this`outputStreamOpen, this`outputStreamCalls,
               this`opCount, this`writes, this`closed, this`currentFileNumber
      ensures Valid() && outputStreamOpen
      ensures ok == (PartReadable(env, Part([], content, [])) && OpsSucceed(env, old(opCount), ContentOps(env, content)))
      ensures currentFileNumber == old(currentFileNumber) + if content.FileContent? then 1 else 0
      ensures StepBetween(old(Current()), Current(), ok, ContentOps(env, content), ContentBytes(env, content),
                          PartEvents(env, Part([], content, [])),
                          ContentWritten(env, content, old(opCount)), ContentProgress(env, content, old(opCount)), written, progress)
    {
      match content {
        case TextContent(value) =>
          written, progress := if opCount !in env.failingOps then [value] else [], [];
          ok := SendRequestData(value, false);
        case FileContent(path) =>
          currentFileNumber := currentFileNumber + 1;
          ok, written, progress := SendFile(path);
      }
    }

    /** A file part's content through `writeContent`. */
    method SendFile(path: string) returns (ok: bool, ghost written: seq<seq<byte>>, ghost progress: seq<Event>)
      requires Valid() && hasConnection && outputStreamOpen
      modifies this`events, this`error, this`outputStreamOpen, this`outputStreamCalls,
               this`opCount, this`writes
      ensures Valid() && outputStreamOpen
      ensures ok == (FileReadable(FileAt(env, path)) && OpsSucceed(env, old(opCount), ContentOps(env, FileContent(path))))
      ensures StepBetween(old(Current()), Current(), ok, ContentOps(env, FileContent(path)), ContentBytes(env, FileContent(path)),
                          PartEvents(env, Part([], FileContent(path), [])),
                          ContentWritten(env, FileContent(path), old(opCount)), ContentProgress(env, FileContent(path), old(opCount)),
                          written, progress)
    {
      ghost var a := Current();
      ok := WriteContent(path);
      ghost var chunks := Chunks(FileAt(env, path).steps);
      if ok {
        written, progress := chunks, [];
        FileOkStep(env, path, a, Current());
      } else {
        written, progress := FileWrites(env, path, true, a.opCount), FileProgress(env, path, true, a.opCount);
        FileFailedStep(env, path, a, Current());
      }
    }

    /**
     * The loop over the parts in the multipart `sendRequest`: each part in order, stopping at
     * the first that fails. `written` is what reached the stream, `progress` the events before
     * the error on failure.
     */
    method SendParts(parts: seq<Part>) returns (ghost written: seq<seq<byte>>, ghost progress: seq<Event>)
      requires Valid() && hasConnection
      modifies this`events, this`error, this`outputStreamOpen, this`outputStreamCalls,
               this`opCount, this`writes, this`closed, this`currentFileNumber
      ensures Valid()
      ensures PartsOutcome(parts, written, progress)
    {
      ghost var start := Current();
      ghost var streamOk := StreamAvailable();
      written, progress := [], [];
      assert FormBytes(env, []) == [] && Flatten(written) == [];
      var i := 0;
      while i < |parts|
        invariant 0 <= i <= |parts|
        invariant Valid() && hasConnection
        invariant PartsSent(env, start, Current(), parts[..i], written)
        invariant i == 0 ==> outputStreamOpen == old(outputStreamOpen)
        invariant i > 0 ==> streamOk && outputStreamOpen
      {
        var ok;
        ok, written, progress := SendNextPart(parts, i, start, written, streamOk);
        if !ok {
          return;
        }
        i := i + 1;
      }
      assert parts[..i] == parts;
      PartsAllSent(env, start, Current(), streamOk, parts, written, progress);
    }

    /**
     * What the parts loop leaves behind: the stream obtained if there was a part; every part's
     * bytes, progress events, file count and operations when they all go through; otherwise
     * UNKNOWN after the progress events of the parts up to the failing one, with the bytes
     * written up to the failing operation and the files up to the failing part counted.
     */
    twostate predicate PartsOutcome(parts: seq<Part>, written: seq<seq<byte>>, progress: seq<Event>)
      reads this
    {
      && outputStreamOpen == (if parts == [] then old(outputStreamOpen) else old(StreamAvailable()))
      && PartsEnded(env, old(Current()), Current(), old(StreamAvailable()), parts, written, progress)
    }

    /**
     * Turn `i` of the parts loop: from the first `i` parts sent to the first `i + 1`, or to the
     * state in which the whole loop stops.
     */
    method SendNextPart(parts: seq<Part>, i: nat, ghost start: Snapshot, ghost written: seq<seq<byte>>,
                        ghost streamOk: bool)
      returns (ok: bool, ghost written': seq<seq<byte>>, ghost progress: seq<Event>)
      requires i < |parts|
      requires Valid() && hasConnection && PartsSent(env, start, Current(), parts[..i], written)
      requires i == 0 ==> StreamAvailable() == streamOk
      requires i > 0 ==> streamOk && outputStreamOpen
      modifies this`events, this`error, this`outputStreamOpen, this`outputStreamCalls,
               this`opCount, this`writes, this`closed, this`currentFileNumber
      ensures Valid() && outputStreamOpen == streamOk
      ensures ok ==> streamOk && PartsSent(env, start, Current(), parts[..i + 1], written')
      ensures !ok ==> PartsEnded(env, start, Current(), streamOk, parts, written', progress)
    {
      ghost var mid := Current();
      assert StreamAvailable() == streamOk;
      ghost var done := parts[..i];
      assert parts[..i + 1] == done + [parts[i]];
      ghost var w, p;
      ok, w, p := SendPart(parts[i]);
      written', progress := written + w, FormEvents(env, done) + p;
      if !ok {
        NextPartFailed(env, start, mid, Current(), streamOk, done, parts[i], written, w, p);
        PartsFailedWithin(env, start, Current(), streamOk, parts, i + 1, written', progress);
        return;
      }
      NextPartSent(env, start, mid, Current(), streamOk, done, parts[i], written, w);
    }

    /**
     * `sendRequest` with a FormData body: unless an error is already recorded, start the
     * worker (`RunMultipart`), which is run to completion here.
     */
    method SendMultipartRequest(contentType: string, form: FormData)
      returns (ghost written: seq<seq<byte>>, ghost progress: seq<Event>)
      requires Valid() && ErrorRecorded() && (hasConnection || HasError())
      modifies this`events, this`error, this`requestContentType, this`fixedLength, this`filesCount,
               this`outputStreamOpen, this`outputStreamCalls, this`opCount, this`writes, this`closed,
               this`currentFileNumber, this`responseText, this`status, this`statusText
      ensures Valid()
      ensures ErrorRecorded()
      ensures old(HasError()) ==> unchanged(this)
      ensures !old(HasError()) ==> MultipartRunOutcome(contentType, form, written, progress)
      ensures old(Monotone(States(events)) && AllAtMost(States(events), Opened)) ==> Monotone(States(events))
    {
      written, progress := [], [];
      if HasError() {
        return;
      }
      ghost var e0 := events;
      ghost var finished := FormGoesThrough(env, form.parts, StreamAvailable(), opCount);
      written, progress := RunMultipart(contentType, form);
      if env.connect.ConnectOk? {
        MultipartErrorAfter(old(error), env, progress, finished);
        ErrorAfterConcat(None, e0, MultipartEvents(env, progress, finished));
      } else {
        ErrorAfterConcat(None, e0, ConnectErrors(env.connect));
      }
    }

    /** What one run of the multipart worker leaves behind, against the state before it. */
    twostate predicate MultipartRunOutcome(contentType: string, form: FormData, written: seq<seq<byte>>,
                                           progress: seq<Event>)
      reads this
    {
      && (!env.connect.ConnectOk? ==>
            && events == old(events) + ConnectErrors(env.connect)
            && error == ErrorAfter(old(error), ConnectErrors(env.connect))
            && requestContentType == old(requestContentType) && fixedLength == old(fixedLength)
            && filesCount == old(filesCount) && currentFileNumber == old(currentFileNumber)
            && outputStreamOpen == old(outputStreamOpen) && opCount == old(opCount)
            && writes == old(writes) && closed == old(closed)
            && responseText == old(responseText) && status == old(status) && statusText == old(statusText))
      && (env.connect.ConnectOk? ==>
            && requestContentType == Some(contentType)
            && fixedLength == Some(form.contentLength)
            && filesCount == form.filesCount
            && events == old(events)
                 + MultipartEvents(env, progress, FormGoesThrough(env, form.parts, old(StreamAvailable()), old(opCount)))
            && FormBodyOutcome(env, form.parts, old(Current()), Current(), written, progress))
    }

    /**
     * The worker of the multipart `sendRequest`: connect, set the Content-Type, the fixed
     * length and the file count, then hand over to `SendFormBody`.
     */
    method RunMultipart(contentType: string, form: FormData)
      returns (ghost written: seq<seq<byte>>, ghost progress: seq<Event>)
      requires Valid() && hasConnection && !HasError()
      modifies this`events, this`error, this`requestContentType, this`fixedLength, this`filesCount,
               this`outputStreamOpen, this`outputStreamCalls, this`opCount, this`writes, this`closed,
               this`currentFileNumber, this`responseText, this`status, this`statusText
      ensures Valid()
      ensures MultipartRunOutcome(contentType, form, written, progress)
      ensures old(Monotone(States(events)) && AllAtMost(States(events), Opened)) ==> Monotone(States(events))
    {
      ghost var before := events;
      written, progress := [], [];
      var connected := EstablishConnection();
      if !connected {
        StatesOfProgress(ConnectErrors(env.connect));
        StatesConcat(before, ConnectErrors(env.connect));
        return;
      }
      requestContentType := Some(contentType);
      fixedLength := Some(form.contentLength);
      filesCount := form.filesCount;
      ghost var finished := FormGoesThrough(env, form.parts, StreamAvailable(), opCount);
      ghost var start := Current();
      written, progress := SendFormBody(form.parts);
      FormBodyOutcomeFrom(env, form.parts, start, old(Current()), Current(), written, progress);
      assert events == before + MultipartEvents(env, progress, finished) by {
        ConcatAssoc(before, [StateChange(Opened)], progress);
        ConcatAssoc(before, [StateChange(Opened)] + progress, PlainBodyEvents(env, true, finished));
      }
      MultipartMonotone(before, env, progress, finished);
    }

    /** The parts of the state the multipart body starts from. */
    ghost function Now(): Before
      reads this
    {
      Before(StreamAvailable(), opCount, writes, currentFileNumber, closed, responseText, status, statusText, error)
    }

    /** After connecting: the parts, then the closing line and the response if nothing failed. */
    method SendFormBody(parts: seq<Part>) returns (ghost written: seq<seq<byte>>, ghost progress: seq<Event>)
      requires Valid() && hasConnection && !HasError()
      modifies this`events, this`error, this`outputStreamOpen, this`outputStreamCalls,
               this`opCount, this`writes, this`closed, this`currentFileNumber,
               this`responseText, this`status, this`statusText
      ensures Valid()
      ensures FormBodyOutcome(env, parts, old(Current()), Current(), written, progress)
      ensures events == old(events) + progress
                + PlainBodyEvents(env, true, FormGoesThrough(env, parts, old(StreamAvailable()), old(opCount)))
    {
      ghost var e0, avail, op0 := events, StreamAvailable(), opCount;
      written, progress := SendParts(parts);
      if HasError() {
        FormBodyFailed(env, parts, old(Current()), Current(), written, progress);
        return;
      }
      assert PartsGoThrough(env, parts, avail, op0);
      assert StreamAvailable() == avail;
      FormEventsAreProgress(env, parts);
      progress := FormEvents(env, parts);
      ghost var m := Current();
      ghost var finished, extra := FinishForm();
      FormBodySent(env, parts, old(Current()), m, Current(), written, extra, finished);
      ConcatAssoc(e0, progress, PlainBodyEvents(env, true, finished));
      written := written + extra;
    }

    /**
     * The end of the multipart `sendRequest`: the closing line, which closes the stream, then
     * the response; on a failed write only UNKNOWN.
     */
    method FinishForm() returns (ghost finished: bool, ghost extra: seq<seq<byte>>)
      requires Valid() && hasConnection
      modifies this`events, this`error, this`outputStreamOpen, this`outputStreamCalls,
               this`opCount, this`writes, this`closed, this`responseText, this`status, this`statusText
      ensures Valid()
      ensures FinishOutcome(env, old(Current()), Current(), finished, extra)
      ensures events == old(events) + PlainBodyEvents(env, true, finished)
    {
      extra := if StreamAvailable() && opCount !in env.failingOps then [FinishLine] else [];
      var ok := SendRequestData(FinishLine, true);
      finished := ok;
      if !ok {
        return;
      }
      ReadResponse();
    }
  }
}
