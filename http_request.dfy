/**
 * The request front-end of the requestsj client (class HttpRequest): how a call's URL is
 * resolved against the client's base URL, how the Content-Type header is defaulted, the
 * single-slot listeners, and the handler queue that callbacks are posted to.
 *
 * The worker executor and the Android Handler are replaced by a sequential method and by
 * `handlerQueue`, the sequence of runnables posted to the main looper, in posting order.
 */
module HttpRequests {
  import opened Common

  // ---------------------------------------------------------------------------------------
  // URL composition
  // ---------------------------------------------------------------------------------------

  /** `s` without one trailing "/", if it has one. */
  function WithoutTrailingSlash(s: string): string
  {
    if EndsWith(s, "/") then s[..|s| - 1] else s
  }

  /** `s` without one leading "/", if it has one. */
  function WithoutLeadingSlash(s: string): string
  {
    if StartsWith(s, "/") then s[1..] else s
  }

  /**
   * The URL a call is sent to. A null URL stays null; a URL starting with "http", or any URL
   * when no base URL is configured, is used as given; otherwise the path follows the base,
   * with one "/" standing for a trailing "/" of the base and a leading "/" of the path. Only
   * one "/" is dropped from each side, so "//" can remain where either side has two.
   */
  function ComposeUrl(baseUrl: string, rawUrl: Option<string>): (url: Option<string>)
    ensures rawUrl.None? ==> url.None?
    ensures rawUrl.Some? && (StartsWith(rawUrl.value, "http") || baseUrl == "") ==> url == rawUrl
    ensures rawUrl.Some? && !StartsWith(rawUrl.value, "http") && baseUrl != "" ==>
              && url.Some?
              && StartsWith(url.value, baseUrl)
              && url.value == WithoutTrailingSlash(baseUrl) + "/" + WithoutLeadingSlash(rawUrl.value)
  {
    match rawUrl
    case None => None
    case Some(path) =>
      if StartsWith(path, "http") || baseUrl == "" then rawUrl
      else if EndsWith(baseUrl, "/") && StartsWith(path, "/") then
        assert baseUrl == baseUrl[..|baseUrl| - 1] + "/";
        Some(baseUrl + path[1..])
      else if !EndsWith(baseUrl, "/") && !StartsWith(path, "/") then
        Some(baseUrl + "/" + path)
      else if EndsWith(baseUrl, "/") then
        assert baseUrl == baseUrl[..|baseUrl| - 1] + "/";
        Some(baseUrl + path)
      else
        assert path == "/" + path[1..];
        Some(baseUrl + path)
  }

  // ---------------------------------------------------------------------------------------
  // Payloads, headers and options
  // ---------------------------------------------------------------------------------------

  /** The payload object of a call: null, a FormData, or any other object (sent as JSON). */
  datatype Payload = NullPayload | FormPayload(form: nat) | ObjectPayload(value: string)

  /** FormData.BOUNDARY; its value is defined by FormData, which is not part of this model. */
  const FormBoundary: string

  const ContentTypeJson := "application/json"

  function ContentTypeForm(): string
  {
    "multipart/form-data; boundary=" + FormBoundary
  }

  /**
   * The header map after `actuallyRequest` has defaulted Content-Type. GET leaves the map
   * alone. Otherwise a FormData payload forces the multipart type, and any other payload gets
   * "application/json" unless BOTH the keys "Content-Type" and "content-type" are present
   * (the code tests `!contains(A) || !contains(B)`), so a caller's lone "Content-Type" is
   * overwritten. No key other than "Content-Type" is ever added or changed.
   */
  function DefaultContentType(verb: string, payload: Payload, headers: map<string, string>)
    : (actual: map<string, string>)
    ensures verb == "GET" ==> actual == headers
    ensures forall k :: k in headers && k != "Content-Type" ==> k in actual && actual[k] == headers[k]
    ensures forall k :: k in actual ==> k in headers || k == "Content-Type"
    ensures verb != "GET" && payload.FormPayload? ==>
              "Content-Type" in actual && actual["Content-Type"] == ContentTypeForm()
    ensures verb != "GET" && !payload.FormPayload? ==>
              if "Content-Type" in headers && "content-type" in headers then actual == headers
              else "Content-Type" in actual && actual["Content-Type"] == ContentTypeJson
  {
    if verb == "GET" then headers
    else if payload.FormPayload? then headers["Content-Type" := ContentTypeForm()]
    else if !("Content-Type" in headers) || !("content-type" in headers) then
      headers["Content-Type" := ContentTypeJson]
    else headers
  }

  /** An HttpHeaders object: a mutable string-to-string map. */
  class Headers {
    var entries: map<string, string>

    constructor ()
      ensures entries == map[]
    {
      entries := map[];
    }

    function ContainsKey(key: string): bool
      reads this
    {
      key in entries
    }

    method Put(key: string, value: string)
      modifies this
      ensures entries == old(entries)[key := value]
    {
      entries := entries[key := value];
    }
  }

  /** An HttpOptions object; its settings are passed through untouched. */
  class Options {
    constructor ()
    {
    }
  }

  // ---------------------------------------------------------------------------------------
  // Results of the transport layer and the events posted to the handler
  // ---------------------------------------------------------------------------------------

  datatype HttpResponse = HttpResponse(code: int, statusText: string, body: string)

  datatype FileUploadProgress = FileUploadProgress(file: string, uploaded: int, total: int)

  /** HttpError's kind and stage; UNKNOWN and STAGE_UNKNOWN are the only ones this file names. */
  datatype ErrorKind = UnknownKind | OtherKind(code: int)
  datatype ErrorStage = UnknownStage | OtherStage(code: int)

  datatype HttpError = HttpError(kind: ErrorKind, stage: ErrorStage, cause: string)

  /**
   * What `HttpBase.request` did: the upload-progress callbacks it made, in order, and how it
   * ended. HttpBase is not part of this model, so its behaviour is a parameter.
   */
  datatype RequestResult =
    | Returned(response: HttpResponse)
    | ThrewHttpError(error: HttpError)
    | ThrewOther(cause: string)

  datatype RequestOutcome = RequestOutcome(progress: seq<FileUploadProgress>, result: RequestResult)

  /** The arguments `actuallyRequest` hands to `HttpBase.request`. */
  datatype Call = Call(verb: string, url: Option<string>, payload: Payload,
                       headers: Headers, options: Options)

  /** A listener object set by the application; only its identity matters here. */
  datatype Listener = Listener(id: nat)

  /** A runnable posted to the main looper; it calls the listener current when it runs. */
  datatype Posted =
    | ResponsePosted(response: HttpResponse)
    | ProgressPosted(progress: FileUploadProgress)
    | ErrorPosted(error: HttpError)
  {
    predicate IsTerminal()
    {
      ResponsePosted? || ErrorPosted?
    }
  }

  /** The posts for a run of progress callbacks: all of them when a listener is set, else none. */
  function ProgressPosts(listener: Option<Listener>, progress: seq<FileUploadProgress>)
    : (posts: seq<Posted>)
    ensures |posts| == if listener.Some? then |progress| else 0
    ensures forall i :: 0 <= i < |posts| ==> posts[i] == ProgressPosted(progress[i])
  {
    if listener.None? || progress == [] then []
    else ProgressPosts(listener, progress[..|progress| - 1]) + [ProgressPosted(progress[|progress| - 1])]
  }

  /** The terminal post of one run: a response or an error, gated by its own listener. */
  function TerminalPosts(onResponse: Option<Listener>, onError: Option<Listener>, result: RequestResult)
    : (posts: seq<Posted>)
    ensures |posts| <= 1 && forall i :: 0 <= i < |posts| ==> posts[i].IsTerminal()
    ensures (posts != [] && posts[0].ResponsePosted?) <==> result.Returned? && onResponse.Some?
    ensures (posts != [] && posts[0].ErrorPosted?) <==> !result.Returned? && onError.Some?
    ensures result.Returned? && posts != [] ==> posts == [ResponsePosted(result.response)]
    ensures result.ThrewHttpError? && posts != [] ==> posts == [ErrorPosted(result.error)]
    ensures result.ThrewOther? && posts != []
            ==> posts == [ErrorPosted(HttpError(UnknownKind, UnknownStage, result.cause))]
  {
    match result
    case Returned(r) => if onResponse.Some? then [ResponsePosted(r)] else []
    case ThrewHttpError(e) => if onError.Some? then [ErrorPosted(e)] else []
    case ThrewOther(cause) =>
      if onError.Some? then [ErrorPosted(HttpError(UnknownKind, UnknownStage, cause))] else []
  }

  /** Everything one `actuallyRequest` run posts, given the listeners set during it. */
  function RunPosts(onResponse: Option<Listener>, onProgress: Option<Listener>,
                    onError: Option<Listener>, outcome: RequestOutcome): seq<Posted>
  {
    ProgressPosts(onProgress, outcome.progress) + TerminalPosts(onResponse, onError, outcome.result)
  }

  /** The number of terminal (response or error) posts in a queue. */
  function TerminalCount(posts: seq<Posted>): nat
  {
    if posts == [] then 0
    else TerminalCount(posts[..|posts| - 1]) + (if posts[|posts| - 1].IsTerminal() then 1 else 0)
  }

  lemma {:induction false} TerminalCountConcat(a: seq<Posted>, b: seq<Posted>)
    ensures TerminalCount(a + b) == TerminalCount(a) + TerminalCount(b)
    decreases |b|
  {
    if b == [] {
      assert a + b == a;
    } else {
      assert (a + b)[..|a + b| - 1] == a + b[..|b| - 1];
      TerminalCountConcat(a, b[..|b| - 1]);
    }
  }

  lemma {:induction false} NoTerminalInProgress(listener: Option<Listener>, progress: seq<FileUploadProgress>)
    ensures TerminalCount(ProgressPosts(listener, progress)) == 0
    decreases |progress|
  {
    if listener.Some? && progress != [] {
      var init := progress[..|progress| - 1];
      var posts := ProgressPosts(listener, progress);
      assert posts[..|posts| - 1] == ProgressPosts(listener, init);
      NoTerminalInProgress(listener, init);
    }
  }

  /**
   * One run posts at most one terminal event, and exactly one when the listener for its
   * outcome is set; when it posts one, it is the last post, after every progress post.
   */
  lemma OneTerminalOutcome(onResponse: Option<Listener>, onProgress: Option<Listener>,
                           onError: Option<Listener>, outcome: RequestOutcome)
    ensures var posts := RunPosts(onResponse, onProgress, onError, outcome);
            && TerminalCount(posts) <= 1
            && (onResponse.Some? && onError.Some? ==> TerminalCount(posts) == 1 && posts[|posts| - 1].IsTerminal())
            && forall i :: 0 <= i < |posts| - 1 ==> !posts[i].IsTerminal()
  {
    var progress := ProgressPosts(onProgress, outcome.progress);
    var terminal := TerminalPosts(onResponse, onError, outcome.result);
    var posts := progress + terminal;
    TerminalCountConcat(progress, terminal);
    NoTerminalInProgress(onProgress, outcome.progress);
    TerminalPostsShape(onResponse, onError, outcome.result);
    forall i | 0 <= i < |posts| - 1
      ensures !posts[i].IsTerminal()
    {
      assert posts[i] == progress[i];
    }
  }

  /** The terminal part of a run is at most one post, and it is terminal. */
  lemma TerminalPostsShape(onResponse: Option<Listener>, onError: Option<Listener>, result: RequestResult)
    ensures var terminal := TerminalPosts(onResponse, onError, result);
            && |terminal| <= 1 && TerminalCount(terminal) == |terminal|
            && (terminal != [] ==> terminal[0].IsTerminal())
            && (onResponse.Some? && onError.Some? ==> |terminal| == 1)
  {
    var terminal := TerminalPosts(onResponse, onError, result);
    if terminal != [] {
      assert terminal[..0] == [];
    }
  }

  // ---------------------------------------------------------------------------------------
  // The client object
  // ---------------------------------------------------------------------------------------

  class HttpRequest {
    const baseUrl: string
    var onErrorListener: Option<Listener>
    var onFileUploadProgressListener: Option<Listener>
    var onResponseListener: Option<Listener>
    /** The runnables posted to the main-looper handler, oldest first. */
    var handlerQueue: seq<Posted>

    /** `new HttpRequest(baseURL)`. */
    constructor (baseUrl: string)
      ensures this.baseUrl == baseUrl
      ensures onErrorListener.None? && onFileUploadProgressListener.None? && onResponseListener.None?
      ensures handlerQueue == []
    {
      this.baseUrl := baseUrl;
      onErrorListener, onFileUploadProgressListener, onResponseListener := None, None, None;
      handlerQueue := [];
    }

    /** `new HttpRequest()`: no base URL. */
    constructor WithoutBase()
      ensures baseUrl == ""
      ensures onErrorListener.None? && onFileUploadProgressListener.None? && onResponseListener.None?
      ensures handlerQueue == []
    {
      baseUrl := "";
      onErrorListener, onFileUploadProgressListener, onResponseListener := None, None, None;
      handlerQueue := [];
    }

    /** Replaces the error listener (a single slot); nothing is posted. */
    method SetOnErrorListener(listener: Option<Listener>)
      modifies this
      ensures onErrorListener == listener
      ensures onFileUploadProgressListener == old(onFileUploadProgressListener)
      ensures onResponseListener == old(onResponseListener)
      ensures handlerQueue == old(handlerQueue)
    {
      onErrorListener := listener;
    }

    /** Replaces the upload-progress listener (a single slot); nothing is posted. */
    method SetOnFileUploadProgressListener(listener: Option<Listener>)
      modifies this
      ensures onFileUploadProgressListener == listener
      ensures onErrorListener == old(onErrorListener)
      ensures onResponseListener == old(onResponseListener)
      ensures handlerQueue == old(handlerQueue)
    {
      onFileUploadProgressListener := listener;
    }

    /** Replaces the response listener (a single slot); nothing is posted. */
    method SetOnResponseListener(listener: Option<Listener>)
      modifies this
      ensures onResponseListener == listener
      ensures onErrorListener == old(onErrorListener)
      ensures onFileUploadProgressListener == old(onFileUploadProgressListener)
      ensures handlerQueue == old(handlerQueue)
    {
      onResponseListener := listener;
    }

    /** Posts the response when a response listener is set; drops it otherwise. */
    method EmitOnResponse(response: HttpResponse)
      modifies this`handlerQueue
      ensures onResponseListener.Some? ==> handlerQueue == old(handlerQueue) + [ResponsePosted(response)]
      ensures onResponseListener.None? ==> handlerQueue == old(handlerQueue)
    {
      if onResponseListener.Some? {
        handlerQueue := handlerQueue + [ResponsePosted(response)];
      }
    }

    /** Posts the progress event when a progress listener is set; drops it otherwise. */
    method EmitOnFileUploadProgress(progress: FileUploadProgress)
      modifies this`handlerQueue
      ensures onFileUploadProgressListener.Some? ==>
                handlerQueue == old(handlerQueue) + [ProgressPosted(progress)]
      ensures onFileUploadProgressListener.None? ==> handlerQueue == old(handlerQueue)
    {
      if onFileUploadProgressListener.Some? {
        handlerQueue := handlerQueue + [ProgressPosted(progress)];
      }
    }

    /** Posts the error when an error listener is set; drops it otherwise. */
    method EmitOnError(error: HttpError)
      modifies this`handlerQueue
      ensures onErrorListener.Some? ==> handlerQueue == old(handlerQueue) + [ErrorPosted(error)]
      ensures onErrorListener.None? ==> handlerQueue == old(handlerQueue)
    {
      if onErrorListener.Some? {
        handlerQueue := handlerQueue + [ErrorPosted(error)];
      }
    }

    /** The in-place header update of `actuallyRequest`, through HttpHeaders.put. */
    static method ApplyContentTypeDefault(verb: string, payload: Payload, headers: Headers)
      modifies headers
      ensures headers.entries == DefaultContentType(verb, payload, old(headers.entries))
    {
      if verb != "GET" {
        if payload.FormPayload? {
          headers.Put("Content-Type", ContentTypeForm());
        } else if !headers.ContainsKey("Content-Type") || !headers.ContainsKey("content-type") {
          headers.Put("Content-Type", ContentTypeJson);
        }
      }
    }

    /** The upload-progress listener installed on HttpBase: each callback is re-emitted. */
    method ForwardProgress(progress: seq<FileUploadProgress>)
      modifies this`handlerQueue
      ensures handlerQueue == old(handlerQueue) + ProgressPosts(onFileUploadProgressListener, progress)
    {
      for i := 0 to |progress|
        invariant handlerQueue == old(handlerQueue) + ProgressPosts(onFileUploadProgressListener, progress[..i])
      {
        assert progress[..i + 1][..i] == progress[..i];
        EmitOnFileUploadProgress(progress[i]);
      }
      assert progress[..|progress|] == progress;
    }

    /**
     * The body of the task submitted for one call. It resolves the URL, replaces null headers
     * and options by empty ones, defaults Content-Type in the (possibly caller-owned) header
     * map, and hands everything to `HttpBase.request`, whose behaviour is `outcome`. Progress
     * callbacks are forwarded as they come; then exactly one terminal event is emitted: the
     * response, the HttpError as thrown, or any other exception wrapped as UNKNOWN /
     * STAGE_UNKNOWN.
     */
    method ActuallyRequest(verb: string, rawUrl: Option<string>, payload: Payload,
                           headers: Headers?, options: Options?, outcome: RequestOutcome)
      returns (call: Call)
      modifies this`handlerQueue, headers
      ensures call.verb == verb && call.payload == payload
      ensures call.url == ComposeUrl(baseUrl, rawUrl)
      ensures headers != null ==> call.headers == headers
      ensures headers == null ==> fresh(call.headers)
      ensures call.headers.entries ==
                DefaultContentType(verb, payload, if headers == null then map[] else old(headers.entries))
      ensures options != null ==> call.options == options
      ensures options == null ==> fresh(call.options)
      ensures handlerQueue == old(handlerQueue) +
                RunPosts(onResponseListener, onFileUploadProgressListener, onErrorListener, outcome)
    {
      var url := ComposeUrl(baseUrl, rawUrl);
      var actualHeaders: Headers;
      if headers == null {
        actualHeaders := new Headers();
      } else {
        actualHeaders := headers;
      }
      var actualOptions: Options;
      if options == null {
        actualOptions := new Options();
      } else {
        actualOptions := options;
      }
      ApplyContentTypeDefault(verb, payload, actualHeaders);
      call := Call(verb, url, payload, actualHeaders, actualOptions);

      // HttpBase.request runs, forwarding each upload-progress callback as it happens.
      ForwardProgress(outcome.progress);
      match outcome.result
      case Returned(response) =>
        EmitOnResponse(response);
      case ThrewHttpError(error) =>
        EmitOnError(error);
      case ThrewOther(cause) =>
        EmitOnError(HttpError(UnknownKind, UnknownStage, cause));
    }
  }
}
