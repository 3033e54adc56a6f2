/**
  `flask_trace_util/flask_trace.py`: `_FlaskTrace`, which binds a trace
  extractor and delegator to a Flask application. At the start of each
  request it stores the extracted trace in Flask's request-local `g.trace`, at
  the end it clears it, and its `request` method adds the delegated header to
  every outbound call.
 */
module FlaskTrace {
  import opened Wrappers
  import opened Text
  import opened Http
  import opened CloudTrace
  import UtilTraceHandlers

  /** What the config holds under "extractor": reads the current request. */
  type Extractor = HttpRequest -> Option<string>

  /** What the config holds under "delegator": reads `g.trace` and gives one header. */
  type Delegator = Option<string> -> (string, string)

  /** The config dictionary; a missing key is `None`. */
  datatype TraceConfig = TraceConfig(extractor: Option<Extractor>, delegator: Option<Delegator>)

  datatype FlaskApp = FlaskApp(importName: string)

  datatype Response = Response(status: int, body: string)

  /** The exceptions `init_app` raises. */
  datatype InitError = AppIsNone | ConfigIsNone | ExtractorMissing | DelegatorMissing

  /**
    The exceptions `request` raises before the call: indexing a `None` config
    (`TypeError`) and a config without "delegator" (`KeyError`).
   */
  datatype RequestError = ConfigNotSet | DelegatorNotConfigured

  /** The arguments handed to the HTTP transport. */
  datatype OutboundCall = OutboundCall(verb: string, url: string, headers: map<string, string>)

  /** Flask's request-local `g`; only its `trace` attribute is used. */
  class RequestGlobals {
    var trace: Option<string>

    constructor()
      ensures trace == None
    {
      trace := None;
    }
  }

  /** A caller's `headers` dictionary, which `request` updates in place. */
  class HeaderDict {
    var entries: map<string, string>

    constructor(entries: map<string, string>)
      ensures this.entries == entries
    {
      this.entries := entries;
    }
  }

  /**
    `headers[name] = value`: the delegated header is set, overwriting a caller
    value under the same name; every other header is kept as it was, and at
    most one name is added.
   */
  function WithHeader(headers: map<string, string>, header: (string, string)): (r: map<string, string>)
    ensures header.0 in r && r[header.0] == header.1
    ensures forall k :: k != header.0 ==> (k in r <==> k in headers)
    ensures forall k :: k != header.0 && k in headers ==> r[k] == headers[k]
    ensures r.Keys - headers.Keys <= {header.0}
  {
    headers[header.0 := header.1]
  }

  /** `_FlaskTrace`. */
  class FlaskTracer {
    var app: Option<FlaskApp>
    var config: Option<TraceConfig>
    /** The extractor called by the before-request hook, once `init_app` has registered the hooks. */
    var sessionExtractor: Option<Extractor>

    constructor()
      ensures app == None && config == None && sessionExtractor == None
    {
      app, config, sessionExtractor := None, None, None;
    }

    /**
      `init_app(app, config)`: stores both arguments first, then raises on the
      first missing piece, in the order app, config, "extractor", "delegator";
      only when all are present are the request hooks registered.
     */
    method InitApp(app: Option<FlaskApp>, config: Option<TraceConfig>) returns (err: Option<InitError>)
      modifies this
      ensures this.app == app && this.config == config
      ensures err.None? <==>
        app.Some? && config.Some? && config.value.extractor.Some? && config.value.delegator.Some?
      ensures err == Some(AppIsNone) <==> app.None?
      ensures err == Some(ConfigIsNone) <==> app.Some? && config.None?
      ensures err == Some(ExtractorMissing) <==> app.Some? && config.Some? && config.value.extractor.None?
      ensures err == Some(DelegatorMissing) <==>
        app.Some? && config.Some? && config.value.extractor.Some? && config.value.delegator.None?
      ensures err.None? ==> config.Some? && config.value.delegator.Some? && sessionExtractor == config.value.extractor
      ensures err.Some? ==> sessionExtractor == old(sessionExtractor)
    {
      this.app := app;
      this.config := config;
      if app.None? {
        return Some(AppIsNone);
      }
      if config.None? {
        return Some(ConfigIsNone);
      }
      if config.value.extractor.None? {
        return Some(ExtractorMissing);
      }
      if config.value.delegator.None? {
        return Some(DelegatorMissing);
      }
      sessionExtractor := config.value.extractor;
      err := None;
    }

    /** The before-request hook `init_session`: `g.trace` becomes the extractor's result. */
    method InitSession(g: RequestGlobals, request: HttpRequest)
      requires sessionExtractor.Some?
      modifies g
      ensures g.trace == sessionExtractor.value(request)
    {
      g.trace := sessionExtractor.value(request);
    }

    /** The after-request hook `destroy_session`: clears `g.trace` and passes the response on unchanged. */
    method DestroySession(g: RequestGlobals, response: Response) returns (r: Response)
      requires sessionExtractor.Some?
      modifies g
      ensures g.trace == None && r == response
    {
      g.trace := None;
      r := response;
    }

    /**
      `request(method, url, **kwargs)` up to the transport call: a fresh empty
      dictionary stands in for absent headers (`null`), and the configured
      delegator's header is written into the headers, the caller's dictionary
      itself when one was given.
     */
    method Request(verb: string, url: string, headers: HeaderDict?, g: RequestGlobals)
      returns (call: Result<OutboundCall, RequestError>)
      modifies headers
      ensures call.Success? <==> config.Some? && config.value.delegator.Some?
      ensures config.None? ==> call == Failure(ConfigNotSet)
      ensures config.Some? && config.value.delegator.None? ==> call == Failure(DelegatorNotConfigured)
      ensures call.Failure? && headers != null ==> headers.entries == old(headers.entries)
      ensures call.Success? ==>
        call.value == OutboundCall(verb, url,
          WithHeader(if headers == null then map[] else old(headers.entries), config.value.delegator.value(g.trace)))
      ensures call.Success? && headers != null ==> headers.entries == call.value.headers
    {
      var sent := headers;
      if sent == null {
        sent := new HeaderDict(map[]);
      }
      if config.None? {
        return Failure(ConfigNotSet);
      }
      if config.value.delegator.None? {
        return Failure(DelegatorNotConfigured);
      }
      var header := config.value.delegator.value(g.trace);
      sent.entries := sent.entries[header.0 := header.1];
      call := Success(OutboundCall(verb, url, sent.entries));
    }
  }

  /**
    One request handled by an application bound to the Google Cloud handlers:
    the before-request hook, a handler making one outbound call with the
    caller's headers, and the after-request hook.
   */
  method ServeRequest(tracer: FlaskTracer, g: RequestGlobals, projectId: string, request: HttpRequest,
                      verb: string, url: string, callerHeaders: map<string, string>)
    returns (call: OutboundCall)
    requires tracer.sessionExtractor == Some(UtilTraceHandlers.GcloudTraceExtractor(projectId))
    requires tracer.config.Some? && tracer.config.value.delegator == Some(UtilTraceHandlers.GcloudTraceDelegator())
    modifies g
    ensures call.headers == WithHeader(callerHeaders, UtilTraceHandlers.Delegate(UtilTraceHandlers.Extract(projectId, request)))
    ensures g.trace == None
  {
    tracer.InitSession(g, request);
    ghost var delegated := UtilTraceHandlers.Delegate(UtilTraceHandlers.Extract(projectId, request));
    assert tracer.config.value.delegator.value(g.trace) == delegated;
    var headers := new HeaderDict(callerHeaders);
    var result := tracer.Request(verb, url, headers, g);
    call := result.value;
    assert call.headers == WithHeader(callerHeaders, delegated);
    var _ := tracer.DestroySession(g, Response(200, ""));
  }

  /**
    Two requests served one after the other: each outbound call carries only
    its own request's trace id (the second one none of the first's), and
    `g.trace` is cleared at the end.
   */
  method ServeTwoRequests(projectId: string, first: HttpRequest, second: HttpRequest,
                          verb: string, url: string, callerHeaders: map<string, string>)
    returns (firstCall: OutboundCall, secondCall: OutboundCall, traceAfter: Option<string>)
    ensures firstCall.headers == WithHeader(callerHeaders, UtilTraceHandlers.Delegate(UtilTraceHandlers.Extract(projectId, first)))
    ensures var inbound := GetHeader(second.headers, TraceHeaderName);
      secondCall.headers == WithHeader(callerHeaders,
        (TraceHeaderName, if inbound.None? || inbound.value == "" then "" else FirstSegment(inbound.value)))
    ensures traceAfter == None
  {
    var extractor, delegator := UtilTraceHandlers.GcloudTraceExtractor(projectId), UtilTraceHandlers.GcloudTraceDelegator();
    var tracer := new FlaskTracer();
    var err := tracer.InitApp(Some(FlaskApp("service")), Some(TraceConfig(Some(extractor), Some(delegator))));
    var g := new RequestGlobals();
    firstCall := ServeRequest(tracer, g, projectId, first, verb, url, callerHeaders);
    secondCall := ServeRequest(tracer, g, projectId, second, verb, url, callerHeaders);
    traceAfter := g.trace;
    UtilTraceHandlers.DelegateExtracted(projectId, second);
  }
}
