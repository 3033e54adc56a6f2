/**
  `flask_trace_util/gunicorn_logger.py`: a gunicorn access logger that writes
  one JSON entry per request. `access` builds the format dictionary (eleven
  fixed fields, the request and response headers, and the custom variables,
  which it also stores in the WSGI environ), skips excluded routes and
  unconfigured logging, and replaces every `"` in string atoms by `'`. The
  Google Cloud subclass adds the `logging.googleapis.com/trace` variable.
 */
module GunicornLogger {
  import opened Wrappers
  import opened Text
  import opened Http
  import opened CloudTrace
  import Util

  /** A value of the format dictionary: a `%(...)s` placeholder, or a dictionary of them. */
  datatype FormatValue = Leaf(placeholder: string) | Group(entries: map<string, string>)

  type LogFormat = map<string, FormatValue>

  /** A value of gunicorn's atoms dictionary; only string atoms are rewritten. */
  datatype AtomValue = StrAtom(s: string) | IntAtom(n: int)

  datatype Response = Response(status: int, headers: seq<Header>)

  /** Whether each gunicorn setting that `access` consults is set (truthy). */
  datatype LogSettings = LogSettings(
    accesslog: bool, logconfig: bool, logconfigDict: bool,
    syslog: bool, disableRedirectAccessToSyslog: bool)

  /** Whose `get_custom_variables` runs: the base class's, or the Google Cloud subclass's with its project id. */
  datatype Variant = Plain | GCloud(projectId: string)

  /** What `access` did with one request. */
  datatype AccessEntry =
    | Excluded
    | NotLogged
    | Logged(format: LogFormat, atoms: map<string, AtomValue>)

  /** The WSGI environ of the request, which `access` updates in place. */
  class Environ {
    var vars: map<string, string>

    constructor(vars: map<string, string>)
      ensures this.vars == vars
    {
      this.vars := vars;
    }
  }

  /** `_log_format_pairs`: the eleven fixed fields of every entry and their gunicorn atoms. */
  const LogFormatPairs: LogFormat := map[
    "remote_address" := Leaf("%(h)s"),
    "timestamp" := Leaf("%(t)s"),
    "message" := Leaf("%(r)s"),
    "path" := Leaf("%(U)s"),
    "query" := Leaf("%(q)s"),
    "status" := Leaf("%(s)s"),
    "response_size" := Leaf("%(B)s"),
    "referer" := Leaf("%(f)s"),
    "user_agent" := Leaf("%(a)s"),
    "request_time" := Leaf("%(L)s"),
    "method" := Leaf("%(m)s")
  ]

  /** `exclude_routes`. */
  const DefaultExcludeRoutes: seq<string> := ["/"]

  /** `f"%({{{key}}}{kind})s"`: gunicorn's placeholder for a request header (`i`), response header (`o`) or environ variable (`e`). */
  function Placeholder(key: string, kind: char): string
  {
    "%({" + key + "}" + [kind] + ")s"
  }

  /** The lower-cased names of the headers. */
  function HeaderNames(headers: seq<Header>): set<string>
  {
    set i | 0 <= i < |headers| :: Lower(headers[i].name)
  }

  lemma HeaderNamesOfFront(headers: seq<Header>)
    requires headers != []
    ensures HeaderNames(headers) == HeaderNames(headers[..|headers| - 1]) + {Lower(headers[|headers| - 1].name)}
  {
  }

  /** The dictionary the header loop builds: one placeholder per lower-cased header name. */
  function HeaderFormats(headers: seq<Header>, kind: char): (m: map<string, string>)
    ensures m.Keys == HeaderNames(headers)
    ensures forall k :: k in m ==> m[k] == Placeholder(k, kind)
    decreases |headers|
  {
    if headers == [] then map[]
    else
      var key := Lower(headers[|headers| - 1].name);
      HeaderNamesOfFront(headers);
      HeaderFormats(headers[..|headers| - 1], kind)[key := Placeholder(key, kind)]
  }

  /** The lower-cased names of the custom variables. */
  function LoweredKeys(cvars: seq<(string, string)>): set<string>
  {
    set i | 0 <= i < |cvars| :: Lower(cvars[i].0)
  }

  lemma LoweredKeysOfFront(cvars: seq<(string, string)>)
    requires cvars != []
    ensures LoweredKeys(cvars) == LoweredKeys(cvars[..|cvars| - 1]) + {Lower(cvars[|cvars| - 1].0)}
  {
  }

  /** The format entries the custom-variable loop adds, in the order of the variables. */
  function WithCustomFormats(format: LogFormat, cvars: seq<(string, string)>): LogFormat
    decreases |cvars|
  {
    if cvars == [] then format
    else
      var key := Lower(cvars[|cvars| - 1].0);
      WithCustomFormats(format, cvars[..|cvars| - 1])[key := Leaf(Placeholder(key, 'e'))]
  }

  /** The custom variables add exactly their lower-cased names, each mapped to `%({name}e)s`; other entries are kept. */
  lemma {:induction false} WithCustomFormatsSpec(format: LogFormat, cvars: seq<(string, string)>)
    ensures WithCustomFormats(format, cvars).Keys == format.Keys + LoweredKeys(cvars)
    ensures forall k :: k in LoweredKeys(cvars) ==>
      k in WithCustomFormats(format, cvars) && WithCustomFormats(format, cvars)[k] == Leaf(Placeholder(k, 'e'))
    ensures forall k :: k in format && k !in LoweredKeys(cvars) ==>
      k in WithCustomFormats(format, cvars) && WithCustomFormats(format, cvars)[k] == format[k]
    decreases |cvars|
  {
    if cvars != [] {
      WithCustomFormatsSpec(format, cvars[..|cvars| - 1]);
      LoweredKeysOfFront(cvars);
    }
  }

  /** No later variable has the same lower-cased name as the `i`-th. */
  ghost predicate LastOfItsKey(cvars: seq<(string, string)>, i: int)
    requires 0 <= i < |cvars|
  {
    forall j :: i < j < |cvars| ==> Lower(cvars[j].0) != Lower(cvars[i].0)
  }

  /** The environ the custom-variable loop leaves: each lower-cased name set to its value, in order. */
  function WithCustomVariables(environ: map<string, string>, cvars: seq<(string, string)>): map<string, string>
    decreases |cvars|
  {
    if cvars == [] then environ
    else WithCustomVariables(environ, cvars[..|cvars| - 1])[Lower(cvars[|cvars| - 1].0) := cvars[|cvars| - 1].1]
  }

  /** The environ gains exactly the lower-cased variable names; other entries keep their values. */
  lemma {:induction false} WithCustomVariablesSpec(environ: map<string, string>, cvars: seq<(string, string)>)
    ensures WithCustomVariables(environ, cvars).Keys == environ.Keys + LoweredKeys(cvars)
    ensures forall k :: k in environ && k !in LoweredKeys(cvars) ==>
      k in WithCustomVariables(environ, cvars) && WithCustomVariables(environ, cvars)[k] == environ[k]
    decreases |cvars|
  {
    if cvars != [] {
      WithCustomVariablesSpec(environ, cvars[..|cvars| - 1]);
      LoweredKeysOfFront(cvars);
    }
  }

  /** When two variables share a lower-cased name, the later one's value is the one the environ keeps. */
  lemma {:induction false} CustomVariablesLastWins(environ: map<string, string>, cvars: seq<(string, string)>, i: int)
    requires 0 <= i < |cvars| && LastOfItsKey(cvars, i)
    ensures Lower(cvars[i].0) in WithCustomVariables(environ, cvars)
      && WithCustomVariables(environ, cvars)[Lower(cvars[i].0)] == cvars[i].1
    decreases |cvars|
  {
    var n := |cvars|;
    if i < n - 1 {
      var front := cvars[..n - 1];
      assert Lower(cvars[n - 1].0) != Lower(cvars[i].0);
      assert forall j :: 0 <= j < |front| ==> front[j] == cvars[j];
      assert LastOfItsKey(front, i);
      CustomVariablesLastWins(environ, front, i);
    }
  }

  /** The value of the last header called `name`, ignoring case, as the Google Cloud loop sees it. */
  function LastHeaderValue(headers: seq<Header>, name: string): Option<string>
    decreases |headers|
  {
    if headers == [] then None
    else if NameIs(headers[|headers| - 1], name) then Some(headers[|headers| - 1].value)
    else LastHeaderValue(headers[..|headers| - 1], name)
  }

  /** `LastHeaderValue` finds a header exactly when there is one, and no matching header follows the one it finds. */
  lemma {:induction false} LastHeaderValueSpec(headers: seq<Header>, name: string)
    ensures LastHeaderValue(headers, name).None? <==> forall i :: 0 <= i < |headers| ==> !NameIs(headers[i], name)
    ensures LastHeaderValue(headers, name).Some? ==>
      exists i :: 0 <= i < |headers| && NameIs(headers[i], name)
        && headers[i].value == LastHeaderValue(headers, name).value
        && forall j :: i < j < |headers| ==> !NameIs(headers[j], name)
    decreases |headers|
  {
    if headers != [] {
      var n := |headers|;
      var front := headers[..n - 1];
      assert forall i :: 0 <= i < n - 1 ==> front[i] == headers[i];
      if NameIs(headers[n - 1], name) {
        assert LastHeaderValue(headers, name) == Some(headers[n - 1].value);
      } else {
        assert LastHeaderValue(headers, name) == LastHeaderValue(front, name);
        LastHeaderValueSpec(front, name);
        if LastHeaderValue(front, name).Some? {
          var i :| 0 <= i < n - 1 && NameIs(front[i], name) && front[i].value == LastHeaderValue(front, name).value
            && forall j :: i < j < n - 1 ==> !NameIs(front[j], name);
          assert NameIs(headers[i], name) && headers[i].value == LastHeaderValue(headers, name).value;
        }
      }
    }
  }

  /** The custom variables of the Google Cloud logger. */
  function TraceVariables(projectId: string, headers: seq<Header>): (cvars: seq<(string, string)>)
    ensures |cvars| <= 1
    ensures forall i :: 0 <= i < |cvars| ==> cvars[i].0 == TraceLogField
  {
    match LastHeaderValue(headers, TraceHeaderName)
    case None => []
    case Some(value) => [(TraceLogField, TraceResourceName(projectId, FirstSegment(value)))]
  }

  /** What `get_custom_variables` returns for each class. */
  function CustomVariables(variant: Variant, request: HttpRequest): (cvars: seq<(string, string)>)
    ensures variant.Plain? ==> cvars == []
    ensures |cvars| <= 1
    ensures forall i :: 0 <= i < |cvars| ==> cvars[i].0 == TraceLogField
  {
    match variant
    case Plain => []
    case GCloud(projectId) => TraceVariables(projectId, request.headers)
  }

  /**
    The Google Cloud variables: none when no header is named
    `X-Cloud-Trace-Context` in any case; otherwise the one trace field, named
    after the text before the first `/` of the last such header.
   */
  lemma TraceVariablesSpec(projectId: string, headers: seq<Header>)
    ensures TraceVariables(projectId, headers) == [] <==>
      forall i :: 0 <= i < |headers| ==> !NameIs(headers[i], TraceHeaderName)
    ensures TraceVariables(projectId, headers) != [] ==>
      exists i :: 0 <= i < |headers| && NameIs(headers[i], TraceHeaderName)
        && (forall j :: i < j < |headers| ==> !NameIs(headers[j], TraceHeaderName))
        && TraceVariables(projectId, headers) ==
             [(TraceLogField, TraceResourceName(projectId, FirstSegment(headers[i].value)))]
  {
    LastHeaderValueSpec(headers, TraceHeaderName);
  }

  /**
    For a non-empty trace header the Google Cloud variable is the field that
    `extract_gcloud_trace` gives; for an empty one it is still set, to the
    name with an empty trace id, where `extract_gcloud_trace` gives `""`.
   */
  lemma TraceVariablesAgreeWithLogField(projectId: string, headers: seq<Header>, value: string)
    requires LastHeaderValue(headers, TraceHeaderName) == Some(value)
    ensures value != "" ==> TraceVariables(projectId, headers) == [Util.ExtractGcloudTrace(Some(value), projectId)]
    ensures value == "" ==>
      TraceVariables(projectId, headers) == [(TraceLogField, "projects/" + projectId + "/traces/")]
      && Util.ExtractGcloudTrace(Some(value), projectId) == (TraceLogField, "")
  {
    if value == "" {
      assert FirstSegment(value) == "";
      assert TraceResourceName(projectId, "") == "projects/" + projectId + "/traces/" + "";
      assert "projects/" + projectId + "/traces/" + "" == "projects/" + projectId + "/traces/";
    }
  }

  /** The format dictionary before the custom variables: a copy of `pairs` with the enabled header dictionaries. */
  function BaseFormat(pairs: LogFormat, includeRequestHeaders: bool, includeResponseHeaders: bool,
                      request: HttpRequest, response: Response): LogFormat
  {
    var withRequest :=
      if includeRequestHeaders then pairs["request_headers" := Group(HeaderFormats(request.headers, 'i'))]
      else pairs;
    if includeResponseHeaders then withRequest["response_headers" := Group(HeaderFormats(response.headers, 'o'))]
    else withRequest
  }

  /** The copy of the fixed pairs gains exactly the enabled header dictionaries; every other pair is kept. */
  lemma BaseFormatSpec(pairs: LogFormat, includeRequestHeaders: bool, includeResponseHeaders: bool,
                       request: HttpRequest, response: Response)
    ensures var base := BaseFormat(pairs, includeRequestHeaders, includeResponseHeaders, request, response);
      && base.Keys == pairs.Keys
           + (if includeRequestHeaders then {"request_headers"} else {})
           + (if includeResponseHeaders then {"response_headers"} else {})
      && (forall k ::
            (k in pairs
             && !(includeRequestHeaders && k == "request_headers")
             && !(includeResponseHeaders && k == "response_headers")) ==> base[k] == pairs[k])
      && (includeRequestHeaders ==> base["request_headers"] == Group(HeaderFormats(request.headers, 'i')))
      && (includeResponseHeaders ==> base["response_headers"] == Group(HeaderFormats(response.headers, 'o')))
  {
  }

  /** The whole format dictionary `access` renders. */
  function AccessFormat(pairs: LogFormat, includeRequestHeaders: bool, includeResponseHeaders: bool, variant: Variant,
                        request: HttpRequest, response: Response): LogFormat
  {
    WithCustomFormats(BaseFormat(pairs, includeRequestHeaders, includeResponseHeaders, request, response),
                      CustomVariables(variant, request))
  }

  /**
    What the format dictionary holds: exactly the keys of the fixed pairs, of
    the enabled header dictionaries and of the custom variables; each fixed
    pair that nothing later replaces; the header dictionaries when enabled
    and not replaced by a custom variable; and a placeholder `%({name}e)s`
    for every custom variable.
   */
  lemma AccessFormatSpec(pairs: LogFormat, includeRequestHeaders: bool, includeResponseHeaders: bool, variant: Variant,
                         request: HttpRequest, response: Response)
    ensures var format := AccessFormat(pairs, includeRequestHeaders, includeResponseHeaders, variant, request, response);
      var custom := LoweredKeys(CustomVariables(variant, request));
      && format.Keys == pairs.Keys
           + (if includeRequestHeaders then {"request_headers"} else {})
           + (if includeResponseHeaders then {"response_headers"} else {})
           + custom
      && (forall k ::
            (k in pairs && k !in custom
             && !(includeRequestHeaders && k == "request_headers")
             && !(includeResponseHeaders && k == "response_headers")) ==> format[k] == pairs[k])
      && (includeRequestHeaders && "request_headers" !in custom ==>
            format["request_headers"] == Group(HeaderFormats(request.headers, 'i')))
      && (includeResponseHeaders && "response_headers" !in custom ==>
            format["response_headers"] == Group(HeaderFormats(response.headers, 'o')))
      && (forall k :: k in custom ==> format[k] == Leaf(Placeholder(k, 'e')))
  {
    BaseFormatSpec(pairs, includeRequestHeaders, includeResponseHeaders, request, response);
    WithCustomFormatsSpec(BaseFormat(pairs, includeRequestHeaders, includeResponseHeaders, request, response),
                          CustomVariables(variant, request));
  }

  /**
    The fixed fields are plain placeholders; neither header dictionary is
    among them, and `timestamp` renders the atom `t` that `access` overwrites.
   */
  lemma LogFormatPairsSpec()
    ensures forall k :: k in LogFormatPairs ==> LogFormatPairs[k].Leaf?
    ensures "timestamp" in LogFormatPairs && LogFormatPairs["timestamp"] == Leaf("%(t)s")
    ensures "request_headers" !in LogFormatPairs && "response_headers" !in LogFormatPairs
  {
  }

  /** Nothing is logged unless an access log, a logging configuration, or syslog with access redirection is set. */
  predicate AccessLogEnabled(settings: LogSettings)
  {
    settings.accesslog || settings.logconfig || settings.logconfigDict
    || (settings.syslog && !settings.disableRedirectAccessToSyslog)
  }

  /**
    Any of the access log, the logging configuration or the configuration
    dictionary enables logging on its own; without them, syslog enables it
    exactly when access redirection to syslog is not disabled.
   */
  lemma AccessLogEnabledCases(settings: LogSettings)
    ensures settings.accesslog || settings.logconfig || settings.logconfigDict ==> AccessLogEnabled(settings)
    ensures !settings.accesslog && !settings.logconfig && !settings.logconfigDict ==>
      (AccessLogEnabled(settings) <==> settings.syslog && !settings.disableRedirectAccessToSyslog)
    ensures AccessLogEnabled(settings) ==>
      settings.accesslog || settings.logconfig || settings.logconfigDict || settings.syslog
  {
  }

  /** One atom after the quote rewriting: `"` becomes `'` in strings; other atoms are kept. */
  function SanitizeAtom(atom: AtomValue): (r: AtomValue)
    ensures r.StrAtom? <==> atom.StrAtom?
    ensures r.IntAtom? ==> r == atom
    ensures r.StrAtom? ==>
      && '"' !in r.s
      && |r.s| == |atom.s|
      && (forall i :: 0 <= i < |atom.s| ==> r.s[i] == if atom.s[i] == '"' then '\'' else atom.s[i])
  {
    match atom
    case StrAtom(s) => if '"' in s then StrAtom(ReplaceChar(s, '"', '\'')) else atom
    case IntAtom(_) => atom
  }

  function SanitizedAtoms(atoms: map<string, AtomValue>): map<string, AtomValue>
  {
    map k | k in atoms :: SanitizeAtom(atoms[k])
  }

  /** The rewriting loop over the atoms; the order of the keys does not matter. */
  method SanitizeAtoms(atoms: map<string, AtomValue>) returns (safe: map<string, AtomValue>)
    ensures safe == SanitizedAtoms(atoms)
    ensures forall k :: k in safe && safe[k].StrAtom? ==> '"' !in safe[k].s
  {
    safe := atoms;
    var pending := atoms.Keys;
    while pending != {}
      invariant pending <= atoms.Keys && safe.Keys == atoms.Keys
      invariant forall k :: k in atoms ==> safe[k] == if k in pending then atoms[k] else SanitizeAtom(atoms[k])
      decreases pending
    {
      var k :| k in pending;
      match safe[k] {
        case StrAtom(s) =>
          if '"' in s {
            safe := safe[k := StrAtom(ReplaceChar(s, '"', '\''))];
          }
        case IntAtom(_) =>
      }
      pending := pending - {k};
    }
  }

  /** The header loop of `access`. */
  method CollectHeaderFormats(headers: seq<Header>, kind: char) returns (formats: map<string, string>)
    ensures formats == HeaderFormats(headers, kind)
  {
    formats := map[];
    for i := 0 to |headers|
      invariant formats == HeaderFormats(headers[..i], kind)
    {
      var key := Lower(headers[i].name);
      formats := formats[key := Placeholder(key, kind)];
      assert headers[..i + 1][..i] == headers[..i];
    }
    assert headers[..|headers|] == headers;
  }

  /** The copy of the fixed pairs and the header loops of `access`. */
  method CollectBaseFormat(pairs: LogFormat, includeRequestHeaders: bool, includeResponseHeaders: bool,
                           request: HttpRequest, response: Response) returns (format: LogFormat)
    ensures format == BaseFormat(pairs, includeRequestHeaders, includeResponseHeaders, request, response)
  {
    format := pairs;
    if includeRequestHeaders {
      var requestHeaders := CollectHeaderFormats(request.headers, 'i');
      format := format["request_headers" := Group(requestHeaders)];
    }
    if includeResponseHeaders {
      var responseHeaders := CollectHeaderFormats(response.headers, 'o');
      format := format["response_headers" := Group(responseHeaders)];
    }
  }

  /** The custom-variable loop of `access`: each variable gets a format entry and is written into the environ. */
  method RegisterCustomVariables(base: LogFormat, cvars: seq<(string, string)>, environ: Environ)
    returns (format: LogFormat)
    modifies environ
    ensures format == WithCustomFormats(base, cvars)
    ensures environ.vars == WithCustomVariables(old(environ.vars), cvars)
  {
    format := base;
    for i := 0 to |cvars|
      invariant format == WithCustomFormats(base, cvars[..i])
      invariant environ.vars == WithCustomVariables(old(environ.vars), cvars[..i])
    {
      ghost var seen := cvars[..i + 1];
      assert seen[..|seen| - 1] == cvars[..i] && seen[|seen| - 1] == cvars[i];
      var key := Lower(cvars[i].0);
      format := format[key := Leaf(Placeholder(key, 'e'))];
      environ.vars := environ.vars[key := cvars[i].1];
    }
    assert cvars[..|cvars|] == cvars;
  }

  /** `GunicornLogger`, or `GCloudGunicornAccesLogger` when the variant is `GCloud`. */
  class AccessLogger {
    const logFormatPairs: LogFormat
    const excludeRoutes: seq<string>
    const includeRequestHeaders: bool
    const includeResponseHeaders: bool
    const settings: LogSettings
    const variant: Variant

    /** The class attributes' defaults; the Google Cloud project id is given rather than fetched. */
    constructor(settings: LogSettings, variant: Variant)
      ensures logFormatPairs == LogFormatPairs && excludeRoutes == DefaultExcludeRoutes
      ensures includeRequestHeaders && includeResponseHeaders
      ensures this.settings == settings && this.variant == variant
    {
      logFormatPairs, excludeRoutes := LogFormatPairs, DefaultExcludeRoutes;
      includeRequestHeaders, includeResponseHeaders := true, true;
      this.settings, this.variant := settings, variant;
    }

    /**
      A subclass that overrides the class attributes `_log_format_pairs`,
      `exclude_routes`, `include_request_headers` and `include_response_headers`.
     */
    constructor Configured(logFormatPairs: LogFormat, excludeRoutes: seq<string>,
                           includeRequestHeaders: bool, includeResponseHeaders: bool,
                           settings: LogSettings, variant: Variant)
      ensures this.logFormatPairs == logFormatPairs && this.excludeRoutes == excludeRoutes
      ensures this.includeRequestHeaders == includeRequestHeaders && this.includeResponseHeaders == includeResponseHeaders
      ensures this.settings == settings && this.variant == variant
    {
      this.logFormatPairs, this.excludeRoutes := logFormatPairs, excludeRoutes;
      this.includeRequestHeaders, this.includeResponseHeaders := includeRequestHeaders, includeResponseHeaders;
      this.settings, this.variant := settings, variant;
    }

    /** `get_custom_variables(resp, req)`: nothing for the base class, the trace field for Google Cloud. */
    method GetCustomVariables(resp: Response, req: HttpRequest) returns (cvars: seq<(string, string)>)
      ensures cvars == CustomVariables(variant, req)
    {
      match variant
      case Plain =>
        cvars := [];
      case GCloud(projectId) =>
        cvars := [];
        for i := 0 to |req.headers|
          invariant cvars == TraceVariables(projectId, req.headers[..i])
        {
          var header := req.headers[i];
          ghost var seen := req.headers[..i + 1];
          assert seen[..i] == req.headers[..i] && seen[i] == header;
          if Lower(header.name) == Lower(TraceHeaderName) {
            // the dictionary only ever holds this one key: assigning it replaces the entry
            cvars := [(TraceLogField, TraceResourceName(projectId, FirstSegment(header.value)))];
          }
        }
        assert req.headers[..|req.headers|] == req.headers;
    }

    /**
      `access(resp, req, environ, request_time)`. `atomsOf` is gunicorn's
      `self.atoms` for this request, applied to the environ as it stands, and
      `now` the rendered clock. An excluded route changes nothing; otherwise
      the custom variables go into the environ and, if access logging is
      configured, the entry is written with the rewritten atoms.
     */
    method Access(resp: Response, req: HttpRequest, environ: Environ,
                  atomsOf: map<string, string> -> map<string, AtomValue>, now: string)
      returns (entry: AccessEntry)
      modifies environ
      ensures req.path in excludeRoutes ==> entry == Excluded && environ.vars == old(environ.vars)
      ensures req.path !in excludeRoutes ==>
        environ.vars == WithCustomVariables(old(environ.vars), CustomVariables(variant, req))
      ensures req.path !in excludeRoutes ==>
        entry == if AccessLogEnabled(settings)
          then Logged(AccessFormat(logFormatPairs, includeRequestHeaders, includeResponseHeaders, variant, req, resp),
                      SanitizedAtoms(atomsOf(environ.vars)["t" := StrAtom(now)]))
          else NotLogged
    {
      if req.path in excludeRoutes {
        return Excluded;
      }
      var format := CollectBaseFormat(logFormatPairs, includeRequestHeaders, includeResponseHeaders, req, resp);
      var cvars := GetCustomVariables(resp, req);
      format := RegisterCustomVariables(format, cvars, environ);
      if !AccessLogEnabled(settings) {
        return NotLogged;
      }
      var atoms := atomsOf(environ.vars);
      atoms := atoms["t" := StrAtom(now)];
      var safe := SanitizeAtoms(atoms);
      entry := Logged(format, safe);
    }
  }
}
