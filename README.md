# flask-trace-util: Google Cloud trace propagation, modelled in Dafny

This project models how flask-trace-util carries the Google Cloud
`X-Cloud-Trace-Context` header through a Flask service and into its access
log. The model has four parts.

- **The header codec.** An inbound header `<trace-id>/<span-id>;o=<options>`
  becomes the trace resource name `projects/{project_id}/traces/{trace-id}`,
  the text before the first `/`. A stored resource name becomes an outbound
  header value, the text after its last `/`. The codec appears in three
  variants:
  - the log-field helper `extract_gcloud_trace` (module `Util`);
  - the closures of `flask_trace_util/trace_handlers.py`, which read Flask's
    `request` and `g.trace` (module `UtilTraceHandlers`);
  - the older closures of `flask_trace/trace_handlers.py`, which take the
    request and the trace as arguments (module `TraceHandlers`).

  The shared pieces are in `CloudTrace`. Python's `split('/')[0]`,
  `split('/')[-1]`, `lower()` and `replace` are in `Text`. Case-insensitive
  header lookup is in `Http`.
- **`_FlaskTrace`** (module `FlaskTrace`). It is a class whose `InitApp`
  stores the app and config and then checks them in a fixed order. The
  before-request hook sets `g.trace` and the after-request hook clears it.
  `Request` writes the delegated header into the caller's header dictionary
  in place. Flask's `g` is the class `RequestGlobals`, and the caller's
  dictionary is the class `HeaderDict`. `ServeRequest` and `ServeTwoRequests`
  run the hooks and one outbound call per request, with the Google Cloud
  handlers.
- **The gunicorn access logger** (module `GunicornLogger`). `Access` does the
  following:
  - skips excluded routes;
  - builds the format dictionary from the logger's fixed pairs, with loops
    over the request and response headers and the custom variables;
  - writes the custom variables into the WSGI environ (class `Environ`);
  - returns nothing unless access logging is configured;
  - replaces every `"` in string atoms by `'`.

  Each loop is a method proved against a function that specifies it. The
  facts a reader cares about are proved about those functions. The class
  attributes a subclass may override (`_log_format_pairs`, `exclude_routes`,
  and the two header switches) are fields of the logger, with the defaults
  or with a subclass's values (`AccessLogger.Configured`).
- **The Google Cloud custom variable.** `GetCustomVariables` derives the
  `logging.googleapis.com/trace` field from the last request header named
  `X-Cloud-Trace-Context`, in any case.

Two places where the code does something other than what one might expect
from the library's design intent. The model follows the code in both.

- **The caller's header is overwritten.** `request` assigns the delegated
  header after the caller's headers are in place. A caller value under
  `X-Cloud-Trace-Context` is therefore overwritten, not kept
  (`FlaskTrace.WithHeader`, `FlaskTrace.FlaskTracer.Request`).
- **The span and options are dropped.** The outbound header is the inbound
  trace id only. Extraction keeps only the text before the first `/`, and
  delegation re-emits the last segment of the resource name, which is that
  id. A round trip therefore gives back the id segment, not the span and
  options (`CloudTrace.EncodeDecode`, `CloudTrace.WorkedExample`).

The two Flask variants also differ on a missing or empty trace:

| variant | missing trace (`None`) | empty trace (`""`) |
|---|---|---|
| `flask_trace_util` delegator | `X-Cloud-Trace-Context: ""` | `X-Cloud-Trace-Context: ""` |
| `flask_trace` delegator | an error (`TraceIsNone`) | an empty value |

The gunicorn variable and `extract_gcloud_trace` also disagree on an empty
header. The gunicorn variable is still set, to `projects/{id}/traces/`.
`extract_gcloud_trace` gives `""`.

## Model

| member | source | states |
|---|---|---|
| Text.Split | flask_trace_util/util.py:14 | `split` always returns at least one piece, and no piece contains the separator |
| Text.JoinSplit | flask_trace_util/util.py:14 | joining the pieces of a split with the separator gives back the original string |
| Text.SplitJoin | flask_trace_util/util.py:14 | splitting a join of separator-free pieces gives back the pieces |
| Text.FirstSegment | flask_trace_util/util.py:14 | `split('/')[0]` is a prefix with no `/` that is followed by a `/` or ends the string |
| Text.FirstSegmentUnique | flask_trace_util/util.py:14 | that characterisation holds for exactly one string, the result of `split('/')[0]` |
| Text.FirstSegmentBeforeSlash | flask_trace_util/util.py:14 | for `p + "/" + rest` with no `/` in `p`, the first segment is `p`, whatever `rest` is |
| Text.LastSegment | flask_trace_util/trace_handlers.py:32 | `split('/')[-1]` is a suffix with no `/` that is preceded by a `/` or starts the string |
| Text.LastSegmentUnique | flask_trace_util/trace_handlers.py:32 | that characterisation holds for exactly one string, the result of `split('/')[-1]` |
| Text.LastSegmentAfterSlash | flask_trace_util/trace_handlers.py:32 | for `front + "/" + p` with no `/` in `p`, the last segment is `p`, whatever `front` is |
| Text.LowerSpec | flask_trace_util/gunicorn_logger.py:57 | `lower()` keeps the length, turns each capital `A`-`Z` into its lower-case letter (code point plus 32), keeps every other character, and leaves no capital |
| Text.LowerIdempotent | flask_trace_util/gunicorn_logger.py:57 | lower-casing an already lower-cased name changes nothing |
| Text.ReplaceChar | flask_trace_util/gunicorn_logger.py:82 | `replace('"', "'")` keeps the length and rewrites exactly the matching characters, so none is left |
| Http.GetHeader | flask_trace_util/trace_handlers.py:15 | `headers.get` gives `None` exactly when no header has the name in any case; otherwise it gives the value of the first such header |
| CloudTrace.TraceResourceName | flask_trace_util/util.py:14 | the f-string `projects/{project_id}/traces/{id}`: its length, and the positions of `projects/`, the project id, `/traces/` and the id |
| CloudTrace.DecodeTraceHeader | flask_trace_util/trace_handlers.py:15-18 | no name exactly when the header is absent or empty; otherwise the resource name of the text before the first `/` |
| CloudTrace.EncodeTraceName | flask_trace_util/trace_handlers.py:32 | the outbound value is the stored name's text after its last `/` |
| CloudTrace.DecodeNamesInboundId | flask_trace_util/trace_handlers.py:18 | a non-empty header decodes to the resource name of exactly its id segment |
| CloudTrace.ResourceNameEndsWithId | flask_trace_util/trace_handlers.py:32 | encoding `projects/{p}/traces/{id}` gives back `id` for any `/`-free id, whatever `p` holds |
| CloudTrace.EncodeDecode | flask_trace_util/trace_handlers.py:14-35 | round trip: encoding the decoded name of a non-empty header gives the header's text before its first `/`, for every project id |
| CloudTrace.WorkedExample | flask_trace_util/trace_handlers.py:14-35 | `abc123/456;o=1` in project `demo` is stored as `projects/demo/traces/abc123` and re-emitted as `abc123` |
| Util.ExtractGcloudTrace | flask_trace_util/util.py:6-15 | the key is always `logging.googleapis.com/trace`; the value is `""` exactly when the header is `None` or empty; otherwise it is the decoded resource name |
| Util.ExtractGcloudTraceNamesInboundId | flask_trace_util/util.py:13-14 | for a non-empty header the value names its id segment, which holds no `/` and is the whole header when the header has no `/` |
| UtilTraceHandlers.Extract | flask_trace_util/trace_handlers.py:14-18 | `None` exactly when the trace header is absent or empty; otherwise the resource name of its id segment |
| UtilTraceHandlers.GcloudTraceExtractor | flask_trace_util/trace_handlers.py:7-20 | the factory's closure gives, for every request, the extraction for the given project id |
| UtilTraceHandlers.Delegate | flask_trace_util/trace_handlers.py:30-35 | the header is always `X-Cloud-Trace-Context`, never omitted; the value is `""` for a falsy `g.trace`, otherwise the text after its last `/`; it never contains `/` |
| UtilTraceHandlers.GcloudTraceDelegator | flask_trace_util/trace_handlers.py:23-37 | the factory's closure gives, for every `g.trace`, the delegated header described above |
| UtilTraceHandlers.DelegateExtracted | flask_trace_util/trace_handlers.py:14-35 | delegating what was extracted gives the inbound header's id segment, or `""` without a usable header; the project id has no effect |
| TraceHandlers.Extract | flask_trace/trace_handlers.py:13-17 | the extractor is the codec's decoding of the request's trace header |
| TraceHandlers.GcloudTraceExtractor | flask_trace/trace_handlers.py:6-19 | the factory's closure gives, for every request passed to it, the extraction for the given project id |
| TraceHandlers.ExtractReadsOnlyTraceHeader | flask_trace/trace_handlers.py:13-17 | two requests with the same trace header value give the same trace |
| TraceHandlers.Delegate | flask_trace/trace_handlers.py:29-31 | fails exactly on a `None` trace (no fallback); otherwise `("X-Cloud-Trace-Context", text after the last "/")` |
| TraceHandlers.GcloudTraceDelegator | flask_trace/trace_handlers.py:22-33 | the factory's closure gives, for every trace passed to it, the result described above |
| TraceHandlers.DelegateExtracted | flask_trace/trace_handlers.py:13-31 | for a non-empty inbound header, `delegator(extractor(req))` is the header's text before its first `/` |
| TraceHandlers.DelegateWithoutInboundHeader | flask_trace/trace_handlers.py:13-31 | without a usable inbound header the extracted `None` makes this delegator fail |
| FlaskTrace.WithHeader | flask_trace_util/flask_trace.py:63 | the delegated header is set, overwriting a caller value; every other header is kept and at most one name is added |
| FlaskTrace.FlaskTracer.constructor | flask_trace_util/flask_trace.py:9-11 | app and config start as `None`, and no hooks are registered |
| FlaskTrace.FlaskTracer.InitApp | flask_trace_util/flask_trace.py:13-41 | app and config are stored even on failure; it fails on `app`, then `config`, then "extractor", then "delegator", each exactly when it is the first missing; the hooks are registered only on success |
| FlaskTrace.FlaskTracer.InitSession | flask_trace_util/flask_trace.py:39-41 | the before-request hook sets `g.trace` to the extractor's result for the request |
| FlaskTrace.FlaskTracer.DestroySession | flask_trace_util/flask_trace.py:43-48 | the after-request hook sets `g.trace` to `None` and returns the response unchanged |
| FlaskTrace.FlaskTracer.Request | flask_trace_util/flask_trace.py:50-64 | an error on a missing config or delegator; otherwise the call carries the caller's headers (or an empty dictionary) with the delegated header written in, and the caller's dictionary is that same updated dictionary |
| FlaskTrace.ServeRequest | flask_trace_util/flask_trace.py:39-64 | with the Google Cloud handlers, the outbound call carries the caller's headers plus the delegation of the request's own extracted trace, and `g.trace` is `None` afterwards |
| FlaskTrace.ServeTwoRequests | flask_trace_util/flask_trace.py:13-64 | after `init_app`, each of two consecutive requests propagates only its own inbound id segment (or `""`), and `g.trace` ends cleared |
| GunicornLogger.HeaderFormats | flask_trace_util/gunicorn_logger.py:54-62 | the header dictionary's keys are exactly the lower-cased header names, each mapped to `%({name}i)s` or `%({name}o)s` |
| GunicornLogger.CollectHeaderFormats | flask_trace_util/gunicorn_logger.py:54-62 | the header loop builds exactly that dictionary |
| GunicornLogger.LogFormatPairsSpec | flask_trace_util/gunicorn_logger.py:21-33 | every fixed field is a plain placeholder; `timestamp` renders the atom `t`; neither header dictionary is among the fixed fields |
| GunicornLogger.BaseFormatSpec | flask_trace_util/gunicorn_logger.py:53-62 | the copy of the fixed pairs gains exactly `request_headers` and `response_headers` when enabled, each the header dictionary; every other pair is kept |
| GunicornLogger.CollectBaseFormat | flask_trace_util/gunicorn_logger.py:53-62 | the copy and the two header loops build exactly that dictionary |
| GunicornLogger.WithCustomFormatsSpec | flask_trace_util/gunicorn_logger.py:64-67 | the custom variables add exactly their lower-cased names, each mapped to `%({lower(k)}e)s`; other entries are kept |
| GunicornLogger.WithCustomVariablesSpec | flask_trace_util/gunicorn_logger.py:64-68 | the environ gains exactly the lower-cased variable names, and other entries keep their values |
| GunicornLogger.RegisterCustomVariables | flask_trace_util/gunicorn_logger.py:64-68 | the custom-variable loop gives exactly those format entries and writes exactly those environ entries |
| GunicornLogger.CustomVariablesLastWins | flask_trace_util/gunicorn_logger.py:66-68 | of two variables with the same lower-cased name, the environ keeps the later one's value |
| GunicornLogger.LastHeaderValueSpec | flask_trace_util/gunicorn_logger.py:115-120 | the trace loop finds a value exactly when some header matches the name in any case, and then it is the value of the last such header |
| GunicornLogger.TraceVariables | flask_trace_util/gunicorn_logger.py:108-121 | the Google Cloud variables hold at most one entry, always under `logging.googleapis.com/trace` |
| GunicornLogger.CustomVariables | flask_trace_util/gunicorn_logger.py:35-45 | the base class has no custom variables; in every case there is at most one, named `logging.googleapis.com/trace` |
| GunicornLogger.TraceVariablesSpec | flask_trace_util/gunicorn_logger.py:108-121 | `{}` exactly when no header is `X-Cloud-Trace-Context` in any case; otherwise the one trace field naming the last such header's id segment |
| GunicornLogger.TraceVariablesAgreeWithLogField | flask_trace_util/gunicorn_logger.py:114-120 | for a non-empty header the variable equals `extract_gcloud_trace`'s field; for an empty one it is `projects/{id}/traces/`, where that helper gives `""` |
| GunicornLogger.AccessFormatSpec | flask_trace_util/gunicorn_logger.py:53-68 | for any fixed pairs, the format's keys are exactly the fixed keys, the enabled header dictionaries and the custom variables' names; each fixed pair nothing later replaces is kept; each enabled header dictionary is present unless a custom variable replaces it; every custom variable has its placeholder |
| GunicornLogger.AccessLogEnabledCases | flask_trace_util/gunicorn_logger.py:71-77 | any of `accesslog`, `logconfig` or `logconfig_dict` enables logging on its own; without them, syslog enables it exactly when redirection to syslog is not disabled; with none set nothing is logged |
| GunicornLogger.SanitizeAtom | flask_trace_util/gunicorn_logger.py:80-82 | a string atom loses every `"`, each replaced by `'` in place, so its length is kept; other atoms are unchanged |
| GunicornLogger.SanitizeAtoms | flask_trace_util/gunicorn_logger.py:80-82 | the rewriting loop sanitises every atom, whatever order it takes the keys in, and leaves no `"` in any string atom |
| GunicornLogger.AccessLogger.constructor | flask_trace_util/gunicorn_logger.py:18-33 | the class defaults: the eleven fixed pairs, the excluded routes `["/"]`, and both header dictionaries enabled |
| GunicornLogger.AccessLogger.Configured | flask_trace_util/gunicorn_logger.py:18-33 | a subclass's own fixed pairs, excluded routes and header switches, as given |
| GunicornLogger.AccessLogger.GetCustomVariables | flask_trace_util/gunicorn_logger.py:108-121 | the header loop returns the custom variables: none for the base class (line 45), the trace field of the last matching header for Google Cloud |
| GunicornLogger.AccessLogger.Access | flask_trace_util/gunicorn_logger.py:47-88 | an excluded route logs nothing and leaves the environ unchanged; otherwise the environ gains the custom variables, and the entry is the full format (built from the logger's own fixed pairs and switches) with the sanitised atoms (with `t` set) when logging is configured, and nothing otherwise |

## Left out

- The outbound transport `requests.request` is not modelled. `Request` returns the arguments it would pass (`OutboundCall`), and transport errors are not modelled.
- The metadata-server lookup of the Google Cloud project id is not modelled. The id is a parameter (`Variant.GCloud`).
- Flask itself is not modelled: its routing, its hook registry and its request-local storage. `g` is one `RequestGlobals` object passed explicitly, so per-request thread isolation is not modelled.
- Reading `g.trace` before any before-request hook has run raises `AttributeError` in Python. The model starts `g.trace` at `None`.
- Calling `init_app` twice registers the hooks twice in Flask. The model keeps only the latest successful registration's extractor.
- The `request` keyword arguments other than `headers` are not modelled, and neither is an explicit `headers=None`. The caller's dictionary is a `HeaderDict` or `null` for "no headers argument".
- The extractor and delegator in a config are the two Google Cloud closures, or any function of the same shape. A config is a record of two optional fields, so a config without the key is `None`.
- `json.dumps` of the format dictionary is not modelled, and neither is the order of its keys. The format is a map.
- The logging sink is not modelled: `access_log.info` and the `traceback` error path.
- gunicorn's `self.atoms` and `atoms_wrapper_class` are not modelled. The atoms come from the `atomsOf` parameter, applied to the updated environ.
- `datetime.utcnow()` is not modelled. The rendered time is the `now` parameter.
- The `hasattr(self, "get_custom_variables")` test is not modelled, because it always holds.
- The custom-variable dictionary is a sequence of (name, value) pairs in insertion order. The Google Cloud loop only ever holds its one key.
- Http.GetHeader: a header sent on several lines is taken from its first line. The WSGI server behind Flask's `request.headers` joins repeated lines with `,` instead, so `X-Cloud-Trace-Context: a` and `x-cloud-trace-context: b/1` give the id `a,b` there and `a` here. Requests whose header names are unique behave the same. This applies to both Flask variants' extractors.
- Text.Lower: only ASCII letters are lower-cased. Python's `str.lower` also folds non-ASCII letters.
- `flask_trace_util/flask_trace_v2.py` is not part of this model. It is unfinished and does not parse, and its header loop repeats the one in `flask_trace.py`.
- `flask_trace_util/__init__.py` is not part of this model. It only wires names, some of which `flask_trace.py` does not define.
- `setup.py` is not part of this model. It is packaging metadata only.
