/**
  `flask_trace_util/trace_handlers.py`: the extractor and delegator factories
  for Google Cloud. The closures they return read Flask's `request` and
  `g.trace`; here those are passed in.
 */
module UtilTraceHandlers {
  import opened Wrappers
  import opened Text
  import opened Http
  import opened CloudTrace

  /** The extractor closure: the trace resource name of the request's trace header, if it has a non-empty one. */
  function Extract(projectId: string, request: HttpRequest): (trace: Option<string>)
    ensures trace.None? <==> GetHeader(request.headers, TraceHeaderName) in {None, Some("")}
    ensures trace.Some? ==> trace == DecodeTraceHeader(GetHeader(request.headers, TraceHeaderName), projectId)
  {
    var header := GetHeader(request.headers, TraceHeaderName);
    if header.None? || header.value == "" then None
    else Some(TraceResourceName(projectId, FirstSegment(header.value)))
  }

  /** `gcloud_trace_extractor(project_id)`. */
  function GcloudTraceExtractor(projectId: string): (extractor: HttpRequest -> Option<string>)
    ensures forall request :: extractor(request) == Extract(projectId, request)
  {
    request => Extract(projectId, request)
  }

  /**
    The delegator closure, given `g.trace`: the header `X-Cloud-Trace-Context`,
    always present, whose value is the stored name's text after its last `/`,
    or `""` when nothing (or an empty string) is stored.
   */
  function Delegate(trace: Option<string>): (header: (string, string))
    ensures header.0 == TraceHeaderName
    ensures trace.None? || trace.value == "" ==> header.1 == ""
    ensures trace.Some? && trace.value != "" ==> IsLastSegment(trace.value, header.1)
    ensures '/' !in header.1
  {
    if trace.Some? && trace.value != "" then
      var value := LastSegment(trace.value);
      (TraceHeaderName, value)
    else
      (TraceHeaderName, "")
  }

  /** `gcloud_trace_delegator()`. */
  function GcloudTraceDelegator(): (delegator: Option<string> -> (string, string))
    ensures forall trace :: delegator(trace) == Delegate(trace)
  {
    trace => Delegate(trace)
  }

  /**
    Round trip: delegating what was extracted from a request re-emits the
    inbound header's text before its first `/` (or `""` when the request had no
    usable header); the project id has no effect.
   */
  lemma DelegateExtracted(projectId: string, request: HttpRequest)
    ensures var inbound := GetHeader(request.headers, TraceHeaderName);
      Delegate(Extract(projectId, request)) ==
        (TraceHeaderName, if inbound.None? || inbound.value == "" then "" else FirstSegment(inbound.value))
  {
    var inbound := GetHeader(request.headers, TraceHeaderName);
    if inbound.Some? && inbound.value != "" {
      EncodeDecode(inbound.value, projectId);
    }
  }
}
