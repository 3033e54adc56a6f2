/**
  `flask_trace/trace_handlers.py`: the earlier Google Cloud extractor and
  delegator, whose closures take the request and the stored trace as
  arguments.
 */
module TraceHandlers {
  import opened Wrappers
  import opened Text
  import opened Http
  import opened CloudTrace

  /** Calling `None.split` raises `AttributeError`. */
  datatype DelegateError = TraceIsNone

  /** The extractor closure: reads only the request it is given. */
  function Extract(projectId: string, request: HttpRequest): (trace: Option<string>)
    ensures trace == DecodeTraceHeader(GetHeader(request.headers, TraceHeaderName), projectId)
  {
    var header := GetHeader(request.headers, TraceHeaderName);
    if header.None? || header.value == "" then None
    else Some(TraceResourceName(projectId, FirstSegment(header.value)))
  }

  /** `gcloud_trace_extractor(project_id)`. */
  function GcloudTraceExtractor(projectId: string): (extractor: HttpRequest -> Option<string>)
    ensures forall request :: extractor(request) == Extract(projectId, request)
  {
    request => Extract(projectId, request)
  }

  /**
    The delegator closure: the header `X-Cloud-Trace-Context` with the trace's
    text after its last `/`. Unlike the later variant there is no fallback: a
    `None` trace is an error, and an empty one gives an empty value.
   */
  function Delegate(trace: Option<string>): (header: Result<(string, string), DelegateError>)
    ensures header.Failure? <==> trace.None?
    ensures header.Success? ==> header.value.0 == TraceHeaderName && IsLastSegment(trace.value, header.value.1)
  {
    match trace
    case None => Failure(TraceIsNone)
    case Some(t) => Success((TraceHeaderName, LastSegment(t)))
  }

  /** `gcloud_trace_delegator()`. */
  function GcloudTraceDelegator(): (delegator: Option<string> -> Result<(string, string), DelegateError>)
    ensures forall trace :: delegator(trace) == Delegate(trace)
  {
    trace => Delegate(trace)
  }

  /** Two requests with the same trace header value give the same trace, whatever else they carry. */
  lemma ExtractReadsOnlyTraceHeader(projectId: string, a: HttpRequest, b: HttpRequest)
    requires GetHeader(a.headers, TraceHeaderName) == GetHeader(b.headers, TraceHeaderName)
    ensures Extract(projectId, a) == Extract(projectId, b)
  {
  }

  /**
    Round trip: for a request with a non-empty trace header, delegating the
    extracted trace gives back the header's text before its first `/`.
   */
  lemma DelegateExtracted(projectId: string, request: HttpRequest, inbound: string)
    requires GetHeader(request.headers, TraceHeaderName) == Some(inbound) && inbound != ""
    ensures Delegate(Extract(projectId, request)) == Success((TraceHeaderName, FirstSegment(inbound)))
  {
    EncodeDecode(inbound, projectId);
  }

  /** Without a usable inbound header the extractor stores `None`, on which this delegator fails. */
  lemma DelegateWithoutInboundHeader(projectId: string, request: HttpRequest)
    requires GetHeader(request.headers, TraceHeaderName) in {None, Some("")}
    ensures Delegate(Extract(projectId, request)) == Failure(TraceIsNone)
  {
  }
}
