/**
  The Google Cloud trace header codec shared by the extractors, the
  delegators and the log-field helpers: an inbound `X-Cloud-Trace-Context`
  value `<trace-id>/<span-id>;o=<options>` becomes the trace resource name
  `projects/{project_id}/traces/{trace-id}`, and a resource name becomes an
  outbound header value by keeping what follows its last `/`.
 */
module CloudTrace {
  import opened Wrappers
  import opened Text

  /** The header Google's load balancers set on inbound requests. */
  const TraceHeaderName: string := "X-Cloud-Trace-Context"

  /** The structured-log field Cloud Logging reads the trace from. */
  const TraceLogField: string := "logging.googleapis.com/trace"

  /** `f"projects/{project_id}/traces/{trace_id}"`. */
  function TraceResourceName(projectId: string, traceId: string): (name: string)
    ensures |name| == |projectId| + |traceId| + 17
    ensures name[..9] == "projects/" && name[9..9 + |projectId|] == projectId
    ensures name[9 + |projectId|..17 + |projectId|] == "/traces/" && name[17 + |projectId|..] == traceId
  {
    "projects/" + projectId + "/traces/" + traceId
  }

  /**
    Decoding an inbound header value: nothing when it is absent or empty,
    otherwise the resource name of its text before the first `/`.
   */
  function DecodeTraceHeader(header: Option<string>, projectId: string): (name: Option<string>)
    ensures name.None? <==> header.None? || header.value == ""
    ensures name.Some? ==> name.value == TraceResourceName(projectId, FirstSegment(header.value))
  {
    if header.None? || header.value == "" then None
    else Some(TraceResourceName(projectId, FirstSegment(header.value)))
  }

  /** Encoding a stored trace name as an outbound header value: `name.split('/')[-1]`. */
  function EncodeTraceName(name: string): (header: string)
    ensures IsLastSegment(name, header)
  {
    LastSegment(name)
  }

  /**
    A non-empty header decodes to the resource name of exactly the id that
    precedes its first `/`, whatever the project.
   */
  lemma DecodeNamesInboundId(header: string, projectId: string, traceId: string)
    requires header != ""
    requires IsFirstSegment(header, traceId)
    ensures DecodeTraceHeader(Some(header), projectId) == Some(TraceResourceName(projectId, traceId))
  {
  }

  /** The trace id is what follows the last `/` of its resource name, whatever the project id holds. */
  lemma {:induction false} ResourceNameEndsWithId(projectId: string, traceId: string)
    requires '/' !in traceId
    ensures EncodeTraceName(TraceResourceName(projectId, traceId)) == traceId
  {
    assert TraceResourceName(projectId, traceId) == ("projects/" + projectId + "/traces") + ['/'] + traceId;
    LastSegmentAfterSlash("projects/" + projectId + "/traces", traceId);
  }

  /**
    Round trip: encoding the decoded name of a non-empty header gives back
    the header's text before its first `/`, independently of the project id.
   */
  lemma EncodeDecode(header: string, projectId: string)
    requires header != ""
    ensures EncodeTraceName(DecodeTraceHeader(Some(header), projectId).value) == FirstSegment(header)
  {
    ResourceNameEndsWithId(projectId, FirstSegment(header));
  }

  /**
    A worked example: header `abc123/456;o=1` in project
    `demo` is stored as `projects/demo/traces/abc123` and re-emitted as
    `abc123`; the span and options part is not carried over.
   */
  lemma WorkedExample(header: string, projectId: string)
    requires header == "abc123/456;o=1" && projectId == "demo"
    ensures DecodeTraceHeader(Some(header), projectId) == Some("projects/demo/traces/abc123")
    ensures EncodeTraceName(DecodeTraceHeader(Some(header), projectId).value) == "abc123"
  {
    var traceId := "abc123";
    assert header == traceId + ['/'] + "456;o=1";
    FirstSegmentBeforeSlash(traceId, "456;o=1");
    assert TraceResourceName(projectId, traceId) == "projects/demo/traces/abc123";
    ResourceNameEndsWithId(projectId, traceId);
  }
}
