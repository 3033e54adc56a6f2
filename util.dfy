/** `flask_trace_util/util.py`: the trace field of a structured log entry. */
module Util {
  import opened Wrappers
  import opened Text
  import opened CloudTrace

  /**
    `extract_gcloud_trace(header, project_id)`: the log field
    `logging.googleapis.com/trace` and its value, the trace resource name of
    the inbound header, or `""` when the header is absent or empty.
   */
  function ExtractGcloudTrace(header: Option<string>, projectId: string): (field: (string, string))
    ensures field.0 == TraceLogField
    ensures field.1 == "" <==> header.None? || header.value == ""
    ensures field.1 != "" ==> DecodeTraceHeader(header, projectId) == Some(field.1)
  {
    var trace :=
      if header.None? || header.value == "" then ""
      else TraceResourceName(projectId, FirstSegment(header.value));
    (TraceLogField, trace)
  }

  /**
    For a non-empty header the value names the header's text before its
    first `/`, which holds no `/` and is all of the header when it has none.
   */
  lemma ExtractGcloudTraceNamesInboundId(header: string, projectId: string, traceId: string)
    requires header != ""
    requires IsFirstSegment(header, traceId)
    ensures ExtractGcloudTrace(Some(header), projectId).1 == TraceResourceName(projectId, traceId)
    ensures '/' !in traceId
    ensures '/' !in header ==> traceId == header
  {
  }
}
