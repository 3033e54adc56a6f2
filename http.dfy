/**
  The parts of an HTTP request the tracing code reads: its path and its
  headers, as the ordered list of (name, value) pairs the server received.
 */
module Http {
  import opened Wrappers
  import opened Text

  datatype Header = Header(name: string, value: string)

  datatype HttpRequest = HttpRequest(path: string, headers: seq<Header>)

  /** Header names are compared without regard to case. */
  predicate NameIs(h: Header, name: string)
  {
    Lower(h.name) == Lower(name)
  }

  /**
    `request.headers.get(name)`: the value of the first header called `name`,
    ignoring case, or `None` when the request has no such header.
   */
  function GetHeader(headers: seq<Header>, name: string): (value: Option<string>)
    ensures value.None? <==> forall i :: 0 <= i < |headers| ==> !NameIs(headers[i], name)
    ensures value.Some? ==>
      exists i :: 0 <= i < |headers| && NameIs(headers[i], name) && headers[i].value == value.value
        && forall j :: 0 <= j < i ==> !NameIs(headers[j], name)
    decreases |headers|
  {
    if headers == [] then None
    else if NameIs(headers[0], name) then Some(headers[0].value)
    else
      var rest := GetHeader(headers[1..], name);
      assert forall i :: 0 < i < |headers| ==> headers[i] == headers[1..][i - 1];
      rest
  }
}
