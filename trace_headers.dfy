/**
 * The seven tracing headers (OpenTracing span context, request id and the B3 set) that both
 * serving controllers copy from the incoming HTTP request, and the loop that copies them.
 */
module TraceHeaders {
  import opened Common

  const TraceHeaderNames: seq<string> := [
    "X-Ot-Span-Context",
    "X-Request-Id",
    "X-B3-TraceId",
    "X-B3-SpanId",
    "X-B3-ParentSpanId",
    "X-B3-Sampled",
    "X-B3-Flags"]

  /** The request's header lookup (`HttpServletRequest.getHeader`), `None` when absent. */
  type HeaderLookup = string -> Option<string>

  lemma TraceHeaderNamesDistinct()
    ensures |TraceHeaderNames| == 7 && Distinct(TraceHeaderNames)
  {
  }

  /**
   * The header map a controller forwards: exactly the seven names, each with the request's
   * value, which may be absent.
   */
  function Forwarded(getHeader: HeaderLookup): (headers: map<string, Option<string>>)
    ensures forall k :: k in headers <==> k in TraceHeaderNames
    ensures forall k :: k in headers ==> headers[k] == getHeader(k)
  {
    map k | k in TraceHeaderNames :: getHeader(k)
  }

  /** The loop of a controller that fills the header map, one `put` per name. */
  method CollectHeaders(getHeader: HeaderLookup) returns (headers: map<string, Option<string>>)
    ensures headers == Forwarded(getHeader)
  {
    headers := map[];
    var i := 0;
    while i < |TraceHeaderNames|
      invariant 0 <= i <= |TraceHeaderNames|
      invariant forall k :: k in headers <==> k in TraceHeaderNames[..i]
      invariant forall k :: k in headers ==> headers[k] == getHeader(k)
    {
      var s := TraceHeaderNames[i];
      headers := headers[s := getHeader(s)];
      i := i + 1;
    }
    assert TraceHeaderNames[..i] == TraceHeaderNames;
  }
}
