/**
 * The synchronous HTTP pipeline runner (`HTTPGatewayServiceImpl`): each chain entry
 * `{runtime}/path` is posted, through the local sidecar, to the runtime's `http-` virtual
 * host; the answer of each hop becomes the body of the next, and the first answer that is
 * not 200 ends the run. The HTTP exchange is a collaborator.
 */
module HttpGateway {
  import opened Common
  import opened Json
  import opened Deferred

  /** One POST the runner sends: URL, `Host` header, JSON body and the extra headers. */
  datatype HopRequest = HopRequest(url: string, host: string, body: Json, headers: map<string, string>)

  /** The answer to a hop: its status and its content, `None` when the content is not JSON. */
  datatype HopResponse = HopResponse(status: int, content: Option<Json>)

  /** The HTTP client: the answer the sidecar gives to a request. */
  type Exchange = HopRequest -> HopResponse

  /** What one run did: the requests sent, in order, and the result or the exception. */
  datatype Run = Run(requests: seq<HopRequest>, result: Result<Json>)

  const HopFailure: string := "SOme error na"

  /** The headers added to each hop: those with a value that is neither null nor empty. */
  function HopHeaders(headers: map<string, Option<string>>): (r: map<string, string>)
    ensures forall k :: k in r <==> k in headers && headers[k].Some? && |headers[k].value| > 0
    ensures forall k :: k in r ==> Some(r[k]) == headers[k]
  {
    map k | k in headers && headers[k].Some? && |headers[k].value| > 0 :: headers[k].value
  }

  /**
   * The request for chain entry `s`: the path from its first `/` on, sent to the sidecar at
   * `sideCarHost:sideCarPort`, with the `Host` header `http-` and the runtime name before
   * that `/`. An entry without `/` throws from `substring`.
   */
  function HopFor(s: string, sideCarHost: string, sideCarPort: int, body: Json, headers: map<string, Option<string>>): (r: Result<HopRequest>)
  {
    var slash := IndexOf(s, '/', 0);
    if slash == -1 then Err("StringIndexOutOfBoundsException")
    else Ok(HopRequest("http://" + sideCarHost + ":" + IntText(sideCarPort) + s[slash..], "http-" + s[..slash], body, HopHeaders(headers)))
  }

  /** `sendAll`: the run of `chain` on `body`, hop by hop. */
  function SendAll(chain: seq<string>, body: Json, sideCarHost: string, sideCarPort: int, headers: map<string, Option<string>>, exchange: Exchange): (r: Run)
    decreases |chain|
  {
    if chain == [] then Run([], Ok(body))
    else
      var hop := HopFor(chain[0], sideCarHost, sideCarPort, body, headers);
      if hop.Err? then Run([], Err(hop.error))
      else
        var response := exchange(hop.value);
        if response.status != 200 then Run([hop.value], Err(HopFailure))
        else if response.content.None? then Run([hop.value], Err("IOException"))
        else
          var rest := SendAll(chain[1..], response.content.value, sideCarHost, sideCarPort, headers, exchange);
          Run([hop.value] + rest.requests, rest.result)
  }

  /** A hop that was answered 200 with JSON content. */
  predicate Answered(response: HopResponse)
  {
    response.status == 200 && response.content.Some?
  }

  /**
   * The request for an entry goes to the runtime named before its first `/`, with the path
   * from that `/` on; it exists exactly when the entry holds a `/`.
   */
  lemma HopForTarget(s: string, sideCarHost: string, sideCarPort: int, body: Json, headers: map<string, Option<string>>)
    ensures HopFor(s, sideCarHost, sideCarPort, body, headers).Ok? <==> exists j :: 0 <= j < |s| && s[j] == '/'
    ensures HopFor(s, sideCarHost, sideCarPort, body, headers).Ok? ==>
      var slash := IndexOf(s, '/', 0);
      var r := HopFor(s, sideCarHost, sideCarPort, body, headers).value;
      '/' !in s[..slash] && s[slash] == '/' &&
      r.host == "http-" + s[..slash] && EndsWith(r.url, s[slash..]) &&
      StartsWith(r.url, "http://" + sideCarHost + ":" + IntText(sideCarPort)) &&
      r.body == body && r.headers == HopHeaders(headers)
  {
    var slash := IndexOf(s, '/', 0);
    if slash != -1 {
      var prefix := "http://" + sideCarHost + ":" + IntText(sideCarPort);
      var r := HopFor(s, sideCarHost, sideCarPort, body, headers).value;
      assert r.url == prefix + s[slash..];
      assert r.url[..|prefix|] == prefix;
      assert r.url[|r.url| - |s[slash..]|..] == s[slash..];
    }
  }

  /** A run sends at most one request per chain entry, in chain order, each built for its entry. */
  lemma {:induction false} SendAllTargets(chain: seq<string>, body: Json, sideCarHost: string, sideCarPort: int, headers: map<string, Option<string>>, exchange: Exchange)
    ensures var r := SendAll(chain, body, sideCarHost, sideCarPort, headers, exchange);
      |r.requests| <= |chain| &&
      forall k :: 0 <= k < |r.requests| ==>
        HopFor(chain[k], sideCarHost, sideCarPort, r.requests[k].body, headers) == Ok(r.requests[k])
    decreases |chain|
  {
    if chain != [] {
      var hop := HopFor(chain[0], sideCarHost, sideCarPort, body, headers);
      if hop.Ok? && Answered(exchange(hop.value)) {
        var next := exchange(hop.value).content.value;
        SendAllTargets(chain[1..], next, sideCarHost, sideCarPort, headers, exchange);
        var rest := SendAll(chain[1..], next, sideCarHost, sideCarPort, headers, exchange);
        var r := SendAll(chain, body, sideCarHost, sideCarPort, headers, exchange);
        forall k | 1 <= k < |r.requests|
          ensures HopFor(chain[k], sideCarHost, sideCarPort, r.requests[k].body, headers) == Ok(r.requests[k])
        {
          assert r.requests[k] == rest.requests[k - 1] && chain[k] == chain[1..][k - 1];
        }
      }
    }
  }

  /**
   * The first request carries the input, and every later one the answer to the request
   * before it, which was answered 200 with JSON: the run is a left fold over the chain.
   */
  lemma {:induction false} SendAllBodies(chain: seq<string>, body: Json, sideCarHost: string, sideCarPort: int, headers: map<string, Option<string>>, exchange: Exchange)
    ensures var r := SendAll(chain, body, sideCarHost, sideCarPort, headers, exchange);
      (r.requests != [] ==> r.requests[0].body == body) &&
      forall k :: 0 <= k < |r.requests| - 1 ==>
        Answered(exchange(r.requests[k])) && r.requests[k + 1].body == exchange(r.requests[k]).content.value
    decreases |chain|
  {
    if chain != [] {
      var hop := HopFor(chain[0], sideCarHost, sideCarPort, body, headers);
      if hop.Ok? && Answered(exchange(hop.value)) {
        var next := exchange(hop.value).content.value;
        SendAllBodies(chain[1..], next, sideCarHost, sideCarPort, headers, exchange);
        var rest := SendAll(chain[1..], next, sideCarHost, sideCarPort, headers, exchange);
        var r := SendAll(chain, body, sideCarHost, sideCarPort, headers, exchange);
        forall k | 1 <= k < |r.requests| - 1
          ensures Answered(exchange(r.requests[k])) && r.requests[k + 1].body == exchange(r.requests[k]).content.value
        {
          assert r.requests[k] == rest.requests[k - 1] && r.requests[k + 1] == rest.requests[k];
        }
      }
    }
  }

  /**
   * A run succeeds exactly when every entry was requested and answered 200 with JSON, and then
   * answers the last hop's content.
   */
  lemma {:induction false} SendAllOutcome(chain: seq<string>, body: Json, sideCarHost: string, sideCarPort: int, headers: map<string, Option<string>>, exchange: Exchange)
    ensures var r := SendAll(chain, body, sideCarHost, sideCarPort, headers, exchange);
      (r.result.Ok? <==> |r.requests| == |chain| && forall k :: 0 <= k < |r.requests| ==> Answered(exchange(r.requests[k]))) &&
      (r.result.Ok? && chain != [] ==> r.result.value == exchange(r.requests[|chain| - 1]).content.value)
    decreases |chain|
  {
    SendAllTargets(chain, body, sideCarHost, sideCarPort, headers, exchange);
    if chain != [] {
      var hop := HopFor(chain[0], sideCarHost, sideCarPort, body, headers);
      if hop.Ok? && Answered(exchange(hop.value)) {
        var next := exchange(hop.value).content.value;
        SendAllOutcome(chain[1..], next, sideCarHost, sideCarPort, headers, exchange);
        var rest := SendAll(chain[1..], next, sideCarHost, sideCarPort, headers, exchange);
        var r := SendAll(chain, body, sideCarHost, sideCarPort, headers, exchange);
        assert r.requests[0] == hop.value;
        assert forall k :: 1 <= k < |r.requests| ==> r.requests[k] == rest.requests[k - 1];
        if forall k :: 0 <= k < |rest.requests| ==> Answered(exchange(rest.requests[k])) {
          forall k | 0 <= k < |r.requests|
            ensures Answered(exchange(r.requests[k]))
          {
            if k > 0 {
              assert r.requests[k] == rest.requests[k - 1];
            }
          }
        }
        if forall k :: 0 <= k < |r.requests| ==> Answered(exchange(r.requests[k])) {
          forall k | 0 <= k < |rest.requests|
            ensures Answered(exchange(rest.requests[k]))
          {
            assert rest.requests[k] == r.requests[k + 1];
          }
        }
      }
    }
  }

  /** The run from entry `i` on takes one hop for that entry, then runs the rest. */
  lemma SendAllUnfold(chain: seq<string>, i: int, body: Json, sideCarHost: string, sideCarPort: int, headers: map<string, Option<string>>, exchange: Exchange)
    requires 0 <= i < |chain|
    ensures var hop := HopFor(chain[i], sideCarHost, sideCarPort, body, headers);
      SendAll(chain[i..], body, sideCarHost, sideCarPort, headers, exchange) ==
        if hop.Err? then Run([], Err(hop.error))
        else if exchange(hop.value).status != 200 then Run([hop.value], Err(HopFailure))
        else if exchange(hop.value).content.None? then Run([hop.value], Err("IOException"))
        else
          var rest := SendAll(chain[i + 1..], exchange(hop.value).content.value, sideCarHost, sideCarPort, headers, exchange);
          Run([hop.value] + rest.requests, rest.result)
  {
    assert chain[i..][0] == chain[i] && chain[i..][1..] == chain[i + 1..];
  }

  /** An empty chain answers the input unchanged without sending anything. */
  lemma SendAllEmptyChain(body: Json, sideCarHost: string, sideCarPort: int, headers: map<string, Option<string>>, exchange: Exchange)
    ensures SendAll([], body, sideCarHost, sideCarPort, headers, exchange) == Run([], Ok(body))
  {
  }

  /** What an HTTP-chain call resolves its answer with: the chain's result, or its exception. */
  function ChainResolution(run: Run): (r: Resolution)
  {
    if run.result.Ok? then Resolved(run.result.value) else FailedWith(run.result.error)
  }

  lemma ChainResolutionIsFinal(run: Run)
    ensures ChainResolution(run) != Pending
    ensures ChainResolution(run).Resolved? <==> run.result.Ok?
    ensures run.result.Ok? ==> ChainResolution(run).value == run.result.value
  {
  }

  class HTTPGatewayService {
    /** The local sidecar the hops are sent through. */
    const sideCarHost: string
    const sideCarPort: int

    constructor (sideCarHost: string, sideCarPort: int)
      ensures this.sideCarHost == sideCarHost && this.sideCarPort == sideCarPort
    {
      this.sideCarHost := sideCarHost;
      this.sideCarPort := sideCarPort;
    }

    /** `sendAll(chain, body, headers)`, the loop that posts each hop and carries its answer on. */
    method SendAllLoop(chain: seq<string>, jsonNode: Json, headers: map<string, Option<string>>, exchange: Exchange)
      returns (requests: seq<HopRequest>, result: Result<Json>)
      ensures Run(requests, result) == SendAll(chain, jsonNode, sideCarHost, sideCarPort, headers, exchange)
    {
      var body := jsonNode;
      var current := jsonNode;
      requests := [];
      var i := 0;
      while i < |chain|
        invariant 0 <= i <= |chain|
        invariant current == body
        invariant var rest := SendAll(chain[i..], body, sideCarHost, sideCarPort, headers, exchange);
          SendAll(chain, jsonNode, sideCarHost, sideCarPort, headers, exchange) == Run(requests + rest.requests, rest.result)
      {
        var s := chain[i];
        SendAllUnfold(chain, i, body, sideCarHost, sideCarPort, headers, exchange);
        var slash := IndexOf(s, '/', 0);
        if slash == -1 {
          return requests, Err("StringIndexOutOfBoundsException");
        }
        var request := HopRequest("http://" + sideCarHost + ":" + IntText(sideCarPort) + s[slash..], "http-" + s[..slash], body, HopHeaders(headers));
        assert HopFor(s, sideCarHost, sideCarPort, body, headers) == Ok(request);
        var response := exchange(request);
        ghost var prior := requests;
        requests := requests + [request];
        if response.status == 200 {
          if response.content.None? {
            return requests, Err("IOException");
          }
          current := response.content.value;
        } else {
          return requests, Err(HopFailure);
        }
        body := current;
        ghost var rest := SendAll(chain[i + 1..], body, sideCarHost, sideCarPort, headers, exchange);
        assert prior + ([request] + rest.requests) == requests + rest.requests;
        i := i + 1;
      }
      assert chain[i..] == [];
      result := Ok(current);
    }

    /** `execute(definition, body, headers)`: a new answer holding the run's result, or the exception it threw. */
    method Execute(chain: seq<string>, jsonNode: Json, headers: map<string, Option<string>>, exchange: Exchange)
      returns (r: DeferredResult)
      ensures fresh(r)
      ensures var run := SendAll(chain, jsonNode, sideCarHost, sideCarPort, headers, exchange);
        r.state == ChainResolution(run)
    {
      r := new DeferredResult();
      var requests, result := SendAllLoop(chain, jsonNode, headers, exchange);
      var accepted;
      if result.Ok? {
        accepted := r.Resolve(Resolved(result.value));
      } else {
        accepted := r.Resolve(FailedWith(result.error));
      }
    }
  }
}
