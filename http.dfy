/** HTTP requests to the search engine as values: the verb, the URL, the
    payload, and the status codes the caller accepts. The network is a
    function from request to response that the caller supplies. */
module Http {
  import opened Wrappers
  import opened Json

  datatype Verb = GET | PUT | POST | DELETE

  /** No body, a JSON body (`json=`), or a newline-delimited text body (`data=`). */
  datatype Payload = NoPayload | JsonPayload(value: Value) | NdjsonPayload(text: string)

  datatype Request = Request(verb: Verb, url: string, payload: Payload)

  /** A response: its status code and its decoded JSON body. */
  datatype Response = Response(status: int, data: Value)

  /** The statuses a call accepts: any, or exactly those listed. */
  datatype Check = AnyStatus | OneOf(codes: seq<int>)

  predicate Accepts(check: Check, status: int)
  {
    check.AnyStatus? || status in check.codes
  }

  /** A request and the `assert` on its status that follows it. */
  datatype Call = Call(request: Request, check: Check)

  /** The server's status for the call's request passes the call's check. */
  predicate Accepted(call: Call, server: Request -> Response)
  {
    Accepts(call.check, server(call.request).status)
  }

  /** Sends the request; a status the check rejects fails the `assert`. */
  function Perform(call: Call, server: Request -> Response): (r: Result<Response, PyError>)
    ensures r.Ok? <==> Accepted(call, server)
    ensures r.Ok? ==> r.value == server(call.request)
    ensures r.Err? ==> r.error == AssertionError
  {
    var res := server(call.request);
    if Accepts(call.check, res.status) then Ok(res) else Err(AssertionError)
  }

  /** Sends the calls in order and stops at the first one whose status is
      rejected; on success, the responses in order. */
  function Execute(calls: seq<Call>, server: Request -> Response): (r: Result<seq<Response>, PyError>)
    ensures r.Ok? <==> forall i :: 0 <= i < |calls| ==> Accepted(calls[i], server)
    ensures r.Ok? ==> |r.value| == |calls| && forall i :: 0 <= i < |calls| ==> r.value[i] == server(calls[i].request)
    ensures r.Err? ==> r.error == AssertionError
  {
    if |calls| == 0 then Ok([])
    else match Perform(calls[0], server)
      case Err(e) => Err(e)
      case Ok(res) =>
        match Execute(calls[1..], server)
        case Err(e) => Err(e)
        case Ok(rest) =>
          assert forall i :: 1 <= i < |calls| ==> calls[i] == calls[1..][i - 1];
          Ok([res] + rest)
  }

  /** The calls that reach the server: all of them, or those up to and
      including the first whose status is rejected. */
  function Issued(calls: seq<Call>, server: Request -> Response): (r: seq<Call>)
    ensures r <= calls
    ensures Execute(calls, server).Ok? ==> r == calls
  {
    if |calls| == 0 then []
    else if !Accepted(calls[0], server) then [calls[0]]
    else
      var rest := Issued(calls[1..], server);
      assert calls == [calls[0]] + calls[1..];
      [calls[0]] + rest
  }

  /** A failed run ends at the one rejected call it sends; every call
      before it was accepted. */
  lemma {:induction false} IssuedStopsAtRejection(calls: seq<Call>, server: Request -> Response)
    requires Execute(calls, server).Err?
    ensures var r := Issued(calls, server);
      && |r| >= 1 && !Accepted(r[|r| - 1], server)
      && forall i :: 0 <= i < |r| - 1 ==> Accepted(r[i], server)
  {
    if Accepted(calls[0], server) {
      var rest := calls[1..];
      IssuedStopsAtRejection(rest, server);
      var r := Issued(rest, server);
      assert Issued(calls, server) == [calls[0]] + r;
      assert forall i :: 1 <= i < |r| + 1 ==> ([calls[0]] + r)[i] == r[i - 1];
    }
  }

  /** Running two lists of calls one after the other succeeds exactly when
      both succeed. */
  lemma ExecuteAppend(a: seq<Call>, b: seq<Call>, server: Request -> Response)
    ensures Execute(a + b, server).Ok? <==> Execute(a, server).Ok? && Execute(b, server).Ok?
  {
    assert forall i :: 0 <= i < |a| ==> (a + b)[i] == a[i];
    assert forall i :: 0 <= i < |b| ==> (a + b)[|a| + i] == b[i];
  }

  /** One call in front of a list. */
  lemma IssuedCons(c: Call, rest: seq<Call>, server: Request -> Response)
    ensures Issued([c] + rest, server) == if Accepted(c, server) then [c] + Issued(rest, server) else [c]
    ensures Execute([c] + rest, server).Ok? <==> Accepted(c, server) && Execute(rest, server).Ok?
  {
    assert ([c] + rest)[0] == c && ([c] + rest)[1..] == rest;
  }

  /** Three calls in sequence. */
  lemma IssuedThree(c0: Call, c1: Call, c2: Call, server: Request -> Response)
    ensures Issued([c0, c1, c2], server) ==
      if !Accepted(c0, server) then [c0] else if !Accepted(c1, server) then [c0, c1] else [c0, c1, c2]
    ensures Execute([c0, c1, c2], server).Ok? <==> Accepted(c0, server) && Accepted(c1, server) && Accepted(c2, server)
  {
    assert [c0, c1, c2] == [c0] + ([c1] + ([c2] + []));
    IssuedCons(c0, [c1] + ([c2] + []), server);
    IssuedCons(c1, [c2] + [], server);
    IssuedCons(c2, [], server);
  }

  /** The second list is reached only when the first succeeds. */
  lemma {:induction false} IssuedAppend(a: seq<Call>, b: seq<Call>, server: Request -> Response)
    ensures Issued(a + b, server) == if Execute(a, server).Ok? then a + Issued(b, server) else Issued(a, server)
  {
    if |a| == 0 {
      assert a + b == b;
    } else {
      var c, t := a[0], a[1..];
      assert a == [c] + t;
      AppendAssoc([c], t, b);
      IssuedCons(c, t + b, server);
      IssuedCons(c, t, server);
      if Accepted(c, server) {
        IssuedAppend(t, b, server);
        AppendAssoc([c], t, Issued(b, server));
      }
    }
  }
}
