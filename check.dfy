/** The response classifier shared by every reconciler (CloseAndCheck):
    a transport error is passed through untouched; otherwise the body is
    closed on every path, 200 and 204 are success, and any other code is an
    error carrying the code and the body text, or the failure to read it. */
module Check {
  import opened Transport

  /** The only status codes the client accepts. */
  predicate Accepted(code: int)
  {
    code == 200 || code == 204
  }

  /** The triples CloseAndCheck can be given without dereferencing a nil
      body: a nil error comes with a body, as ReqElasticsearch/ReqKibana
      guarantee. */
  predicate WellFormed(resp: Response)
  {
    resp.err.None? ==> resp.body.Some?
  }

  function CloseAndCheck(resp: Response, run: Run): (r: (Outcome, Run))
    requires WellFormed(resp)
    // a transport error is returned unchanged and the body is not touched
    ensures resp.err.Some? ==> r.0 == Fail(resp.err.value) && r.1 == run
    // otherwise the body is closed exactly once, whatever the code
    ensures resp.err.None? ==> r.1 == run.(log := run.log + [Closed(resp.body.value.handle)])
    // success exactly for 200 and 204
    ensures r.0.Pass? <==> resp.err.None? && Accepted(resp.code)
    // any other code: an error naming the code, with the body text or the read failure
    ensures resp.err.None? && !Accepted(resp.code) ==>
      match resp.body.value.read
      case Text(t) => r.0 == Fail(UnexpectedStatus(resp.code, t))
      case ReadFailure(why) => r.0 == Fail(UnreadableBody(resp.code, why))
  {
    if resp.err.Some? then (Fail(resp.err.value), run)
    else
      var closed := run.(log := run.log + [Closed(resp.body.value.handle)]);
      if !Accepted(resp.code) then
        match resp.body.value.read
        case ReadFailure(why) => (Fail(UnreadableBody(resp.code, why)), closed)
        case Text(t) => (Fail(UnexpectedStatus(resp.code, t)), closed)
      else (Pass, closed)
  }

  /** Reference classification of one reply to a request for `path` on
      `service`, stated on the oracle's reply rather than on the triple. */
  function Verdict(service: Service, path: string, reply: Reply): Outcome
  {
    match reply
    case SendFailure(why) => Fail(SendFailed(service, path, why))
    case Delivered(code, body) =>
      if Accepted(code) then Pass
      else if body.read.Text? then Fail(UnexpectedStatus(code, body.read.text))
      else Fail(UnreadableBody(code, body.read.reason))
  }

  /** The bodies a reply leaves to be closed. */
  function Releases(reply: Reply): seq<Event>
  {
    if reply.Delivered? then [Closed(reply.body.handle)] else []
  }

  /** Every triple a request yields can be classified, and classifying it
      agrees with the reference classification of the reply. */
  lemma ClassifyResponse(service: Service, path: string, reply: Reply, run: Run)
    ensures WellFormed(Respond(service, path, reply))
    ensures CloseAndCheck(Respond(service, path, reply), run)
         == (Verdict(service, path, reply), run.(log := run.log + Releases(reply)))
  {
    if reply.SendFailure? {
      assert run.log + Releases(reply) == run.log;
    }
  }

  /** `CloseAndCheck(c.ReqX(verb, path, payload))`: issue one request and
      classify its reply. */
  function Call(c: Client, oracle: Oracle, run: Run, service: Service, verb: Verb, path: string, payload: Payload)
    : (r: (Outcome, Run))
    ensures r.0 == Verdict(service, path, oracle(run.sent))
    ensures r.1 == Run(run.sent + 1, run.produced,
                       run.log + [Sent(NewRequest(c, service, verb, path, payload))] + Releases(oracle(run.sent)))
  {
    ClassifyResponse(service, path, oracle(run.sent), Req(c, oracle, run, service, verb, path, payload).1);
    var (resp, sent) := Req(c, oracle, run, service, verb, path, payload);
    CloseAndCheck(resp, sent)
  }

  /** 201, 202 and 404 are errors although the request may have done its
      work; 200 and 204 pass whatever the body holds. */
  lemma OnlyTwoCodesPass(service: Service, path: string, body: ResponseBody)
    ensures Verdict(service, path, Delivered(200, body)) == Pass
    ensures Verdict(service, path, Delivered(204, body)) == Pass
    ensures Verdict(service, path, Delivered(201, body)).Fail?
    ensures Verdict(service, path, Delivered(202, body)).Fail?
    ensures Verdict(service, path, Delivered(404, body)).Fail?
  {
  }
}
