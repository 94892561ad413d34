/** The request layer of the setup client: the two services, the request a
    call builds (URL, basic-auth credentials, headers, payload), the
    `(code, body, err)` triple a request yields, and the log of observable
    events the client leaves behind.

    The HTTP client itself is an oracle: the n-th request of a run is answered
    by the n-th scripted `Reply`. Payload streams and response bodies are
    opaque tokens; whether a body can be read in full, and what health state a
    body decodes to, are choices of the oracle. */
module Transport {

  datatype Option<+T> = None | Some(value: T)

  datatype Service = Elasticsearch | Kibana

  datatype Verb = GET | PUT | POST

  /** A request body (Go `io.Reader`): nil, or the stream returned by one
      invocation of a payload producer, identified by that invocation's token. */
  datatype Payload = NoPayload | Stream(token: nat)

  /** What reading a response body to the end yields. */
  datatype ReadOutcome = Text(text: string) | ReadFailure(reason: string)

  /** What decoding a health response yields: the health state string
      (`status` for Elasticsearch, `status.overall.state` for Kibana), or a
      decoding failure. */
  datatype HealthOutcome = State(state: string) | Undecodable

  /** A response body, identified by `handle` so that closing it can be logged. */
  datatype ResponseBody = ResponseBody(handle: nat, read: ReadOutcome, health: HealthOutcome)

  /** What the HTTP client does with one request: fail to send it, or deliver
      a response with a status code and a body. */
  datatype Reply = SendFailure(reason: string) | Delivered(code: int, body: ResponseBody)

  /** The oracle: the reply to the n-th request of a run. */
  type Oracle = nat -> Reply

  /** The errors the client reports. */
  datatype Error =
    | SendFailed(service: Service, path: string, reason: string)
    | UnexpectedStatus(code: int, text: string)
    | UnreadableBody(code: int, reason: string)

  /** The `(int, io.ReadCloser, error)` triple returned by a request. */
  datatype Response = Response(code: int, body: Option<ResponseBody>, err: Option<Error>)

  /** The Go `error` result of the reconcilers and the classifier: nil or an error. */
  datatype Outcome = Pass | Fail(error: Error)

  /** The two endpoints and the shared credential pair. */
  datatype Client = Client(username: string, password: string, elasticsearch: string, kibana: string)

  datatype Request = Request(
    verb: Verb,
    url: string,
    username: string,
    password: string,
    headers: map<string, string>,
    payload: Payload)

  /** Observable events: a request handed to the HTTP client, a five-second
      back-off, a response body closed, a payload producer invoked. */
  datatype Event = Sent(request: Request) | Slept | Closed(handle: nat) | Produced(token: nat)

  /** The state a sequence of calls threads through: how many requests were
      issued (the index of the next oracle reply), how many payload streams
      were produced (the next fresh token), and the event log. */
  datatype Run = Run(sent: nat, produced: nat, log: seq<Event>)

  const XsrfHeader := "kbn-xsrf"
  const ContentTypeHeader := "Content-Type"

  function BaseUrl(c: Client, service: Service): string
  {
    match service
    case Elasticsearch => c.elasticsearch
    case Kibana => c.kibana
  }

  /** The request built by ReqElasticsearch / ReqKibana before it is sent. */
  function NewRequest(c: Client, service: Service, verb: Verb, path: string, payload: Payload): (req: Request)
    ensures req.verb == verb && req.payload == payload
    ensures req.url == BaseUrl(c, service) + path
    ensures req.username == c.username && req.password == c.password
    ensures XsrfHeader in req.headers && req.headers[XsrfHeader] == "true"
    ensures ContentTypeHeader in req.headers <==> payload.Stream?
    ensures payload.Stream? ==> req.headers[ContentTypeHeader] == "application/json"
    ensures req.headers.Keys <= {XsrfHeader, ContentTypeHeader}
  {
    var headers := map[XsrfHeader := "true"];
    var headers := if payload.Stream? then headers[ContentTypeHeader := "application/json"] else headers;
    Request(verb, BaseUrl(c, service) + path, c.username, c.password, headers, payload)
  }

  /** The triple a request yields once the HTTP client has answered with `reply`. */
  function Respond(service: Service, path: string, reply: Reply): (resp: Response)
    ensures resp.err.Some? <==> reply.SendFailure?
    ensures resp.err.Some? ==> resp.code == 0 && resp.body.None?
    ensures reply.SendFailure? ==> resp.err == Some(SendFailed(service, path, reply.reason))
    ensures reply.Delivered? ==> resp.code == reply.code && resp.body == Some(reply.body)
  {
    match reply
    case SendFailure(reason) => Response(0, None, Some(SendFailed(service, path, reason)))
    case Delivered(code, body) => Response(code, Some(body), None)
  }

  /** ReqElasticsearch / ReqKibana: build the request, hand it to the HTTP
      client and return what it answered. */
  function Req(c: Client, oracle: Oracle, run: Run, service: Service, verb: Verb, path: string, payload: Payload)
    : (r: (Response, Run))
    ensures r.1 == Run(run.sent + 1, run.produced, run.log + [Sent(NewRequest(c, service, verb, path, payload))])
    ensures r.0 == Respond(service, path, oracle(run.sent))
    // the triple is (0, nil, err) on a send failure and (code, body, nil) otherwise
    ensures r.0.err.Some? ==> r.0.code == 0 && r.0.body.None?
    ensures r.0.err.None? ==> r.0.body.Some?
  {
    (Respond(service, path, oracle(run.sent)),
     run.(sent := run.sent + 1, log := run.log + [Sent(NewRequest(c, service, verb, path, payload))]))
  }

  /** One invocation of a payload producer (`data()`): a fresh stream. */
  function Produce(run: Run): (r: (Payload, Run))
    ensures r.0 == Stream(run.produced)
    ensures r.1 == Run(run.sent, run.produced + 1, run.log + [Produced(run.produced)])
  {
    (Stream(run.produced), run.(produced := run.produced + 1, log := run.log + [Produced(run.produced)]))
  }

  // Views of an event log.

  function Requests(log: seq<Event>): seq<Request>
  {
    if log == [] then []
    else (if log[0].Sent? then [log[0].request] else []) + Requests(log[1..])
  }

  function ClosedHandles(log: seq<Event>): seq<nat>
  {
    if log == [] then []
    else (if log[0].Closed? then [log[0].handle] else []) + ClosedHandles(log[1..])
  }

  function ProducedTokens(log: seq<Event>): seq<nat>
  {
    if log == [] then []
    else (if log[0].Produced? then [log[0].token] else []) + ProducedTokens(log[1..])
  }

  function SleepCount(log: seq<Event>): nat
  {
    if log == [] then 0
    else (if log[0] == Slept then 1 else 0) + SleepCount(log[1..])
  }

  lemma {:induction false} RequestsOfAppend(a: seq<Event>, b: seq<Event>)
    ensures Requests(a + b) == Requests(a) + Requests(b)
  {
    if a != [] {
      assert (a + b)[1..] == a[1..] + b;
      RequestsOfAppend(a[1..], b);
    } else {
      assert a + b == b;
    }
  }

  lemma {:induction false} ClosedHandlesOfAppend(a: seq<Event>, b: seq<Event>)
    ensures ClosedHandles(a + b) == ClosedHandles(a) + ClosedHandles(b)
  {
    if a != [] {
      assert (a + b)[1..] == a[1..] + b;
      ClosedHandlesOfAppend(a[1..], b);
    } else {
      assert a + b == b;
    }
  }

  lemma {:induction false} ProducedTokensOfAppend(a: seq<Event>, b: seq<Event>)
    ensures ProducedTokens(a + b) == ProducedTokens(a) + ProducedTokens(b)
  {
    if a != [] {
      assert (a + b)[1..] == a[1..] + b;
      ProducedTokensOfAppend(a[1..], b);
    } else {
      assert a + b == b;
    }
  }

  lemma {:induction false} SleepCountOfAppend(a: seq<Event>, b: seq<Event>)
    ensures SleepCount(a + b) == SleepCount(a) + SleepCount(b)
  {
    if a != [] {
      assert (a + b)[1..] == a[1..] + b;
      SleepCountOfAppend(a[1..], b);
    } else {
      assert a + b == b;
    }
  }

  /** Every view of a log is the concatenation of the views of its parts. */
  lemma ViewsOfAppend(a: seq<Event>, b: seq<Event>)
    ensures Requests(a + b) == Requests(a) + Requests(b)
    ensures ClosedHandles(a + b) == ClosedHandles(a) + ClosedHandles(b)
    ensures ProducedTokens(a + b) == ProducedTokens(a) + ProducedTokens(b)
    ensures SleepCount(a + b) == SleepCount(a) + SleepCount(b)
  {
    RequestsOfAppend(a, b);
    ClosedHandlesOfAppend(a, b);
    ProducedTokensOfAppend(a, b);
    SleepCountOfAppend(a, b);
  }

  /** The events a run gained between `before` and `after`. */
  function Since(before: Run, after: Run): (events: seq<Event>)
    requires before.log <= after.log
    ensures before.log + events == after.log
  {
    after.log[|before.log|..]
  }

  /** A log extended by `head` and then by `tail` gained `head + tail`. */
  lemma SinceExtended(before: Run, after: Run, head: seq<Event>, tail: seq<Event>)
    requires after.log == before.log + head + tail
    ensures before.log <= after.log && Since(before, after) == head + tail
  {
    assert after.log == before.log + (head + tail);
  }
}
