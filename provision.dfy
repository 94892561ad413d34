/** The reconcilers: AddDashboard, AddIndex, AddRole, AddSpace and AddUser.
    Each issues at most two requests and never retries. AddIndex, AddUser
    and AddSpace branch only on whether the first reply was a delivered
    404; AddDashboard makes the second import only if the first succeeded;
    AddRole issues one request. A payload producer (`data func()
    io.Reader`) is modelled by `Produce`: every invocation yields a fresh
    stream and is logged; AddRole and AddUser take a single stream instead.

    Each function returns its result together with the run it leaves
    behind: the requests it issued, the bodies it closed and the payloads it
    produced, appended to the log in order. `Missing(r)` is the branch
    condition of the probing reconcilers: the reply was delivered with code
    404 (a transport failure has code 0, which is not 404). */
module Provision {
  import opened Transport
  import opened Check

  const ImportPath := "/api/kibana/dashboards/import?force=true"
  const ScorestackImportPath := "/s/scorestack/api/kibana/dashboards/import?force=true"
  const SpacesPath := "/api/spaces/space"

  function IndexPath(name: string): string { "/" + name }
  function RolePath(name: string): string { "/api/security/role/" + name }
  function SpacePath(name: string): string { SpacesPath + "/" + name }
  function UserPath(name: string): string { "/_security/user/" + name }

  predicate Missing(r: Reply)
  {
    r.Delivered? && r.code == 404
  }

  /** Import the dashboards into the default space and then, only if that
      succeeded, into the `scorestack` space, each with its own fresh payload. */
  function AddDashboard(c: Client, oracle: Oracle, run: Run): (r: (Outcome, Run))
    ensures var n, t := run.sent, run.produced;
      var first := Verdict(Kibana, ImportPath, oracle(n));
      && r.1.log == run.log
           + [Produced(t), Sent(NewRequest(c, Kibana, POST, ImportPath, Stream(t)))]
           + Releases(oracle(n))
           + (if first.Pass? then
                [Produced(t + 1), Sent(NewRequest(c, Kibana, POST, ScorestackImportPath, Stream(t + 1)))]
                + Releases(oracle(n + 1))
              else [])
      && r.1.sent == n + (if first.Pass? then 2 else 1)
      && r.1.produced == t + (if first.Pass? then 2 else 1)
      && r.0 == (if first.Pass? then Verdict(Kibana, ScorestackImportPath, oracle(n + 1)) else first)
  {
    var (payload, run1) := Produce(run);
    var (first, run2) := Call(c, oracle, run1, Kibana, POST, ImportPath, payload);
    if first.Fail? then (first, run2)
    else
      var (payload', run3) := Produce(run2);
      Call(c, oracle, run3, Kibana, POST, ScorestackImportPath, payload')
  }

  /** Probe `GET /name` (with a payload, as the source sends one); create
      the index with `PUT /name` and a second payload only if the probe was
      answered 404. Any other probe reply is classified as it stands. */
  function AddIndex(c: Client, oracle: Oracle, run: Run, name: string): (r: (Outcome, Run))
    ensures var n, t, path := run.sent, run.produced, IndexPath(name);
      && r.1.log == run.log
           + [Produced(t), Sent(NewRequest(c, Elasticsearch, GET, path, Stream(t)))]
           + (if Missing(oracle(n)) then
                [Produced(t + 1), Sent(NewRequest(c, Elasticsearch, PUT, path, Stream(t + 1)))]
                + Releases(oracle(n + 1))
              else Releases(oracle(n)))
      && r.1.sent == n + (if Missing(oracle(n)) then 2 else 1)
      && r.1.produced == t + (if Missing(oracle(n)) then 2 else 1)
      && r.0 == (if Missing(oracle(n)) then Verdict(Elasticsearch, path, oracle(n + 1))
                 else Verdict(Elasticsearch, path, oracle(n)))
  {
    var url := IndexPath(name);
    var (probePayload, run1) := Produce(run);
    var (probe, run2) := Req(c, oracle, run1, Elasticsearch, GET, url, probePayload);
    ClassifyResponse(Elasticsearch, url, oracle(run.sent), run2);
    if probe.code == 404 then
      var (payload, run3) := Produce(run2);
      Call(c, oracle, run3, Elasticsearch, PUT, IndexPath(name), payload)
    else CloseAndCheck(probe, run2)
  }

  /** Create or replace the role with a single `PUT`. */
  function AddRole(c: Client, oracle: Oracle, run: Run, name: string, data: Payload): (r: (Outcome, Run))
    ensures r.1.log == run.log + [Sent(NewRequest(c, Kibana, PUT, RolePath(name), data))] + Releases(oracle(run.sent))
    ensures r.1.sent == run.sent + 1 && r.1.produced == run.produced
    ensures r.0 == Verdict(Kibana, RolePath(name), oracle(run.sent))
  {
    Call(c, oracle, run, Kibana, PUT, RolePath(name), data)
  }

  /** Update the space with `PUT /api/spaces/space/name`; only if that was
      answered 404, create it with `POST /api/spaces/space` and a second
      payload. Any other update reply is classified as it stands. */
  function AddSpace(c: Client, oracle: Oracle, run: Run, name: string): (r: (Outcome, Run))
    ensures var n, t := run.sent, run.produced;
      && r.1.log == run.log
           + [Produced(t), Sent(NewRequest(c, Kibana, PUT, SpacePath(name), Stream(t)))]
           + (if Missing(oracle(n)) then
                [Produced(t + 1), Sent(NewRequest(c, Kibana, POST, SpacesPath, Stream(t + 1)))]
                + Releases(oracle(n + 1))
              else Releases(oracle(n)))
      && r.1.sent == n + (if Missing(oracle(n)) then 2 else 1)
      && r.1.produced == t + (if Missing(oracle(n)) then 2 else 1)
      && r.0 == (if Missing(oracle(n)) then Verdict(Kibana, SpacesPath, oracle(n + 1))
                 else Verdict(Kibana, SpacePath(name), oracle(n)))
  {
    var (updatePayload, run1) := Produce(run);
    var (update, run2) := Req(c, oracle, run1, Kibana, PUT, SpacePath(name), updatePayload);
    ClassifyResponse(Kibana, SpacePath(name), oracle(run.sent), run2);
    if update.code == 404 then
      var (payload, run3) := Produce(run2);
      Call(c, oracle, run3, Kibana, POST, SpacesPath, payload)
    else CloseAndCheck(update, run2)
  }

  /** Probe `GET /_security/user/name` with no body; create the user with a
      `PUT` to the same path carrying `data` only if the probe was answered
      404. Any other probe reply is classified as it stands. */
  function AddUser(c: Client, oracle: Oracle, run: Run, name: string, data: Payload): (r: (Outcome, Run))
    ensures var n, path := run.sent, UserPath(name);
      && r.1.log == run.log
           + [Sent(NewRequest(c, Elasticsearch, GET, path, NoPayload))]
           + (if Missing(oracle(n)) then
                [Sent(NewRequest(c, Elasticsearch, PUT, path, data))] + Releases(oracle(n + 1))
              else Releases(oracle(n)))
      && r.1.sent == n + (if Missing(oracle(n)) then 2 else 1)
      && r.1.produced == run.produced
      && r.0 == (if Missing(oracle(n)) then Verdict(Elasticsearch, path, oracle(n + 1))
                 else Verdict(Elasticsearch, path, oracle(n)))
  {
    var url := UserPath(name);
    var (probe, run1) := Req(c, oracle, run, Elasticsearch, GET, url, NoPayload);
    ClassifyResponse(Elasticsearch, url, oracle(run.sent), run1);
    if probe.code == 404 then Call(c, oracle, run1, Elasticsearch, PUT, url, data)
    else CloseAndCheck(probe, run1)
  }

  // What each reconciler issues, produces and closes.

  /** The body handle a reply gives the client, if any. */
  function Handles(r: Reply): seq<nat>
  {
    if r.Delivered? then [r.body.handle] else []
  }

  lemma ViewsOfReleases(r: Reply)
    ensures Requests(Releases(r)) == [] && ProducedTokens(Releases(r)) == []
    ensures ClosedHandles(Releases(r)) == Handles(r)
  {
  }

  /** The views of one produce-then-send step. */
  lemma ViewsOfProducedRequest(t: nat, req: Request)
    ensures Requests([Produced(t), Sent(req)]) == [req]
    ensures ProducedTokens([Produced(t), Sent(req)]) == [t]
    ensures ClosedHandles([Produced(t), Sent(req)]) == []
  {
    var tail := [Sent(req)];
    assert [Produced(t), Sent(req)] == [Produced(t)] + tail;
    ViewsOfAppend([Produced(t)], tail);
    assert tail[1..] == [];
    assert [Produced(t)][1..] == [];
    assert Requests(tail) == [req] + Requests([]);
  }

  /** The views of what a reconciler added to the log when it produced a
      payload, sent a request, and then either produced, sent and released
      a second one, or only released the first reply. */
  lemma ProbeThenCreateViews(before: Run, after: Run, t: nat, probe: Request, create: Request,
                             first: Reply, second: Reply, missing: bool)
    requires after.log == before.log + [Produced(t), Sent(probe)]
      + (if missing then [Produced(t + 1), Sent(create)] + Releases(second) else Releases(first))
    ensures before.log <= after.log
    ensures Requests(Since(before, after)) == [probe] + (if missing then [create] else [])
    ensures ProducedTokens(Since(before, after)) == [t] + (if missing then [t + 1] else [])
    ensures ClosedHandles(Since(before, after)) == if missing then Handles(second) else Handles(first)
  {
    var tail := if missing then [Produced(t + 1), Sent(create)] + Releases(second) else Releases(first);
    SinceExtended(before, after, [Produced(t), Sent(probe)], tail);
    ViewsOfProducedRequest(t, probe);
    if missing {
      ViewsOfImport(t + 1, create, second);
    } else {
      ViewsOfReleases(first);
    }
    ViewsOfAppend([Produced(t), Sent(probe)], tail);
  }

  /** The views of what a reconciler added to the log when it sent a
      request with no payload, and then either sent and released a second
      one, or only released the first reply. */
  lemma ProbeThenPutViews(before: Run, after: Run, probe: Request, create: Request,
                          first: Reply, second: Reply, missing: bool)
    requires after.log == before.log + [Sent(probe)]
      + (if missing then [Sent(create)] + Releases(second) else Releases(first))
    ensures before.log <= after.log
    ensures Requests(Since(before, after)) == [probe] + (if missing then [create] else [])
    ensures ProducedTokens(Since(before, after)) == []
    ensures ClosedHandles(Since(before, after)) == if missing then Handles(second) else Handles(first)
  {
    var tail := if missing then [Sent(create)] + Releases(second) else Releases(first);
    SinceExtended(before, after, [Sent(probe)], tail);
    ViewsOfReleases(first);
    ViewsOfReleases(second);
    ViewsOfAppend([Sent(create)], Releases(second));
    ViewsOfAppend([Sent(probe)], tail);
  }

  /** The views of one produce-send-release step. */
  lemma ViewsOfImport(t: nat, req: Request, reply: Reply)
    ensures Requests([Produced(t), Sent(req)] + Releases(reply)) == [req]
    ensures ProducedTokens([Produced(t), Sent(req)] + Releases(reply)) == [t]
    ensures ClosedHandles([Produced(t), Sent(req)] + Releases(reply)) == Handles(reply)
  {
    ViewsOfProducedRequest(t, req);
    ViewsOfReleases(reply);
    ViewsOfAppend([Produced(t), Sent(req)], Releases(reply));
  }

  /** The views of what a reconciler added to the log when it produced a
      payload, sent a request and released its reply, and then possibly did
      the same once more. */
  lemma TwoImportsViews(before: Run, after: Run, t: nat, first: Request, second: Request,
                        r1: Reply, r2: Reply, again: bool)
    requires after.log == before.log + [Produced(t), Sent(first)] + Releases(r1)
      + (if again then [Produced(t + 1), Sent(second)] + Releases(r2) else [])
    ensures before.log <= after.log
    ensures Requests(Since(before, after)) == [first] + (if again then [second] else [])
    ensures ProducedTokens(Since(before, after)) == [t] + (if again then [t + 1] else [])
    ensures ClosedHandles(Since(before, after)) == Handles(r1) + (if again then Handles(r2) else [])
  {
    var head := [Produced(t), Sent(first)] + Releases(r1);
    var tail: seq<Event> := if again then [Produced(t + 1), Sent(second)] + Releases(r2) else [];
    SinceExtended(before, after, head, tail);
    ViewsOfImport(t, first, r1);
    ViewsOfImport(t + 1, second, r2);
    ViewsOfAppend(head, tail);
  }

  /** AddIndex issues `PUT /name` exactly when the `GET /name` probe was
      answered 404, invokes `data()` twice on that path and once otherwise,
      and never closes the probe's body on that path. */
  lemma IndexCreatedOnlyWhenMissing(c: Client, oracle: Oracle, run: Run, name: string)
    ensures var r := AddIndex(c, oracle, run, name);
      var n, t, path := run.sent, run.produced, IndexPath(name);
      && run.log <= r.1.log
      && Requests(Since(run, r.1)) == [NewRequest(c, Elasticsearch, GET, path, Stream(t))]
           + (if Missing(oracle(n)) then [NewRequest(c, Elasticsearch, PUT, path, Stream(t + 1))] else [])
      && ProducedTokens(Since(run, r.1)) == [t] + (if Missing(oracle(n)) then [t + 1] else [])
      && ClosedHandles(Since(run, r.1)) == if Missing(oracle(n)) then Handles(oracle(n + 1)) else Handles(oracle(n))
  {
    var n, t, path := run.sent, run.produced, IndexPath(name);
    ProbeThenCreateViews(run, AddIndex(c, oracle, run, name).1, t,
      NewRequest(c, Elasticsearch, GET, path, Stream(t)), NewRequest(c, Elasticsearch, PUT, path, Stream(t + 1)),
      oracle(n), oracle(n + 1), Missing(oracle(n)));
  }

  /** AddSpace issues exactly one `POST /api/spaces/space` after its
      `PUT /api/spaces/space/name` exactly when the update was answered
      404, and otherwise nothing more. */
  lemma SpaceCreatedOnlyWhenMissing(c: Client, oracle: Oracle, run: Run, name: string)
    ensures var r := AddSpace(c, oracle, run, name);
      var n, t := run.sent, run.produced;
      && run.log <= r.1.log
      && Requests(Since(run, r.1)) == [NewRequest(c, Kibana, PUT, SpacePath(name), Stream(t))]
           + (if Missing(oracle(n)) then [NewRequest(c, Kibana, POST, SpacesPath, Stream(t + 1))] else [])
      && ProducedTokens(Since(run, r.1)) == [t] + (if Missing(oracle(n)) then [t + 1] else [])
      && ClosedHandles(Since(run, r.1)) == if Missing(oracle(n)) then Handles(oracle(n + 1)) else Handles(oracle(n))
  {
    var n, t := run.sent, run.produced;
    ProbeThenCreateViews(run, AddSpace(c, oracle, run, name).1, t,
      NewRequest(c, Kibana, PUT, SpacePath(name), Stream(t)), NewRequest(c, Kibana, POST, SpacesPath, Stream(t + 1)),
      oracle(n), oracle(n + 1), Missing(oracle(n)));
  }

  /** AddUser probes with no body and issues exactly one `PUT` to the same
      path, carrying the supplied stream, exactly when the probe was
      answered 404; it never invokes a producer. */
  lemma UserCreatedOnlyWhenMissing(c: Client, oracle: Oracle, run: Run, name: string, data: Payload)
    ensures var r := AddUser(c, oracle, run, name, data);
      var n, path := run.sent, UserPath(name);
      && run.log <= r.1.log
      && Requests(Since(run, r.1)) == [NewRequest(c, Elasticsearch, GET, path, NoPayload)]
           + (if Missing(oracle(n)) then [NewRequest(c, Elasticsearch, PUT, path, data)] else [])
      && ProducedTokens(Since(run, r.1)) == []
      && ClosedHandles(Since(run, r.1)) == if Missing(oracle(n)) then Handles(oracle(n + 1)) else Handles(oracle(n))
  {
    var n, path := run.sent, UserPath(name);
    ProbeThenPutViews(run, AddUser(c, oracle, run, name, data).1,
      NewRequest(c, Elasticsearch, GET, path, NoPayload), NewRequest(c, Elasticsearch, PUT, path, data),
      oracle(n), oracle(n + 1), Missing(oracle(n)));
  }

  /** AddRole issues exactly one `PUT /api/security/role/name`. */
  lemma RoleIsOneRequest(c: Client, oracle: Oracle, run: Run, name: string, data: Payload)
    ensures var r := AddRole(c, oracle, run, name, data);
      && run.log <= r.1.log
      && Requests(Since(run, r.1)) == [NewRequest(c, Kibana, PUT, RolePath(name), data)]
      && ClosedHandles(Since(run, r.1)) == Handles(oracle(run.sent))
  {
    var put := NewRequest(c, Kibana, PUT, RolePath(name), data);
    SinceExtended(run, AddRole(c, oracle, run, name, data).1, [Sent(put)], Releases(oracle(run.sent)));
    ViewsOfReleases(oracle(run.sent));
    ViewsOfAppend([Sent(put)], Releases(oracle(run.sent)));
  }

  /** AddDashboard issues at most two imports, the `scorestack` one only
      after the default-space one succeeded, each carrying its own freshly
      produced stream, and closes every body it receives. */
  lemma DashboardImportsInOrder(c: Client, oracle: Oracle, run: Run)
    ensures var r := AddDashboard(c, oracle, run);
      var n, t := run.sent, run.produced;
      var ok := Verdict(Kibana, ImportPath, oracle(n)).Pass?;
      && run.log <= r.1.log
      && Requests(Since(run, r.1)) == [NewRequest(c, Kibana, POST, ImportPath, Stream(t))]
           + (if ok then [NewRequest(c, Kibana, POST, ScorestackImportPath, Stream(t + 1))] else [])
      && ProducedTokens(Since(run, r.1)) == [t] + (if ok then [t + 1] else [])
      && ClosedHandles(Since(run, r.1)) == Handles(oracle(n)) + (if ok then Handles(oracle(n + 1)) else [])
  {
    var n, t := run.sent, run.produced;
    TwoImportsViews(run, AddDashboard(c, oracle, run).1, t,
      NewRequest(c, Kibana, POST, ImportPath, Stream(t)), NewRequest(c, Kibana, POST, ScorestackImportPath, Stream(t + 1)),
      oracle(n), oracle(n + 1), Verdict(Kibana, ImportPath, oracle(n)).Pass?);
  }

  // Outcomes of the reconcilers for particular replies.

  /** A probe (or, for spaces, an update) answered 200 or 204 means the
      resource is there: success, after a single request. */
  lemma ExistingResourceIsSkipped(c: Client, oracle: Oracle, run: Run, name: string, data: Payload)
    requires oracle(run.sent).Delivered? && Accepted(oracle(run.sent).code)
    ensures AddIndex(c, oracle, run, name).0 == Pass && AddIndex(c, oracle, run, name).1.sent == run.sent + 1
    ensures AddUser(c, oracle, run, name, data).0 == Pass && AddUser(c, oracle, run, name, data).1.sent == run.sent + 1
    ensures AddSpace(c, oracle, run, name).0 == Pass && AddSpace(c, oracle, run, name).1.sent == run.sent + 1
  {
  }

  /** A probe or update that fails to send, or is answered with anything but
      200, 204 or 404 (a 500, say), is an error, and nothing is created:
      such a reply is not taken to mean that the resource exists. */
  lemma FailedProbeIsAnError(c: Client, oracle: Oracle, run: Run, name: string, data: Payload)
    requires oracle(run.sent).SendFailure?
          || (oracle(run.sent).Delivered? && !Accepted(oracle(run.sent).code) && oracle(run.sent).code != 404)
    ensures AddIndex(c, oracle, run, name).0.Fail? && AddIndex(c, oracle, run, name).1.sent == run.sent + 1
    ensures AddUser(c, oracle, run, name, data).0.Fail? && AddUser(c, oracle, run, name, data).1.sent == run.sent + 1
    ensures AddSpace(c, oracle, run, name).0.Fail? && AddSpace(c, oracle, run, name).1.sent == run.sent + 1
  {
  }

  /** A transport failure of the probe (for spaces, the update) is returned
      as it is, naming the service and the path it was for. */
  lemma ProbeTransportErrorPassesThrough(c: Client, oracle: Oracle, run: Run, name: string, data: Payload)
    requires oracle(run.sent).SendFailure?
    ensures AddIndex(c, oracle, run, name).0
         == Fail(SendFailed(Elasticsearch, IndexPath(name), oracle(run.sent).reason))
    ensures AddUser(c, oracle, run, name, data).0
         == Fail(SendFailed(Elasticsearch, UserPath(name), oracle(run.sent).reason))
    ensures AddSpace(c, oracle, run, name).0
         == Fail(SendFailed(Kibana, SpacePath(name), oracle(run.sent).reason))
  {
  }

  /** A create answered 201 is an error carrying the code and the body, even
      though the resource was created. */
  lemma CreatedAnswered201IsAnError(c: Client, oracle: Oracle, run: Run, name: string, data: Payload, text: string)
    requires Missing(oracle(run.sent))
    requires oracle(run.sent + 1).Delivered? && oracle(run.sent + 1).code == 201
    requires oracle(run.sent + 1).body.read == Text(text)
    ensures AddIndex(c, oracle, run, name).0 == Fail(UnexpectedStatus(201, text))
    ensures AddSpace(c, oracle, run, name).0 == Fail(UnexpectedStatus(201, text))
    ensures AddUser(c, oracle, run, name, data).0 == Fail(UnexpectedStatus(201, text))
  {
  }

  /** When the default-space import fails, the `scorestack` import is not
      attempted and the first error is returned. */
  lemma FailedImportStopsDashboards(c: Client, oracle: Oracle, run: Run)
    requires Verdict(Kibana, ImportPath, oracle(run.sent)).Fail?
    ensures AddDashboard(c, oracle, run).0 == Verdict(Kibana, ImportPath, oracle(run.sent))
    ensures AddDashboard(c, oracle, run).1.sent == run.sent + 1
    ensures AddDashboard(c, oracle, run).1.produced == run.produced + 1
  {
  }
}
