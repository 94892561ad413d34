# Scorestack setup client, modelled in Dafny

This project models the bootstrap client of Scorestack's dynamicbeat
(`dynamicbeat/pkg/setup/client.go`). The client brings an Elasticsearch and
Kibana pair into a known state before dynamicbeat uses it. It has four parts:

- **Request layer** (`ReqElasticsearch`, `ReqKibana`): builds a request to
  `base + path`, carrying the basic-auth credentials and the header
  `kbn-xsrf: true`. `Content-Type: application/json` is added only when there
  is a body. The layer returns the `(code, body, err)` triple; a send failure
  gives code 0 and no body.
- **Response classifier** (`CloseAndCheck`): a transport error passes through
  untouched. Otherwise the body is closed, and only 200 and 204 count as
  success. Any other code is an error that carries the code and the body
  text, or the failure to read the body.
- **Readiness poller** (`Wait`): polls `/_cluster/health` until Elasticsearch
  reports `"green"`, then `/api/status` until Kibana reports `"green"`. There
  is no sleep before the first poll of a phase and a sleep before every later
  one. Transport failures, undecodable bodies and any other state cause
  another poll.
- **Reconcilers** (`AddDashboard`, `AddIndex`, `AddRole`, `AddSpace`,
  `AddUser`): each issues at most two requests and never retries.
  `AddIndex`, `AddUser` and `AddSpace` branch only on whether the first
  reply was a delivered 404. `AddDashboard` makes the second import only if
  the first succeeded. `AddRole` issues one request.

How the I/O is modelled:

- The HTTP client is an oracle. The n-th request of a run gets the n-th
  scripted `Reply`: a send failure, or a code with a body.
- A body is an opaque handle. Whether it can be read, and what health state
  it decodes to, are choices of the oracle.
- A payload producer `data()` is a counter. Each call yields a fresh token
  and is logged.
- Every operation appends to an event log: requests sent, sleeps, bodies
  closed, payloads produced. Contracts are stated over the log and the
  result.

Files:

- `transport.dfy` (module `Transport`): the data model, request building,
  `Req`, and views of the event log.
- `check.dfy` (module `Check`): `CloseAndCheck`, plus `Verdict`, a reference
  classification of a reply.
- `health.dfy` (module `Health`): `Wait` as an imperative method with a
  `first` flag, `continue` and `break`, proved equal to the declarative
  reference run `WaitSpec`, and lemmas about that reference run.
- `provision.dfy` (module `Provision`): the five reconcilers as functions over
  the threaded `Run`, and lemmas about what they issue, produce, close and
  return.

## Where the code is looser than its description

The model follows the code in each of these cases:

- **A non-404 probe is not automatically a success.** `AddIndex`, `AddUser`
  and `AddSpace` treat a probe or update reply other than 404 as "already
  there". They then pass that reply through `CloseAndCheck`
  (client.go:171, 189, 204). So 200/204 means success, but a 500 or a
  transport failure is an error (`FailedProbeIsAnError`).
- **The second dashboard import is conditional.** `AddDashboard` issues the
  `scorestack` import only if the default-space import succeeded
  (client.go:151-154, `FailedImportStopsDashboards`).
- **Response bodies are not always released.**
  - On the 404 path, the probe's body is never closed (client.go:165-167,
    182-185, 198-200). See `IndexCreatedOnlyWhenMissing` and its siblings:
    only the second reply's handle is closed.
  - In `Wait`, a body that fails to decode is not closed (client.go:87-89,
    120-122; `PhaseCloses`).
- **The index probe carries a payload.** The `GET /name` probe of
  `AddIndex` sends a `data()` stream, so it gets a `Content-Type` header, and
  `data()` runs twice on the create path (client.go:163, 167).

## Model

| member | source | states |
|---|---|---|
| `Transport.NewRequest` | dynamicbeat/pkg/setup/client.go:22-64 | URL is base URL of the service + path; credentials are the client's; `kbn-xsrf: true` on every request of both services; `Content-Type: application/json` present exactly when a body is given; no other header besides `Authorization`, which the model carries as the credential pair |
| `Transport.Respond` | dynamicbeat/pkg/setup/client.go:22-64 | a send failure yields code 0, no body, and an error naming the service and path; a delivered response yields its code and body with no error |
| `Transport.Req` | dynamicbeat/pkg/setup/client.go:22-64 | one request handed to the HTTP client per call (logged, request counter advanced), answered by the oracle's next reply; nothing produced; the triple is `(0, nil, err)` on a send failure and carries a body whenever the error is nil |
| `Transport.Produce` | dynamicbeat/pkg/setup/client.go:149 | each `data()` invocation yields a fresh stream token and is logged |
| `Check.CloseAndCheck` | dynamicbeat/pkg/setup/client.go:132-147 | a transport error is returned unchanged and the body is untouched; otherwise the body is closed exactly once; success iff the code is 200 or 204; any other code gives an error with the code and the body text, or a read-failure error that still names the code |
| `Check.ClassifyResponse` | dynamicbeat/pkg/setup/client.go:132-147 | every triple the request layer returns can be classified, and classifying it agrees with the reference classification `Verdict` of the reply, closing the body exactly when one was delivered |
| `Check.Call` | dynamicbeat/pkg/setup/client.go:176 | `CloseAndCheck(c.ReqX(...))`: one request, outcome is the reference classification of its reply, the reply's body (if any) closed |
| `Check.OnlyTwoCodesPass` | dynamicbeat/pkg/setup/client.go:137-146 | 200 and 204 pass whatever the body; 201, 202 and 404 are errors |
| `Health.PhaseLength` | dynamicbeat/pkg/setup/client.go:68-94 | a phase polls up to and including the first reply that decodes to exactly "green", or every reply if none does; all earlier polls were not green |
| `Health.PollPhase` | dynamicbeat/pkg/setup/client.go:67-127 | either polling loop (run on the replies left to its phase), with its `first` flag, `continue` on transport or decoding failure and `break` on "green", consumes exactly the phase's replies, reports whether it saw green, and logs exactly the reference phase log |
| `Health.Wait` | dynamicbeat/pkg/setup/client.go:66-130 | Elasticsearch phase then Kibana phase on the remaining replies; the run (returned or not, polls per phase, events per phase) equals the reference run `WaitSpec` |
| `Health.PhaseRequests` | dynamicbeat/pkg/setup/client.go:76 | a phase of n polls issues exactly n identical `GET` health probes with no body |
| `Health.PhaseSleeps` | dynamicbeat/pkg/setup/client.go:69-74 | a phase of n polls sleeps exactly n - 1 times |
| `Health.SleepsSeparatePolls` | dynamicbeat/pkg/setup/client.go:67-76 | no sleep precedes the first poll of a phase, a sleep comes right before every later poll, and every sleep is followed by a poll |
| `Health.PhaseCloses` | dynamicbeat/pkg/setup/client.go:85-90 | a phase closes exactly the bodies that decoded, so a body that failed to decode is left open |
| `Health.WaitPhaseOrder` | dynamicbeat/pkg/setup/client.go:68-105 | Kibana is polled only after an Elasticsearch poll decoded "green", which ended that phase; every poll before the last of a phase saw something other than "green" |
| `Health.WaitReturnsIffBothGreen` | dynamicbeat/pkg/setup/client.go:91-129 | Wait returns exactly when the last poll of each phase decoded "green"; a run that has not returned has used every reply, so it never stops retrying |
| `Health.WaitRequests` | dynamicbeat/pkg/setup/client.go:76-105 | every request Wait issues is a health probe: all Elasticsearch ones, then all Kibana ones, never interleaved |
| `Health.WaitIgnoresCodes` | dynamicbeat/pkg/setup/client.go:76-89 | replies that differ only in status code, body text or transport-failure reason give the same run: the response code is ignored |
| `Health.YellowThenGreen` | dynamicbeat/pkg/setup/client.go:66-130 | "yellow", "green" from Elasticsearch, then "green" from Kibana: 2 Elasticsearch polls with 1 sleep, 1 Kibana poll with none, and Wait returns |
| `Health.FailuresThenGreen` | dynamicbeat/pkg/setup/client.go:76-93 | any number of transport or decoding failures, then "green" from each service: one Elasticsearch poll per failure plus one, one sleep per failure, one Kibana poll, and Wait returns |
| `Provision.AddDashboard` | dynamicbeat/pkg/setup/client.go:149-157 | default-space import with a fresh payload; the `scorestack` import, with another fresh payload, only if the first succeeded; result is the first error or the second import's classification |
| `Provision.AddIndex` | dynamicbeat/pkg/setup/client.go:159-172 | `GET /name` probe with a payload; `PUT /name` with a second payload iff the probe was answered 404, result its classification; otherwise the probe's classification |
| `Provision.AddRole` | dynamicbeat/pkg/setup/client.go:174-177 | one `PUT /api/security/role/name` with the given stream; result its classification |
| `Provision.AddSpace` | dynamicbeat/pkg/setup/client.go:179-190 | `PUT /api/spaces/space/name`; `POST /api/spaces/space` with a second payload iff that was answered 404, result its classification; otherwise the update's classification |
| `Provision.AddUser` | dynamicbeat/pkg/setup/client.go:192-205 | `GET /_security/user/name` with no body; `PUT` to the same path with the given stream iff the probe was answered 404, result its classification; otherwise the probe's classification |
| `Provision.IndexCreatedOnlyWhenMissing` | dynamicbeat/pkg/setup/client.go:159-172 | `PUT /name` issued iff the probe was answered 404; `data()` called twice on that path and once otherwise; on that path the probe's body is never closed |
| `Provision.SpaceCreatedOnlyWhenMissing` | dynamicbeat/pkg/setup/client.go:179-190 | exactly one `POST /api/spaces/space` follows the update iff the update was answered 404, none otherwise; the update's body is never closed on that path |
| `Provision.UserCreatedOnlyWhenMissing` | dynamicbeat/pkg/setup/client.go:192-205 | the probe carries no body; exactly one `PUT` with the supplied stream iff the probe was answered 404; no producer is invoked; the probe's body is never closed on that path |
| `Provision.RoleIsOneRequest` | dynamicbeat/pkg/setup/client.go:174-177 | exactly one `PUT /api/security/role/name`, its body closed if delivered |
| `Provision.DashboardImportsInOrder` | dynamicbeat/pkg/setup/client.go:149-157 | at most two imports, the `scorestack` one only after the default one succeeded, each with its own freshly produced stream; every body received is closed |
| `Provision.ExistingResourceIsSkipped` | dynamicbeat/pkg/setup/client.go:165-171 | a probe or update answered 200 or 204 gives success after a single request |
| `Provision.FailedProbeIsAnError` | dynamicbeat/pkg/setup/client.go:170-171 | a probe or update that fails to send, or is answered with a code other than 200, 204 or 404, is an error and nothing is created |
| `Provision.ProbeTransportErrorPassesThrough` | dynamicbeat/pkg/setup/client.go:159-205 | a transport failure of the `AddIndex` or `AddUser` probe, or of the `AddSpace` update, is returned as it is, naming the service and path |
| `Provision.CreatedAnswered201IsAnError` | dynamicbeat/pkg/setup/client.go:159-205 | an index, space or user create answered 201 is an error carrying 201 and the body text |
| `Provision.FailedImportStopsDashboards` | dynamicbeat/pkg/setup/client.go:151-154 | if the default-space import fails, its error is returned and no second import or payload follows |

## Left out

- Building a request can fail in `http.NewRequest` (client.go:26-29, 48-51), for example on a malformed URL. The model always builds the request; only send failures are modelled.
- Basic auth is modelled as the credential pair carried in the request. How the `Authorization` header is encoded is left out.
- Go's `Header.Set` stores header names in canonical case. The model keys headers as the source writes them; header names are case-insensitive on the wire.
- The header map is local to the request and nothing else refers to it, so the model builds it as a value instead of updating it in place.
- `Inner.Do`, network behaviour, TLS and connection reuse are the oracle.
- JSON decoding of health responses is the oracle's `HealthOutcome`: a decoded state string, or a decoding failure.
- `time.Sleep` is a `Slept` event; durations and wall-clock time are not modelled.
- `zap` logging is observability only and is left out.
- Payload and body bytes, `io.Reader` and `io.Copy` are opaque tokens; whether a body can be read is the oracle's choice.
- Error texts are modelled as structured `Error` values that carry the code, the body text or read failure, and the service and path. Exact formatting is left out.
- Health.Wait: the source loops forever until both services are green. The model runs it over a finite script of replies and reports `ready == false` if the script ends first. It has no error result, because the source's `Wait` only returns nil.
- Health.PollPhase: the two polling loops of `Wait` are structurally identical, parametrised by the service. They differ in the request function and path (client.go:76, 105), in the JSON shape decoded (client.go:82-84, 111-117) and in the log text. The model writes them as one method, called once per service. The path comes from `HealthPath`, and the decoded shape is the oracle's `HealthOutcome`.
- Health.Wait: it takes a script of replies rather than the `Oracle` and `Run` the reconcilers use. `Wait` is unbounded, and a finite script gives a run that ends. A phase consumes a prefix of the script, so the next phase starts on the rest. `Wait` produces no payloads. Its requests, sleeps and closes are recorded with the same `Event`s, in the phase logs `esLog` and `kbLog`.
- Check.CloseAndCheck: requires that a nil error comes with a non-nil body. Every triple from the request layer satisfies this; with a nil body the Go code would panic.
