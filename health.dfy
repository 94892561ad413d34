/** The readiness poller (Wait): poll Elasticsearch's cluster health until
    it decodes to "green", then Kibana's status until its overall state
    decodes to "green". No sleep precedes the first poll of a phase and a
    five-second sleep precedes every later one. A transport failure, a body
    that does not decode, or any state other than the exact string "green"
    means "poll again". The response code is never looked at.

    The source loops without bound. The model runs it against a finite
    script of replies (the replies the services give to successive polls); a
    run whose script ends before both phases saw "green" is reported as still
    polling (`ready == false`). There is no error result: the source's Wait
    only ever returns nil. */
module Health {
  import opened Transport

  const ClusterHealthPath := "/_cluster/health"
  const StatusPath := "/api/status"

  function HealthPath(service: Service): string
  {
    match service
    case Elasticsearch => ClusterHealthPath
    case Kibana => StatusPath
  }

  /** The health poll of one service: a GET with no body. */
  function Probe(c: Client, service: Service): Request
  {
    NewRequest(c, service, GET, HealthPath(service), NoPayload)
  }

  /** The reply was delivered and its body decoded into a health report. */
  predicate Decodes(r: Reply)
  {
    r.Delivered? && r.body.health.State?
  }

  /** The reply ends a phase: it decoded, and the state is exactly "green". */
  predicate Green(r: Reply)
  {
    Decodes(r) && r.body.health.state == "green"
  }

  predicate Converges(s: seq<Reply>)
  {
    exists i :: 0 <= i < |s| && Green(s[i])
  }

  /** The number of polls a phase takes on the replies `s`: up to and
      including the first green reply, or all of `s` if none is green. */
  function PhaseLength(s: seq<Reply>): (k: nat)
    ensures k <= |s|
    ensures s != [] ==> k >= 1
    ensures forall i :: 0 <= i < k - 1 ==> !Green(s[i])
    ensures Converges(s) ==> k >= 1 && Green(s[k - 1])
    ensures !Converges(s) ==> k == |s|
  {
    if s == [] then 0
    else if Green(s[0]) then 1
    else
      var k := 1 + PhaseLength(s[1..]);
      assert forall i :: 1 <= i < |s| ==> s[i] == s[1..][i - 1];
      k
  }

  /** The events of one poll: the sleep (unless it is the phase's first
      poll), the request, and the close of the body, which happens only when
      the body decoded. */
  function PollEvents(c: Client, service: Service, r: Reply, first: bool): seq<Event>
  {
    (if first then [] else [Slept])
    + [Sent(Probe(c, service))]
    + (if Decodes(r) then [Closed(r.body.handle)] else [])
  }

  /** The events of a phase that polled once for each reply of `polls`. */
  function PhaseLog(c: Client, service: Service, polls: seq<Reply>): seq<Event>
    decreases |polls|
  {
    if polls == [] then []
    else PhaseLog(c, service, polls[..|polls| - 1]) + PollEvents(c, service, polls[|polls| - 1], |polls| == 1)
  }

  /** What a run of Wait did: whether it returned, the polls of each phase,
      and the events of each phase in order. */
  datatype WaitRun = WaitRun(
    ready: bool,
    esPolls: nat,
    kbPolls: nat,
    esLog: seq<Event>,
    kbLog: seq<Event>)
  {
    function Log(): seq<Event> { esLog + kbLog }
  }

  /** The reference run: the Elasticsearch phase consumes replies up to its
      first green one, the Kibana phase consumes the rest up to its first
      green one, and Wait returns exactly when both found one. */
  function WaitSpec(c: Client, script: seq<Reply>): WaitRun
  {
    var e := PhaseLength(script);
    var rest := script[e..];
    var k := PhaseLength(rest);
    WaitRun(Converges(script) && Converges(rest), e, k,
            PhaseLog(c, Elasticsearch, script[..e]), PhaseLog(c, Kibana, rest[..k]))
  }

  /** The phase length is determined by where the first green reply is. */
  lemma PhaseLengthAt(s: seq<Reply>, k: nat)
    requires k <= |s|
    requires forall i :: 0 <= i < k - 1 ==> !Green(s[i])
    requires (k >= 1 && Green(s[k - 1])) || (k == |s| && !Converges(s))
    ensures PhaseLength(s) == k
  {
  }

  lemma PhaseLogStep(c: Client, service: Service, s: seq<Reply>, i: nat)
    requires i < |s|
    ensures PhaseLog(c, service, s[..i + 1]) == PhaseLog(c, service, s[..i]) + PollEvents(c, service, s[i], i == 0)
  {
    assert s[..i + 1][..i] == s[..i];
  }

  /** One phase of Wait, as the source writes each of its two loops: a
      `first` flag, a sleep before every poll but the first, `continue` on a
      transport or decoding failure, `break` on "green". Polls `service`
      once per reply of `replies` until one decodes to "green", and returns
      how many replies it consumed. */
  method PollPhase(c: Client, service: Service, replies: seq<Reply>)
    returns (polls: nat, green: bool, log: seq<Event>)
    ensures polls == PhaseLength(replies)
    ensures green == Converges(replies)
    ensures log == PhaseLog(c, service, replies[..polls])
  {
    var probe := Probe(c, service);
    polls := 0;
    var first := true;
    log := [];
    green := false;
    while polls < |replies|
      invariant polls <= |replies|
      invariant first <==> polls == 0
      invariant !green
      invariant forall j :: 0 <= j < polls ==> !Green(replies[j])
      invariant log == PhaseLog(c, service, replies[..polls])
    {
      PhaseLogStep(c, service, replies, polls);
      PollStepLog(c, service, log, replies[polls], first);
      if !first {
        log := log + [Slept];
      }
      first := false;
      var resp := Respond(service, HealthPath(service), replies[polls]);
      log := log + [Sent(probe)];
      polls := polls + 1;
      if resp.err.Some? {
        continue;
      }
      var health := resp.body.value.health;
      if health.Undecodable? {
        continue;
      }
      log := log + [Closed(resp.body.value.handle)];
      if health.state == "green" {
        green := true;
        break;
      }
    }
    PhaseLengthAt(replies, polls);
  }

  /** The events one pass of the loop appends, in the order the loop
      appends them. */
  lemma PollStepLog(c: Client, service: Service, log: seq<Event>, r: Reply, first: bool)
    ensures var pre := if first then log else log + [Slept];
      && (!Decodes(r) ==> pre + [Sent(Probe(c, service))] == log + PollEvents(c, service, r, first))
      && (Decodes(r) ==> pre + [Sent(Probe(c, service))] + [Closed(r.body.handle)] == log + PollEvents(c, service, r, first))
  {
    var pre := if first then log else log + [Slept];
    assert pre == log + (if first then [] else [Slept]);
  }

  /** Wait: the Elasticsearch phase, then the Kibana phase on the replies
      that remain. Returns (`ready`) only once both phases saw "green". */
  method Wait(c: Client, script: seq<Reply>) returns (w: WaitRun)
    ensures w == WaitSpec(c, script)
  {
    var esPolls, esGreen, esLog := PollPhase(c, Elasticsearch, script);
    var kbPolls, kbGreen, kbLog := PollPhase(c, Kibana, script[esPolls..]);
    w := WaitRun(esGreen && kbGreen, esPolls, kbPolls, esLog, kbLog);
  }

  // What a phase's log looks like.

  lemma PollEventsViews(c: Client, service: Service, r: Reply, first: bool)
    ensures Requests(PollEvents(c, service, r, first)) == [Probe(c, service)]
    ensures SleepCount(PollEvents(c, service, r, first)) == if first then 0 else 1
    ensures ClosedHandles(PollEvents(c, service, r, first)) == if Decodes(r) then [r.body.handle] else []
  {
    var pre: seq<Event> := if first then [] else [Slept];
    var post: seq<Event> := if Decodes(r) then [Closed(r.body.handle)] else [];
    ViewsOfAppend(pre, [Sent(Probe(c, service))]);
    ViewsOfAppend(pre + [Sent(Probe(c, service))], post);
  }

  /** The health probes issued in a phase: one per reply, each the same GET. */
  function Probes(c: Client, service: Service, n: nat): (ps: seq<Request>)
    ensures |ps| == n && forall i :: 0 <= i < n ==> ps[i] == Probe(c, service)
  {
    seq(n, _ => Probe(c, service))
  }

  lemma ProbesSnoc(c: Client, service: Service, n: nat)
    ensures Probes(c, service, n) + [Probe(c, service)] == Probes(c, service, n + 1)
  {
    assert forall i :: 0 <= i <= n ==> (Probes(c, service, n) + [Probe(c, service)])[i] == Probe(c, service);
  }

  /** The handles of the bodies that decoded, in order. */
  function DecodedHandles(s: seq<Reply>): seq<nat>
    decreases |s|
  {
    if s == [] then []
    else DecodedHandles(s[..|s| - 1]) + (if Decodes(s[|s| - 1]) then [s[|s| - 1].body.handle] else [])
  }

  /** A phase of n polls issues n identical probes. */
  lemma {:induction false} PhaseRequests(c: Client, service: Service, s: seq<Reply>)
    ensures Requests(PhaseLog(c, service, s)) == Probes(c, service, |s|)
  {
    if s != [] {
      var p := s[..|s| - 1];
      PhaseRequests(c, service, p);
      PollEventsViews(c, service, s[|s| - 1], |s| == 1);
      RequestsOfAppend(PhaseLog(c, service, p), PollEvents(c, service, s[|s| - 1], |s| == 1));
      ProbesSnoc(c, service, |p|);
    }
  }

  /** A phase of n polls sleeps n - 1 times. */
  lemma {:induction false} PhaseSleeps(c: Client, service: Service, s: seq<Reply>)
    ensures SleepCount(PhaseLog(c, service, s)) == if s == [] then 0 else |s| - 1
  {
    if s != [] {
      var p := s[..|s| - 1];
      PhaseSleeps(c, service, p);
      PollEventsViews(c, service, s[|s| - 1], |s| == 1);
      SleepCountOfAppend(PhaseLog(c, service, p), PollEvents(c, service, s[|s| - 1], |s| == 1));
    }
  }

  /** A phase closes exactly the bodies that decoded: a body that failed to
      decode is left open. */
  lemma {:induction false} PhaseCloses(c: Client, service: Service, s: seq<Reply>)
    ensures ClosedHandles(PhaseLog(c, service, s)) == DecodedHandles(s)
  {
    if s != [] {
      var p := s[..|s| - 1];
      PhaseCloses(c, service, p);
      PollEventsViews(c, service, s[|s| - 1], |s| == 1);
      ClosedHandlesOfAppend(PhaseLog(c, service, p), PollEvents(c, service, s[|s| - 1], |s| == 1));
    }
  }

  /** No sleep comes before the first poll of a phase, a sleep comes right
      before every later poll, and every sleep is followed by a poll. */
  lemma {:induction false} SleepsSeparatePolls(c: Client, service: Service, s: seq<Reply>)
    ensures var log := PhaseLog(c, service, s);
      && (s != [] ==> log[0] == Sent(Probe(c, service)))
      && (forall j :: 0 < j < |log| && log[j].Sent? ==> log[j - 1] == Slept)
      && (forall j :: 0 <= j < |log| && log[j] == Slept ==> j + 1 < |log| && log[j + 1] == Sent(Probe(c, service)))
  {
    if s != [] {
      var p := s[..|s| - 1];
      SleepsSeparatePolls(c, service, p);
      var before := PhaseLog(c, service, p);
      var poll := PollEvents(c, service, s[|s| - 1], |s| == 1);
      var log := before + poll;
      assert log == PhaseLog(c, service, s);
      if |s| == 1 {
        assert p == [] && before == [];
      } else {
        assert |before| > 0 by { assert before[0] == Sent(Probe(c, service)); }
        assert poll[0] == Slept && poll[1] == Sent(Probe(c, service));
        forall j | 0 < j < |log| && log[j].Sent?
          ensures log[j - 1] == Slept
        {
          if j < |before| {
            assert log[j] == before[j];
          } else {
            assert log[j] == poll[j - |before|];
          }
        }
        forall j | 0 <= j < |log| && log[j] == Slept
          ensures j + 1 < |log| && log[j + 1] == Sent(Probe(c, service))
        {
          if j < |before| {
            assert log[j] == before[j] && log[j + 1] == before[j + 1];
          } else {
            assert log[j] == poll[j - |before|];
            assert log[j + 1] == poll[1];
          }
        }
      }
    }
  }

  // What Wait does, stated on the reference run.

  /** Where the second phase sits in the script: right after the first,
      which ended on "green" if the second polled at all. */
  lemma SecondPhaseOrder(script: seq<Reply>)
    ensures var e := PhaseLength(script);
      var k := PhaseLength(script[e..]);
      && e + k <= |script|
      && (k > 0 ==> e >= 1 && Green(script[e - 1]))
      && (forall i :: e <= i < e + k - 1 ==> !Green(script[i]))
  {
    var e := PhaseLength(script);
    var rest := script[e..];
    var k := PhaseLength(rest);
    if k > 0 {
      assert Converges(script);
    }
    forall i | e <= i < e + k - 1
      ensures !Green(script[i])
    {
      assert script[i] == rest[i - e];
    }
  }

  /** Both phases converge exactly when each ended on a green reply; when
      one does not, the two phases used the whole script. */
  lemma BothConverge(script: seq<Reply>)
    ensures var e := PhaseLength(script);
      var rest := script[e..];
      var k := PhaseLength(rest);
      && (Converges(script) && Converges(rest) <==>
            e >= 1 && Green(script[e - 1]) && k >= 1 && Green(script[e + k - 1]))
      && (!(Converges(script) && Converges(rest)) ==> e + k == |script|)
  {
    var e := PhaseLength(script);
    var rest := script[e..];
    var k := PhaseLength(rest);
    if k >= 1 {
      assert script[e + k - 1] == rest[k - 1];
    }
    if e >= 1 && Green(script[e - 1]) && k >= 1 && Green(rest[k - 1]) {
      assert Converges(script) by { assert Green(script[e - 1]); }
      assert Converges(rest) by { assert Green(rest[k - 1]); }
    }
  }

  /** Kibana is polled only once an Elasticsearch poll decoded "green",
      and every poll before the last of a phase saw something other than
      "green": a transport failure, an undecodable body or another state. */
  lemma WaitPhaseOrder(c: Client, script: seq<Reply>)
    ensures var w := WaitSpec(c, script);
      && w.esPolls + w.kbPolls <= |script|
      && (w.kbPolls > 0 ==> w.esPolls >= 1 && Green(script[w.esPolls - 1]))
      && (forall i :: 0 <= i < w.esPolls - 1 ==> !Green(script[i]))
      && (forall i :: w.esPolls <= i < w.esPolls + w.kbPolls - 1 ==> !Green(script[i]))
  {
    SecondPhaseOrder(script);
  }

  /** Wait returns exactly when both phases ended on "green"; a run that has
      not returned has used every reply: it never stops retrying. */
  lemma WaitReturnsIffBothGreen(c: Client, script: seq<Reply>)
    ensures var w := WaitSpec(c, script);
      && (w.ready <==> w.esPolls >= 1 && Green(script[w.esPolls - 1])
                       && w.kbPolls >= 1 && Green(script[w.esPolls + w.kbPolls - 1]))
      && (!w.ready ==> w.esPolls + w.kbPolls == |script|)
  {
    BothConverge(script);
  }

  /** Every request Wait issues is a health probe: first the Elasticsearch
      ones, then the Kibana ones, never interleaved. */
  lemma WaitRequests(c: Client, script: seq<Reply>)
    ensures var w := WaitSpec(c, script);
      Requests(w.Log()) == Probes(c, Elasticsearch, w.esPolls) + Probes(c, Kibana, w.kbPolls)
  {
    var w := WaitSpec(c, script);
    var e := w.esPolls;
    PhaseRequests(c, Elasticsearch, script[..e]);
    PhaseRequests(c, Kibana, script[e..][..w.kbPolls]);
    ViewsOfAppend(w.esLog, w.kbLog);
  }

  /** Two replies Wait cannot tell apart: it looks only at whether the body
      decoded, the decoded state and the body to close, never at the code,
      the body text or the reason of a transport failure. */
  predicate SameObservation(a: Reply, b: Reply)
  {
    && Decodes(a) == Decodes(b)
    && (Decodes(a) ==> a.body.health == b.body.health && a.body.handle == b.body.handle)
  }

  predicate Indistinguishable(s: seq<Reply>, t: seq<Reply>)
  {
    |s| == |t| && forall i :: 0 <= i < |s| ==> SameObservation(s[i], t[i])
  }

  lemma IndistinguishableSlices(s: seq<Reply>, t: seq<Reply>, lo: nat, hi: nat)
    requires Indistinguishable(s, t)
    requires lo <= hi <= |s|
    ensures Indistinguishable(s[lo..hi], t[lo..hi])
  {
    assert forall i :: 0 <= i < hi - lo ==> s[lo..hi][i] == s[lo + i] && t[lo..hi][i] == t[lo + i];
  }

  lemma {:induction false} PhaseLengthIgnoresCodes(s: seq<Reply>, t: seq<Reply>)
    requires Indistinguishable(s, t)
    ensures PhaseLength(s) == PhaseLength(t)
  {
    if s != [] {
      assert Green(s[0]) == Green(t[0]);
      IndistinguishableSlices(s, t, 1, |s|);
      PhaseLengthIgnoresCodes(s[1..], t[1..]);
    }
  }

  lemma ConvergesIgnoresCodes(s: seq<Reply>, t: seq<Reply>)
    requires Indistinguishable(s, t)
    ensures Converges(s) == Converges(t)
  {
    if Converges(s) {
      var i :| 0 <= i < |s| && Green(s[i]);
      assert Green(t[i]);
    }
    if Converges(t) {
      var i :| 0 <= i < |t| && Green(t[i]);
      assert Green(s[i]);
    }
  }

  lemma {:induction false} PhaseLogIgnoresCodes(c: Client, service: Service, s: seq<Reply>, t: seq<Reply>)
    requires Indistinguishable(s, t)
    ensures PhaseLog(c, service, s) == PhaseLog(c, service, t)
  {
    if s != [] {
      IndistinguishableSlices(s, t, 0, |s| - 1);
      PhaseLogIgnoresCodes(c, service, s[..|s| - 1], t[..|t| - 1]);
      assert SameObservation(s[|s| - 1], t[|t| - 1]);
      assert PollEvents(c, service, s[|s| - 1], |s| == 1) == PollEvents(c, service, t[|t| - 1], |t| == 1);
    }
  }

  /** Wait's behaviour does not depend on response codes, body text or
      transport-failure reasons. */
  lemma WaitIgnoresCodes(c: Client, s: seq<Reply>, t: seq<Reply>)
    requires Indistinguishable(s, t)
    ensures WaitSpec(c, s) == WaitSpec(c, t)
  {
    PhaseLengthIgnoresCodes(s, t);
    ConvergesIgnoresCodes(s, t);
    var e := PhaseLength(s);
    IndistinguishableSlices(s, t, 0, e);
    PhaseLogIgnoresCodes(c, Elasticsearch, s[..e], t[..e]);
    IndistinguishableSlices(s, t, e, |s|);
    var rs, rt := s[e..], t[e..];
    PhaseLengthIgnoresCodes(rs, rt);
    ConvergesIgnoresCodes(rs, rt);
    var k := PhaseLength(rs);
    IndistinguishableSlices(rs, rt, 0, k);
    PhaseLogIgnoresCodes(c, Kibana, rs[..k], rt[..k]);
  }

  // Scenarios.

  function HealthReply(handle: nat, state: string): Reply
  {
    Delivered(200, ResponseBody(handle, Text(""), State(state)))
  }

  /** Elasticsearch answers "yellow" then "green", Kibana "green" at once:
      two Elasticsearch polls with one sleep between them, one Kibana poll
      with none, and Wait returns. */
  lemma YellowThenGreen(c: Client)
    ensures var w := WaitSpec(c, [HealthReply(0, "yellow"), HealthReply(1, "green"), HealthReply(2, "green")]);
      && w.ready && w.esPolls == 2 && w.kbPolls == 1
      && SleepCount(w.esLog) == 1 && SleepCount(w.kbLog) == 0
  {
    var s := [HealthReply(0, "yellow"), HealthReply(1, "green"), HealthReply(2, "green")];
    PhaseLengthAt(s, 2);
    assert s[2..] == [HealthReply(2, "green")];
    PhaseLengthAt(s[2..], 1);
    PhaseSleeps(c, Elasticsearch, s[..2]);
    PhaseSleeps(c, Kibana, s[2..][..1]);
  }

  /** Any number of transport failures or undecodable bodies, then "green"
      from each service: Wait retries through every failure, polls
      Elasticsearch once per failure plus once, sleeps once per failure,
      then polls Kibana exactly once and returns. */
  lemma {:induction false} FailuresThenGreen(c: Client, failures: seq<Reply>, es: Reply, kb: Reply)
    requires forall i :: 0 <= i < |failures| ==> !Decodes(failures[i])
    requires Green(es) && Green(kb)
    ensures var w := WaitSpec(c, failures + [es, kb]);
      && w.ready && w.esPolls == |failures| + 1 && w.kbPolls == 1
      && SleepCount(w.esLog) == |failures| && SleepCount(w.kbLog) == 0
  {
    var s := failures + [es, kb];
    var e := |failures| + 1;
    assert s[e - 1] == es;
    assert forall i :: 0 <= i < e - 1 ==> s[i] == failures[i];
    PhaseLengthAt(s, e);
    assert s[e..] == [kb];
    PhaseLengthAt(s[e..], 1);
    assert Converges(s) by { assert Green(s[e - 1]); }
    assert Converges(s[e..]) by { assert Green(s[e..][0]); }
    PhaseSleeps(c, Elasticsearch, s[..e]);
    PhaseSleeps(c, Kibana, s[e..][..1]);
  }
}
