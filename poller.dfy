/** Job status: `fetch_status` asks the proxy for a queued request's status
    once, and `await_response` polls it until the job succeeds, fails, a status
    call fails, or the deadline passes. The clock and the proxy are the
    `World` and the `Trace`: each exchange advances the clock by the time it
    took, a sleep by exactly the poll interval. */
module Poller {
  import opened Optional
  import opened Strings
  import opened Json
  import opened Http
  import opened Endpoints
  import opened Config
  import opened Calls

  const PollDefaultTimeout := 300
  const PollDefaultInterval := 5

  /** The failure `await_response` reports when the deadline passes. */
  function TimeoutReply(): Reply {
    LocalFailure("timeout", "Timed out waiting for AI response.")
  }

  function UuidMissingForStatus(): Reply {
    LocalFailure("project_uuid_missing", "PROJECT_UUID is not defined; aborting status check.")
  }

  function Max(a: int, b: int): (m: int)
    ensures m >= a && m >= b && (m == a || m == b)
  {
    if a >= b then a else b
  }

  /** The fixed headers of a status call, before the extra ones are merged. */
  function StatusHeaders(cfg: Config): Headers {
    map["Accept" := "application/json"][cfg.projectHeader := cfg.projectUuid]
  }

  /** The GET request `fetch_status` sends for job `id`. */
  function StatusRequest(cfg: Config, id: Json, o: CallOptions): HttpRequest {
    HttpRequest(
      BuildUrl(StatusPath(cfg.responsesPath, PyStr(id)), cfg.baseUrl),
      "GET",
      None,
      MergedHeaders(StatusHeaders(cfg), o.headers),
      EffectiveTimeout(cfg, o),
      EffectiveVerifyTls(cfg, o))
  }

  /** The request `fetch_status` sends, or None when no project UUID is
      configured and nothing is sent. */
  function StatusCall(cfg: Config, id: Json, o: CallOptions): Option<HttpRequest> {
    if cfg.projectUuid == "" then None else Some(StatusRequest(cfg, id, o))
  }

  /** Issues a status call, if there is one to issue. */
  function Dispatch(w: World, call: Option<HttpRequest>, t: Trace): (Reply, Trace) {
    match call
    case None => (UuidMissingForStatus(), t)
    case Some(req) => Send(w, t, req)
  }

  /** Without a call nothing is sent and the status check fails; with one,
      the call is appended to the log, the clock advances by the time the
      answer took, and the answer is classified. */
  lemma DispatchMeaning(w: World, call: Option<HttpRequest>, t: Trace)
    ensures var s := Dispatch(w, call, t);
      && (call.None? ==> s == (UuidMissingForStatus(), t))
      && (call.Some? ==>
            && s.1.sent == t.sent + [call.value]
            && s.1.now == t.now + w.answer(|t.sent|).elapsed
            && s.0 == Classify(w.answer(|t.sent|).outcome, w.loads))
  {
  }

  /** `fetch_status`: the status call, if there is one, and its outcome. */
  function FetchStatusSpec(cfg: Config, w: World, id: Json, o: CallOptions, t: Trace): (Reply, Trace) {
    Dispatch(w, StatusCall(cfg, id, o), t)
  }

  /** Without a project UUID nothing is sent and the status check fails;
      otherwise exactly one status request goes out and its outcome is
      classified. The clock never runs backwards. */
  lemma FetchStatusMeaning(cfg: Config, w: World, id: Json, o: CallOptions, t: Trace)
    ensures var s := FetchStatusSpec(cfg, w, id, o, t);
      && (cfg.projectUuid == "" ==> s == (UuidMissingForStatus(), t))
      && (cfg.projectUuid != "" ==>
            && s.1.sent == t.sent + [StatusRequest(cfg, id, o)]
            && s.0 == Classify(w.answer(|t.sent|).outcome, w.loads))
      && t.now <= s.1.now
  {
  }

  /** `fetch_status`, building the headers with the merge loop. */
  method FetchStatus(cfg: Config, w: World, id: Json, o: CallOptions, t: Trace) returns (r: Reply, t': Trace)
    ensures (r, t') == FetchStatusSpec(cfg, w, id, o, t)
  {
    if cfg.projectUuid == "" {
      return UuidMissingForStatus(), t;
    }
    var url := BuildUrl(StatusPath(cfg.responsesPath, PyStr(id)), cfg.baseUrl);
    var headers := MergeHeaders(StatusHeaders(cfg), o.headers);
    var req := HttpRequest(url, "GET", None, headers, EffectiveTimeout(cfg, o), EffectiveVerifyTls(cfg, o));
    var x := w.answer(|t.sent|);
    r := Classify(x.outcome, w.loads);
    t' := Trace(t.sent + [req], t.now + x.elapsed);
  }

  /** What a status request carries: a bodiless GET of the job's status URL;
      the `Accept` header and the project header are present, the project
      header holds the UUID unless an extra header of that name replaces it,
      and the timeout and TLS switch are the per-call overrides or the
      configured values. */
  lemma StatusRequestShape(cfg: Config, id: Json, o: CallOptions)
    ensures var req := StatusRequest(cfg, id, o);
      && req.verb == "GET" && req.body == None
      && EndsWith(req.url, Segment + "/" + PyStr(id) + "/status")
      && "Accept" in req.headers && cfg.projectHeader in req.headers
      && (LastHeaderValue(o.headers, cfg.projectHeader).None? ==> req.headers[cfg.projectHeader] == cfg.projectUuid)
      && (o.timeout.None? ==> req.timeout == cfg.timeout)
      && (o.timeout.Some? ==> req.timeout == o.timeout.value)
      && (o.verifyTls.None? ==> req.verifyTls == cfg.verifyTls)
      && (o.verifyTls.Some? ==> req.verifyTls == Truthy(o.verifyTls.value))
  {
    StatusUrlEnds(cfg, id);
    MergedHeadersLookup(StatusHeaders(cfg), o.headers, "Accept");
    MergedHeadersLookup(StatusHeaders(cfg), o.headers, cfg.projectHeader);
  }

  /** The status URL always ends with `/ai-request/{id}/status`. */
  lemma StatusUrlEnds(cfg: Config, id: Json)
    ensures EndsWith(BuildUrl(StatusPath(cfg.responsesPath, PyStr(id)), cfg.baseUrl), Segment + "/" + PyStr(id) + "/status")
  {
    var name := PyStr(id);
    var p := StatusPath(cfg.responsesPath, name);
    var tail := "/status";
    var suffix := Segment + "/" + name + tail;
    assert suffix[0] == Segment[0] == '/';
    assert suffix[|suffix| - 1] == tail[|tail| - 1] == 's';
    assert '/' !in Whitespace && 's' !in Whitespace;
    StatusPathEnds(cfg.responsesPath, name);
    StripKeepsSuffix(p, suffix);
    assert EndsWith(Strip(p), suffix);
    BuildUrlKeepsSuffix(p, cfg.baseUrl, suffix);
  }

  /** The options `await_response` reads. `timeout` and `interval` are None
      when the key is absent; `verifyTls` is None when `verify_tls` is absent. */
  datatype PollOptions = PollOptions(
    interval: Option<int>,
    timeout: Option<int>,
    headers: seq<Json>,
    timeoutPerCall: Option<int>,
    verifyTls: Option<Json>)

  /** The sleep between polls: the configured interval, 5 when absent, and
      also 5 when it is not positive. */
  function PollInterval(o: PollOptions): (i: int)
    ensures i > 0
    ensures o.interval.Some? && o.interval.value > 0 ==> i == o.interval.value
    ensures !(o.interval.Some? && o.interval.value > 0) ==> i == PollDefaultInterval
  {
    var i := o.interval.GetOr(PollDefaultInterval);
    if i <= 0 then PollDefaultInterval else i
  }

  /** How long polling may go on: the timeout (300 when absent), but never
      less than one interval. */
  function PollBudget(o: PollOptions): (b: int)
    ensures b >= PollInterval(o) && b >= o.timeout.GetOr(PollDefaultTimeout)
    ensures b == PollInterval(o) || b == o.timeout.GetOr(PollDefaultTimeout)
  {
    Max(o.timeout.GetOr(PollDefaultTimeout), PollInterval(o))
  }

  /** The options each status call receives, AS WRITTEN: `verify_tls` is always
      passed on, as None when the caller gave none, and `fetch_status` then
      sees a present key with a falsy value instead of falling back to the
      configuration. */
  function StatusCallOptionsAsWritten(o: PollOptions): (c: CallOptions)
    ensures c.headers == o.headers && c.timeout == o.timeoutPerCall
    ensures o.verifyTls.None? ==> c.verifyTls == Some(JNull)
    ensures o.verifyTls.Some? ==> c.verifyTls == o.verifyTls
  {
    CallOptions(o.headers, o.timeoutPerCall, Some(o.verifyTls.GetOr(JNull)))
  }

  /** The options each status call receives, as evidently intended: an absent
      `verify_tls` stays absent, so the configured setting applies. */
  function StatusCallOptions(o: PollOptions): CallOptions {
    CallOptions(o.headers, o.timeoutPerCall, o.verifyTls)
  }

  /** As written, status polls never verify certificates unless the caller
      passes `verify_tls` explicitly, even though the configuration asks for
      verification (its default). */
  lemma StatusPollSkipsTlsAsWritten(cfg: Config, w: World, id: Json, o: PollOptions, t: Trace)
    requires cfg.verifyTls && cfg.projectUuid != "" && o.verifyTls.None?
    ensures var s := FetchStatusSpec(cfg, w, id, StatusCallOptionsAsWritten(o), t);
      s.1.sent[|t.sent|].verifyTls == false
  {
  }

  /** With the intended options a status poll verifies certificates exactly
      as the configuration says when the caller gives no override. */
  lemma StatusPollKeepsTls(cfg: Config, w: World, id: Json, o: PollOptions, t: Trace)
    requires cfg.projectUuid != "" && o.verifyTls.None?
    ensures var s := FetchStatusSpec(cfg, w, id, StatusCallOptions(o), t);
      s.1.sent[|t.sent|].verifyTls == cfg.verifyTls
  {
  }

  /** What one status reply means for the loop: Some(result) ends polling,
      None polls again. A failed call is returned unchanged; a successful one
      ends polling only when its data (`{}` when falsy) is a dict whose
      `status` is "success" or "failed". */
  function Verdict(resp: Reply): (v: Option<Reply>)
    ensures !resp.success ==> v == Some(resp)
    ensures v.Some? && v.value.success ==> v.value.status == Some(200) && resp.success
    ensures v.Some? && resp.success && !v.value.success ==>
      v.value.status == Some(500) && v.value.error.Some? && v.value.error.value.JStr? && v.value.error.value.s != ""
  {
    if !resp.success then Some(resp)
    else
      var data := Or(resp.data.GetOr(JNull), JObj(map[]));
      if !data.JObj? then None
      else
        var status := Get(data.fields, "status");
        if status == JStr("success") then
          Some(Reply(true, Some(200), None, None, Some(GetOr(data.fields, "response", data)), None))
        else if status == JStr("failed") then
          Some(Reply(false, Some(500), Some(JStr(PyStr(Or(Get(data.fields, "error"), JStr("AI request failed"))))),
                     None, Some(data), None))
        else None
  }

  /** A job the proxy reports as "success" yields its `response` (or the whole
      status data when there is none); one reported as "failed" yields a
      failure carrying its error, or "AI request failed" when it has none. */
  lemma VerdictOfStatus(data: map<string, Json>)
    ensures Get(data, "status") == JStr("success") ==>
      Verdict(Reply(true, Some(200), None, None, Some(JObj(data)), None)) ==
        Some(Reply(true, Some(200), None, None, Some(if "response" in data then data["response"] else JObj(data)), None))
    ensures Get(data, "status") == JStr("failed") && !Truthy(Get(data, "error")) ==>
      Verdict(Reply(true, Some(200), None, None, Some(JObj(data)), None)) ==
        Some(Reply(false, Some(500), Some(JStr("AI request failed")), None, Some(JObj(data)), None))
    ensures Get(data, "status") != JStr("success") && Get(data, "status") != JStr("failed") ==>
      Verdict(Reply(true, Some(200), None, None, Some(JObj(data)), None)).None?
  {
  }

  /** The loop of `await_response` from the moment a status call is due: poll,
      decide, and either stop, time out, or sleep one interval and poll again.
      Every iteration issues the same call. */
  function Poll(w: World, call: Option<HttpRequest>, interval: int, deadline: int, t: Trace): (Reply, Trace)
    requires interval > 0
    decreases if t.now <= deadline then deadline - t.now else 0
  {
    var step := Dispatch(w, call, t);
    var resp := step.0;
    var t1 := step.1;
    match Verdict(resp)
    case Some(r) => (r, t1)
    case None =>
      if t1.now >= deadline then (TimeoutReply(), t1)
      else Poll(w, call, interval, deadline, Trace(t1.sent, t1.now + interval))
  }

  /** `await_response`, started at the trace's clock. */
  function AwaitSpec(cfg: Config, w: World, id: Json, o: PollOptions, t: Trace): (Reply, Trace) {
    Poll(w, StatusCall(cfg, id, StatusCallOptions(o)), PollInterval(o), t.now + PollBudget(o), t)
  }

  /** `await_response` is the polling loop over a call that is either the
      job's status request or none. */
  lemma AwaitSpecIsPoll(cfg: Config, w: World, id: Json, o: PollOptions, t: Trace) returns (call: Option<HttpRequest>)
    ensures call.None? || call == Some(StatusRequest(cfg, id, StatusCallOptions(o)))
    ensures AwaitSpec(cfg, w, id, o, t) == Poll(w, call, PollInterval(o), t.now + PollBudget(o), t)
  {
    call := StatusCall(cfg, id, StatusCallOptions(o));
  }

  /** `await_response`: the polling loop itself. */
  method AwaitResponse(cfg: Config, w: World, id: Json, o: PollOptions, t: Trace) returns (r: Reply, t': Trace)
    ensures (r, t') == AwaitSpec(cfg, w, id, o, t)
  {
    var interval := PollInterval(o);
    var deadline := t.now + PollBudget(o);
    var call := StatusCallOptions(o);
    ghost var req := StatusCall(cfg, id, call);
    t' := t;
    while true
      invariant Poll(w, req, interval, deadline, t') == AwaitSpec(cfg, w, id, o, t)
      decreases if t'.now <= deadline then deadline - t'.now else 0
    {
      var resp, t1 := FetchStatus(cfg, w, id, call, t');
      var verdict := Verdict(resp);
      if verdict.Some? {
        return verdict.value, t1;
      }
      if t1.now >= deadline {
        return TimeoutReply(), t1;
      }
      var next := Trace(t1.sent, t1.now + interval);
      PollContinues(w, req, interval, deadline, t', resp, t1, next);
      t' := next;
    }
  }

  /** One pending poll before the deadline: polling goes on from the next
      poll, one interval after the reply, and the clock has moved on. */
  lemma PollContinues(w: World, call: Option<HttpRequest>, interval: int, deadline: int, t: Trace, resp: Reply, t1: Trace, next: Trace)
    requires interval > 0
    requires (resp, t1) == Dispatch(w, call, t)
    requires Verdict(resp).None? && t1.now < deadline
    requires next == Trace(t1.sent, t1.now + interval)
    ensures Poll(w, call, interval, deadline, t) == Poll(w, call, interval, deadline, next)
    ensures t.now < next.now
  {
  }

  /** The reply of a status call is never the poll's own timeout failure. */
  lemma DispatchIsNotTimeout(w: World, call: Option<HttpRequest>, t: Trace)
    ensures Dispatch(w, call, t).0 != TimeoutReply()
  {
  }

  /** Whatever polling ends with: a success always carries status 200; the
      timeout failure only comes once the clock has reached the deadline;
      the log only grows, by the status call alone, and the clock never runs
      backwards. */
  lemma {:induction false} PollOutcome(w: World, call: Option<HttpRequest>, interval: int, deadline: int, t: Trace)
    requires interval > 0
    ensures var s := Poll(w, call, interval, deadline, t); var r := s.0; var t' := s.1;
      && (r.success ==> r.status == Some(200))
      && (r == TimeoutReply() ==> t'.now >= deadline)
      && t.now <= t'.now
      && |t.sent| <= |t'.sent| && t'.sent[..|t.sent|] == t.sent
      && (call.Some? ==> |t.sent| < |t'.sent|)
      && (forall i :: |t.sent| <= i < |t'.sent| ==> call.Some? && t'.sent[i] == call.value)
    decreases if t.now <= deadline then deadline - t.now else 0
  {
    var step := Dispatch(w, call, t);
    var resp := step.0;
    var t1 := step.1;
    DispatchIsNotTimeout(w, call, t);
    if Verdict(resp).None? && t1.now < deadline {
      var t2 := Trace(t1.sent, t1.now + interval);
      PollOutcome(w, call, interval, deadline, t2);
      var t' := Poll(w, call, interval, deadline, t2).1;
      assert t'.sent[..|t1.sent|] == t1.sent;
      assert t'.sent[..|t.sent|] == t'.sent[..|t1.sent|][..|t.sent|];
    }
  }

  /** The guarantees of `await_response`: a success carries status 200, a
      timeout is reported only once the clock has passed the start plus the
      budget, and only status requests for the job are sent, each verifying
      certificates as configured when the caller gives no override. */
  lemma AwaitOutcome(cfg: Config, w: World, id: Json, o: PollOptions, t: Trace)
    ensures var s := AwaitSpec(cfg, w, id, o, t); var r := s.0; var t' := s.1;
      && (r.success ==> r.status == Some(200))
      && (r == TimeoutReply() ==> t'.now >= t.now + PollBudget(o))
      && |t.sent| <= |t'.sent| && t'.sent[..|t.sent|] == t.sent
      && (forall i :: |t.sent| <= i < |t'.sent| ==> t'.sent[i] == StatusRequest(cfg, id, StatusCallOptions(o)))
      && (o.verifyTls.None? ==> forall i :: |t.sent| <= i < |t'.sent| ==> t'.sent[i].verifyTls == cfg.verifyTls)
  {
    var req := StatusRequest(cfg, id, StatusCallOptions(o));
    var call := AwaitSpecIsPoll(cfg, w, id, o, t);
    PollSendsOnly(w, req, call, PollInterval(o), t.now + PollBudget(o), t);
    assert o.verifyTls.None? ==> req.verifyTls == cfg.verifyTls;
  }

  /** `PollOutcome` for a call known to be a given request or none. */
  lemma PollSendsOnly(w: World, req: HttpRequest, call: Option<HttpRequest>, interval: int, deadline: int, t: Trace)
    requires interval > 0 && (call.None? || call == Some(req))
    ensures var s := Poll(w, call, interval, deadline, t); var r := s.0; var t' := s.1;
      && (r.success ==> r.status == Some(200))
      && (r == TimeoutReply() ==> t'.now >= deadline)
      && |t.sent| <= |t'.sent| && t'.sent[..|t.sent|] == t.sent
      && (forall i :: |t.sent| <= i < |t'.sent| ==> t'.sent[i] == req)
  {
    PollOutcome(w, call, interval, deadline, t);
  }

  /** `await_response` as written: every status call carries the options of
      `StatusCallOptionsAsWritten`. */
  function AwaitSpecAsWritten(cfg: Config, w: World, id: Json, o: PollOptions, t: Trace): (Reply, Trace) {
    Poll(w, StatusCall(cfg, id, StatusCallOptionsAsWritten(o)), PollInterval(o), t.now + PollBudget(o), t)
  }

  /** As written, when the caller gives no `verify_tls`, no status request
      of the whole polling loop verifies certificates, whatever the
      configuration says. */
  lemma AwaitSkipsTlsAsWritten(cfg: Config, w: World, id: Json, o: PollOptions, t: Trace)
    requires o.verifyTls.None?
    ensures var t' := AwaitSpecAsWritten(cfg, w, id, o, t).1;
      forall i :: |t.sent| <= i < |t'.sent| ==> !t'.sent[i].verifyTls
  {
    var req := StatusRequest(cfg, id, StatusCallOptionsAsWritten(o));
    assert !req.verifyTls;
    PollSendsOnly(w, req, StatusCall(cfg, id, StatusCallOptionsAsWritten(o)), PollInterval(o), t.now + PollBudget(o), t);
  }

  /** With a project UUID, `await_response` sends at least one request, and
      the first is the job's status request. */
  lemma AwaitPollsFirst(cfg: Config, w: World, id: Json, o: PollOptions, t: Trace)
    requires cfg.projectUuid != ""
    ensures var t' := AwaitSpec(cfg, w, id, o, t).1;
      |t.sent| < |t'.sent| && t'.sent[|t.sent|] == StatusRequest(cfg, id, StatusCallOptions(o))
  {
    var call := StatusCall(cfg, id, StatusCallOptions(o));
    PollOutcome(w, call, PollInterval(o), t.now + PollBudget(o), t);
  }

  /** A failed first status call is returned as it is, after one request. */
  lemma AwaitReturnsFailedStatus(cfg: Config, w: World, id: Json, o: PollOptions, t: Trace)
    requires cfg.projectUuid != ""
    requires !Classify(w.answer(|t.sent|).outcome, w.loads).success
    ensures var s := AwaitSpec(cfg, w, id, o, t); var r := s.0; var t' := s.1;
      r == Classify(w.answer(|t.sent|).outcome, w.loads) && |t'.sent| == |t.sent| + 1
  {
    var call := StatusCall(cfg, id, StatusCallOptions(o));
    var step := Dispatch(w, call, t);
    var resp := step.0;
    var t1 := step.1;
    assert Verdict(resp) == Some(resp);
  }

  /** Without a project UUID polling stops at once with the status-check
      failure and sends nothing. */
  lemma AwaitWithoutUuid(cfg: Config, w: World, id: Json, o: PollOptions, t: Trace)
    requires cfg.projectUuid == ""
    ensures AwaitSpec(cfg, w, id, o, t) == (UuidMissingForStatus(), t)
  {
    var call := StatusCall(cfg, id, StatusCallOptions(o));
    assert call == None;
    assert Verdict(UuidMissingForStatus()) == Some(UuidMissingForStatus());
  }

  /** The proxy's k-th answer continues polling. */
  predicate Pending(w: World, k: nat) {
    Verdict(Classify(w.answer(k).outcome, w.loads)).None?
  }

  /** Two pending answers followed by a final one: the final verdict is the
      result, after exactly three requests, as long as the pending answers
      arrive before the deadline. */
  lemma PollPendingPendingDone(w: World, req: HttpRequest, interval: int, deadline: int, t: Trace)
    requires interval > 0
    requires Pending(w, |t.sent|) && Pending(w, |t.sent| + 1)
    requires Verdict(Classify(w.answer(|t.sent| + 2).outcome, w.loads)).Some?
    requires t.now + w.answer(|t.sent|).elapsed + interval + w.answer(|t.sent| + 1).elapsed < deadline
    ensures var s := Poll(w, Some(req), interval, deadline, t); var r := s.0; var t' := s.1;
      && r == Verdict(Classify(w.answer(|t.sent| + 2).outcome, w.loads)).value
      && t'.sent == t.sent + [req, req, req]
  {
    var t1 := Dispatch(w, Some(req), t).1;
    var t1' := Trace(t1.sent, t1.now + interval);
    assert Poll(w, Some(req), interval, deadline, t) == Poll(w, Some(req), interval, deadline, t1');
    var t2 := Dispatch(w, Some(req), t1').1;
    var t2' := Trace(t2.sent, t2.now + interval);
    assert Poll(w, Some(req), interval, deadline, t1') == Poll(w, Some(req), interval, deadline, t2');
    assert t2'.sent + [req] == t.sent + [req, req, req];
  }

  lemma AwaitPendingPendingDone(cfg: Config, w: World, id: Json, o: PollOptions, t: Trace)
    requires cfg.projectUuid != ""
    requires Pending(w, |t.sent|) && Pending(w, |t.sent| + 1)
    requires Verdict(Classify(w.answer(|t.sent| + 2).outcome, w.loads)).Some?
    requires w.answer(|t.sent|).elapsed + PollInterval(o) + w.answer(|t.sent| + 1).elapsed < PollBudget(o)
    ensures var s := AwaitSpec(cfg, w, id, o, t); var r := s.0; var t' := s.1;
      && r == Verdict(Classify(w.answer(|t.sent| + 2).outcome, w.loads)).value
      && |t'.sent| == |t.sent| + 3
  {
    var req := StatusRequest(cfg, id, StatusCallOptions(o));
    PollPendingPendingDone(w, req, PollInterval(o), t.now + PollBudget(o), t);
  }

  /** A job that stays pending ends in the timeout failure, never in another
      failure. */
  lemma {:induction false} PollAlwaysPendingTimesOut(w: World, req: HttpRequest, interval: int, deadline: int, t: Trace)
    requires interval > 0
    requires forall k: nat :: Pending(w, k)
    ensures Poll(w, Some(req), interval, deadline, t).0 == TimeoutReply()
    decreases if t.now <= deadline then deadline - t.now else 0
  {
    var t1 := Dispatch(w, Some(req), t).1;
    assert Pending(w, |t.sent|);
    if t1.now < deadline {
      PollAlwaysPendingTimesOut(w, req, interval, deadline, Trace(t1.sent, t1.now + interval));
    }
  }

  lemma AwaitAlwaysPendingTimesOut(cfg: Config, w: World, id: Json, o: PollOptions, t: Trace)
    requires cfg.projectUuid != ""
    requires forall k: nat :: Pending(w, k)
    ensures AwaitSpec(cfg, w, id, o, t).0 == TimeoutReply()
  {
    var req := StatusRequest(cfg, id, StatusCallOptions(o));
    PollAlwaysPendingTimesOut(w, req, PollInterval(o), t.now + PollBudget(o), t);
  }

  /** The number of status requests is bounded by the deadline: every poll
      after the first starts at least one interval after the previous one and
      before the deadline plus one interval. */
  lemma {:induction false} PollCallBound(w: World, call: Option<HttpRequest>, interval: int, deadline: int, t: Trace)
    requires interval > 0 && t.now < deadline + interval
    ensures var n := |Poll(w, call, interval, deadline, t).1.sent| - |t.sent|;
      (n - 1) * interval < deadline + interval - t.now
    decreases if t.now <= deadline then deadline - t.now else 0
  {
    var step := Dispatch(w, call, t);
    var resp := step.0;
    var t1 := step.1;
    var n := |Poll(w, call, interval, deadline, t).1.sent| - |t.sent|;
    if Verdict(resp).None? && t1.now < deadline {
      var t2 := Trace(t1.sent, t1.now + interval);
      PollCallBound(w, call, interval, deadline, t2);
      var m := |Poll(w, call, interval, deadline, t2).1.sent| - |t2.sent|;
      assert n == m + 1;
      BoundStep(m, interval, deadline + interval - t2.now, deadline + interval - t.now);
    } else {
      assert n <= 1;
      assert (n - 1) * interval <= 0;
    }
  }

  /** One more interval fits one more poll. */
  lemma BoundStep(m: int, interval: int, rest: int, total: int)
    requires (m - 1) * interval < rest && rest + interval <= total
    ensures m * interval < total
  {
    assert m * interval == (m - 1) * interval + interval;
  }

  /** `await_response` sends at most two more requests than the budget has
      whole intervals. */
  lemma AwaitCallBound(cfg: Config, w: World, id: Json, o: PollOptions, t: Trace)
    ensures var n := |AwaitSpec(cfg, w, id, o, t).1.sent| - |t.sent|;
      (n - 2) * PollInterval(o) < PollBudget(o)
  {
    var interval := PollInterval(o);
    var call := StatusCall(cfg, id, StatusCallOptions(o));
    var n := |AwaitSpec(cfg, w, id, o, t).1.sent| - |t.sent|;
    PollCallBound(w, call, interval, t.now + PollBudget(o), t);
    assert (n - 2) * interval == (n - 1) * interval - interval;
  }

  /** With the responses path derived from PROJECT_ID, the status path holds
      the `/ai-request` segment exactly once. */
  lemma DerivedStatusPath(projectId: string, id: string)
    ensures StatusPath("/projects/" + projectId + Segment, id) ==
      "/projects/" + projectId + "/ai-request/" + id + "/status"
  {
    var p := "/projects/" + projectId + Segment;
    assert p[|p| - 1] == 't';
    assert TrimEnd(p, {'/'}) == p;
    assert p[|p| - |Segment|..] == Segment;
  }
}
