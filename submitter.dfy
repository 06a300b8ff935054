/** Submitting work to the proxy: `request` posts a payload to the resolved
    endpoint (adding the project UUID to the caller's payload dict), and
    `create_response` validates the parameters, posts them and, when the
    proxy queues the job, polls for its result. */
module Submitter {
  import opened Optional
  import opened Strings
  import opened Json
  import opened Http
  import opened Endpoints
  import opened Config
  import opened Calls
  import opened Poller

  /** The payload dict handed to `request`, which adds keys to it in place. */
  class Payload {
    var items: map<string, Json>

    constructor (items: map<string, Json>)
      ensures this.items == items
    {
      this.items := items;
    }
  }

  /** The options `request` and `create_response` read. `path` is "" when
      absent or falsy; `pollTimeout` and `pollInterval` are None when absent. */
  datatype Options = Options(path: string, call: CallOptions, pollTimeout: Option<int>, pollInterval: Option<int>)

  function ProjectIdMissing(): Reply {
    LocalFailure("project_id_missing", "PROJECT_ID is not defined; cannot resolve AI proxy endpoint.")
  }

  function UuidMissingForRequest(): Reply {
    LocalFailure("project_uuid_missing", "PROJECT_UUID is not defined; aborting AI request.")
  }

  function InputMissing(): Reply {
    LocalFailure("input_missing", "Parameter \"input\" is required and must be a non-empty list.")
  }

  /** `path or options.get("path") or cfg["responses_path"]`. */
  function ResolvedPath(cfg: Config, path: string, o: Options): (p: string)
    ensures p == "" <==> path == "" && o.path == "" && cfg.responsesPath == ""
    ensures path != "" ==> p == path
    ensures path == "" && o.path != "" ==> p == o.path
    ensures path == "" && o.path == "" ==> p == cfg.responsesPath
  {
    if path != "" then path else if o.path != "" then o.path else cfg.responsesPath
  }

  /** The payload with the project UUID added unless it already names one. */
  function WithProjectUuid(payload: map<string, Json>, uuid: string): (p: map<string, Json>)
    ensures "project_uuid" in p
    ensures "project_uuid" in payload ==> p == payload
    ensures "project_uuid" !in payload ==> p["project_uuid"] == JStr(uuid) && p.Keys == payload.Keys + {"project_uuid"}
    ensures forall k :: k in payload ==> k in p && p[k] == payload[k]
  {
    if "project_uuid" in payload then payload else payload["project_uuid" := JStr(uuid)]
  }

  /** The fixed headers of a submission, before the extra ones are merged. */
  function SubmitHeaders(cfg: Config): Headers {
    map["Content-Type" := "application/json"]["Accept" := "application/json"][cfg.projectHeader := cfg.projectUuid]
  }

  /** The POST request `request` sends to the resolved path. */
  function SubmitRequest(cfg: Config, resolved: string, payload: map<string, Json>, o: CallOptions): HttpRequest {
    HttpRequest(
      BuildUrl(resolved, cfg.baseUrl),
      "POST",
      Some(JObj(WithProjectUuid(payload, cfg.projectUuid))),
      MergedHeaders(SubmitHeaders(cfg), o.headers),
      EffectiveTimeout(cfg, o),
      EffectiveVerifyTls(cfg, o))
  }

  /** The request `request` sends, or the failure it reports without sending:
      a missing endpoint is reported before a missing UUID. */
  function SubmitCall(cfg: Config, path: string, payload: map<string, Json>, o: Options): Submission {
    var resolved := ResolvedPath(cfg, path, o);
    if resolved == "" then Refused(ProjectIdMissing())
    else if cfg.projectUuid == "" then Refused(UuidMissingForRequest())
    else Submit(SubmitRequest(cfg, resolved, payload, o.call))
  }

  /** What `request` does: refuse with a local failure, or submit a request. */
  datatype Submission = Refused(failure: Reply) | Submit(req: HttpRequest)

  /** `request`: the reply and the trace after it. */
  function RequestSpec(cfg: Config, w: World, path: string, payload: map<string, Json>, o: Options, t: Trace): (Reply, Trace) {
    match SubmitCall(cfg, path, payload, o)
    case Refused(failure) => (failure, t)
    case Submit(req) => Send(w, t, req)
  }

  /** The caller's payload after `request`: the project UUID is added once
      both checks have passed, and only then. */
  function SubmittedPayload(cfg: Config, path: string, payload: map<string, Json>, o: Options): map<string, Json> {
    if ResolvedPath(cfg, path, o) != "" && cfg.projectUuid != "" then WithProjectUuid(payload, cfg.projectUuid)
    else payload
  }

  /** `request`, updating the caller's payload in place. */
  method Request(cfg: Config, w: World, path: string, payload: Payload, o: Options, t: Trace) returns (r: Reply, t': Trace)
    modifies payload
    ensures (r, t') == RequestSpec(cfg, w, path, old(payload.items), o, t)
    ensures payload.items == SubmittedPayload(cfg, path, old(payload.items), o)
  {
    var resolved := if path != "" then path else if o.path != "" then o.path else cfg.responsesPath;
    if resolved == "" {
      return ProjectIdMissing(), t;
    }
    if cfg.projectUuid == "" {
      return UuidMissingForRequest(), t;
    }
    if "project_uuid" !in payload.items {
      payload.items := payload.items["project_uuid" := JStr(cfg.projectUuid)];
    }
    var url := BuildUrl(resolved, cfg.baseUrl);
    var headers := MergeHeaders(SubmitHeaders(cfg), o.call.headers);
    var req := HttpRequest(url, "POST", Some(JObj(payload.items)), headers,
                           EffectiveTimeout(cfg, o.call), EffectiveVerifyTls(cfg, o.call));
    var x := w.answer(|t.sent|);
    r := Classify(x.outcome, w.loads);
    t' := Trace(t.sent + [req], t.now + x.elapsed);
  }

  /** A refused request sends nothing and leaves the payload alone. */
  lemma RequestRefused(cfg: Config, w: World, path: string, payload: map<string, Json>, o: Options, t: Trace)
    requires ResolvedPath(cfg, path, o) == "" || cfg.projectUuid == ""
    ensures var s := RequestSpec(cfg, w, path, payload, o, t); var r := s.0; var t' := s.1;
      && t' == t && !r.success
      && r == (if ResolvedPath(cfg, path, o) == "" then ProjectIdMissing() else UuidMissingForRequest())
      && SubmittedPayload(cfg, path, payload, o) == payload
  {
  }

  /** Only a request that was sent can succeed, and one is sent only with an
      endpoint and a project UUID. */
  lemma RequestSucceedsOnlyWithUuid(cfg: Config, w: World, path: string, payload: map<string, Json>, o: Options, t: Trace)
    ensures RequestSpec(cfg, w, path, payload, o, t).0.success ==> ResolvedPath(cfg, path, o) != "" && cfg.projectUuid != ""
  {
    if ResolvedPath(cfg, path, o) == "" || cfg.projectUuid == "" {
      RequestRefused(cfg, w, path, payload, o, t);
    }
  }

  /** A successful submission carries the 2xx status of the proxy's answer. */
  lemma RequestSuccessIsTwoHundred(cfg: Config, w: World, path: string, payload: map<string, Json>, o: Options, t: Trace)
    ensures var r := RequestSpec(cfg, w, path, payload, o, t).0;
      r.success ==> r.status.Some? && IsSuccessful(r.status.value)
  {
    if ResolvedPath(cfg, path, o) != "" && cfg.projectUuid != "" {
      ClassifyMeaning(w.answer(|t.sent|).outcome, w.loads);
    }
  }

  /** An accepted request sends exactly one POST to the resolved endpoint,
      carrying the caller's payload with the project UUID added (an existing
      `project_uuid` is never replaced), `Content-Type`, `Accept` and the
      project header (the UUID unless an extra header replaces it), and
      verifying certificates as configured unless overridden. */
  lemma RequestSends(cfg: Config, w: World, path: string, payload: map<string, Json>, o: Options, t: Trace)
    requires ResolvedPath(cfg, path, o) != "" && cfg.projectUuid != ""
    ensures var s := RequestSpec(cfg, w, path, payload, o, t); var r := s.0; var t' := s.1;
      && |t'.sent| == |t.sent| + 1 && t'.sent[..|t.sent|] == t.sent
      && r == Classify(w.answer(|t.sent|).outcome, w.loads)
      && var req := t'.sent[|t.sent|];
      && req.verb == "POST"
      && req.url == BuildUrl(ResolvedPath(cfg, path, o), cfg.baseUrl)
      && req.body == Some(JObj(SubmittedPayload(cfg, path, payload, o)))
      && req.body.value.fields["project_uuid"] ==
           (if "project_uuid" in payload then payload["project_uuid"] else JStr(cfg.projectUuid))
      && "Content-Type" in req.headers && "Accept" in req.headers && cfg.projectHeader in req.headers
      && (LastHeaderValue(o.call.headers, cfg.projectHeader).None? ==> req.headers[cfg.projectHeader] == cfg.projectUuid)
      && (o.call.verifyTls.None? ==> req.verifyTls == cfg.verifyTls)
      && (o.call.verifyTls.Some? ==> req.verifyTls == Truthy(o.call.verifyTls.value))
      && (o.call.timeout.None? ==> req.timeout == cfg.timeout)
      && (o.call.timeout.Some? ==> req.timeout == o.call.timeout.value)
  {
    var req := SubmitRequest(cfg, ResolvedPath(cfg, path, o), payload, o.call);
    MergedHeadersLookup(SubmitHeaders(cfg), o.call.headers, "Content-Type");
    MergedHeadersLookup(SubmitHeaders(cfg), o.call.headers, "Accept");
    MergedHeadersLookup(SubmitHeaders(cfg), o.call.headers, cfg.projectHeader);
    var t' := RequestSpec(cfg, w, path, payload, o, t).1;
    assert t'.sent == t.sent + [req];
  }

  /** `create_response` needs a non-empty `input` list. */
  predicate HasInput(params: map<string, Json>) {
    Get(params, "input").JArr? && Get(params, "input").items != []
  }

  /** The parameters with the default model filled in when `model` is falsy. */
  function WithModel(params: map<string, Json>, defaultModel: string): (p: map<string, Json>)
    ensures p.Keys == params.Keys + {"model"}
    ensures forall k :: k in params && k != "model" ==> p[k] == params[k]
    ensures Truthy(Get(params, "model")) ==> p["model"] == params["model"]
    ensures !Truthy(Get(params, "model")) ==> p["model"] == JStr(defaultModel)
  {
    if Truthy(Get(params, "model")) then params else params["model" := JStr(defaultModel)]
  }

  /** The job id of a queued request: `ai_request_id` in a dict of data. */
  function RequestId(data: Option<Json>): Option<Json> {
    if data.Some? && data.value.JObj? && "ai_request_id" in data.value.fields
    then Some(data.value.fields["ai_request_id"])
    else None
  }

  /** The options `create_response` hands to `await_response`. TLS is not
      among them. */
  function PollOptionsOf(o: Options): PollOptions {
    PollOptions(Some(o.pollInterval.GetOr(PollDefaultInterval)), Some(o.pollTimeout.GetOr(PollDefaultTimeout)),
                o.call.headers, o.call.timeout, None)
  }

  /** `create_response`. */
  function CreateSpec(cfg: Config, w: World, params: map<string, Json>, o: Options, t: Trace): (Reply, Trace) {
    if !HasInput(params) then (InputMissing(), t)
    else
      var sub := RequestSpec(cfg, w, o.path, WithModel(params, cfg.defaultModel), o, t);
      var initial := sub.0;
      var t1 := sub.1;
      AfterSubmit(cfg, w, initial, o, t1)
  }

  /** What `create_response` does with the submission's reply: a failure or
      a reply without a job id is the result, a job id is polled for. */
  function AfterSubmit(cfg: Config, w: World, initial: Reply, o: Options, t1: Trace): (Reply, Trace) {
    if !initial.success then (initial, t1)
    else match RequestId(initial.data)
      case Some(id) => AwaitSpec(cfg, w, id, PollOptionsOf(o), t1)
      case None => (initial, t1)
  }

  /** `create_response`, working on its own copy of the parameters. */
  method CreateResponse(cfg: Config, w: World, params: map<string, Json>, o: Options, t: Trace) returns (r: Reply, t': Trace)
    ensures (r, t') == CreateSpec(cfg, w, params, o, t)
  {
    var payload := new Payload(params);
    var input := Get(payload.items, "input");
    if !(input.JArr? && input.items != []) {
      return InputMissing(), t;
    }
    if !Truthy(Get(payload.items, "model")) {
      payload.items := payload.items["model" := JStr(cfg.defaultModel)];
    }
    assert payload.items == WithModel(params, cfg.defaultModel);
    var initial, t1 := Request(cfg, w, o.path, payload, o, t);
    r, t' := PollIfQueued(cfg, w, initial, o, t1);
  }

  /** The tail of `create_response`. */
  method PollIfQueued(cfg: Config, w: World, initial: Reply, o: Options, t1: Trace) returns (r: Reply, t': Trace)
    ensures (r, t') == AfterSubmit(cfg, w, initial, o, t1)
  {
    if !initial.success {
      return initial, t1;
    }
    var data := initial.data;
    if data.Some? && data.value.JObj? && "ai_request_id" in data.value.fields {
      r, t' := AwaitResponse(cfg, w, data.value.fields["ai_request_id"], PollOptionsOf(o), t1);
      return;
    }
    return initial, t1;
  }

  /** Without a non-empty `input` list nothing is sent. */
  lemma CreateInputMissing(cfg: Config, w: World, params: map<string, Json>, o: Options, t: Trace)
    requires !HasInput(params)
    ensures CreateSpec(cfg, w, params, o, t) == (InputMissing(), t)
  {
  }

  /** A failed submission is returned as it is, and nothing is polled. */
  lemma CreatePassesFailure(cfg: Config, w: World, params: map<string, Json>, o: Options, t: Trace)
    requires HasInput(params)
    requires !RequestSpec(cfg, w, o.path, WithModel(params, cfg.defaultModel), o, t).0.success
    ensures CreateSpec(cfg, w, params, o, t) == RequestSpec(cfg, w, o.path, WithModel(params, cfg.defaultModel), o, t)
  {
  }

  /** What is submitted: the parameters with the model defaulted and the
      project UUID added, everything else as given. */
  lemma CreateSubmits(cfg: Config, w: World, params: map<string, Json>, o: Options, t: Trace)
    requires HasInput(params) && ResolvedPath(cfg, o.path, o) != "" && cfg.projectUuid != ""
    ensures var t' := CreateSpec(cfg, w, params, o, t).1;
      && |t'.sent| > |t.sent|
      && var req := t'.sent[|t.sent|];
      && req.verb == "POST"
      && req.body.Some? && req.body.value.JObj?
      && var body := req.body.value.fields;
      && "input" in body && body["input"] == params["input"]
      && "model" in body && Truthy(body["model"]) == (Truthy(Get(params, "model")) || cfg.defaultModel != "")
      && (Truthy(Get(params, "model")) ==> body["model"] == params["model"])
      && (!Truthy(Get(params, "model")) ==> body["model"] == JStr(cfg.defaultModel))
      && "project_uuid" in body
  {
    var payload := WithModel(params, cfg.defaultModel);
    RequestSends(cfg, w, o.path, payload, o, t);
    var sub := RequestSpec(cfg, w, o.path, payload, o, t);
    var initial := sub.0;
    var t1 := sub.1;
    if initial.success && RequestId(initial.data).Some? {
      AwaitOutcome(cfg, w, RequestId(initial.data).value, PollOptionsOf(o), t1);
      var t' := CreateSpec(cfg, w, params, o, t).1;
      assert t'.sent[..|t1.sent|] == t1.sent;
      assert t'.sent[|t.sent|] == t1.sent[|t.sent|];
    }
  }

  /** Without a project UUID nothing is sent, once there is an endpoint. */
  lemma CreateWithoutUuid(cfg: Config, w: World, params: map<string, Json>, o: Options, t: Trace)
    requires HasInput(params) && ResolvedPath(cfg, o.path, o) != "" && cfg.projectUuid == ""
    ensures CreateSpec(cfg, w, params, o, t) == (UuidMissingForRequest(), t)
  {
  }

  /** A job id in the submission's reply leads to at least one status poll
      for that job, after the submission. */
  lemma CreatePollsJob(cfg: Config, w: World, params: map<string, Json>, o: Options, t: Trace)
    requires HasInput(params)
    ensures var sub := RequestSpec(cfg, w, o.path, WithModel(params, cfg.defaultModel), o, t); var initial := sub.0; var t1 := sub.1;
      var t' := CreateSpec(cfg, w, params, o, t).1;
      initial.success && RequestId(initial.data).Some? ==>
        && |t1.sent| < |t'.sent|
        && t'.sent[|t1.sent|] == StatusRequest(cfg, RequestId(initial.data).value, StatusCallOptions(PollOptionsOf(o)))
  {
    var sub := RequestSpec(cfg, w, o.path, WithModel(params, cfg.defaultModel), o, t);
    var initial := sub.0;
    var t1 := sub.1;
    if initial.success && RequestId(initial.data).Some? {
      var id := RequestId(initial.data).value;
      RequestSucceedsOnlyWithUuid(cfg, w, o.path, WithModel(params, cfg.defaultModel), o, t);
      assert CreateSpec(cfg, w, params, o, t) == AwaitSpec(cfg, w, id, PollOptionsOf(o), t1);
      AwaitPollsFirst(cfg, w, id, PollOptionsOf(o), t1);
    }
  }

  /** Polling happens exactly when the accepted submission returns a job id:
      without one, the submission's reply is the result after one request. */
  lemma CreatePollsOnlyWithJobId(cfg: Config, w: World, params: map<string, Json>, o: Options, t: Trace)
    requires HasInput(params)
    ensures var sub := RequestSpec(cfg, w, o.path, WithModel(params, cfg.defaultModel), o, t); var initial := sub.0; var t1 := sub.1;
      var s := CreateSpec(cfg, w, params, o, t); var r := s.0; var t' := s.1;
      && (initial.success && RequestId(initial.data).None? ==> r == initial && t' == t1)
      && (initial.success && RequestId(initial.data).Some? ==>
            (r, t') == AwaitSpec(cfg, w, RequestId(initial.data).value, PollOptionsOf(o), t1))
  {
  }

  /** Every successful result carries a 2xx status: either the submission's
      own, or 200 from a finished job. */
  lemma CreateSuccessIsTwoHundred(cfg: Config, w: World, params: map<string, Json>, o: Options, t: Trace)
    ensures var r := CreateSpec(cfg, w, params, o, t).0;
      r.success ==> r.status.Some? && IsSuccessful(r.status.value)
  {
    if HasInput(params) {
      var sub := RequestSpec(cfg, w, o.path, WithModel(params, cfg.defaultModel), o, t);
      var initial := sub.0;
      var t1 := sub.1;
      RequestSuccessIsTwoHundred(cfg, w, o.path, WithModel(params, cfg.defaultModel), o, t);
      if initial.success && RequestId(initial.data).Some? {
        AwaitOutcome(cfg, w, RequestId(initial.data).value, PollOptionsOf(o), t1);
      }
    }
  }

  /** Status polls started by `create_response` verify certificates as
      configured, since it passes no TLS option on. */
  lemma CreatePollsKeepTls(cfg: Config, w: World, params: map<string, Json>, o: Options, t: Trace)
    requires HasInput(params)
    ensures var t1 := RequestSpec(cfg, w, o.path, WithModel(params, cfg.defaultModel), o, t).1;
      var t' := CreateSpec(cfg, w, params, o, t).1;
      forall i :: |t1.sent| <= i < |t'.sent| ==> t'.sent[i].verifyTls == cfg.verifyTls
  {
    var sub := RequestSpec(cfg, w, o.path, WithModel(params, cfg.defaultModel), o, t);
    var initial := sub.0;
    var t1 := sub.1;
    if initial.success && RequestId(initial.data).Some? {
      AwaitOutcome(cfg, w, RequestId(initial.data).value, PollOptionsOf(o), t1);
    }
  }

  /** The tail of `create_response` as written, polling through
      `AwaitSpecAsWritten`. */
  function AfterSubmitAsWritten(cfg: Config, w: World, initial: Reply, o: Options, t1: Trace): (Reply, Trace) {
    if !initial.success then (initial, t1)
    else match RequestId(initial.data)
      case Some(id) => AwaitSpecAsWritten(cfg, w, id, PollOptionsOf(o), t1)
      case None => (initial, t1)
  }

  /** `create_response` as written. */
  function CreateSpecAsWritten(cfg: Config, w: World, params: map<string, Json>, o: Options, t: Trace): (Reply, Trace) {
    if !HasInput(params) then (InputMissing(), t)
    else
      var sub := RequestSpec(cfg, w, o.path, WithModel(params, cfg.defaultModel), o, t);
      AfterSubmitAsWritten(cfg, w, sub.0, o, sub.1)
  }

  /** As written, no status poll started by `create_response` verifies
      certificates, even when the configuration asks for verification. */
  lemma CreatePollsSkipTlsAsWritten(cfg: Config, w: World, params: map<string, Json>, o: Options, t: Trace)
    requires HasInput(params)
    ensures var t1 := RequestSpec(cfg, w, o.path, WithModel(params, cfg.defaultModel), o, t).1;
      var t' := CreateSpecAsWritten(cfg, w, params, o, t).1;
      forall i :: |t1.sent| <= i < |t'.sent| ==> !t'.sent[i].verifyTls
  {
    var sub := RequestSpec(cfg, w, o.path, WithModel(params, cfg.defaultModel), o, t);
    var initial := sub.0;
    var t1 := sub.1;
    if initial.success && RequestId(initial.data).Some? {
      AwaitSkipsTlsAsWritten(cfg, w, RequestId(initial.data).value, PollOptionsOf(o), t1);
    }
  }
}
