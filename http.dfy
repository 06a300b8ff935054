/** One HTTP exchange with the AI proxy (`_http_request`): the transport is an
    oracle that answers with a status and a body or raises, and this module
    classifies what came back into the client's result dict. */
module Http {
  import opened Optional
  import opened Json

  /** The dict every public function of the client returns. A field is None
      when the dict has no such key. */
  datatype Reply = Reply(
    success: bool,
    status: Option<int>,
    error: Option<Json>,
    message: Option<string>,
    data: Option<Json>,
    response: Option<Json>)

  /** A failure detected by the client itself: `{success: False, error: kind, message: text}`. */
  function LocalFailure(kind: string, text: string): Reply {
    Reply(false, None, Some(JStr(kind)), Some(text), None, None)
  }

  /** What `urlopen` did: it produced a status code and the body decoded as
      UTF-8 (also for an `HTTPError`), or it raised with the given message. */
  datatype Outcome = Answered(status: int, body: string) | Raised(reason: string)

  /** The transport's answer to one request and the seconds it took. */
  datatype Exchange = Exchange(outcome: Outcome, elapsed: nat)

  /** A request as handed to the transport. `body` is the JSON payload before
      `json.dumps`; `verifyTls` is the truth value of the `verify_tls` argument. */
  datatype HttpRequest = HttpRequest(
    url: string,
    verb: string,
    body: Option<Json>,
    headers: map<string, string>,
    timeout: int,
    verifyTls: bool)

  /** Everything outside the client: how the proxy answers the k-th request
      of a run, and `json.loads` (None stands for `JSONDecodeError`). */
  datatype World = World(answer: nat -> Exchange, loads: string -> Option<Json>)

  /** The requests issued so far, oldest first, and the wall clock in seconds. */
  datatype Trace = Trace(sent: seq<HttpRequest>, now: int)

  const DefaultError := "AI proxy request failed"

  /** The "Successful 2xx" class of section 15.3 of RFC 9110. */
  predicate IsSuccessful(status: int) {
    200 <= status < 300
  }

  /** `decoded`: `json.loads(body)` for a non-empty body; None when the body is
      empty or does not parse, and also when it parses to JSON null. */
  function Decoded(body: string, loads: string -> Option<Json>): Option<Json> {
    if body == "" then None
    else match loads(body)
      case None => None
      case Some(v) => if v.JNull? then None else Some(v)
  }

  /** `decoded if decoded is not None else response_body`. */
  function BodyValue(body: string, loads: string -> Option<Json>): Json {
    match Decoded(body, loads)
    case Some(d) => d
    case None => JStr(body)
  }

  /** The error reported for a non-2xx answer. It is never falsy: the first
      truthy of the decoded dict's `error` and `message`, else the default;
      the raw body when the decoded value is not a dict; the default when
      there is neither. */
  function ErrorMessage(decoded: Option<Json>, body: string): (e: Json)
    ensures Truthy(e)
    ensures decoded.Some? && decoded.value.JObj? ==>
      var f := decoded.value.fields;
      && (Truthy(Get(f, "error")) ==> e == Get(f, "error"))
      && (!Truthy(Get(f, "error")) && Truthy(Get(f, "message")) ==> e == Get(f, "message"))
      && (!Truthy(Get(f, "error")) && !Truthy(Get(f, "message")) ==> e == JStr(DefaultError))
    ensures !(decoded.Some? && decoded.value.JObj?) ==>
      e == JStr(if body != "" then body else DefaultError)
  {
    match decoded
    case Some(JObj(f)) => Or(Get(f, "error"), Or(Get(f, "message"), JStr(DefaultError)))
    case _ => if body != "" then JStr(body) else JStr(DefaultError)
  }

  /** The result dict `_http_request` builds from the transport's outcome. */
  function Classify(o: Outcome, loads: string -> Option<Json>): Reply {
    match o
    case Raised(reason) => LocalFailure("request_failed", reason)
    case Answered(status, body) =>
      if IsSuccessful(status) then
        Reply(true, Some(status), None, None, Some(BodyValue(body, loads)), None)
      else
        Reply(false, Some(status), Some(ErrorMessage(Decoded(body, loads), body)), None, None,
              Some(BodyValue(body, loads)))
  }

  /** What the classification means: success exactly for a 2xx answer; a
      raised transport error becomes `request_failed` with its message; an
      answer reports its status, with the body value as `data` on success and
      as `response`, with an error message, on failure; every failure carries
      a truthy error. */
  lemma ClassifyMeaning(o: Outcome, loads: string -> Option<Json>)
    ensures var r := Classify(o, loads);
      && (r.success <==> o.Answered? && IsSuccessful(o.status))
      && (o.Raised? ==> r == LocalFailure("request_failed", o.reason))
      && (o.Answered? ==> r.status == Some(o.status) && r.message == None)
      && (o.Answered? && r.success ==>
            r.data == Some(BodyValue(o.body, loads)) && r.error == None && r.response == None)
      && (o.Answered? && !r.success ==>
            && r.error == Some(ErrorMessage(Decoded(o.body, loads), o.body))
            && r.response == Some(BodyValue(o.body, loads))
            && r.data == None)
      && (!r.success ==> r.error.Some? && Truthy(r.error.value))
  {
  }

  /** Hands `req` to the transport: the request is logged, the clock moves on
      by the time the exchange took, and the outcome is classified. */
  function Send(w: World, t: Trace, req: HttpRequest): (Reply, Trace) {
    var x := w.answer(|t.sent|);
    (Classify(x.outcome, w.loads), Trace(t.sent + [req], t.now + x.elapsed))
  }
}
