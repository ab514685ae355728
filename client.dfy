/**
 * `RMSClient`: builds request URLs, turns HTTP responses into values or typed
 * errors, and retries requests that fail to connect.
 *
 * The HTTP transport is an environment the client consumes one reply at a
 * time: `replies` is the script of what the network answers to successive
 * requests. A request beyond the end of the script fails to connect, so every
 * run of the client against a given script is finite. `sent` records what was
 * handed to the transport; the ghost fields record the logical requests made
 * through the verb methods, what each returned, and every delay slept.
 */
module Client {
  import opened Wrappers
  import opened Text
  import opened Json
  import opened Exceptions
  import Auth
  import Retry
  import LoggingConfig

  datatype Verb = GET | POST | PUT | DELETE

  /** The arguments of `_request`; `Null` stands for an omitted `json`, `data` or `files`. */
  datatype Request = Request(verb: Verb, path: string, params: Option<map<string, Json>>,
                             json: Json, data: Json, files: Json)

  /** The effect of a sequence of logical requests: their results, the replies left, what was sent and slept. */
  datatype Transcript = Transcript(outcomes: seq<Result<Json, Error>>, rest: seq<Reply>, sent: seq<Sent>, sleeps: seq<nat>)

  /** A request as the transport receives it, with its absolute URL. */
  datatype Sent = Sent(url: string, request: Request)

  /** A response body as received: empty, valid JSON, or text that is not JSON. */
  datatype RawBody = NoContent | Parsable(value: Json) | Unparsable(text: string)

  /** What the network answers to one request. */
  datatype Reply = ConnectFailure(cause: string) | Received(status: int, body: RawBody)

  const DEFAULT_BASE_URL := "https://rms.teltonika-networks.com/api"

  /** The answer to a request made after the script has run out. */
  const NO_REPLY := ConnectFailure("no reply")

  /** The body `_handle_response` works with: parsing never raises. */
  function ParseBody(raw: RawBody): (r: Json)
    ensures raw.NoContent? ==> r == Null
    ensures raw.Parsable? ==> r == raw.value
    ensures raw.Unparsable? && raw.text != "" ==> r == Object(map["text" := Str(raw.text)])
    ensures raw.Unparsable? && raw.text == "" ==> r == Null
  {
    match raw
    case NoContent => Null
    case Parsable(v) => v
    case Unparsable(t) => if t != "" then Object(map["text" := Str(t)]) else Null
  }

  /** The message an error response gets when its body does not supply one. */
  function DefaultMessage(status: int): string
  {
    if status == 401 then "Authentication failed"
    else if status == 403 then "Permission denied"
    else if status == 404 then "Resource not found"
    else if status == 422 then "Validation error"
    else "API error: " + IntToString(status)
  }

  /** `body.get("message", default) if isinstance(body, dict) else default`. */
  function MessageOf(body: Json, default: string): Json
  {
    if body.Object? then Get(body.fields, "message", Str(default)) else Str(default)
  }

  /** `_handle_response`: the first matching status rule decides; below 400 the parsed body is returned. */
  function HandleResponse(status: int, raw: RawBody): (r: Result<Json, Error>)
    ensures r.Failure? <==> status >= 400
    ensures r.Success? ==> r.value == ParseBody(raw)
    ensures r.Failure? ==>
      r.error.IsRmsError() && r.error.StatusCode() == Some(status) && r.error.ResponseData() == ParseBody(raw)
  {
    var body := ParseBody(raw);
    if status == 401 then
      Failure(AuthenticationError(MessageOf(body, "Authentication failed"), body))
    else if status == 403 then
      Failure(PermissionError(MessageOf(body, "Permission denied"), body))
    else if status == 404 then
      Failure(NotFoundError(MessageOf(body, "Resource not found"), body))
    else if status == 422 then
      var errors := if body.Object? then Get(body.fields, "errors", List([])) else List([]);
      Failure(ValidationError(MessageOf(body, "Validation error"), body, errors))
    else if status >= 400 then
      Failure(ApiError(MessageOf(body, "API error: " + IntToString(status)), Some(status), body))
    else
      Success(body)
  }

  /** Which error each failing status produces. */
  lemma ErrorKinds(status: int, raw: RawBody)
    ensures status == 401 ==> HandleResponse(status, raw).error.AuthenticationError?
    ensures status == 403 ==> HandleResponse(status, raw).error.PermissionError?
    ensures status == 404 ==> HandleResponse(status, raw).error.NotFoundError?
    ensures status == 422 ==> HandleResponse(status, raw).error.ValidationError?
    ensures status >= 400 && status !in {401, 403, 404, 422} ==> HandleResponse(status, raw).error.ApiError?
  {
  }

  /** An error's message is the body's "message" when the body is a mapping that has one, else the default. */
  lemma ErrorMessage(status: int, raw: RawBody)
    requires status >= 400
    ensures var body := ParseBody(raw);
      HandleResponse(status, raw).error.message ==
        (if body.Object? && "message" in body.fields then body.fields["message"] else Str(DefaultMessage(status)))
  {
  }

  /** A 422 error carries the body's "errors" list, and `[]` when there is none. */
  lemma ValidationErrorList(raw: RawBody)
    ensures var body := ParseBody(raw);
      var e := HandleResponse(422, raw).error;
      e.ValidationError? &&
      (body.Object? && "errors" in body.fields && Truthy(body.fields["errors"]) ==> e.Errors() == body.fields["errors"]) &&
      (!body.Object? || "errors" !in body.fields ==> e.Errors() == List([]))
  {
  }

  /** A body that is not JSON never supplies a message: the error gets the default one. */
  lemma TextBodyDefaultMessage(status: int, text: string)
    requires status >= 400
    ensures HandleResponse(status, Unparsable(text)).error.Describe() == DefaultMessage(status)
  {
    if text != "" {
      assert "message" !in ParseBody(Unparsable(text)).fields;
    }
  }

  /** The request URL: `path` itself when it starts with "http", else appended to the base URL. */
  function BuildUrl(baseUrl: string, path: string): (r: string)
    ensures StartsWith(path, "http") ==> r == path
    ensures !StartsWith(path, "http") ==> |r| == |baseUrl| + |path| && r[..|baseUrl|] == baseUrl && r[|baseUrl|..] == path
  {
    if StartsWith(path, "http") then path else baseUrl + path
  }

  /** With the base URL normalised, a relative path starting with "/" never produces "//" at the join. */
  lemma NoDoubleSlashAtJoin(baseUrl: string, path: string)
    requires path != [] && path[0] == '/' && !StartsWith(path, "http")
    ensures var b := StripTrailing(baseUrl, '/');
      var u := BuildUrl(b, path);
      u[|b|] == '/' && (b != [] ==> u[|b| - 1] != '/')
  {
  }

  /** What one attempt (`_request`) yields for one reply; a connection failure wraps its cause. */
  function AttemptResult(reply: Reply): (r: Result<Json, Error>)
    ensures reply.ConnectFailure? ==>
      r == Failure(ConnectionError(Str("Connection error: " + reply.cause), Some(reply.cause)))
    ensures reply.Received? ==> r == HandleResponse(reply.status, reply.body)
  {
    match reply
    case ConnectFailure(cause) => Failure(ConnectionError(Str("Connection error: " + cause), Some(cause)))
    case Received(status, body) => HandleResponse(status, body)
  }

  /** The reply to the `i`-th request made against a script. */
  function ReplyAt(tape: seq<Reply>, i: nat): Reply
  {
    if i < |tape| then tape[i] else NO_REPLY
  }

  function Drop<T>(s: seq<T>, n: nat): (r: seq<T>)
    ensures |r| == if n <= |s| then |s| - n else 0
  {
    if n <= |s| then s[n..] else []
  }

  lemma DropStep(s: seq<Reply>, n: nat)
    ensures Drop(Drop(s, n), 1) == Drop(s, n + 1)
    ensures ReplyAt(Drop(s, n), 0) == ReplyAt(s, n)
  {
  }

  lemma ConcatAssoc<T>(a: seq<T>, b: seq<T>, c: seq<T>)
    ensures (a + b) + c == a + (b + c)
  {
  }

  function Repeat<T>(x: T, n: nat): (r: seq<T>)
    ensures |r| == n
  {
    seq(n, _ => x)
  }

  lemma RepeatStep<T>(x: T, n: nat)
    ensures Repeat(x, n) + [x] == Repeat(x, n + 1)
  {
  }

  /** The only error `_request_with_retry` retries. */
  predicate IsConnectionError(e: Error)
  {
    e.ConnectionError?
  }

  /** The outcome of each successive attempt against a script. */
  function AttemptOutcomes(tape: seq<Reply>): nat -> Result<Json, Error>
  {
    (j: nat) => AttemptResult(ReplyAt(tape, j))
  }

  /** How many attempts `_request_with_retry` makes against a script. */
  function RetryCalls(enableRetry: bool, maxRetries: int, tape: seq<Reply>): nat
  {
    if !enableRetry then 1 else Retry.Attempts(AttemptOutcomes(tape), IsConnectionError, maxRetries)
  }

  /** What `_request_with_retry` returns or raises against a script. */
  function RetryOutcome(enableRetry: bool, maxRetries: int, tape: seq<Reply>): Result<Json, Error>
  {
    if !enableRetry then AttemptOutcomes(tape)(0) else Retry.RunResult(AttemptOutcomes(tape), IsConnectionError, maxRetries)
  }

  /** The delays `_request_with_retry` sleeps against a script: 1, then doubling, capped at 60. */
  function RetrySleeps(enableRetry: bool, maxRetries: int, tape: seq<Reply>): seq<nat>
  {
    if !enableRetry then [] else Retry.SleepsFor(1, 2, 60, RetryCalls(enableRetry, maxRetries, tape))
  }

  /** Attempt `j` against a script failed to connect, so `_request_with_retry` tries again. */
  predicate RetriedAt(tape: seq<Reply>, j: nat)
  {
    var o := AttemptResult(ReplyAt(tape, j));
    o.Failure? && o.error.ConnectionError?
  }

  lemma StopsAtAttempt(tape: seq<Reply>, maxRetries: int, k: nat)
    requires k <= maxRetries
    requires forall j :: 0 <= j < k ==> RetriedAt(tape, j)
    requires !RetriedAt(tape, k)
    ensures Retry.Attempts(AttemptOutcomes(tape), IsConnectionError, maxRetries) == k + 1
    ensures Retry.RunResult(AttemptOutcomes(tape), IsConnectionError, maxRetries) == AttemptResult(ReplyAt(tape, k))
    ensures Retry.SleepsFor(1, 2, 60, k + 1) == Retry.Delays(1, 2, 60, k)
  {
    var f := AttemptOutcomes(tape);
    forall j | 0 <= j < k ensures Retry.Retried(f, IsConnectionError, j) {
      assert RetriedAt(tape, j);
    }
    Retry.StopsAt(f, IsConnectionError, maxRetries, k);
  }

  lemma ExhaustsScript(tape: seq<Reply>, maxRetries: int)
    requires maxRetries >= 0
    requires forall j :: 0 <= j < maxRetries + 1 ==> RetriedAt(tape, j)
    ensures Retry.Attempts(AttemptOutcomes(tape), IsConnectionError, maxRetries) == maxRetries + 1
    ensures AttemptResult(ReplyAt(tape, maxRetries)).Failure?
    ensures Retry.RunResult(AttemptOutcomes(tape), IsConnectionError, maxRetries) == Failure(AttemptResult(ReplyAt(tape, maxRetries)).error)
  {
    var f := AttemptOutcomes(tape);
    forall j | 0 <= j <= maxRetries ensures Retry.Retried(f, IsConnectionError, j) {
      assert RetriedAt(tape, j);
    }
    Retry.Exhausts(f, IsConnectionError, maxRetries);
  }

  /** A successful attempt consumed a scripted reply. */
  lemma SuccessWithinScript(tape: seq<Reply>, j: nat)
    requires AttemptOutcomes(tape)(j).Success?
    ensures j < |tape|
  {
  }

  /** With retry disabled there is exactly one attempt, no sleep, and its outcome is the result. */
  lemma RetryDisabled(maxRetries: int, tape: seq<Reply>)
    ensures RetryCalls(false, maxRetries, tape) == 1
    ensures RetryOutcome(false, maxRetries, tape) == AttemptResult(ReplyAt(tape, 0))
    ensures RetrySleeps(false, maxRetries, tape) == []
  {
  }

  /**
   * With retry enabled: at most `max_retries + 1` attempts; every attempt but the
   * last failed to connect; an error other than a connection error ends the run
   * at once, and so does a success.
   */
  lemma RetryOnlyConnectionErrors(maxRetries: int, tape: seq<Reply>)
    ensures var n := RetryCalls(true, maxRetries, tape);
      var f := AttemptOutcomes(tape);
      n <= Max(maxRetries + 1, 0) &&
      (forall j :: 0 <= j < n - 1 ==> f(j).Failure? && f(j).error.ConnectionError?) &&
      (0 < n < maxRetries + 1 ==> f(n - 1).Success? || !f(n - 1).error.ConnectionError?)
  {
    var f := AttemptOutcomes(tape);
    var n := RetryCalls(true, maxRetries, tape);
    Retry.OnlyRetryableRetried(f, IsConnectionError, maxRetries);
    forall j | 0 <= j < n - 1
      ensures f(j).Failure? && f(j).error.ConnectionError?
    {
      assert Retry.Retried(f, IsConnectionError, j);
    }
    if 0 < n < maxRetries + 1 {
      assert !Retry.Retried(f, IsConnectionError, n - 1);
    }
  }

  /** The `k`-th delay is `min(2^k, 60)`: 1, 2, 4, ..., 32, 60, 60, ...; none after the last attempt. */
  lemma RetryDelays(maxRetries: int, tape: seq<Reply>)
    ensures var n := RetryCalls(true, maxRetries, tape);
      var d := RetrySleeps(true, maxRetries, tape);
      |d| == (if n == 0 then 0 else n - 1) &&
      forall k :: 0 <= k < |d| ==> d[k] == Min(Retry.Pow(2, k), 60)
  {
    var d := RetrySleeps(true, maxRetries, tape);
    forall k | 0 <= k < |d|
      ensures d[k] == Min(Retry.Pow(2, k), 60)
    {
      if k >= 1 {
        Retry.BackoffClosedForm(1, 2, 60, k);
      }
    }
  }

  /** A script of connection failures: every attempt is made and the last ConnectionError is raised unchanged. */
  lemma RetryExhausted(maxRetries: int, tape: seq<Reply>)
    requires maxRetries >= 0
    requires forall i :: 0 <= i < |tape| ==> tape[i].ConnectFailure?
    ensures RetryCalls(true, maxRetries, tape) == maxRetries + 1
    ensures RetryOutcome(true, maxRetries, tape) == AttemptResult(ReplyAt(tape, maxRetries))
    ensures RetryOutcome(true, maxRetries, tape).error.ConnectionError?
  {
    var f := AttemptOutcomes(tape);
    forall j: nat ensures Retry.Retried(f, IsConnectionError, j) {
      assert f(j) == AttemptResult(ReplyAt(tape, j));
    }
    Retry.AlwaysFailing(f, IsConnectionError, maxRetries, 1, 2, 60);
    assert f(maxRetries) == AttemptResult(ReplyAt(tape, maxRetries));
  }

  /** A negative `max_retries` makes no request and raises RuntimeError. */
  lemma RetryNegative(maxRetries: int, tape: seq<Reply>)
    requires maxRetries < 0
    ensures RetryCalls(true, maxRetries, tape) == 0
    ensures RetryOutcome(true, maxRetries, tape) == Failure(RuntimeError("Unexpected error in retry logic"))
  {
  }

  /** An HTTP error response is never retried: it is raised after that single attempt, with no sleep. */
  lemma HttpErrorNotRetried(maxRetries: int, status: int, body: RawBody, rest: seq<Reply>)
    requires maxRetries >= 0 && status >= 400
    ensures var tape := [Received(status, body)] + rest;
      RetryCalls(true, maxRetries, tape) == 1 &&
      RetryOutcome(true, maxRetries, tape) == HandleResponse(status, body) &&
      RetrySleeps(true, maxRetries, tape) == []
  {
    var tape := [Received(status, body)] + rest;
    assert AttemptOutcomes(tape)(0) == HandleResponse(status, body);
    Retry.NonRetryableRaisedAtOnce(AttemptOutcomes(tape), IsConnectionError, maxRetries);
  }

  class RmsClient {
    const baseUrl: string
    const timeout: real
    const maxRetries: int
    const enableRetry: bool
    const logLevel: Option<LoggingConfig.Level>
    const auth: Auth.BearerAuth
    /** The headers every request carries. */
    const headers: map<string, string>

    var replies: seq<Reply>
    var sent: seq<Sent>
    ghost var sleeps: seq<nat>
    ghost var calls: seq<Request>
    ghost var outcomes: seq<Result<Json, Error>>

    ghost predicate Valid()
      reads this
    {
      |calls| == |outcomes| && auth.Valid() && headers == auth.GetHeaders()
    }

    constructor(auth: Auth.BearerAuth, replies: seq<Reply>, baseUrl: string, timeout: real,
                maxRetries: int, enableRetry: bool, logLevel: Option<LoggingConfig.Level>)
      requires auth.Valid()
      ensures Valid()
      ensures this.baseUrl == StripTrailing(baseUrl, '/') && this.timeout == timeout
      ensures this.maxRetries == maxRetries && this.enableRetry == enableRetry && this.logLevel == logLevel
      ensures this.auth == auth && this.replies == replies
      ensures sent == [] && sleeps == [] && calls == [] && outcomes == []
    {
      this.baseUrl := StripTrailing(baseUrl, '/');
      this.timeout := timeout;
      this.maxRetries := maxRetries;
      this.enableRetry := enableRetry;
      this.logLevel := logLevel;
      this.auth := auth;
      this.headers := auth.GetHeaders();
      this.replies := replies;
      sent := [];
      sleeps := [];
      calls := [];
      outcomes := [];
    }

    /** `RMSClient(token, ...)`: an empty token is refused; the base URL loses its trailing slashes. */
    static method New(token: string, replies: seq<Reply>, baseUrl: string := DEFAULT_BASE_URL,
                      timeout: real := 30.0, maxRetries: int := 3, enableRetry: bool := true,
                      logLevel: Option<LoggingConfig.Level> := None)
      returns (r: Result<RmsClient, Error>)
      ensures r.Failure? <==> token == ""
      ensures r.Failure? ==> r.error == ValueError("Token cannot be empty")
      ensures r.Success? ==> fresh(r.value) && r.value.Valid() && r.value.auth.token == token
      ensures r.Success? ==> r.value.baseUrl == StripTrailing(baseUrl, '/') && r.value.maxRetries == maxRetries
      ensures r.Success? ==> r.value.enableRetry == enableRetry && r.value.timeout == timeout
      ensures r.Success? ==> r.value.logLevel == logLevel && r.value.replies == replies
      ensures r.Success? ==> r.value.sent == [] && r.value.calls == [] && r.value.outcomes == []
    {
      var auth := Auth.New(token);
      if auth.Failure? {
        return Failure(auth.error);
      }
      var c := new RmsClient(auth.value, replies, baseUrl, timeout, maxRetries, enableRetry, logLevel);
      return Success(c);
    }

    function Url(path: string): string
    {
      BuildUrl(baseUrl, path)
    }

    /** `_request`: one attempt, consuming one reply of the script. */
    method Attempt(req: Request) returns (r: Result<Json, Error>)
      modifies this`replies, this`sent
      ensures r == AttemptResult(ReplyAt(old(replies), 0))
      ensures replies == Drop(old(replies), 1)
      ensures sent == old(sent) + [Sent(Url(req.path), req)]
    {
      sent := sent + [Sent(Url(req.path), req)];
      var reply := NO_REPLY;
      if replies != [] {
        reply := replies[0];
        replies := replies[1..];
      }
      r := AttemptResult(reply);
    }

    /** The whole effect of one logical request `req` that returned `r`. */
    twostate predicate Performed(req: Request, new r: Result<Json, Error>)
      reads this
    {
      var n := RetryCalls(enableRetry, maxRetries, old(replies));
      Valid() &&
      r == RetryOutcome(enableRetry, maxRetries, old(replies)) &&
      replies == Drop(old(replies), n) &&
      sent == old(sent) + Repeat(Sent(Url(req.path), req), n) &&
      sleeps == old(sleeps) + RetrySleeps(enableRetry, maxRetries, old(replies)) &&
      calls == old(calls) + [req] && outcomes == old(outcomes) + [r] &&
      (r.Success? ==> |replies| < old(|replies|))
    }

    /**
     * The effect of making the logical requests `reqs` one after another, each
     * with retry, against the script `tape`: what each returned, the replies
     * left, and what was sent and slept.
     */
    ghost function Run(tape: seq<Reply>, reqs: seq<Request>): (t: Transcript)
      ensures |t.outcomes| == |reqs|
      decreases |reqs|
    {
      if reqs == [] then Transcript([], tape, [], [])
      else
        var prev := Run(tape, reqs[..|reqs| - 1]);
        var req := reqs[|reqs| - 1];
        var n := RetryCalls(enableRetry, maxRetries, prev.rest);
        Transcript(prev.outcomes + [RetryOutcome(enableRetry, maxRetries, prev.rest)], Drop(prev.rest, n),
                   prev.sent + Repeat(Sent(Url(req.path), req), n),
                   prev.sleeps + RetrySleeps(enableRetry, maxRetries, prev.rest))
    }

    /** The transcript of a single request is one retried request against the script. */
    lemma RunSingle(tape: seq<Reply>, req: Request)
      ensures var n := RetryCalls(enableRetry, maxRetries, tape);
        Run(tape, [req]) == Transcript([RetryOutcome(enableRetry, maxRetries, tape)], Drop(tape, n),
                                       Repeat(Sent(Url(req.path), req), n), RetrySleeps(enableRetry, maxRetries, tape))
    {
      assert [req][..0] == [];
      assert Run(tape, []) == Transcript([], tape, [], []);
    }

    /** One more request continues the transcript from the replies the earlier ones left. */
    lemma RunExtend(tape: seq<Reply>, reqs: seq<Request>, req: Request)
      ensures var t := Run(tape, reqs);
        var u := Run(t.rest, [req]);
        Run(tape, reqs + [req]) == Transcript(t.outcomes + u.outcomes, u.rest, t.sent + u.sent, t.sleeps + u.sleeps)
    {
      var t := Run(tape, reqs);
      RunSingle(t.rest, req);
      assert (reqs + [req])[..|reqs|] == reqs;
    }

    /**
     * From a state with script `tape`, sends `sent0`, sleeps `sleeps0` and history
     * `calls0`/`outcomes0`, making exactly the logical requests `reqs` leads to
     * the state with the remaining components.
     */
    ghost predicate Leads(tape: seq<Reply>, sent0: seq<Sent>, sleeps0: seq<nat>, calls0: seq<Request>,
                          outcomes0: seq<Result<Json, Error>>, reqs: seq<Request>,
                          tape1: seq<Reply>, sent1: seq<Sent>, sleeps1: seq<nat>, calls1: seq<Request>,
                          outcomes1: seq<Result<Json, Error>>)
    {
      var t := Run(tape, reqs);
      calls1 == calls0 + reqs && outcomes1 == outcomes0 + t.outcomes &&
      tape1 == t.rest && sent1 == sent0 + t.sent && sleeps1 == sleeps0 + t.sleeps
    }

    /** Two runs one after the other are the run of their requests together. */
    lemma LeadsCompose(tape: seq<Reply>, sent0: seq<Sent>, sleeps0: seq<nat>, calls0: seq<Request>,
                       outcomes0: seq<Result<Json, Error>>, reqs: seq<Request>,
                       tape1: seq<Reply>, sent1: seq<Sent>, sleeps1: seq<nat>, calls1: seq<Request>,
                       outcomes1: seq<Result<Json, Error>>, req: Request,
                       tape2: seq<Reply>, sent2: seq<Sent>, sleeps2: seq<nat>, calls2: seq<Request>,
                       outcomes2: seq<Result<Json, Error>>)
      requires Leads(tape, sent0, sleeps0, calls0, outcomes0, reqs, tape1, sent1, sleeps1, calls1, outcomes1)
      requires Leads(tape1, sent1, sleeps1, calls1, outcomes1, [req], tape2, sent2, sleeps2, calls2, outcomes2)
      ensures Leads(tape, sent0, sleeps0, calls0, outcomes0, reqs + [req], tape2, sent2, sleeps2, calls2, outcomes2)
      ensures Run(tape, reqs + [req]).outcomes == Run(tape, reqs).outcomes + Run(tape1, [req]).outcomes
    {
      var t := Run(tape, reqs);
      var u := Run(tape1, [req]);
      var w := Run(tape, reqs + [req]);
      assert tape1 == t.rest;
      RunExtend(tape, reqs, req);
      assert w == Transcript(t.outcomes + u.outcomes, u.rest, t.sent + u.sent, t.sleeps + u.sleeps);
      ConcatAssoc(calls0, reqs, [req]);
      ConcatAssoc(outcomes0, t.outcomes, u.outcomes);
      ConcatAssoc(sent0, t.sent, u.sent);
      ConcatAssoc(sleeps0, t.sleeps, u.sleeps);
    }

    /** Since the state with the given components, exactly the logical requests `reqs` were made. */
    ghost predicate Ran(tape: seq<Reply>, sent0: seq<Sent>, sleeps0: seq<nat>, calls0: seq<Request>,
                        outcomes0: seq<Result<Json, Error>>, reqs: seq<Request>)
      reads this
    {
      Valid() && Leads(tape, sent0, sleeps0, calls0, outcomes0, reqs, replies, sent, sleeps, calls, outcomes)
    }

    /** Since the previous state, exactly the logical requests `reqs` were made, in order, against the script. */
    twostate predicate Made(reqs: seq<Request>)
      reads this
    {
      Ran(old(replies), old(sent), old(sleeps), old(calls), old(outcomes), reqs)
    }

    /** What the logical requests made since the previous state returned, in order. */
    twostate function Returned(): seq<Result<Json, Error>>
      requires old(|outcomes|) <= |outcomes|
      reads this
    {
      outcomes[old(|outcomes|)..]
    }

    /** `_request_with_retry`: one attempt when retry is disabled, otherwise the backoff loop. */
    method RequestWithRetry(req: Request) returns (r: Result<Json, Error>)
      requires Valid()
      modifies this
      ensures Performed(req, r)
      ensures Made([req]) && Returned() == [r]
    {
      ghost var tape := replies;
      if !enableRetry {
        r := Attempt(req);
      } else {
        r := BackoffLoop(req);
      }
      calls := calls + [req];
      outcomes := outcomes + [r];
      if r.Success? {
        SuccessWithinScript(tape, RetryCalls(enableRetry, maxRetries, tape) - 1);
      }
      RunSingle(tape, req);
    }

    /** The attempt numbered `attempt` of a run against `tape`, which started with `sent0` sent. */
    method AttemptAt(req: Request, ghost tape: seq<Reply>, ghost attempt: nat, ghost sent0: seq<Sent>)
      returns (r: Result<Json, Error>)
      requires replies == Drop(tape, attempt)
      requires sent == sent0 + Repeat(Sent(Url(req.path), req), attempt)
      modifies this`replies, this`sent
      ensures r == AttemptResult(ReplyAt(tape, attempt))
      ensures replies == Drop(tape, attempt + 1)
      ensures sent == sent0 + Repeat(Sent(Url(req.path), req), attempt + 1)
    {
      DropStep(tape, attempt);
      r := Attempt(req);
      RepeatStep(Sent(Url(req.path), req), attempt);
    }

    /** After failed attempt `attempt`: sleep for `delay` and grow it, unless that was the last attempt. */
    method Pause(attempt: nat, delay: nat, ghost sleeps0: seq<nat>) returns (next: nat)
      requires attempt <= maxRetries
      requires sleeps == sleeps0 + Retry.Delays(1, 2, 60, attempt) && delay == Retry.Backoff(1, 2, 60, attempt)
      modifies this`sleeps
      ensures attempt + 1 <= maxRetries ==>
        sleeps == sleeps0 + Retry.Delays(1, 2, 60, attempt + 1) && next == Retry.Backoff(1, 2, 60, attempt + 1)
      ensures attempt + 1 > maxRetries ==> sleeps == sleeps0 + Retry.SleepsFor(1, 2, 60, attempt + 1)
    {
      next := delay;
      if attempt < maxRetries {
        sleeps := sleeps + [delay];
        next := Min(delay * 2, 60);
      }
    }

    /** One pass of the retry loop: attempt number `attempt`, then the pause when it failed to connect. */
    method AttemptThenPause(req: Request, attempt: nat, delay: nat, ghost tape: seq<Reply>, ghost sent0: seq<Sent>,
                            ghost sleeps0: seq<nat>)
      returns (outcome: Result<Json, Error>, next: nat)
      requires attempt <= maxRetries
      requires replies == Drop(tape, attempt)
      requires sent == sent0 + Repeat(Sent(Url(req.path), req), attempt)
      requires sleeps == sleeps0 + Retry.Delays(1, 2, 60, attempt) && delay == Retry.Backoff(1, 2, 60, attempt)
      modifies this`replies, this`sent, this`sleeps
      ensures outcome == AttemptResult(ReplyAt(tape, attempt))
      ensures replies == Drop(tape, attempt + 1)
      ensures sent == sent0 + Repeat(Sent(Url(req.path), req), attempt + 1)
      ensures !RetriedAt(tape, attempt) ==> sleeps == old(sleeps)
      ensures RetriedAt(tape, attempt) && attempt + 1 <= maxRetries ==>
        sleeps == sleeps0 + Retry.Delays(1, 2, 60, attempt + 1) && next == Retry.Backoff(1, 2, 60, attempt + 1)
      ensures RetriedAt(tape, attempt) && attempt + 1 > maxRetries ==> sleeps == sleeps0 + Retry.SleepsFor(1, 2, 60, attempt + 1)
    {
      outcome := AttemptAt(req, tape, attempt, sent0);
      next := delay;
      if outcome.Failure? && outcome.error.ConnectionError? {
        next := Pause(attempt, delay, sleeps0);
      }
    }

    /** The `for attempt in range(max_retries + 1)` loop of `_request_with_retry`. */
    method BackoffLoop(req: Request) returns (r: Result<Json, Error>)
      requires enableRetry
      modifies this`replies, this`sent, this`sleeps
      ensures var n := Retry.Attempts(AttemptOutcomes(old(replies)), IsConnectionError, maxRetries);
        r == Retry.RunResult(AttemptOutcomes(old(replies)), IsConnectionError, maxRetries) &&
        replies == Drop(old(replies), n) &&
        sent == old(sent) + Repeat(Sent(Url(req.path), req), n) &&
        sleeps == old(sleeps) + Retry.SleepsFor(1, 2, 60, n)
    {
      ghost var tape := replies;
      var delay: nat := 1;
      var lastError: Option<Error> := None;
      var attempt: nat := 0;
      while attempt <= maxRetries
        invariant maxRetries < 0 ==> attempt == 0
        invariant maxRetries >= 0 ==> attempt <= maxRetries + 1
        invariant replies == Drop(tape, attempt)
        invariant sent == old(sent) + Repeat(Sent(Url(req.path), req), attempt)
        invariant forall j :: 0 <= j < attempt ==> RetriedAt(tape, j)
        invariant attempt == 0 ==> lastError == None
        invariant attempt > 0 ==> RetriedAt(tape, attempt - 1) && lastError == Some(AttemptResult(ReplyAt(tape, attempt - 1)).error)
        invariant attempt <= maxRetries ==> sleeps == old(sleeps) + Retry.Delays(1, 2, 60, attempt)
        invariant attempt <= maxRetries ==> delay == Retry.Backoff(1, 2, 60, attempt)
        invariant attempt > maxRetries ==> sleeps == old(sleeps) + Retry.SleepsFor(1, 2, 60, attempt)
      {
        var outcome, next := AttemptThenPause(req, attempt, delay, tape, old(sent), old(sleeps));
        if outcome.Success? || !outcome.error.ConnectionError? {
          StopsAtAttempt(tape, maxRetries, attempt);
          return outcome;
        }
        lastError := Some(outcome.error);
        delay := next;
        attempt := attempt + 1;
      }
      if maxRetries >= 0 {
        ExhaustsScript(tape, maxRetries);
      }
      if lastError.Some? {
        r := Failure(lastError.value);
      } else {
        r := Failure(Retry.UNEXPECTED);
      }
    }

    /** `get(path, params)`. */
    method Get(path: string, params: Option<map<string, Json>> := None) returns (r: Result<Json, Error>)
      requires Valid()
      modifies this
      ensures Performed(Request(GET, path, params, Null, Null, Null), r)
      ensures Made([Request(GET, path, params, Null, Null, Null)]) && Returned() == [r]
    {
      r := RequestWithRetry(Request(GET, path, params, Null, Null, Null));
    }

    /** `post(path, json, data, files, params)`. */
    method Post(path: string, json: Json := Null, data: Json := Null, files: Json := Null,
                params: Option<map<string, Json>> := None)
      returns (r: Result<Json, Error>)
      requires Valid()
      modifies this
      ensures Performed(Request(POST, path, params, json, data, files), r)
      ensures Made([Request(POST, path, params, json, data, files)]) && Returned() == [r]
    {
      r := RequestWithRetry(Request(POST, path, params, json, data, files));
    }

    /** `put(path, json, data, params)`. */
    method Put(path: string, json: Json := Null, data: Json := Null, params: Option<map<string, Json>> := None)
      returns (r: Result<Json, Error>)
      requires Valid()
      modifies this
      ensures Performed(Request(PUT, path, params, json, data, Null), r)
      ensures Made([Request(PUT, path, params, json, data, Null)]) && Returned() == [r]
    {
      r := RequestWithRetry(Request(PUT, path, params, json, data, Null));
    }

    /** `delete(path, params, json)`. */
    method Delete(path: string, params: Option<map<string, Json>> := None, json: Json := Null)
      returns (r: Result<Json, Error>)
      requires Valid()
      modifies this
      ensures Performed(Request(DELETE, path, params, json, Null, Null), r)
      ensures Made([Request(DELETE, path, params, json, Null, Null)]) && Returned() == [r]
    {
      r := RequestWithRetry(Request(DELETE, path, params, json, Null, Null));
    }

    /** `get_user()`. */
    method GetUser() returns (r: Result<Json, Error>)
      requires Valid()
      modifies this
      ensures Performed(Request(GET, "/user", None, Null, Null, Null), r)
      ensures Made([Request(GET, "/user", None, Null, Null, Null)]) && Returned() == [r]
    {
      r := Get("/user");
    }
  }
}
