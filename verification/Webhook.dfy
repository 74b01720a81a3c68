/** The inbound side: a webhook server with one POST route guarded by an
    optional shared secret, a health route, a registry of message handlers
    and start/stop of the listener. Requests, handler outcomes, the receipt
    time and the listener's close error are parameters; the server's state
    is an immutable value that each operation returns updated. */
module Webhook {
  import opened Results
  import opened JsValue
  import opened Types
  import opened Utils

  const SecretHeader := "x-webhook-secret"
  const HealthPath := "/health"

  const UnauthorizedText := "Unauthorized"
  const ReceivedText := "Webhook received"
  const ProcessingErrorText := "Error processing webhook"
  const RunningText := "Webhook server is running"

  /** A registered message handler. Handlers are opaque callbacks; `id`
      only tells them apart, and what a handler does with a message is
      the `run` parameter of dispatch. */
  datatype Handler = Handler(id: nat)

  /** The listener: absent until `start`, then listening on the port. */
  datatype Listener = NotStarted | Listening(port: int)

  /** A webhook server: its configuration, its handlers in registration
      order, and its listener. */
  datatype FonnteWebhook = FonnteWebhook(
    port: int,
    path: string,
    secret: Option<string>,
    handlers: seq<Handler>,
    listener: Listener)

  datatype HttpMethod = Get | Post | OtherMethod

  /** An inbound HTTP request; header names are lower-case, as Node
      delivers them. */
  datatype InboundRequest = InboundRequest(
    verb: HttpMethod,
    path: string,
    headers: map<string, string>,
    body: Value)

  /** The JSON answer `{ status, message }` with its HTTP status code, or
      the framework's own answer for a request no route matches. */
  datatype Reply = Reply(code: int, status: bool, message: string) | NoRoute

  /** What the server does with one request: the reply it sends and the
      message it hands to the handlers, if any. */
  datatype Handling = Handling(reply: Reply, dispatched: Option<WebhookMessage>)

  /** The constructor: the configuration is kept, no handler is
      registered and nothing is listening yet. */
  function NewWebhook(config: WebhookConfig): (w: FonnteWebhook)
    ensures w.handlers == [] && w.listener == NotStarted
    ensures w.port == config.port && w.path == config.path && w.secret == config.secret
  {
    FonnteWebhook(config.port, config.path, config.secret, [], NotStarted)
  }

  // ---------------------------------------------------------------------------
  // Handler registry
  // ---------------------------------------------------------------------------

  /** Registers a handler after those already registered and returns the
      same server, so that registrations can be chained. */
  function OnMessage(w: FonnteWebhook, h: Handler): (r: FonnteWebhook)
    ensures r.handlers == w.handlers + [h]
    ensures r.port == w.port && r.path == w.path && r.secret == w.secret && r.listener == w.listener
  {
    w.(handlers := w.handlers + [h])
  }

  /** A chain of `onMessage` calls, one per handler, left to right. */
  function OnMessageAll(w: FonnteWebhook, hs: seq<Handler>): FonnteWebhook
    decreases |hs|
  {
    if |hs| == 0 then w else OnMessageAll(OnMessage(w, hs[0]), hs[1..])
  }

  /** Registration is append-only: a chain of registrations adds exactly
      its handlers, in call order, after the existing ones, and changes
      nothing else. */
  lemma {:induction false} RegistrationAppends(w: FonnteWebhook, hs: seq<Handler>)
    ensures OnMessageAll(w, hs).handlers == w.handlers + hs
    ensures OnMessageAll(w, hs).(handlers := w.handlers) == w
    decreases |hs|
  {
    if |hs| > 0 {
      RegistrationAppends(OnMessage(w, hs[0]), hs[1..]);
      assert w.handlers + [hs[0]] + hs[1..] == w.handlers + hs;
    }
  }

  // ---------------------------------------------------------------------------
  // The POST route
  // ---------------------------------------------------------------------------

  /** A secret is enforced only when it is configured and non-empty: the
      guard tests the secret's truthiness first. */
  predicate SecretRequired(secret: Option<string>) {
    secret.Some? && secret.value != ""
  }

  /** The value of the secret header, if the request carries one. */
  function SecretHeaderValue(req: InboundRequest): Option<string> {
    if SecretHeader in req.headers then Some(req.headers[SecretHeader]) else None
  }

  /** The request passes the gate when no secret is enforced or the header
      equals the secret exactly. */
  predicate Authorized(w: FonnteWebhook, req: InboundRequest) {
    !SecretRequired(w.secret) || SecretHeaderValue(req) == Some(w.secret.value)
  }

  /** The answer once the gate is passed, given what parsing produced: a
      parse error is answered 500 without dispatch; a message is dispatched
      and answered 200. */
  function Respond(parsed: Result<WebhookMessage, Value>): (h: Handling)
    ensures h.reply.Reply? && (h.reply.code == 200 <==> parsed.Success?)
    ensures h.reply.Reply? && h.reply.status == (h.reply.code == 200)
    ensures parsed.Failure? ==> h == Handling(Reply(500, false, ProcessingErrorText), None)
    ensures parsed.Success? ==> h == Handling(Reply(200, true, ReceivedText), Some(parsed.value))
  {
    match parsed
    case Success(message) => Handling(Reply(200, true, ReceivedText), Some(message))
    case Failure(_) => Handling(Reply(500, false, ProcessingErrorText), None)
  }

  /** The POST route. A request that fails the gate is answered 401 and
      neither parsed nor dispatched. Otherwise the body is parsed (with the
      receipt time `now`), the message is handed to the handlers, and the
      answer is 200 whatever the handlers do: dispatch is not awaited.
      Parsing catches its own errors, so the 500 answer is never sent. */
  function PostRoute(w: FonnteWebhook, req: InboundRequest, now: int): (h: Handling)
    ensures h.reply.Reply?
    ensures h.reply.code == 401 <==> !Authorized(w, req)
    ensures !Authorized(w, req) ==> h == Handling(Reply(401, false, UnauthorizedText), None)
    ensures Authorized(w, req) ==>
      h == Handling(Reply(200, true, ReceivedText), Some(ParseWebhookData(req.body, now)))
    ensures h.reply.code != 500
  {
    if !Authorized(w, req) then
      Handling(Reply(401, false, UnauthorizedText), None)
    else
      Respond(Success(ParseWebhookData(req.body, now)))
  }

  /** Without an enforced secret the header plays no part: two requests
      with the same body are handled alike whatever headers they carry. */
  lemma UnguardedRouteIgnoresHeaders(w: FonnteWebhook, a: InboundRequest, b: InboundRequest, now: int)
    requires !SecretRequired(w.secret)
    requires a.body == b.body
    ensures PostRoute(w, a, now) == PostRoute(w, b, now)
    ensures PostRoute(w, a, now).reply.code == 200
  {
  }

  /** With an enforced secret, a request without the header, or with any
      other value in it, is refused; one with exactly the secret is taken. */
  lemma GuardedRouteChecksHeader(w: FonnteWebhook, req: InboundRequest, now: int)
    requires SecretRequired(w.secret)
    ensures SecretHeader !in req.headers ==> PostRoute(w, req, now).reply.code == 401
    ensures SecretHeader in req.headers && req.headers[SecretHeader] != w.secret.value ==>
      PostRoute(w, req, now).reply.code == 401
    ensures SecretHeader in req.headers && req.headers[SecretHeader] == w.secret.value ==>
      PostRoute(w, req, now).reply == Reply(200, true, ReceivedText)
  {
  }

  /** The route's answer and dispatch depend on the registered handlers
      not at all: registering handlers never changes what a request gets. */
  lemma {:induction false} HandlersDoNotAffectAnswer(w: FonnteWebhook, hs: seq<Handler>, req: InboundRequest, now: int)
    ensures PostRoute(OnMessageAll(w, hs), req, now) == PostRoute(w, req, now)
  {
    RegistrationAppends(w, hs);
  }

  // ---------------------------------------------------------------------------
  // Dispatch
  // ---------------------------------------------------------------------------

  /** How one handler's invocation ended: normally, or with an error
      (thrown or a rejected promise). */
  datatype HandlerOutcome = Completed | Raised(error: Value)

  /** One handler invoked on the message, and how that ended. */
  datatype Invocation = Invocation(handler: Handler, outcome: HandlerOutcome)

  /** The errors of the invocations that raised one, in invocation order:
      what dispatch logs and then swallows. */
  function Failures(calls: seq<Invocation>): seq<Value>
    decreases |calls|
  {
    if |calls| == 0 then []
    else
      var last := calls[|calls| - 1];
      Failures(calls[..|calls| - 1]) + (if last.outcome.Raised? then [last.outcome.error] else [])
  }

  /** The positions of the invocations that raised. */
  function RaisedAt(calls: seq<Invocation>): set<nat> {
    set i: nat | i < |calls| && calls[i].outcome.Raised?
  }

  /** The logged errors are exactly the raised ones: there are never more
      of them than invocations, there are none exactly when every handler
      completed, each one is some invocation's error, and every
      invocation's error is among them. */
  lemma {:induction false} FailuresAreTheRaisedErrors(calls: seq<Invocation>)
    ensures |Failures(calls)| <= |calls|
    ensures Failures(calls) == [] <==> forall i :: 0 <= i < |calls| ==> calls[i].outcome.Completed?
    ensures forall e :: e in Failures(calls) ==> exists i :: 0 <= i < |calls| && calls[i].outcome == Raised(e)
    ensures forall i :: 0 <= i < |calls| && calls[i].outcome.Raised? ==> calls[i].outcome.error in Failures(calls)
    decreases |calls|
  {
    if |calls| > 0 {
      var init := calls[..|calls| - 1];
      var last := calls[|calls| - 1];
      FailuresAreTheRaisedErrors(init);
      assert forall i :: 0 <= i < |init| ==> init[i] == calls[i];
      forall e | e in Failures(calls)
        ensures exists i :: 0 <= i < |calls| && calls[i].outcome == Raised(e)
      {
        if e in Failures(init) {
          var i :| 0 <= i < |init| && init[i].outcome == Raised(e);
          assert calls[i] == init[i];
        } else {
          assert calls[|calls| - 1].outcome == Raised(e);
        }
      }
      if Failures(calls) == [] {
        forall i | 0 <= i < |calls| ensures calls[i].outcome.Completed? {
          if i < |init| {
            assert calls[i] == init[i];
          }
        }
      }
    }
  }

  /** One error is logged per invocation that raised, so none is dropped
      or merged with another. */
  lemma {:induction false} OneLogEntryPerRaise(calls: seq<Invocation>)
    ensures |Failures(calls)| == |RaisedAt(calls)|
    decreases |calls|
  {
    if |calls| > 0 {
      var init := calls[..|calls| - 1];
      OneLogEntryPerRaise(init);
      assert forall i :: 0 <= i < |init| ==> init[i] == calls[i];
      if calls[|calls| - 1].outcome.Raised? {
        assert RaisedAt(calls) == RaisedAt(init) + {|calls| - 1};
      } else {
        assert RaisedAt(calls) == RaisedAt(init);
      }
    }
  }

  /** Hands the message to every registered handler, in registration order.
      Each invocation is isolated: a handler that raises has its error
      logged and swallowed, and the handlers after it still run. `run`
      says how a handler's invocation ends on the message. */
  method ProcessMessage(handlers: seq<Handler>, message: WebhookMessage,
                        run: (Handler, WebhookMessage) -> HandlerOutcome)
    returns (calls: seq<Invocation>, logged: seq<Value>)
    ensures |calls| == |handlers|
    ensures forall i :: 0 <= i < |handlers| ==> calls[i] == Invocation(handlers[i], run(handlers[i], message))
    ensures logged == Failures(calls)
  {
    calls, logged := [], [];
    var n := 0;
    while n < |handlers|
      invariant 0 <= n <= |handlers|
      invariant |calls| == n
      invariant forall i :: 0 <= i < n ==> calls[i] == Invocation(handlers[i], run(handlers[i], message))
      invariant logged == Failures(calls)
    {
      var outcome := run(handlers[n], message);
      var call := Invocation(handlers[n], outcome);
      assert (calls + [call])[..n] == calls;
      calls := calls + [call];
      if outcome.Raised? {
        logged := logged + [outcome.error];
      }
      n := n + 1;
    }
  }

  /** A failing handler does not stop the others: if every handler but
      `k` completes, exactly `k`'s error is logged, and every handler is
      invoked all the same. */
  lemma {:induction false} OneFailureIsContained(calls: seq<Invocation>, k: nat, err: Value)
    requires k < |calls|
    requires calls[k].outcome == Raised(err)
    requires forall i :: 0 <= i < |calls| && i != k ==> calls[i].outcome.Completed?
    ensures Failures(calls) == [err]
  {
    FailuresAreTheRaisedErrors(calls);
    SingleFailureIsLogged(calls, k);
  }

  /** When only invocation `k` raised, exactly its error is logged. */
  lemma {:induction false} SingleFailureIsLogged(calls: seq<Invocation>, k: nat)
    requires k < |calls|
    requires calls[k].outcome.Raised?
    requires forall i :: 0 <= i < |calls| && i != k ==> calls[i].outcome.Completed?
    ensures Failures(calls) == [calls[k].outcome.error]
    decreases |calls|
  {
    var init := calls[..|calls| - 1];
    if k == |calls| - 1 {
      FailuresAreTheRaisedErrors(init);
      assert forall i :: 0 <= i < |init| ==> init[i] == calls[i];
      assert Failures(init) == [];
    } else {
      assert forall i :: 0 <= i < |init| ==> init[i] == calls[i];
      SingleFailureIsLogged(init, k);
    }
  }

  /** The POST route with its dispatch: the answer is the route's, and the
      parsed message, when there is one, goes to every registered handler
      in registration order whatever each of them does. */
  method HandleWebhookPost(w: FonnteWebhook, req: InboundRequest, now: int,
                           run: (Handler, WebhookMessage) -> HandlerOutcome)
    returns (reply: Reply, calls: seq<Invocation>, logged: seq<Value>)
    ensures reply == PostRoute(w, req, now).reply
    ensures !Authorized(w, req) ==> reply.code == 401 && calls == [] && logged == []
    ensures Authorized(w, req) ==> reply == Reply(200, true, ReceivedText)
    ensures Authorized(w, req) ==> |calls| == |w.handlers|
    ensures Authorized(w, req) ==> forall i :: 0 <= i < |calls| ==>
      calls[i] == Invocation(w.handlers[i], run(w.handlers[i], ParseWebhookData(req.body, now)))
    ensures logged == Failures(calls)
  {
    var handling := PostRoute(w, req, now);
    reply := handling.reply;
    if handling.dispatched.Some? {
      calls, logged := ProcessMessage(w.handlers, handling.dispatched.value, run);
    } else {
      calls, logged := [], [];
    }
  }

  // ---------------------------------------------------------------------------
  // Routing
  // ---------------------------------------------------------------------------

  /** The server's routes: POST on the configured path is the webhook
      route; GET on `/health` answers that the server is running, with no
      secret check; anything else matches no route. */
  function Route(w: FonnteWebhook, req: InboundRequest, now: int): (h: Handling)
    ensures req.verb == Post && req.path == w.path ==> h == PostRoute(w, req, now)
    ensures req.verb == Get && req.path == HealthPath ==>
      h == Handling(Reply(200, true, RunningText), None)
    ensures h.dispatched.Some? ==> req.verb == Post && req.path == w.path && Authorized(w, req)
    ensures h.reply.NoRoute? <==>
      !((req.verb == Post && req.path == w.path) || (req.verb == Get && req.path == HealthPath))
  {
    if req.verb == Post && req.path == w.path then PostRoute(w, req, now)
    else if req.verb == Get && req.path == HealthPath then Handling(Reply(200, true, RunningText), None)
    else Handling(NoRoute, None)
  }

  /** The health route answers whatever the secret and headers are. */
  lemma HealthIgnoresSecret(w: FonnteWebhook, req: InboundRequest, now: int, secret: Option<string>)
    requires req.verb == Get && req.path == HealthPath
    ensures Route(w.(secret := secret), req, now) == Route(w, req, now)
    ensures Route(w, req, now).reply == Reply(200, true, RunningText)
  {
  }

  // ---------------------------------------------------------------------------
  // Lifecycle
  // ---------------------------------------------------------------------------

  /** Starts listening on the configured port. */
  function Start(w: FonnteWebhook): (r: FonnteWebhook)
    ensures r.listener == Listening(w.port)
    ensures r.(listener := w.listener) == w
  {
    w.(listener := Listening(w.port))
  }

  /** The result of `stop`: whether the listener's close was called, and
      whether the returned promise resolved or rejected with an error. */
  datatype Stopped = Stopped(closeCalled: bool, outcome: Result<(), Value>, after: FonnteWebhook)

  /** Stops the listener. Without one, the promise resolves at once and
      nothing is closed. With one, it is closed, and the promise rejects
      with the close error when that error is truthy. The listener is not
      forgotten. `closeError` is what the close callback receives. */
  function Stop(w: FonnteWebhook, closeError: Value): (s: Stopped)
    ensures s.after == w
    ensures s.closeCalled <==> w.listener.Listening?
    ensures s.outcome.Failure? <==> w.listener.Listening? && IsTruthy(closeError)
    ensures s.outcome.Failure? ==> s.outcome.error == closeError
  {
    match w.listener
    case NotStarted => Stopped(false, Success(()), w)
    case Listening(_) =>
      if IsTruthy(closeError) then Stopped(true, Failure(closeError), w)
      else Stopped(true, Success(()), w)
  }

  /** Stopping a server that was never started is a no-op that succeeds,
      whatever the close error would have been. */
  lemma {:induction false} StopBeforeStartIsNoOp(config: WebhookConfig, hs: seq<Handler>, closeError: Value)
    ensures Stop(OnMessageAll(NewWebhook(config), hs), closeError) ==
      Stopped(false, Success(()), OnMessageAll(NewWebhook(config), hs))
  {
    RegistrationAppends(NewWebhook(config), hs);
  }

  /** After `start`, `stop` closes the listener and reports its error. */
  lemma StartThenStopCloses(w: FonnteWebhook, closeError: Value)
    ensures Stop(Start(w), closeError).closeCalled
    ensures Stop(Start(w), closeError).outcome == (if IsTruthy(closeError) then Failure(closeError) else Success(()))
  {
  }
}
