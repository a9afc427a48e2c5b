/**
 * The request handler of backend/sms-function.js (lines 14-112) as a pure
 * function. Everything the handler waits for — the parsed request body, the
 * playdate query, the gateway call, the log insert — is an answer supplied
 * by an `Environment`; the handler's result is the HTTP response together
 * with the list of outward actions it performed, in order.
 */
module Dispatcher {
  import opened Js
  import opened Messages

  /** The JSON body of an incoming request. */
  datatype Request = Request(playdateId: string, phoneNumber: string, messageType: string)

  /** What the `.single()` playdate query resolves to: the joined row, or the store's error. */
  datatype Lookup = Found(playdate: Playdate) | StoreError(message: string)

  /** The three form fields posted to the SMS gateway. */
  datatype Sms = Sms(to: string, from: string, body: string)

  /** The gateway's JSON answer; `message` is only read when the call was refused. */
  datatype GatewayPayload = GatewayPayload(status: string, sid: string, message: JsValue)

  /** A gateway HTTP response: its `ok` flag and the outcome of reading its body as JSON. */
  datatype GatewayResponse = GatewayResponse(ok: bool, payload: Completion<GatewayPayload>)

  /** A row of the `sms_logs` table. */
  datatype LogEntry = LogEntry(
    playdateId: string, phoneNumber: string, messageType: string, status: string, twilioSid: string)

  /** An outward action of the handler. */
  datatype Effect =
    | QueryPlaydate(id: string)
    | PostToGateway(sms: Sms)
    | InsertLog(entry: LogEntry)

  /** The JSON body of the handler's response. */
  datatype Body =
    | Sent(success: bool, message: string, sid: string)
    | Failed(error: string)

  datatype Response = Response(status: int, body: Body)

  /** The response and the actions that produced it, oldest first. */
  datatype Run = Run(response: Response, effects: seq<Effect>)

  /**
   * The answers of the outside world to one request: the parsed body (or the
   * error `req.json()` throws), the store's answer to a playdate query, the
   * gateway's answer to a post (or the error `fetch` throws), the insert's
   * outcome, the date rendering, and the configured sender number. The
   * insert resolves to the `error` field the database client reports:
   * `Normal(None)` for a written row, `Normal(Some(m))` for a write that
   * failed with message `m`; the handler never reads it. `Throw(m)` is an
   * insert whose promise rejects.
   */
  datatype Environment = Environment(
    parsed: Completion<Request>,
    lookup: string -> Lookup,
    gateway: Sms -> Completion<GatewayResponse>,
    insert: LogEntry -> Completion<Option<string>>,
    formatDate: string -> string,
    fromNumber: string)

  const StatusOk := 200
  const StatusServerError := 500
  const SentMessage := "SMS sent successfully"
  const GatewayErrorPrefix := "Twilio error: "

  /** The one failure shape every thrown error is turned into (lines 106-111). */
  function Fail(message: string, effects: seq<Effect>): Run
  {
    Run(Response(StatusServerError, Failed(message)), effects)
  }

  /** The handler: parse, look up, compose, send, log, respond. */
  function Handle(env: Environment): (run: Run)
    ensures run.response.status == StatusOk || run.response.status == StatusServerError
    ensures run.response.status == StatusOk <==> run.response.body.Sent?
    ensures run.response.body.Sent? ==> run.response.body.success && run.response.body.message == SentMessage
    ensures |run.effects| <= 3
  {
    match env.parsed
    case Throw(m) => Fail(m, [])
    case Normal(req) =>
      var queried := [QueryPlaydate(req.playdateId)];
      match env.lookup(req.playdateId)
      case StoreError(m) => Fail(m, queried)
      case Found(playdate) =>
        match Compose(req.messageType, playdate, env.formatDate)
        case Throw(m) => Fail(m, queried)
        case Normal(message) =>
          var sms := Sms(req.phoneNumber, env.fromNumber, message);
          var posted := queried + [PostToGateway(sms)];
          match env.gateway(sms)
          case Throw(m) => Fail(m, posted)
          case Normal(reply) =>
            match reply.payload
            case Throw(m) => Fail(m, posted)
            case Normal(result) =>
              if !reply.ok then
                Fail(GatewayErrorPrefix + Interpolate(result.message), posted)
              else
                var entry := LogEntry(req.playdateId, req.phoneNumber, req.messageType, result.status, result.sid);
                var logged := posted + [InsertLog(entry)];
                match env.insert(entry)
                case Throw(m) => Fail(m, logged)
                case Normal(_) => Run(Response(StatusOk, Sent(true, SentMessage, result.sid)), logged)
  }

  // Reference view of the protocol: how far a request gets, stage by stage.

  /** The request was parsed, its playdate found and a message composed for it. */
  predicate Composes(env: Environment)
  {
    && env.parsed.Normal?
    && env.lookup(env.parsed.value.playdateId).Found?
    && Compose(env.parsed.value.messageType, env.lookup(env.parsed.value.playdateId).playdate, env.formatDate).Normal?
  }

  /** The SMS posted for a request that composes. */
  function Outgoing(env: Environment): Sms
    requires Composes(env)
  {
    var req := env.parsed.value;
    Sms(req.phoneNumber, env.fromNumber,
        Compose(req.messageType, env.lookup(req.playdateId).playdate, env.formatDate).value)
  }

  /** The gateway answered the post with an ok status and a readable JSON body. */
  predicate GatewayAccepts(env: Environment)
  {
    && Composes(env)
    && env.gateway(Outgoing(env)).Normal?
    && env.gateway(Outgoing(env)).value.ok
    && env.gateway(Outgoing(env)).value.payload.Normal?
  }

  /** The gateway's JSON answer to an accepted post. */
  function Receipt(env: Environment): GatewayPayload
    requires GatewayAccepts(env)
  {
    env.gateway(Outgoing(env)).value.payload.value
  }

  /** The log row written for an accepted post: the request's fields and the gateway's status and sid. */
  function Entry(env: Environment): LogEntry
    requires GatewayAccepts(env)
  {
    var req := env.parsed.value;
    LogEntry(req.playdateId, req.phoneNumber, req.messageType, Receipt(env).status, Receipt(env).sid)
  }

  /** The actions a request leads to, by how far it gets. */
  function Stages(env: Environment): seq<Effect>
  {
    if env.parsed.Throw? then []
    else if !Composes(env) then [QueryPlaydate(env.parsed.value.playdateId)]
    else if !GatewayAccepts(env) then [QueryPlaydate(env.parsed.value.playdateId), PostToGateway(Outgoing(env))]
    else [QueryPlaydate(env.parsed.value.playdateId), PostToGateway(Outgoing(env)), InsertLog(Entry(env))]
  }

  /**
   * The handler's actions are always a prefix of query, post, insert: it
   * posts only once a message is composed, and inserts only after the
   * gateway accepted the post.
   */
  lemma ProtocolOrder(env: Environment)
    ensures Handle(env).effects == Stages(env)
  {
  }

  /** A failed lookup ends the request: no post, no insert, and a 500 carrying the store's message. */
  lemma LookupFailureStopsBeforeGateway(env: Environment, req: Request, m: string)
    requires env.parsed == Normal(req) && env.lookup(req.playdateId) == StoreError(m)
    ensures Handle(env).response == Response(StatusServerError, Failed(m))
    ensures Handle(env).effects == [QueryPlaydate(req.playdateId)]
  {
  }

  /**
   * Every other error thrown on the way is caught once and answered with the
   * single 500 shape carrying that error's message; nothing after the
   * throwing step happens.
   */
  lemma ThrownErrorsBecomeOneFailure(env: Environment)
    ensures env.parsed.Throw? ==> Handle(env) == Fail(env.parsed.message, [])
    ensures env.parsed.Normal? && env.lookup(env.parsed.value.playdateId).Found? && !Composes(env) ==>
      var composed := Compose(env.parsed.value.messageType, env.lookup(env.parsed.value.playdateId).playdate, env.formatDate);
      Handle(env) == Fail(composed.message, [QueryPlaydate(env.parsed.value.playdateId)])
    ensures Composes(env) && env.gateway(Outgoing(env)).Throw? ==>
      Handle(env) == Fail(env.gateway(Outgoing(env)).message, Stages(env))
    ensures Composes(env) && env.gateway(Outgoing(env)).Normal? && env.gateway(Outgoing(env)).value.payload.Throw? ==>
      Handle(env) == Fail(env.gateway(Outgoing(env)).value.payload.message, Stages(env))
  {
  }

  /** A refused post writes no log row and answers 500 with the gateway's own message. */
  lemma GatewayRefusalWritesNoLog(env: Environment, result: GatewayPayload)
    requires Composes(env)
    requires env.gateway(Outgoing(env)) == Normal(GatewayResponse(false, Normal(result)))
    ensures Handle(env).response == Response(StatusServerError, Failed(GatewayErrorPrefix + Interpolate(result.message)))
    ensures forall e | e in Handle(env).effects :: !e.InsertLog?
  {
  }

  /** A log row is written exactly when the gateway accepted the post, and then exactly one. */
  lemma LogWrittenIffGatewayAccepted(env: Environment)
    ensures (exists e | e in Handle(env).effects :: e.InsertLog?) <==> GatewayAccepts(env)
    ensures GatewayAccepts(env) ==>
      |Handle(env).effects| == 3 && Handle(env).effects[2] == InsertLog(Entry(env))
      && forall i | 0 <= i < 2 :: !Handle(env).effects[i].InsertLog?
  {
    ProtocolOrder(env);
    var effects := Handle(env).effects;
    if !GatewayAccepts(env) {
      assert forall i | 0 <= i < |effects| :: !effects[i].InsertLog?;
    } else {
      assert effects[2] in effects;
    }
  }

  /**
   * The request succeeds exactly when the gateway accepted the post and the
   * insert did not throw, whatever the insert resolved to; the sid it
   * reports is the gateway's.
   */
  lemma SuccessCarriesGatewaySid(env: Environment)
    ensures Handle(env).response.body.Sent? <==> GatewayAccepts(env) && env.insert(Entry(env)).Normal?
    ensures Handle(env).response.body.Sent? ==>
      Handle(env).response == Response(StatusOk, Sent(true, SentMessage, Receipt(env).sid))
  {
  }

  /** A throwing insert still fails the request, after the SMS went out and the insert was attempted. */
  lemma InsertFailureAfterSend(env: Environment, m: string)
    requires GatewayAccepts(env) && env.insert(Entry(env)) == Throw(m)
    ensures Handle(env).response == Response(StatusServerError, Failed(m))
    ensures Handle(env).effects == [QueryPlaydate(env.parsed.value.playdateId), PostToGateway(Outgoing(env)), InsertLog(Entry(env))]
  {
  }

  /** An unrecognised message type is not rejected: an empty body is posted. */
  lemma UnrecognizedTypeSendsEmptyBody(env: Environment, req: Request, p: Playdate)
    requires env.parsed == Normal(req) && env.lookup(req.playdateId) == Found(p)
    requires !Recognized(req.messageType)
    ensures |Handle(env).effects| >= 2
    ensures Handle(env).effects[1] == PostToGateway(Sms(req.phoneNumber, env.fromNumber, ""))
  {
  }
}
