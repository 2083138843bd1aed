/** One SIP OPTIONS exchange (the capabilities query of section 11 of RFC 3261),
    outgoing or incoming, as a pure state machine.

    Every operation takes the exchange together with the user agent's registry
    of in-flight outgoing exchanges (`ua.applicants`) and returns the new pair
    plus the ordered list of observable effects it produced: events emitted,
    the request handed to the request sender, replies sent. An operation that
    throws returns the exception instead, and so changes nothing.

    The collaborators the exchange calls but does not implement are parameters:
    the target normaliser, the outgoing-request constructor, the status-code to
    cause table and the table of non-INVITE server transactions.
 */
module OptionsPacket {
  import opened JsValues
  import opened StatusClass

  /** The identity under which an exchange is a key of the registry. */
  type ExchangeId = nat

  /** A From or To identity of a request (a name-address header), kept opaque. */
  type Identity = string

  /** `this.direction`: unset until newOptionsPacket runs. */
  datatype Direction = Unset | Outgoing | Incoming

  /** Who caused an event: this side, the peer, or the transport machinery. */
  datatype Originator = Local | Remote | System

  /** The request of the exchange: the OPTIONS being sent or the one received. */
  datatype Request = Request(from: Identity, to: Identity, viaBranch: string, body: JsValue)

  datatype Response = Response(statusCode: int, reasonPhrase: string)

  /** A failure cause. The two system causes are named; the table behind
      `sipErrorCause` may map a status code to either of them or to another cause. */
  datatype Cause = RequestTimeout | ConnectionError | OtherCause(name: string)

  /** States of a non-INVITE server transaction (section 17.2.2 of RFC 3261). */
  datatype TransactionState = Trying | Proceeding | Completed | Terminated

  /** The events of the exchange. `Created` is the user agent's `newOptionsPacket`
      event; `Succeeded` and `Failed` are emitted on the exchange itself. */
  datatype Event =
    | Created(originator: Originator, request: Request)
    | Succeeded(originator: Originator, response: Response)
    | Failed(originator: Originator, failedResponse: Option<Response>, cause: Cause)

  /** The arguments of one `request.reply(status, reason, extraHeaders, body)` call. */
  datatype ReplyArgs = ReplyArgs(statusCode: int, reasonPhrase: JsValue, extraHeaders: Option<seq<string>>, body: JsValue)

  /** One observable effect of an operation. */
  datatype Effect =
    | Emit(event: Event)
    | Transmit(request: Request)
    | Reply(args: ReplyArgs)

  /** The fields of an OptionsPacket object that its operations read or write. */
  datatype Exchange = Exchange(
    id: ExchangeId,
    closed: bool,
    direction: Direction,
    localIdentity: Option<Identity>,
    remoteIdentity: Option<Identity>,
    request: Option<Request>)

  /** An exchange together with the user agent's registry of applicants. */
  datatype World = World(exchange: Exchange, applicants: set<ExchangeId>)

  /** The result of an operation that returned normally. */
  datatype Step = Step(world: World, effects: seq<Effect>)

  /** The exceptions the operations throw. `NotSupported` is a
      NotSupportedError, the others TypeErrors. `NoRequest` is the TypeError
      JavaScript raises when `this.request.reply` is called on an exchange
      that has no request, a state no sequence of operations reaches
      (Lifecycle.WellFormedThroughout). */
  datatype Exception =
    | NotEnoughArguments
    | InvalidTarget(target: JsValue)
    | NotSupported(operation: string)
    | InvalidStatusCode(code: int)
    | NoRequest

  datatype Outcome = Returned(step: Step) | Threw(exception: Exception)

  datatype SendOptions = SendOptions(extraHeaders: Option<seq<string>>)
  datatype AcceptOptions = AcceptOptions(extraHeaders: Option<seq<string>>, body: JsValue)
  datatype RejectOptions = RejectOptions(
    statusCode: Option<int>,
    reasonPhrase: JsValue,
    extraHeaders: Option<seq<string>>,
    body: JsValue)

  /** A freshly constructed OptionsPacket: nothing assigned yet; `closed` is
      undefined, which every test of it reads as false. */
  function NewExchange(id: ExchangeId): (ex: Exchange)
    ensures ex.id == id && !ex.closed && ex.direction == Unset
    ensures ex.request.None? && ex.localIdentity.None? && ex.remoteIdentity.None?
  {
    Exchange(id, false, Unset, None, None, None)
  }

  /** The fields newOptionsPacket and the operations maintain together: once a
      direction is set, the request and both identities are set, and the
      identities are the request's, oriented by the direction. */
  predicate WellFormed(ex: Exchange)
  {
    ex.direction != Unset ==>
      && ex.request.Some?
      && (ex.direction == Outgoing ==>
            ex.localIdentity == Some(ex.request.value.from) && ex.remoteIdentity == Some(ex.request.value.to))
      && (ex.direction == Incoming ==>
            ex.localIdentity == Some(ex.request.value.to) && ex.remoteIdentity == Some(ex.request.value.from))
  }

  /** newOptionsPacket: orients the exchange by who created it and announces it
      on the user agent. An originator other than local or remote orients nothing. */
  function NewOptionsPacket(ex: Exchange, originator: Originator, request: Request): (r: (Exchange, Event))
    ensures r.1 == Created(originator, request)
    ensures r.0.id == ex.id && r.0.closed == ex.closed && r.0.request == ex.request
    ensures originator == Remote ==>
      r.0.direction == Incoming && r.0.localIdentity == Some(request.to) && r.0.remoteIdentity == Some(request.from)
    ensures originator == Local ==>
      r.0.direction == Outgoing && r.0.localIdentity == Some(request.from) && r.0.remoteIdentity == Some(request.to)
    ensures originator == System ==> r.0 == ex
  {
    var ex' :=
      match originator
      case Remote => ex.(direction := Incoming, localIdentity := Some(request.to), remoteIdentity := Some(request.from))
      case Local => ex.(direction := Outgoing, localIdentity := Some(request.from), remoteIdentity := Some(request.to))
      case System => ex;
    (ex', Created(originator, request))
  }

  /** The request `send` builds: the constructor's request, with the body
      attached only when the body is truthy. */
  function OutgoingWithBody(built: Request, body: JsValue): (req: Request)
    ensures Truthy(body) ==> req == built.(body := body)
    ensures !Truthy(body) ==> req == built
  {
    if Truthy(body) then built.(body := body) else built
  }

  /** send(target, body, options): validates, then registers the exchange,
      builds the request, announces the exchange and hands the request to the
      request sender. `normalizeTarget` stands for `ua.normalizeTarget` and
      `outgoingRequest` for the OutgoingRequest constructor (given the
      normalised target and the extra headers). */
  function Send(
    w: World,
    target: JsValue,
    body: JsValue,
    options: Option<SendOptions>,
    normalizeTarget: JsValue -> JsValue,
    outgoingRequest: (JsValue, seq<string>) -> Request): (r: Outcome)
    ensures r.Threw? <==> target.Undefined? || body.Undefined? || !Truthy(normalizeTarget(target))
    ensures target.Undefined? || body.Undefined? ==> r == Threw(NotEnoughArguments)
    ensures !target.Undefined? && !body.Undefined? && !Truthy(normalizeTarget(target)) ==>
      r == Threw(InvalidTarget(target))
    ensures r.Returned? ==>
      var ex' := r.step.world.exchange;
      var headers := if options.Some? then OrElse(options.value.extraHeaders, []) else [];
      var built := outgoingRequest(normalizeTarget(target), headers);
      && ex'.request.Some?
      && (Truthy(body) ==> ex'.request.value == built.(body := body))
      && (!Truthy(body) ==> ex'.request.value == built)
      && ex'.id == w.exchange.id
      && !ex'.closed
      && r.step.world.applicants == w.applicants + {w.exchange.id}
      && ex'.direction == Outgoing
      && ex'.localIdentity == Some(ex'.request.value.from)
      && ex'.remoteIdentity == Some(ex'.request.value.to)
      && r.step.effects == [Emit(Created(Local, ex'.request.value)), Transmit(ex'.request.value)]
  {
    if target.Undefined? || body.Undefined? then
      Threw(NotEnoughArguments)
    else
      var normalized := normalizeTarget(target);
      if !Truthy(normalized) then
        Threw(InvalidTarget(target))
      else
        var headers := if options.Some? then OrElse(options.value.extraHeaders, []) else [];
        var request := OutgoingWithBody(outgoingRequest(normalized, headers), body);
        var ex := w.exchange.(closed := false, request := Some(request));
        var (ex', created) := NewOptionsPacket(ex, Local, request);
        Returned(Step(World(ex', w.applicants + {ex.id}), [Emit(created), Transmit(request)]))
  }

  /** receiveResponse(response): ignored once closed; otherwise a provisional
      code changes nothing, a 2xx deregisters and reports success, any other
      code deregisters and reports failure with the cause the table gives.
      `closed` is never set here. */
  function ReceiveResponse(w: World, response: Response, sipErrorCause: int -> Cause): (s: Step)
    ensures s.world.exchange == w.exchange
    ensures w.exchange.closed ==> s == Step(w, [])
    ensures !w.exchange.closed && 100 <= response.statusCode <= 199 ==> s == Step(w, [])
    ensures !w.exchange.closed && 200 <= response.statusCode <= 299 ==>
      s.world.applicants == w.applicants - {w.exchange.id}
      && s.effects == [Emit(Succeeded(Remote, response))]
    ensures !w.exchange.closed && (response.statusCode < 100 || 300 <= response.statusCode) ==>
      s.world.applicants == w.applicants - {w.exchange.id}
      && s.effects == [Emit(Failed(Remote, Some(response), sipErrorCause(response.statusCode)))]
  {
    if w.exchange.closed then
      Step(w, [])
    else
      match Classify(response.statusCode)
      case Provisional => Step(w, [])
      case Success =>
        Step(w.(applicants := w.applicants - {w.exchange.id}), [Emit(Succeeded(Remote, response))])
      case NonSuccess =>
        var cause := sipErrorCause(response.statusCode);
        Step(w.(applicants := w.applicants - {w.exchange.id}), [Emit(Failed(Remote, Some(response), cause))])
  }

  /** The shared shape of onRequestTimeout and onTransportError: unless closed,
      report a failure caused by the system; the registry is left alone. */
  function SystemFailure(w: World, cause: Cause): (s: Step)
    ensures s.world == w
    ensures w.exchange.closed ==> s.effects == []
    ensures !w.exchange.closed ==> s.effects == [Emit(Failed(System, None, cause))]
  {
    if w.exchange.closed then Step(w, []) else Step(w, [Emit(Failed(System, None, cause))])
  }

  /** onRequestTimeout(): one failure with cause REQUEST_TIMEOUT unless closed. */
  function OnRequestTimeout(w: World): (s: Step)
    ensures s.world == w
    ensures w.exchange.closed ==> s.effects == []
    ensures !w.exchange.closed ==> s.effects == [Emit(Failed(System, None, RequestTimeout))]
  {
    SystemFailure(w, RequestTimeout)
  }

  /** onTransportError(): one failure with cause CONNECTION_ERROR unless closed. */
  function OnTransportError(w: World): (s: Step)
    ensures s.world == w
    ensures w.exchange.closed ==> s.effects == []
    ensures !w.exchange.closed ==> s.effects == [Emit(Failed(System, None, ConnectionError))]
  {
    SystemFailure(w, ConnectionError)
  }

  /** close(): marks the exchange closed and deregisters it, silently. */
  function Close(w: World): (s: Step)
    ensures s.world.exchange == w.exchange.(closed := true)
    ensures s.world.applicants == w.applicants - {w.exchange.id}
    ensures s.effects == []
  {
    Step(World(w.exchange.(closed := true), w.applicants - {w.exchange.id}), [])
  }

  /** Whether the transaction table holds a non-INVITE server transaction for
      the branch that has not yet sent a final response. */
  predicate PendingTransaction(nist: map<string, TransactionState>, branch: string)
  {
    branch in nist && (nist[branch] == Trying || nist[branch] == Proceeding)
  }

  /** init_incoming(request): stores the received request, orients and
      announces the exchange, and replies 200 at once when the matching
      transaction is still pending. The registry is not touched. */
  function InitIncoming(w: World, request: Request, nist: map<string, TransactionState>): (s: Step)
    ensures s.world.applicants == w.applicants
    ensures s.world.exchange ==
      w.exchange.(direction := Incoming, request := Some(request),
                  localIdentity := Some(request.to), remoteIdentity := Some(request.from))
    ensures |s.effects| >= 1 && s.effects[0] == Emit(Created(Remote, request))
    ensures PendingTransaction(nist, request.viaBranch) ==>
      s.effects == [Emit(Created(Remote, request)), Reply(ReplyArgs(200, Undefined, None, Undefined))]
    ensures !PendingTransaction(nist, request.viaBranch) ==> s.effects == [Emit(Created(Remote, request))]
  {
    var ex := w.exchange.(request := Some(request));
    var (ex', created) := NewOptionsPacket(ex, Remote, request);
    var replies := if PendingTransaction(nist, request.viaBranch) then [Reply(ReplyArgs(200, Undefined, None, Undefined))] else [];
    Step(World(ex', w.applicants), [Emit(created)] + replies)
  }

  /** accept(options): only for an incoming exchange; replies 200 with the
      caller's extra headers and body on the exchange's request. */
  function Accept(w: World, options: Option<AcceptOptions>): (r: Outcome)
    ensures r.Threw? <==> w.exchange.direction != Incoming || w.exchange.request.None?
    ensures (r.Threw? && r.exception == NotSupported("accept")) <==> w.exchange.direction != Incoming
    ensures r.Threw? && r.exception != NotSupported("accept") ==> r.exception == NoRequest
    ensures r.Returned? ==>
      && r.step.world == w
      && |r.step.effects| == 1
      && r.step.effects[0].Reply?
      && r.step.effects[0].args.statusCode == 200
      && r.step.effects[0].args.reasonPhrase == Null
      && r.step.effects[0].args.extraHeaders == Some(if options.Some? then OrElse(options.value.extraHeaders, []) else [])
      && r.step.effects[0].args.body == (if options.Some? then options.value.body else Undefined)
  {
    var headers := if options.Some? then OrElse(options.value.extraHeaders, []) else [];
    var body := if options.Some? then options.value.body else Undefined;
    if w.exchange.direction != Incoming then
      Threw(NotSupported("accept"))
    else if w.exchange.request.None? then
      Threw(NoRequest)
    else
      Returned(Step(w, [Reply(ReplyArgs(200, Null, Some(headers), body))]))
  }

  /** The status code reject uses: `options.status_code || 480`. */
  function RejectStatusCode(options: Option<RejectOptions>): (code: int)
    ensures options.None? || options.value.statusCode.None? || options.value.statusCode.value == 0 ==> code == 480
    ensures options.Some? && options.value.statusCode.Some? && options.value.statusCode.value != 0 ==>
      code == options.value.statusCode.value
  {
    if options.Some? && options.value.statusCode.Some? && options.value.statusCode.value != 0 then
      options.value.statusCode.value
    else
      480
  }

  /** reject(options): only for an incoming exchange; the status code
      (480 by default) must lie in 300..699, and is then sent as the reply on
      the exchange's request. */
  function Reject(w: World, options: Option<RejectOptions>): (r: Outcome)
    ensures r.Threw? ==>
      r.exception == NotSupported("reject") || r.exception == InvalidStatusCode(RejectStatusCode(options)) || r.exception == NoRequest
    ensures (r.Threw? && r.exception == NotSupported("reject")) <==> w.exchange.direction != Incoming
    ensures (r.Threw? && r.exception.InvalidStatusCode?) <==>
      w.exchange.direction == Incoming && !(300 <= RejectStatusCode(options) < 700)
    ensures r.Returned? <==>
      w.exchange.direction == Incoming && 300 <= RejectStatusCode(options) < 700 && w.exchange.request.Some?
    ensures r.Returned? ==>
      && r.step.world == w
      && |r.step.effects| == 1
      && r.step.effects[0].Reply?
      && 300 <= r.step.effects[0].args.statusCode < 700
      && r.step.effects[0].args.statusCode == RejectStatusCode(options)
      && r.step.effects[0].args.reasonPhrase == (if options.Some? then options.value.reasonPhrase else Undefined)
      && r.step.effects[0].args.extraHeaders == Some(if options.Some? then OrElse(options.value.extraHeaders, []) else [])
      && r.step.effects[0].args.body == (if options.Some? then options.value.body else Undefined)
  {
    var code := RejectStatusCode(options);
    var reason := if options.Some? then options.value.reasonPhrase else Undefined;
    var headers := if options.Some? then OrElse(options.value.extraHeaders, []) else [];
    var body := if options.Some? then options.value.body else Undefined;
    if w.exchange.direction != Incoming then
      Threw(NotSupported("reject"))
    else if code < 300 || code >= 700 then
      Threw(InvalidStatusCode(code))
    else if w.exchange.request.None? then
      Threw(NoRequest)
    else
      Returned(Step(w, [Reply(ReplyArgs(code, reason, Some(headers), body))]))
  }
}
