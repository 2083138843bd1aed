/** The life of an exchange after it has started: the request sender's
    callbacks and `close`, delivered one at a time in any order and any number.

    The lemmas here state what the code guarantees over whole histories, and
    also where it does not give the "exactly one terminal notification"
    discipline one might expect: `receiveResponse` never sets `closed`, so
    every final response notifies; timeouts and transport errors leave the
    exchange registered.
 */
module Lifecycle {
  import opened JsValues
  import opened StatusClass
  import opened OptionsPacket

  /** One thing that can happen to a started exchange. */
  datatype Signal =
    | ResponseArrived(response: Response)
    | RequestTimedOut
    | TransportFailed
    | Closed

  /** Handles one signal with the matching operation. */
  function Deliver(w: World, signal: Signal, sipErrorCause: int -> Cause): (s: Step)
    ensures w.applicants - {w.exchange.id} <= s.world.applicants <= w.applicants
    ensures s.world.exchange == if signal.Closed? then w.exchange.(closed := true) else w.exchange
  {
    match signal
    case ResponseArrived(response) => ReceiveResponse(w, response, sipErrorCause)
    case RequestTimedOut => OnRequestTimeout(w)
    case TransportFailed => OnTransportError(w)
    case Closed => Close(w)
  }

  /** Handles a sequence of signals in order, collecting their effects. Only
      this exchange's registration can disappear, nothing is ever registered,
      and only `closed` of the exchange can change, from false to true. */
  function Run(w: World, signals: seq<Signal>, sipErrorCause: int -> Cause): (s: Step)
    ensures w.applicants - {w.exchange.id} <= s.world.applicants <= w.applicants
    ensures s.world.exchange.(closed := w.exchange.closed) == w.exchange
    ensures w.exchange.closed ==> s.world.exchange.closed
    decreases |signals|
  {
    if signals == [] then
      Step(w, [])
    else
      var first := Deliver(w, signals[0], sipErrorCause);
      var rest := Run(first.world, signals[1..], sipErrorCause);
      Step(rest.world, first.effects + rest.effects)
  }

  /** Running two histories one after the other is running their concatenation. */
  lemma {:induction false} RunAppend(w: World, a: seq<Signal>, b: seq<Signal>, sipErrorCause: int -> Cause)
    ensures var ra := Run(w, a, sipErrorCause);
            var rb := Run(ra.world, b, sipErrorCause);
            Run(w, a + b, sipErrorCause) == Step(rb.world, ra.effects + rb.effects)
    decreases |a|
  {
    if a == [] {
      assert a + b == b;
    } else {
      assert (a + b)[0] == a[0];
      assert (a + b)[1..] == a[1..] + b;
      var first := Deliver(w, a[0], sipErrorCause);
      RunAppend(first.world, a[1..], b, sipErrorCause);
      var ra' := Run(first.world, a[1..], sipErrorCause);
      var rb := Run(ra'.world, b, sipErrorCause);
      assert first.effects + (ra'.effects + rb.effects) == (first.effects + ra'.effects) + rb.effects;
    }
  }

  /** The consistency the code keeps between `closed` and the registry: a
      closed exchange is never registered. (The converse does not hold; see
      SuccessDeregistersWithoutClosing.) */
  predicate Consistent(w: World)
  {
    w.exchange.closed ==> w.exchange.id !in w.applicants
  }

  /** Every history of callbacks and closes keeps a consistent world consistent. */
  lemma {:induction false} RunPreservesConsistent(w: World, signals: seq<Signal>, sipErrorCause: int -> Cause)
    requires Consistent(w)
    ensures Consistent(Run(w, signals, sipErrorCause).world)
    decreases |signals|
  {
    if signals != [] {
      var first := Deliver(w, signals[0], sipErrorCause);
      assert Consistent(first.world);
      RunPreservesConsistent(first.world, signals[1..], sipErrorCause);
    }
  }

  /** The entry points leave a consistent world: `send` opens and registers,
      `init_incoming`, `accept` and `reject` touch neither `closed` nor the registry. */
  lemma EntryPointsConsistent(
    w: World,
    target: JsValue,
    body: JsValue,
    options: Option<SendOptions>,
    normalizeTarget: JsValue -> JsValue,
    outgoingRequest: (JsValue, seq<string>) -> Request,
    request: Request,
    nist: map<string, TransactionState>,
    acceptOptions: Option<AcceptOptions>,
    rejectOptions: Option<RejectOptions>)
    requires Consistent(w)
    ensures var r := Send(w, target, body, options, normalizeTarget, outgoingRequest);
            r.Returned? ==> Consistent(r.step.world) && w.exchange.id in r.step.world.applicants
    ensures Consistent(InitIncoming(w, request, nist).world)
    ensures Accept(w, acceptOptions).Returned? ==> Consistent(Accept(w, acceptOptions).step.world)
    ensures Reject(w, rejectOptions).Returned? ==> Consistent(Reject(w, rejectOptions).step.world)
  {
  }

  /** Once an exchange is closed (and hence deregistered), nothing that happens
      to it has any effect: late responses, timeouts, transport errors and
      further closes all leave it exactly as it is and report nothing. */
  lemma {:induction false} SilentOnceClosed(w: World, signals: seq<Signal>, sipErrorCause: int -> Cause)
    requires w.exchange.closed && w.exchange.id !in w.applicants
    ensures Run(w, signals, sipErrorCause) == Step(w, [])
    decreases |signals|
  {
    if signals != [] {
      var first := Deliver(w, signals[0], sipErrorCause);
      assert first == Step(w, []);
      SilentOnceClosed(w, signals[1..], sipErrorCause);
    }
  }

  /** Closing after any history gives the same world as closing at once; in
      particular `close` is idempotent. */
  lemma CloseAbsorbs(w: World, signals: seq<Signal>, sipErrorCause: int -> Cause)
    ensures Run(w, signals + [Closed], sipErrorCause).world == Close(w).world
    ensures Close(Close(w).world) == Close(w)
  {
    RunAppend(w, signals, [Closed], sipErrorCause);
    var mid := Run(w, signals, sipErrorCause).world;
    assert Run(mid, [Closed], sipErrorCause).world == Close(mid).world;
    assert mid.applicants - {w.exchange.id} == w.applicants - {w.exchange.id};
  }

  /** Whether a signal delivered to an open exchange produces a `succeeded` or
      `failed` notification: any response outside 100..199, a timeout or a
      transport error. */
  predicate Notifies(signal: Signal)
  {
    match signal
    case ResponseArrived(response) => !(100 <= response.statusCode <= 199)
    case RequestTimedOut => true
    case TransportFailed => true
    case Closed => false
  }

  function CountNotifying(signals: seq<Signal>): nat
  {
    if signals == [] then 0 else (if Notifies(signals[0]) then 1 else 0) + CountNotifying(signals[1..])
  }

  predicate IsTerminal(e: Effect)
  {
    e.Emit? && (e.event.Succeeded? || e.event.Failed?)
  }

  /** The number of `succeeded` and `failed` notifications among some effects. */
  function TerminalCount(effects: seq<Effect>): nat
  {
    if effects == [] then 0 else (if IsTerminal(effects[0]) then 1 else 0) + TerminalCount(effects[1..])
  }

  lemma {:induction false} TerminalCountAppend(a: seq<Effect>, b: seq<Effect>)
    ensures TerminalCount(a + b) == TerminalCount(a) + TerminalCount(b)
    decreases |a|
  {
    if a == [] {
      assert a + b == b;
    } else {
      assert (a + b)[0] == a[0];
      assert (a + b)[1..] == a[1..] + b;
      TerminalCountAppend(a[1..], b);
    }
  }

  /** While an exchange is open and nobody closes it, every final response,
      timeout and transport error produces its own terminal notification:
      the code does not limit them to one. */
  lemma {:induction false} NotificationsPerSignal(w: World, signals: seq<Signal>, sipErrorCause: int -> Cause)
    requires !w.exchange.closed
    requires forall i :: 0 <= i < |signals| ==> !signals[i].Closed?
    ensures TerminalCount(Run(w, signals, sipErrorCause).effects) == CountNotifying(signals)
    decreases |signals|
  {
    if signals != [] {
      var first := Deliver(w, signals[0], sipErrorCause);
      var rest := Run(first.world, signals[1..], sipErrorCause);
      assert TerminalCount(first.effects) == (if Notifies(signals[0]) then 1 else 0) by {
        match signals[0]
        case ResponseArrived(response) =>
          if 100 <= response.statusCode <= 199 {
            assert first.effects == [];
          } else {
            assert |first.effects| == 1 && IsTerminal(first.effects[0]);
            assert first.effects[1..] == [];
          }
        case RequestTimedOut =>
          assert first.effects[1..] == [];
        case TransportFailed =>
          assert first.effects[1..] == [];
      }
      NotificationsPerSignal(first.world, signals[1..], sipErrorCause);
      TerminalCountAppend(first.effects, rest.effects);
    }
  }

  /** Scenario: a request is sent, a 180 and then a 200 arrive. The 180 is
      ignored and the 200 reports success and deregisters, yet the exchange is
      still open; a 486 arriving afterwards is not ignored but reports a failure. */
  lemma SecondFinalNotifiesAgain(
    w: World,
    target: JsValue,
    body: JsValue,
    normalizeTarget: JsValue -> JsValue,
    outgoingRequest: (JsValue, seq<string>) -> Request,
    sipErrorCause: int -> Cause,
    ringing: Response,
    ok: Response,
    busy: Response)
    requires Send(w, target, body, None, normalizeTarget, outgoingRequest).Returned?
    requires ringing.statusCode == 180 && ok.statusCode == 200 && busy.statusCode == 486
    ensures var sent := Send(w, target, body, None, normalizeTarget, outgoingRequest).step.world;
            var early := Run(sent, [ResponseArrived(ringing), ResponseArrived(ok)], sipErrorCause);
            var late := Run(early.world, [ResponseArrived(busy)], sipErrorCause);
            && early.effects == [Emit(Succeeded(Remote, ok))]
            && !early.world.exchange.closed
            && w.exchange.id !in early.world.applicants
            && late.effects == [Emit(Failed(Remote, Some(busy), sipErrorCause(486)))]
  {
    var sent := Send(w, target, body, None, normalizeTarget, outgoingRequest).step.world;
    var s1 := Deliver(sent, ResponseArrived(ringing), sipErrorCause);
    assert s1 == Step(sent, []);
    var s2 := Deliver(s1.world, ResponseArrived(ok), sipErrorCause);
    assert Run(sent, [ResponseArrived(ringing), ResponseArrived(ok)], sipErrorCause).effects
        == s1.effects + Run(s1.world, [ResponseArrived(ok)], sipErrorCause).effects;
  }

  /** An open exchange whose 2xx has arrived is deregistered but not closed:
      registration and openness are not kept equal by the code. */
  lemma SuccessDeregistersWithoutClosing(w: World, ok: Response, sipErrorCause: int -> Cause)
    requires !w.exchange.closed && 200 <= ok.statusCode <= 299
    ensures var s := ReceiveResponse(w, ok, sipErrorCause).world;
            !s.exchange.closed && s.exchange.id !in s.applicants
  {
  }

  /** Scenario: a sent request times out. One failure with cause REQUEST_TIMEOUT
      is reported, and the exchange stays in the registry. */
  lemma TimeoutKeepsRegistration(
    w: World,
    target: JsValue,
    body: JsValue,
    options: Option<SendOptions>,
    normalizeTarget: JsValue -> JsValue,
    outgoingRequest: (JsValue, seq<string>) -> Request,
    sipErrorCause: int -> Cause)
    requires Send(w, target, body, options, normalizeTarget, outgoingRequest).Returned?
    ensures var sent := Send(w, target, body, options, normalizeTarget, outgoingRequest).step.world;
            var after := Run(sent, [RequestTimedOut], sipErrorCause);
            && after.effects == [Emit(Failed(System, None, RequestTimeout))]
            && w.exchange.id in after.world.applicants
  {
  }

  /** The fields of the exchange stay well formed: both entry points establish
      it and no callback or close breaks it. */
  lemma WellFormedThroughout(
    w: World,
    target: JsValue,
    body: JsValue,
    options: Option<SendOptions>,
    normalizeTarget: JsValue -> JsValue,
    outgoingRequest: (JsValue, seq<string>) -> Request,
    request: Request,
    nist: map<string, TransactionState>,
    signals: seq<Signal>,
    sipErrorCause: int -> Cause)
    ensures var r := Send(w, target, body, options, normalizeTarget, outgoingRequest);
            r.Returned? ==> WellFormed(r.step.world.exchange)
    ensures WellFormed(InitIncoming(w, request, nist).world.exchange)
    ensures WellFormed(w.exchange) ==> WellFormed(Run(w, signals, sipErrorCause).world.exchange)
  {
  }

  /** A freshly constructed exchange, whatever the registry holds, is consistent
      and well formed, and accept and reject refuse it: its direction is unset. */
  lemma FreshExchange(id: ExchangeId, applicants: set<ExchangeId>,
                      acceptOptions: Option<AcceptOptions>, rejectOptions: Option<RejectOptions>)
    ensures Consistent(World(NewExchange(id), applicants))
    ensures WellFormed(NewExchange(id))
    ensures Accept(World(NewExchange(id), applicants), acceptOptions) == Threw(NotSupported("accept"))
    ensures Reject(World(NewExchange(id), applicants), rejectOptions) == Threw(NotSupported("reject"))
  {
  }

  /** From a fresh exchange, a successful send followed by any history of
      callbacks and closes keeps a closed exchange out of the registry. */
  lemma SendThenAnyHistoryConsistent(
    id: ExchangeId,
    applicants: set<ExchangeId>,
    target: JsValue,
    body: JsValue,
    options: Option<SendOptions>,
    normalizeTarget: JsValue -> JsValue,
    outgoingRequest: (JsValue, seq<string>) -> Request,
    signals: seq<Signal>,
    sipErrorCause: int -> Cause)
    ensures var r := Send(World(NewExchange(id), applicants), target, body, options, normalizeTarget, outgoingRequest);
            r.Returned? ==> Consistent(Run(r.step.world, signals, sipErrorCause).world)
  {
  }

  /** On a well-formed exchange, which is every exchange the operations reach,
      accept and reject never fail for want of a request. */
  lemma WellFormedHasRequestToReply(w: World, acceptOptions: Option<AcceptOptions>, rejectOptions: Option<RejectOptions>)
    requires WellFormed(w.exchange)
    ensures Accept(w, acceptOptions) != Threw(NoRequest)
    ensures Reject(w, rejectOptions) != Threw(NoRequest)
  {
  }

  /** accept and reject on an exchange that has been sent, rather than received,
      are refused and reply nothing. */
  lemma OutgoingRefusesAcceptAndReject(
    w: World,
    target: JsValue,
    body: JsValue,
    options: Option<SendOptions>,
    normalizeTarget: JsValue -> JsValue,
    outgoingRequest: (JsValue, seq<string>) -> Request,
    acceptOptions: Option<AcceptOptions>,
    rejectOptions: Option<RejectOptions>)
    requires Send(w, target, body, options, normalizeTarget, outgoingRequest).Returned?
    ensures var sent := Send(w, target, body, options, normalizeTarget, outgoingRequest).step.world;
            && Accept(sent, acceptOptions) == Threw(NotSupported("accept"))
            && Reject(sent, rejectOptions) == Threw(NotSupported("reject"))
  {
  }

  /** Scenario: on a received exchange, reject refuses 250 and 700, sends 301
      as given, and sends 480 when no code or code 0 is given. */
  lemma RejectStatusScenarios(w: World, request: Request, nist: map<string, TransactionState>)
    ensures var incoming := InitIncoming(w, request, nist).world;
            && Reject(incoming, Some(RejectOptions(Some(250), Undefined, None, Undefined))) == Threw(InvalidStatusCode(250))
            && Reject(incoming, Some(RejectOptions(Some(700), Undefined, None, Undefined))) == Threw(InvalidStatusCode(700))
            && Reject(incoming, Some(RejectOptions(Some(301), Undefined, None, Undefined)))
               == Returned(Step(incoming, [Reply(ReplyArgs(301, Undefined, Some([]), Undefined))]))
            && Reject(incoming, Some(RejectOptions(Some(0), Undefined, None, Undefined)))
               == Returned(Step(incoming, [Reply(ReplyArgs(480, Undefined, Some([]), Undefined))]))
            && Reject(incoming, None) == Returned(Step(incoming, [Reply(ReplyArgs(480, Undefined, Some([]), Undefined))]))
  {
  }
}
