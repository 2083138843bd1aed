# OptionsPacket: a Dafny model of JsSIP's SIP OPTIONS exchange

This project models `OptionsPacket` from JsSIP. An OptionsPacket is one SIP OPTIONS exchange, the capabilities query of section 11 of RFC 3261. It is either sent by this user agent (outgoing) or received by it (incoming).

The model is functional. An exchange is an immutable record holding the fields the source reads and writes: `closed`, `direction`, `local_identity`, `remote_identity` and `request`. It is paired with the user agent's registry of in-flight exchanges (`ua.applicants`), modelled as a set of exchange ids. Each operation takes this pair and returns one of two things:

- the new pair plus the ordered list of effects it produced: events emitted, the request handed to the request sender, and replies sent;
- the exception it throws, in which case nothing changed.

The collaborators the source calls but does not define are parameters:

- `ua.normalizeTarget`, as a function from JavaScript values to JavaScript values;
- the `OutgoingRequest` constructor, as a function from the normalised target and extra headers to a request;
- `JsSIP.Utils.sipErrorCause`, as a function from status code to cause;
- the table of non-INVITE server transactions (`ua.transactions.nist`), as a map from Via branch to transaction state.

Files:

- `js_values.dfy` (module `JsValues`): JavaScript values and truthiness, which decide `undefined` checks, `if (body)` and `x || default`.
- `status_class.dfy` (module `StatusClass`): the source classifies a response by testing its decimal rendering against `/^1[0-9]{2}$/` and `/^2[0-9]{2}$/`. This module models those string tests and proves that they are exactly the numeric classes 100–199 and 200–299 (section 7.2 of RFC 3261).
- `options_packet.dfy` (module `OptionsPacket`): the data model and every operation.
- `lifecycle.dfy` (module `Lifecycle`): histories of callbacks and `close` after an exchange has started, the invariants kept over them, and scenarios.

## Model

| member | source | states |
|---|---|---|
| StatusClass.ClassPatternIffRange | src/OptionsPacket.js:82-86 | The regular-expression test `/^D[0-9]{2}$/` on the decimal rendering of an integer status code holds exactly when the code lies in D00..D99; negative codes never match |
| StatusClass.Classify | src/OptionsPacket.js:81-103 | The three branches of receiveResponse's switch are characterised numerically: provisional iff 100..199, success iff 200..299, and otherwise (below 100 or from 300 up) the default branch |
| OptionsPacket.NewExchange | src/OptionsPacket.js:13-19 | A freshly constructed exchange has no direction, identities or request, and is not closed because its `closed` is undefined |
| OptionsPacket.NewOptionsPacket | src/OptionsPacket.js:210-229 | Originator remote makes the exchange incoming with local = request.to and remote = request.from. Originator local makes it outgoing with the identities the other way round. Any other originator leaves it unoriented. In every case exactly one `newOptionsPacket` event is emitted, carrying the originator and request |
| OptionsPacket.OutgoingWithBody | src/OptionsPacket.js:61-63 | The body is attached to the outgoing request iff it is truthy; an empty string, null, 0 or false leaves the constructed request as it was |
| OptionsPacket.Send | src/OptionsPacket.js:23-70 | send throws iff target or body is undefined (NotEnoughArguments) or the normalised target is falsy (InvalidTarget naming the original target). A throw changes nothing. On success: the exchange is open, the registry gains exactly this exchange, and the direction is outgoing with identities from the request's From/To. The request is the constructor's with the body attached iff truthy. The effects are exactly one `newOptionsPacket` with originator local, followed by transmission of that request |
| OptionsPacket.ReceiveResponse | src/OptionsPacket.js:75-104 | If the exchange is closed, nothing happens. If open: a 1xx changes nothing; a 2xx removes only this exchange from the registry and emits one `succeeded` (remote, response); any other code removes it and emits one `failed` (remote, response, sipErrorCause(code)). The exchange itself, `closed` included, is never changed |
| OptionsPacket.OnRequestTimeout | src/OptionsPacket.js:110-118 | If closed, nothing happens. If open, exactly one `failed` is emitted with originator system and cause REQUEST_TIMEOUT; neither the registry nor the exchange changes |
| OptionsPacket.OnTransportError | src/OptionsPacket.js:123-131 | If closed, nothing happens. If open, exactly one `failed` is emitted with originator system and cause CONNECTION_ERROR; neither the registry nor the exchange changes |
| OptionsPacket.Close | src/OptionsPacket.js:136-139 | close sets `closed` and removes only this exchange from the registry; it emits and sends nothing |
| OptionsPacket.InitIncoming | src/OptionsPacket.js:144-156 | init_incoming stores the request and makes the exchange incoming with local = request.to and remote = request.from. It leaves the registry untouched. It emits one `newOptionsPacket` with originator remote, then replies 200 iff the transaction table has a transaction for the request's Via branch in state Trying or Proceeding |
| OptionsPacket.Accept | src/OptionsPacket.js:162-174 | accept throws NotSupported iff the direction is not incoming, which includes an unset direction. On an incoming exchange without a request it throws the TypeError of calling `reply` on undefined. Otherwise it sends exactly one reply: 200, a null reason, the caller's extra headers (default none) and the caller's body. The state is unchanged |
| OptionsPacket.RejectStatusCode | src/OptionsPacket.js:187 | The status code reject uses is 480 when options or their status code are absent or the code is 0, and otherwise the given code |
| OptionsPacket.Reject | src/OptionsPacket.js:183-201 | reject throws NotSupported iff the direction is not incoming. For an incoming exchange it throws InvalidStatusCode iff the effective code is outside 300..699. If there is no request, it throws the TypeError of calling `reply` on undefined. Otherwise it sends exactly one reply with that code (always within 300..699), the given reason phrase, headers and body. The state is unchanged |
| Lifecycle.Deliver | src/OptionsPacket.js:75-139 | Any single callback or close can only remove this exchange from the registry, never adds to it, and changes no field of the exchange except `closed`, which only close sets |
| Lifecycle.Run | src/OptionsPacket.js:75-139 | Over any history of callbacks and closes, the registry only loses this exchange. The exchange keeps every field except `closed`, and once closed it stays closed |
| Lifecycle.RunPreservesConsistent | src/OptionsPacket.js:136-139 | Every history keeps this invariant: a closed exchange is not in the registry |
| Lifecycle.EntryPointsConsistent | src/OptionsPacket.js:54-55 | A successful send leaves the exchange open and registered. init_incoming, accept and reject keep the closed-implies-deregistered invariant |
| Lifecycle.SilentOnceClosed | src/OptionsPacket.js:78-80 | Once an exchange is closed and deregistered, no history of late responses, timeouts, transport errors or further closes changes anything or emits anything |
| Lifecycle.CloseAbsorbs | src/OptionsPacket.js:136-139 | Closing after any history yields the same state as closing at once, and close is idempotent |
| Lifecycle.NotificationsPerSignal | src/OptionsPacket.js:81-131 | While an exchange is open and not closed, the number of `succeeded`/`failed` notifications equals the number of non-1xx responses, timeouts and transport errors delivered. No "exactly once" limit applies |
| Lifecycle.SecondFinalNotifiesAgain | src/OptionsPacket.js:86-102 | After send, a 180 and then a 200 produce exactly one `succeeded` and deregister without closing. A later 486 still emits `failed` with sipErrorCause(486) |
| Lifecycle.SuccessDeregistersWithoutClosing | src/OptionsPacket.js:86-92 | A 2xx on an open exchange leaves it deregistered yet open |
| Lifecycle.TimeoutKeepsRegistration | src/OptionsPacket.js:110-118 | After send, a timeout emits exactly one `failed` with cause REQUEST_TIMEOUT, and the exchange is still in the registry |
| Lifecycle.WellFormedThroughout | src/OptionsPacket.js:210-222 | send and init_incoming leave the request set and the identities oriented by the direction, and no callback or close breaks this |
| Lifecycle.OutgoingRefusesAcceptAndReject | src/OptionsPacket.js:169-194 | On an exchange that has been sent, accept and reject throw NotSupported whatever their options |
| Lifecycle.FreshExchange | src/OptionsPacket.js:13-19 | A freshly constructed exchange is consistent and well formed, and accept and reject refuse it with NotSupported because its direction is unset |
| Lifecycle.SendThenAnyHistoryConsistent | src/OptionsPacket.js:54-55 | From a fresh exchange, a successful send followed by any history of callbacks and closes never leaves a closed exchange in the registry |
| Lifecycle.WellFormedHasRequestToReply | src/OptionsPacket.js:173 | On every well-formed exchange, which includes every reachable one, accept and reject never fail for want of a request |
| Lifecycle.RejectStatusScenarios | src/OptionsPacket.js:186-200 | On a received exchange, reject refuses 250 and 700, replies 301 when given 301, and replies 480 when given 0 or nothing |

## Behaviour one might not expect

Each point below is what the code does, and the lemma that states it.

- **Every final response notifies.** Only `close` sets `closed`. A second final response therefore emits a second `succeeded` or `failed`: after a 200, a late 486 still emits `failed` (`SecondFinalNotifiesAgain`). While nobody calls `close`, there is one notification per non-1xx response, timeout and transport error (`NotificationsPerSignal`).
- **Timeouts and transport errors do not deregister.** After a timeout the exchange is still in `ua.applicants` (`TimeoutKeepsRegistration`).
- **Registration and openness agree in one direction only.** A closed exchange is never registered (`RunPreservesConsistent`, `SendThenAnyHistoryConsistent`). But an exchange whose 2xx has arrived is deregistered while still open (`SuccessDeregistersWithoutClosing`).
- **Incoming exchanges are never registered.** `init_incoming` does not touch `ua.applicants` (`InitIncoming`).
- **The direction is set late.** The constructor sets no direction. `newOptionsPacket` sets it during `send` or `init_incoming`, and until then `accept` and `reject` refuse (`FreshExchange`).
- **The body is attached only if truthy.** `send` validates only that the body is not `undefined`, but attaches it only when truthy. An empty string or `null` passes validation and is not attached (`OutgoingWithBody`).

## Left out

- Event-emitter plumbing (`initEvents`, `on`, and registering `options.eventHandlers`): emissions are modelled as entries in the effect list. The emitter's implementation is not part of this model.
- Re-entrancy: listeners run synchronously inside `emit`, and `request_sender.send()` may call back synchronously. The model treats each operation as running to completion before the next one, so a listener that calls another operation from inside an emit is not modelled.
- `JsSIP.OutgoingRequest` and `JsSIP.RequestSender` are not part of this model. The constructor is a function parameter, and `request_sender.send()` is only the `Transmit` effect.
- `ua.normalizeTarget`, `JsSIP.Utils.sipErrorCause` and the transaction table are parameters. Their logic is not part of this model, and neither are the values of `JsSIP.C.causes`.
- Registry keys: the source keys `ua.applicants` by the string coercion of the object. The model uses a distinct numeric id per exchange, so key collisions between exchanges are not modelled.
- Who replies twice: when the automatic 200 is followed by `accept`/`reject`, the outcome is up to the reply mechanism, which is not part of this model. Both replies appear as effects.
- Error message wording, logging, the unused `data` field, and the constructor's storing of `ua` and the logger.
- JavaScript numbers are integers in the model: NaN, fractions and the exponent form `toString` uses from 10^21 upward are not represented. The exponent form never has three characters, so it could not change a classification.
- Response status codes are integers, which is what the message parser produces.
- `reject`'s `status_code` is an optional integer. A non-numeric value, which JavaScript's relational comparison would coerce, is outside the model; the parameter is documented as a Number.
- `options` arguments are either absent or an object of the documented shape. A falsy `options` behaves like an absent one, as `options || {}` makes it. Truthy non-object values are not modelled.
