# Move-sync controller of a chess.com Stockfish helper, in Dafny

The system is a userscript (`main.js`) that plays against the chess.com computer with
help from a local engine service (`api.py`). When its button is clicked, `main()`
reads the moves shown in the move list, posts them as `{moves}` to the service, and
types the returned `best_move` into the move input, followed by Enter. It then
attaches a `MutationObserver` to the move list. The callback ignores notifications
while a `.game-result` element exists. It flips a boolean `moved` on every
notification it does not ignore and acts only when the flip lands on `false`, so only
every second live notification posts a request. The service's `send_move` route checks that the
body has a list `moves`, hands it to the engine's `think`, and answers
`{"best_move": ...}`, or `{"error": ...}` with status 400 or 500.

The model is functional and has one module per concern:

- `JsText` (`js_text.dfy`) defines ECMAScript's `String.prototype.trim` over the full
  WhiteSpace and LineTerminator set. Its contract pins the result down uniquely.
- `Extraction` (`extraction.dfy`) models a ply as an optional `.icon-font-chess`
  element with an optional `data-figurine` attribute, plus its `innerText`. Both
  copies of the extraction loop are modelled: the one in `start()` and the one in
  the observer callback.
- `Observer` (`observer.dfy`) has the callback as a step function over the `moved`
  toggle, folded over a sequence of notifications. Each notification is a
  `gameOver` flag plus a ply snapshot. This module holds the parity results.
- `Session` (`session.dfy`) covers `main()`: the immediate request from `start()`,
  attaching the observer, the request payload, and the `.then` chain that writes
  into the input. It also joins the request to the route from end to end.
- `Api` (`api.dfy`) models `send_move`. The engine's `think` is a
  parameter that either returns a move or raises.
- `JsonValues` and `Wrappers` hold the shared JSON and Option datatypes.

Some things the code does not do, and a few it does, are worth stating outright:

- The code has no retries, no backoff and no Error state.
- The observer is never disconnected. On a game result the callback only returns.
- The response is used blindly. The HTTP status is never checked, and
  `best_move.uci` is never unwrapped. An error response therefore writes the text
  `undefined` into the input and presses Enter.
- An extraction failure is not skipped per element. A ply without an icon makes the
  whole loop throw. In `start()` this also stops `main()` before the observer is
  attached.
- `start()` does not trim plain-ply text. The observer pass does.

## Model

| member | source | states |
|---|---|---|
| JsText.Trim | main.js:79 | `trim` returns a factor with no whitespace at either end, and everything it removes is ECMAScript whitespace |
| JsText.TrimUnique | main.js:77 | any non-empty factor without edge whitespace that is surrounded only by whitespace is what `trim` returns |
| JsText.TrimFixesTrimmed | main.js:79 | `trim` leaves a string unchanged exactly when it has no edge whitespace, and trimming twice equals trimming once |
| Extraction.Notation | main.js:50-53 | a ply without a `.icon-font-chess` element gives no notation (the null dereference throws). A truthy figurine is written before the trimmed text in both loops. Otherwise `start()` keeps the text untrimmed (line 53) and the observer trims it (line 79), so the observer's notation has no edge whitespace |
| Extraction.Extract | main.js:47-54 | extraction succeeds exactly when every ply has a `.icon-font-chess` element (otherwise the null dereference aborts it), and then it yields one notation per ply |
| Extraction.ExtractAt | main.js:49-54 | extraction keeps document order: the i-th notation is the notation of the i-th ply |
| Extraction.ExtractPointwise | main.js:49-53 | the i-th notation comes from the i-th ply. It is figurine ++ trim(innerText) when `data-figurine` is truthy, and otherwise the raw innerText in `start()` and the trimmed innerText in the observer (main.js:75-79) |
| Extraction.PassesAgreeIff | main.js:47-80 | the `start()` and observer loops give the same list if and only if every ply has a truthy figurine or text without edge whitespace |
| Extraction.NotationPassesAgree | main.js:53 | one ply gets the same notation from both loops iff it has no icon, has a truthy figurine, or has text without edge whitespace (line 53 leaves the text untrimmed, line 79 trims it) |
| Observer.Callback | main.js:69-90 | a notification while a game result shows does nothing and keeps `moved`. Otherwise `moved` flips, and a request is attempted exactly when `moved` was true. A request carries exactly the observer-pass extraction and is sent exactly when extraction succeeds |
| Observer.Observe | main.js:69-91 | the observer handles every delivered notification, one reaction each, and every notification that arrives while a game result shows is ignored |
| Observer.ObserveFinalToggle | main.js:71 | after a stream of notifications, the toggle is its start value flipped once per live (non-game-over) notification |
| Observer.ObserveParity | main.js:70-72 | a notification triggers iff it is live and the toggle it meets (start value XOR parity of the earlier live notifications) is true. A game-over notification is always ignored |
| Observer.EveryOtherLiveNotificationTriggers | main.js:71-72 | starting from `moved == false`, a notification triggers iff it is live and an even number of live notifications, itself included, have arrived: the 2nd, 4th, 6th ... |
| Observer.ConsecutiveLiveNotificationsAlternate | main.js:71-72 | of two live notifications with only game-over notifications between them, exactly one triggers |
| Observer.TriggerCount | main.js:71-72 | with L live notifications, exactly L/2 trigger from a false toggle, and (L+1)/2 from a true one |
| Observer.GameOverIsTransparent | main.js:70 | a game-over notification is ignored and changes nothing after it. The observer stays attached and continues as if it had not arrived |
| Session.Start | main.js:46-65 | `start()` throws iff some ply lacks an icon. Otherwise it posts exactly the initial-pass extraction and leaves `moved == false` |
| Session.Main | main.js:43-94 | `main()` issues its one immediate request before anything else. The observer is attached iff `start()` finished and the move list exists. The observer starts from `moved == false`, and its requests follow in notification order |
| Session.Payload | main.js:58 | the body `JSON.stringify({moves: moves})` describes is an object with the one key `moves`. Its list reads back as exactly the posted moves, and the route's validation accepts it with those moves as JSON strings |
| Session.SessionRequestBound | main.js:67-94 | a session posts at most 1 + L/2 requests for L live notifications |
| Session.Completion | main.js:59-63 | a delivered response with the input present sets the value to `best_move` (or "undefined" when absent) and then dispatches one keydown with keyCode 13. Otherwise nothing happens |
| Session.PostedMovesReachThink | api.py:11-16 | the posted `{moves}` body passes validation, and `think` receives exactly the posted moves. The input then receives think's move, or "undefined" if think raised, followed by Enter |
| Session.StatusIsIgnored | main.js:59-62 | two responses with the same body have the same effect whatever their status |
| Session.ErrorResponseTypesUndefined | main.js:85-88 | any non-200 response of the route still writes "undefined" into the input and presses Enter |
| Api.Validate | api.py:12 | the list is accepted iff the body is an object whose `moves` is a list. An object never raises, a JSON scalar always raises, and a list or string raises iff it contains "moves" |
| Api.SendMove | api.py:9-19 | every response has exactly one of `best_move` and `error`, and `error` goes with status 400 or 500 only. `think` is called exactly on a list `moves`, with that list. A missing or non-list `moves` gets `{"error": "Invalid input"}` with status 400. Status 200 holds iff think returns, and then think's result is the best move. think raising, an unreadable body, or a TypeError from the validation line itself gives 500 with the exception's text |
| Api.ScalarBodyIsServerError | api.py:10-19 | a null, boolean or numeric body gets status 500 with the body `{"error": "argument of type '<type>' is not iterable"}`, and `think` is not called |
| Api.ContainerBodyStatus | api.py:12-13 | a list or string body gets 400, unless it contains "moves", in which case the subscript raises and it gets 500 |
| JsonValues.StringsRoundTrip | main.js:58 | a move list serialized as JSON strings reads back as exactly that list, and a list of JSON strings is the serialization of what it reads back to |

## Left out

- Button creation and `waitForBody` polling (main.js:14-41) are page plumbing with no decision logic.
- Real `fetch`, `MutationObserver` delivery and `KeyboardEvent` dispatch are not modelled. Notifications are an input sequence, each request is an output, and each response is an input to `Session.Completion`. The order in which concurrent responses complete, and which response writes last, is concurrency and is not modelled.
- Repeated button clicks, each of which creates another observer and closure (main.js:30), are not modelled. Only one session is.
- engine.py is not part of this model: `think` is a parameter. It wraps python-chess SAN parsing and the Stockfish binary, both foreign code. engine.py's `think` always returns a string, so the route's bodies are string-valued.
- config.py is not part of this model. It only parses command-line options and prints them.
- Flask app setup, CORS and `app.run` (api.py:1-6, api.py:21-22) are not modelled.
- The JSON text on the wire is not modelled. `JSON.stringify` followed by `request.get_json()` is taken to give back `Session.Payload`, and `response.json()` is taken to give back the body `jsonify` built.
- How the browser computes `innerText` from the ply's markup is not modelled. It is an input string.
- Api.Validate: TypeError texts use the CPython 3.11-3.13 wording. Other Python versions word them differently.
- Session.Completion: the DOMString conversion is modelled only for a string and for `undefined`, because the route never sends any other `best_move`.
