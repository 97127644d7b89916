/** One click of the button: `main()` in main.js. It looks up the move input once, runs
    `start()` for an immediate request, then attaches the observer with `run()`. Each
    request posts `{moves}` to the engine service and, when the answer arrives, writes
    its `best_move` into the input and dispatches an Enter keydown. */
module Session {

  import opened Wrappers
  import opened JsonValues
  import opened Extraction
  import opened Observer
  import Api

  /** The page when the button is clicked: the plies in the move list, and whether a
      `.play-controller-moveList` element with a first child exists to be observed. */
  datatype Page = Page(plies: seq<Ply>, moveListPresent: bool)

  /** How `start()` ended: it threw while extracting, or it posted `moves` and left the
      toggle at `moved`. */
  datatype Started = StartThrew | Started(moves: seq<string>, moved: bool)

  /** `start()`: the extraction of the initial pass, one request, then `moved = false`. */
  function Start(plies: seq<Ply>): (r: Started)
    ensures r.StartThrew? <==> exists i :: 0 <= i < |plies| && plies[i].icon.None?
    ensures r.Started? ==> Extract(plies, Initial) == Some(r.moves) && !r.moved
  {
    match Extract(plies, Initial)
    case None => StartThrew
    case Some(ms) => Started(ms, false)
  }

  /** Everything one session did: the move lists it posted, in issue order, whether the
      observer got attached, the callback's reaction to each notification, and the
      final toggle. */
  datatype Run = Run(requests: seq<seq<string>>, observing: bool, reactions: seq<Reaction>, moved: bool)

  /** The move lists the callback posted, in order. */
  function Requests(rs: seq<Reaction>): (r: seq<seq<string>>)
    ensures |r| <= |rs|
  {
    if rs == [] then []
    else (if rs[0].Requested? then [rs[0].moves] else []) + Requests(rs[1..])
  }

  /** `main()` with the notifications the observer receives after it is attached. When
      `start()` throws, `main()` stops before `run()`; when the move list is missing,
      `run()` throws before `observe` and no notification is ever delivered. */
  function Main(page: Page, ns: seq<Notification>): (t: Run)
    // one immediate request precedes everything the observer does
    ensures t.requests != [] <==> Start(page.plies).Started?
    ensures t.requests != [] ==> t.requests[0] == Start(page.plies).moves
    // the observer is attached exactly when start() finished and the move list exists
    ensures t.observing <==> Start(page.plies).Started? && page.moveListPresent
    ensures !t.observing ==> |t.requests| <= 1 && t.reactions == [] && !t.moved
    // once attached, it handles every notification, from the toggle start() left false
    ensures t.observing ==> t.reactions == Observe(false, ns).reactions
    ensures t.observing ==> t.requests[1..] == Requests(t.reactions)
  {
    match Start(page.plies)
    case StartThrew => Run([], false, [], false)
    case Started(ms, moved) =>
      if !page.moveListPresent then Run([ms], false, [], moved)
      else
        var o := Observe(moved, ns);
        Run([ms] + Requests(o.reactions), true, o.reactions, o.moved)
  }

  /** The request body `JSON.stringify({moves: moves})` describes. */
  function Payload(moves: seq<string>): (j: Json)
    // an object with the one key `moves`, holding a list the route reads back as `moves`
    ensures j.JObj? && j.fields.Keys == {"moves"} && j.fields["moves"].JArr?
    ensures AsStrings(j.fields["moves"].items) == Some(moves)
    ensures Api.Validate(j) == Api.Valid(JStrings(moves))
  {
    StringsRoundTrip(moves, []);
    JObj(map["moves" := JArr(JStrings(moves))])
  }

  lemma {:induction false} RequestsCountRequested(rs: seq<Reaction>)
    ensures |Requests(rs)| <= CountTriggered(rs)
  {
    if rs != [] {
      RequestsCountRequested(rs[1..]);
    }
  }

  /** A session posts at most one request per two live notifications, plus the one
      from `start()`. */
  lemma SessionRequestBound(page: Page, ns: seq<Notification>)
    ensures |Main(page, ns).requests| <= 1 + CountLive(ns) / 2
  {
    var t := Main(page, ns);
    if t.observing {
      TriggerCount(false, ns);
      RequestsCountRequested(t.reactions);
      assert |t.requests| == 1 + |t.requests[1..]|;
    }
  }

  /** A keystroke or value assignment on the move input. */
  datatype Effect = SetValue(value: string) | KeyDown(keyCode: int)

  const EnterKeyCode := 13

  /** How a request ended on the network: no answer, or the engine service's response. */
  datatype Delivery = NetworkFailed | Delivered(response: Api.Response)

  /** The `.then` chain after `fetch`: `cchelper.value = data.best_move`, then an Enter
      keydown. The status is never looked at. A body without `best_move` yields
      `undefined`, which the input's value setter turns into the text "undefined". A
      missing input makes the assignment throw, so nothing happens; so does a failed fetch. */
  function Completion(inputPresent: bool, d: Delivery): (effects: seq<Effect>)
    ensures effects != [] <==> inputPresent && d.Delivered?
    ensures effects != [] ==> |effects| == 2 && effects[1] == KeyDown(EnterKeyCode)
    ensures effects != [] && "best_move" in d.response.body ==> effects[0] == SetValue(d.response.body["best_move"])
    ensures effects != [] && "best_move" !in d.response.body ==> effects[0] == SetValue("undefined")
  {
    if !inputPresent || d.NetworkFailed? then []
    else
      var body := d.response.body;
      var value := if "best_move" in body then body["best_move"] else "undefined";
      [SetValue(value), KeyDown(EnterKeyCode)]
  }

  /** The request and the route fit together: a posted move list passes validation, the
      engine's `think` receives exactly those moves as JSON strings, and what the input
      receives is the engine's move, or "undefined" when `think` raised. Either way Enter
      is pressed. */
  lemma PostedMovesReachThink(moves: seq<string>, think: seq<Json> -> Api.ThinkResult)
    ensures var h := Api.SendMove(Api.Parsed(Payload(moves)), think);
            && h.thinkInput == Some(JStrings(moves))
            && AsStrings(h.thinkInput.value) == Some(moves)
            && h.response.status in {Api.StatusOk, Api.StatusServerError}
            && Completion(true, Delivered(h.response))
               == [SetValue(if think(JStrings(moves)).Returned? then think(JStrings(moves)).bestMove
                            else "undefined"),
                   KeyDown(EnterKeyCode)]
  {
    StringsRoundTrip(moves, []);
  }

  /** The response is used blindly: responses with the same body have the same effect
      whatever their status, so a 400 or 500 still types "undefined" and presses Enter. */
  lemma StatusIsIgnored(inputPresent: bool, r1: Api.Response, r2: Api.Response)
    requires r1.body == r2.body
    ensures Completion(inputPresent, Delivered(r1)) == Completion(inputPresent, Delivered(r2))
  {
  }

  /** An error response of the route, whatever its status, still drives the input. */
  lemma ErrorResponseTypesUndefined(req: Api.RequestData, think: seq<Json> -> Api.ThinkResult)
    requires Api.SendMove(req, think).response.status != Api.StatusOk
    ensures Completion(true, Delivered(Api.SendMove(req, think).response))
            == [SetValue("undefined"), KeyDown(EnterKeyCode)]
  {
  }
}
