/** The `send_move` route of the engine service: it validates the posted body, hands the
    move list to the engine's `think`, and maps every outcome to a JSON response. */
module Api {

  import opened Wrappers
  import opened JsonValues

  const StatusOk := 200
  const StatusBadRequest := 400
  const StatusServerError := 500
  const InvalidInput := "Invalid input"

  /** What `request.get_json()` produced: a parsed document, or the exception it raised
      (unreadable JSON, wrong content type), carried as the text `str(e)` gives it. */
  datatype RequestData = Parsed(data: Json) | Unreadable(message: string)

  /** The outcome of the engine's `think`, which is not modelled: it returns a move
      string or raises an exception whose `str(e)` is `message`. */
  datatype ThinkResult = Returned(bestMove: string) | Raised(message: string)

  /** A response: the status code and the JSON object `jsonify` wrote. Both bodies the
      route can build map string keys to string values. */
  datatype Response = Response(status: int, body: map<string, string>)

  /** The response together with the argument `think` was called with, if it was. */
  datatype Handled = Handled(response: Response, thinkInput: Option<seq<Json>>)

  /** Python's name for the type a parsed JSON value has. */
  function PyTypeName(j: Json): string {
    match j
    case JNull => "NoneType"
    case JBool(_) => "bool"
    case JInt(_) => "int"
    case JFloat(_) => "float"
    case JStr(_) => "str"
    case JArr(_) => "list"
    case JObj(_) => "dict"
  }

  /** Python's `needle in hay` on two strings: `needle` occurs as a factor of `hay`. */
  predicate HasFactor(hay: string, needle: string)
    decreases |hay|
  {
    |needle| <= |hay| && (hay[..|needle|] == needle || HasFactor(hay[1..], needle))
  }

  /** How the validation line `"moves" not in data or not isinstance(data["moves"], list)`
      ends: the body is rejected, the list is accepted, or a TypeError escapes. */
  datatype Validation = Invalid | Valid(moves: seq<Json>) | Raises(message: string)

  function Validate(data: Json): (v: Validation)
    ensures v.Valid? <==> data.JObj? && "moves" in data.fields && data.fields["moves"].JArr?
    ensures v.Valid? ==> data.fields["moves"] == JArr(v.moves)
    ensures data.JObj? ==> !v.Raises?
    ensures data.JNull? || data.JBool? || data.JInt? || data.JFloat? ==> v.Raises?
    ensures data.JArr? ==> (v.Raises? <==> JStr("moves") in data.items)
    ensures data.JStr? ==> (v.Raises? <==> HasFactor(data.s, "moves"))
  {
    match data
    // a dict: key lookup, then the list check
    case JObj(fields) =>
      if "moves" !in fields then Invalid
      else if fields["moves"].JArr? then Valid(fields["moves"].items)
      else Invalid
    // a list: membership test, and `data["moves"]` raises if "moves" is an element
    case JArr(items) =>
      if JStr("moves") !in items then Invalid
      else Raises("list indices must be integers or slices, not str")
    // a str: substring test, and `data["moves"]` raises if "moves" occurs in it
    case JStr(s) =>
      if !HasFactor(s, "moves") then Invalid
      else Raises("string indices must be integers, not 'str'")
    // None, bool and numbers do not support `in` at all
    case _ => Raises("argument of type '" + PyTypeName(data) + "' is not iterable")
  }

  /** The body `jsonify({"error": ...})` builds, with its status. */
  function ErrorResponse(status: int, message: string): Response {
    Response(status, map["error" := message])
  }

  /** `send_move`: the whole body of the route, with `think` as a parameter. */
  function SendMove(req: RequestData, think: seq<Json> -> ThinkResult): (h: Handled)
    // every response carries exactly one of the two keys, and which one follows the status
    ensures h.response.body.Keys == {"best_move"} || h.response.body.Keys == {"error"}
    ensures "best_move" in h.response.body <==> h.response.status == StatusOk
    ensures "error" in h.response.body <==> h.response.status in {StatusBadRequest, StatusServerError}
    // think runs exactly when the body is an object whose "moves" is a list, and on that list
    ensures h.thinkInput.Some? <==>
              req.Parsed? && req.data.JObj? && "moves" in req.data.fields && req.data.fields["moves"].JArr?
    ensures h.thinkInput.Some? ==> req.data.fields["moves"] == JArr(h.thinkInput.value)
    // a missing or non-list "moves" on an object gets the fixed 400 and never reaches think
    ensures req.Parsed? && req.data.JObj? && h.thinkInput.None? ==>
              h.response == Response(StatusBadRequest, map["error" := InvalidInput])
    ensures h.response.status == StatusBadRequest ==>
              h.thinkInput.None? && h.response.body["error"] == InvalidInput
    // success only when think returns, and then its result is the best move
    ensures h.response.status == StatusOk <==> h.thinkInput.Some? && think(h.thinkInput.value).Returned?
    ensures h.response.status == StatusOk ==> h.response.body["best_move"] == think(h.thinkInput.value).bestMove
    // an exception from think or from reading the body becomes a 500 carrying its text
    ensures h.thinkInput.Some? && think(h.thinkInput.value).Raised? ==>
              h.response == Response(StatusServerError, map["error" := think(h.thinkInput.value).message])
    ensures req.Unreadable? ==> h.response == Response(StatusServerError, map["error" := req.message])
    // the validation line itself can raise; its TypeError text becomes the 500 body
    ensures req.Parsed? && Validate(req.data).Raises? ==>
              h.response == ErrorResponse(StatusServerError, Validate(req.data).message) && h.thinkInput.None?
  {
    match req
    case Unreadable(message) => Handled(ErrorResponse(StatusServerError, message), None)
    case Parsed(data) =>
      match Validate(data)
      case Invalid => Handled(ErrorResponse(StatusBadRequest, InvalidInput), None)
      case Raises(message) => Handled(ErrorResponse(StatusServerError, message), None)
      case Valid(moves) =>
        match think(moves)
        case Returned(best) => Handled(Response(StatusOk, map["best_move" := best]), Some(moves))
        case Raised(message) => Handled(ErrorResponse(StatusServerError, message), Some(moves))
  }

  /** A null body, or any other JSON scalar, makes the membership test raise, so the
      route answers 500 with the TypeError's text and never calls think. */
  lemma ScalarBodyIsServerError(data: Json, think: seq<Json> -> ThinkResult)
    requires data.JNull? || data.JBool? || data.JInt? || data.JFloat?
    ensures SendMove(Parsed(data), think).response
            == ErrorResponse(StatusServerError, "argument of type '" + PyTypeName(data) + "' is not iterable")
    ensures SendMove(Parsed(data), think).thinkInput.None?
  {
  }

  /** A list or string body is rejected with 400 unless it contains "moves", in which
      case the subscript `data["moves"]` raises and the answer is 500. */
  lemma {:induction false} ContainerBodyStatus(data: Json, think: seq<Json> -> ThinkResult)
    requires data.JArr? || data.JStr?
    ensures var contains := if data.JArr? then JStr("moves") in data.items else HasFactor(data.s, "moves");
            SendMove(Parsed(data), think).response.status
            == (if contains then StatusServerError else StatusBadRequest)
  {
  }
}
