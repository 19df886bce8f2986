/** A value that may be absent: `undefined`/`null` on the JavaScript side,
    a missing query parameter or a document that `findById` did not find. */
module Wrappers {

  datatype Option<+T> = None | Some(value: T) {

    /** `x || fallback` / `x ?? fallback` for a field that is either present or absent. */
    function GetOr(fallback: T): T {
      match this
      case Some(v) => v
      case None => fallback
    }
  }

  /** `x || current` for a text field: an absent or empty value keeps the current one. */
  function TextOr(x: Option<string>, current: string): (r: string)
    ensures x.Some? && x.value != "" ==> r == x.value
    ensures x.None? || x.value == "" ==> r == current
  {
    if x.Some? && x.value != "" then x.value else current
  }
}

/** The HTTP statuses the Express controllers answer with. */
module Http {

  datatype Status =
    | Ok           // 200
    | Created      // 201
    | BadRequest   // 400
    | Unauthorized // 401
    | NotFound     // 404
    | ServerError  // 500: a thrown error, here only a failed schema validation on save

  function Code(s: Status): (code: int)
    ensures 200 <= code < 600
    ensures s.Ok? || s.Created? <==> code < 300
  {
    match s
    case Ok => 200
    case Created => 201
    case BadRequest => 400
    case Unauthorized => 401
    case NotFound => 404
    case ServerError => 500
  }
}
