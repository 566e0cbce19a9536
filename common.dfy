/** Shared vocabulary: optional values, document ids, day numbers and the
    HTTP status codes the route handlers answer with. */
module Common {

  /** A value that may be absent (an unset document field, `undefined`). */
  datatype Option<T> = None | Some(value: T)

  /** A document's object id. Ids are handed out by the store and never reused. */
  type Id = nat

  /** A calendar day as a day number: "now - 3 days" is `today - 3`. */
  type Day = int

  const HttpOk := 200
  const HttpCreated := 201
  const HttpResetContent := 205
  const HttpBadRequest := 400
  const HttpUnauthorized := 401
  const HttpForbidden := 403
  const HttpNotFound := 404
  const HttpServerError := 500

  /** `xs[0]`, which is `undefined` on an empty array. */
  function Head<T>(xs: seq<T>): Option<T>
  {
    if |xs| == 0 then None else Some(xs[0])
  }

  /** `xs.slice(1)`, which is empty on an empty array. */
  function Tail<T>(xs: seq<T>): seq<T>
  {
    if |xs| == 0 then [] else xs[1..]
  }

  /** What is left of a list after `Head` and `Tail` is the list itself. */
  lemma HeadTail<T>(xs: seq<T>)
    ensures Head(xs).None? <==> xs == []
    ensures Head(xs).Some? ==> [Head(xs).value] + Tail(xs) == xs
  {
  }
}
