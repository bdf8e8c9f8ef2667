/**
 * The middleware that switches off the writing HTTP methods: a request whose
 * method is one of the listed ones is rejected with 403, every other request
 * is passed on by calling `next` once.
 */
module DisableMethods {
  import opened Http

  const DISABLED_METHODS: seq<string> := ["POST", "PATCH", "DELETE"]

  datatype Outcome =
    | Rejected(error: HttpError)   // ForbiddenException thrown; `next` is not called
    | Forwarded                    // `next()` called once

  /**
   * `use`: the decision depends only on exact, case-sensitive membership of
   * the method in the list.
   */
  function Use(httpMethod: string): (o: Outcome)
    ensures o.Forwarded? <==> httpMethod != "POST" && httpMethod != "PATCH" && httpMethod != "DELETE"
    ensures o.Rejected? ==> o.error == HttpError(FORBIDDEN, "Method " + httpMethod + " is not allowed.")
  {
    if httpMethod in DISABLED_METHODS then Rejected(HttpError(FORBIDDEN, "Method " + httpMethod + " is not allowed."))
    else Forwarded
  }

  /** Reads pass, and so do PUT and a lower-case "post"; DELETE is refused with its own name in the message. */
  lemma ReadsAndPutPass()
    ensures Use("GET") == Forwarded && Use("HEAD") == Forwarded && Use("PUT") == Forwarded
    ensures Use("post") == Forwarded
    ensures Use("DELETE") == Rejected(HttpError(FORBIDDEN, "Method DELETE is not allowed."))
  {
  }
}
