/** What an Express handler or middleware produces, reduced to data: a
    response is a status code and a body, and a middleware either hands the
    request on (`next()`), answers it itself, or throws. */
module Http {

  /** `res.status(status).json(body)`; `res.json(body)` alone answers 200. */
  datatype Response<+B> = Response(status: nat, body: B)

  /** The outcome of a middleware. `Crash` is an exception thrown out of a
      synchronous middleware, which Express turns into its default 500
      page. */
  datatype Gate = Next | Deny(status: nat, message: string) | Crash

  /** The message every controller's catch-all answers with. */
  const SomethingWentWrong: string := "Something went wrong"
}
