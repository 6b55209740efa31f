/** The response builders of utils/errorHandler.js. Bodies are JSON objects
    whose members keep the order in which the source writes them. The
    process environment is a parameter: `env` is `NODE_ENV`, `None` when it
    is unset. */
module ErrorHandler {
  import opened Common
  import opened Http

  /** What the builders read from a thrown error. */
  datatype ThrownError = ThrownError(message: string, stack: string)

  /** One entry of a Mongoose ValidationError's `errors` object: the path
      and the validator's message. */
  datatype ValidatorError = ValidatorError(path: string, message: string)

  /** `handleError(res, error, message, statusCode)`: `None` for an argument
      left out, which then takes its default. */
  function HandleError(error: ThrownError, message: Option<string>, statusCode: Option<nat>, env: Option<string>): (r: Response<Json>)
    ensures r.status == (if statusCode.Some? then statusCode.value else 500)
    ensures Member(r.body, "success") == Some(JBool(false))
    ensures Member(r.body, "message") == Some(JStr(if message.Some? then message.value else SomethingWentWrong))
  {
    var status := if statusCode.Some? then statusCode.value else 500;
    var text := JStr(if message.Some? then message.value else SomethingWentWrong);
    if env == Some("development") then
      Response(status, JObj([("message", text), ("success", JBool(false)),
                             ("error", JStr(error.message)), ("stack", JStr(error.stack))]))
    else
      Response(status, JObj([("message", text), ("success", JBool(false))]))
  }

  /** The thrown error's message and stack are in the body exactly when
      `NODE_ENV` is "development". */
  lemma DetailsOnlyInDevelopment(error: ThrownError, message: Option<string>, statusCode: Option<nat>, env: Option<string>)
    ensures var body := HandleError(error, message, statusCode, env).body;
      if env == Some("development") then
        Member(body, "error") == Some(JStr(error.message)) && Member(body, "stack") == Some(JStr(error.stack))
      else
        Member(body, "error") == None && Member(body, "stack") == None
  {
  }

  /** The messages of the entries, in entry order. */
  function Messages(errors: seq<ValidatorError>): (r: seq<Json>)
    ensures |r| == |errors|
    ensures forall i :: 0 <= i < |errors| ==> r[i] == JStr(errors[i].message)
  {
    if errors == [] then [] else [JStr(errors[0].message)] + Messages(errors[1..])
  }

  /** `handleValidationError(res, error)`. */
  function HandleValidationError(errors: seq<ValidatorError>): (r: Response<Json>)
    ensures r.status == 400
    ensures Member(r.body, "message") == Some(JStr("Validation failed"))
    ensures Member(r.body, "success") == Some(JBool(false))
    ensures Member(r.body, "errors").Some? && Member(r.body, "errors").value.JArr?
    ensures var list := Member(r.body, "errors").value.items;
      |list| == |errors| && forall i :: 0 <= i < |errors| ==> list[i] == JStr(errors[i].message)
  {
    Response(400, JObj([("message", JStr("Validation failed")),
                        ("errors", JArr(Messages(errors))),
                        ("success", JBool(false))]))
  }

  /** `handleNotFoundError(res, resource)`. */
  function HandleNotFoundError(resource: Option<string>): (r: Response<Json>)
    ensures r.status == 404
    ensures Member(r.body, "message") == Some(JStr((if resource.Some? then resource.value else "Resource") + " not found"))
    ensures Member(r.body, "success") == Some(JBool(false))
  {
    Response(404, JObj([("message", JStr((if resource.Some? then resource.value else "Resource") + " not found")),
                        ("success", JBool(false))]))
  }

  /** `handleUnauthorizedError(res, message)`. */
  function HandleUnauthorizedError(message: Option<string>): (r: Response<Json>)
    ensures r.status == 401
    ensures Member(r.body, "message") == Some(JStr(if message.Some? then message.value else "Unauthorized access"))
    ensures Member(r.body, "success") == Some(JBool(false))
  {
    Response(401, JObj([("message", JStr(if message.Some? then message.value else "Unauthorized access")),
                        ("success", JBool(false))]))
  }
}
