/** The route wrapper `asynchandler` (lib/api/asyncHandler.ts): it turns what
    a controller returns, or the error it throws, into an HTTP reply. */
module AsyncHandler {
  import opened Wrappers
  import opened Json
  import opened Api

  /** An HTTP reply: a status and a JSON body. */
  datatype Response = Response(status: int, body: Obj)

  /** What a controller hands back: an `ApiResponse`, or a reply it built
      itself. */
  datatype Returned = Api(resp: ApiResponse<Js>) | Raw(response: Response)

  /** The driver's error code for a unique-index violation. */
  const DuplicateKey: int := 11000

  /** The error `Object.values(undefined)` raises. */
  const NoErrorsObject: Thrown :=
    Error("TypeError", "Cannot convert undefined or null to object", None, None, None, None)

  /** A reply built from an error is always marked as a failure. */
  predicate Failed(r: Response) {
    "success" in r.body && r.body["success"] == JBool(false)
  }

  /** The body field `k` is the string `s`. */
  predicate Says(r: Response, k: string, s: string) {
    k in r.body && r.body[k] == JStr(s)
  }

  /** A duplicate-key error: code 11000 together with a `keyValue`. */
  predicate IsDuplicate(e: Thrown) {
    e.Error? && e.code == Some(DuplicateKey) && e.keyValue.Some?
  }

  /** A validation error that is not also a duplicate-key error. */
  predicate IsValidation(e: Thrown) {
    e.Error? && !IsDuplicate(e) && e.name == "ValidationError"
  }

  /** `Object.keys(keyValue)[0]` as a template literal spells it. */
  function FirstKey(keys: seq<string>): (r: string)
    ensures keys != [] ==> r == keys[0]
    ensures keys == [] ==> r == "undefined"
  {
    if keys == [] then "undefined" else keys[0]
  }

  /** `values.map(val => val.message)`; a missing message is serialised as
      `null`. */
  function MessagesOf(values: seq<Js>): (r: seq<Js>)
    ensures |r| == |values|
    ensures forall i :: 0 <= i < |values| ==>
              (if Get(values[i], "message").Some? then r[i] == Get(values[i], "message").value else r[i] == JNull)
  {
    seq(|values|, i requires 0 <= i < |values| => Get(values[i], "message").GetOr(JNull))
  }

  /** The catch block (lines 45-84). The validation branch reads
      `Object.values(error.errors)`, which throws when the error has no
      `errors`; that error escapes the wrapper. */
  function Catch(e: Thrown): (r: Outcome<Response>)
    ensures r.Throws? <==> IsValidation(e) && e.errorValues.None?
    ensures r.Throws? ==> r.error == NoErrorsObject
    ensures r.Ok? ==> Failed(r.value)
    ensures e.ApiError? ==>
              r.Ok? && r.value.status == e.statusCode && Says(r.value, "message", e.message)
              && "errors" in r.value.body
              && r.value.body["errors"] == (if e.errors.Some? && Truthy(e.errors.value) then e.errors.value else JArr([]))
    ensures IsDuplicate(e) ==>
              r.Ok? && r.value.status == 409
              && Says(r.value, "message", "Duplicate value entered for " + FirstKey(e.keyValue.value) + ".")
    ensures IsValidation(e) && e.errorValues.Some? ==>
              r.Ok? && r.value.status == 400 && Says(r.value, "message", "Validation Error")
              && "errors" in r.value.body && r.value.body["errors"] == JArr(MessagesOf(e.errorValues.value))
    ensures e.Error? && !IsDuplicate(e) && !IsValidation(e) ==>
              r.Ok? && r.value.status == 500
              && Says(r.value, "message", if e.message != "" then e.message else "Internal Server Error")
  {
    match e
    case ApiError(status, message, errors) =>
      var list := if errors.Some? && Truthy(errors.value) then errors.value else JArr([]);
      Ok(Response(status, map["success" := JBool(false), "message" := JStr(message), "errors" := list]))
    case Error(name, message, code, keyValue, errorValues, _) =>
      if code == Some(DuplicateKey) && keyValue.Some? then
        Ok(Response(409, map["success" := JBool(false),
                             "message" := JStr("Duplicate value entered for " + FirstKey(keyValue.value) + ".")]))
      else if name == "ValidationError" then
        if errorValues.None? then Throws(NoErrorsObject)
        else
          Ok(Response(400, map["success" := JBool(false), "message" := JStr("Validation Error"),
                               "errors" := JArr(MessagesOf(errorValues.value))]))
      else
        Ok(Response(500, map["success" := JBool(false),
                             "message" := JStr(if message != "" then message else "Internal Server Error")]))
  }

  /** `asynchandler(handler)(req)` for a handler that returned or threw `o`:
      an `ApiResponse` becomes `{ success, message, data }` under its own
      status, any other reply passes through untouched, and an error goes to
      `Catch`. */
  function Handle(o: Outcome<Returned>): (r: Outcome<Response>)
    ensures o.Ok? && o.value.Raw? ==> r == Ok(o.value.response)
    ensures o.Ok? && o.value.Api? ==>
              var a := o.value.resp;
              r.Ok? && r.value.status == a.statusCode && Says(r.value, "message", a.message)
              && "success" in r.value.body && r.value.body["success"] == JBool(a.Success())
              && "data" in r.value.body && r.value.body["data"] == a.data
    ensures o.Throws? ==> r == Catch(o.error)
  {
    match o
    case Ok(Raw(response)) => Ok(response)
    case Ok(Api(a)) =>
      Ok(Response(a.statusCode, map["success" := JBool(a.Success()), "message" := JStr(a.message), "data" := a.data]))
    case Throws(e) => Catch(e)
  }

  /** A controller outcome seen by the wrapper. */
  function Lift(o: Outcome<ApiResponse<Js>>): Outcome<Returned> {
    match o
    case Ok(a) => Ok(Api(a))
    case Throws(e) => Throws(e)
  }

  /** Apart from duplicate-key and validation errors, the reply's status is
      the status the rest of the model assigns to an outcome, and the
      `success` flag is set exactly when that status is below 400 unless an
      `ApiError` carries a success status. */
  lemma HandleAgreesWithStatusOf(o: Outcome<ApiResponse<Js>>)
    requires o.Throws? ==> !IsDuplicate(o.error) && !IsValidation(o.error)
    ensures Handle(Lift(o)).Ok?
    ensures Handle(Lift(o)).value.status == StatusOf(o)
    ensures o.Ok? ==> (Handle(Lift(o)).value.body["success"] == JBool(true) <==> StatusOf(o) < 400)
    ensures o.Throws? ==> Failed(Handle(Lift(o)).value)
  {
  }

  /** The cases are tried in order: an error that is both a duplicate-key
      error and named "ValidationError" is answered as a duplicate, and the
      only statuses an error other than an `ApiError` can produce are 409,
      400 and 500. */
  lemma ErrorOrder(e: Thrown)
    requires e.Error?
    ensures e.code == Some(DuplicateKey) && e.keyValue.Some? && e.name == "ValidationError" ==>
              Catch(e).Ok? && Catch(e).value.status == 409
    ensures Catch(e).Ok? ==> Catch(e).value.status in {409, 400, 500}
  {
  }
}
