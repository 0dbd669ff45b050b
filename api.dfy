/** The response envelope and the errors the controllers throw. */
module Api {
  import opened Wrappers
  import opened Json

  /** `new ApiResponse(statusCode, data, message)`. */
  datatype ApiResponse<T> = ApiResponse(statusCode: int, data: T, message: string) {
    /** The envelope's `success` flag; lib/api/ApiResponse.ts is not part of
        this model and the flag is taken to be "status below 400". */
    predicate Success() {
      statusCode < 400
    }
  }

  /** A thrown value as the handlers inspect it: an `ApiError`, or any other
      error with the properties handlers look at. `errorValues` is
      `Object.values(error.errors)`, `None` when `errors` is missing. */
  datatype Thrown =
    | ApiError(statusCode: int, message: string, errors: Option<Js>)
    | Error(name: string, message: string, code: Option<int>, keyValue: Option<seq<string>>,
            errorValues: Option<seq<Js>>, status: Option<int>)

  /** A controller either returns a value or throws. */
  datatype Outcome<T> = Ok(value: T) | Throws(error: Thrown) {
    predicate IsFailure() { Throws? }
    function PropagateFailure<U>(): Outcome<U>
      requires Throws?
    {
      Throws(error)
    }
    function Extract(): T
      requires Ok?
    {
      value
    }
  }

  /** The error the driver raises when a query value is not an id. */
  const CastError: Thrown := Error("CastError", "Cast to ObjectId failed", None, None, None, None)

  /** The error `new Types.ObjectId(s)` raises for a malformed id. */
  const BsonError: Thrown := Error("BSONError", "input must be a 24 character hex string", None, None, None, None)

  /** The error JavaScript raises when a property of a non-object is used. */
  const TypeError: Thrown := Error("TypeError", "Cannot read properties of null", None, None, None, None)

  /** The rejection of bcrypt's `compare(s, hash)` when the plain text `s`
      is not a string (the stored hash always is). */
  function IllegalArguments(s: Js): (r: Thrown)
    ensures r.Error? && r.name == "Error" && r.code.None?
    ensures r.message == "Illegal arguments: " + TypeOf(s) + ", string"
  {
    Error("Error", "Illegal arguments: " + TypeOf(s) + ", string", None, None, None, None)
  }

  /** The error `req.json()` raises for a body that is not JSON. */
  const SyntaxError: Thrown := Error("SyntaxError", "Unexpected end of JSON input", None, None, None, None)

  /** `const { ... } = await req.json()` for the parsed body (`None` when
      the body is not JSON): the object whose fields are read, or the error
      thrown. Destructuring `null` throws; any other value is read field by
      field, a field it lacks being `undefined`. */
  function JsonBody(body: Option<Js>): (r: Outcome<Js>)
    ensures r.Ok? <==> body.Some? && !body.value.JNull?
    ensures r.Ok? ==> r.value == body.value
    ensures body.None? ==> r == Throws(SyntaxError)
    ensures body == Some(JNull) ==> r == Throws(TypeError)
    ensures r.Throws? ==> r.error.Error? && r.error.name != "ValidationError" && r.error.code.None?
  {
    if body.None? then Throws(SyntaxError)
    else if body.value.JNull? then Throws(TypeError)
    else Ok(body.value)
  }

  function Fail<T>(status: int, message: string): Outcome<T> {
    Throws(ApiError(status, message, None))
  }

  function Respond<T>(status: int, data: T, message: string): Outcome<ApiResponse<T>> {
    Ok(ApiResponse(status, data, message))
  }

  /** The HTTP status an outcome ends in once the route wrapper maps it. */
  function StatusOf<T>(o: Outcome<ApiResponse<T>>): int {
    match o
    case Ok(r) => r.statusCode
    case Throws(ApiError(s, _, _)) => s
    case Throws(e) => 500
  }
}
