/**
 * The four static response builders of class HttpResponse
 * (src/presentation/helpers/http-response.js). A response is a status code and a body;
 * the body is an error object or, for `ok`, the caller's data unchanged.
 */
module HttpResponse {
  import opened Wrappers
  import opened Errors

  datatype Body<+T> = ErrorBody(error: HttpError) | DataBody(data: T)

  datatype Response<+T> = Response(statusCode: int, body: Body<T>)

  /** Which of the four builders made a response. */
  datatype Builder = BadRequestBuilder | ServerErrorBuilder | UnauthorizedErrorBuilder | OkBuilder

  /** Reads the builder back from a status code alone; `None` for a code no builder uses. */
  function BuilderOf(statusCode: int): Option<Builder>
  {
    match statusCode
    case 400 => Some(BadRequestBuilder)
    case 500 => Some(ServerErrorBuilder)
    case 401 => Some(UnauthorizedErrorBuilder)
    case 200 => Some(OkBuilder)
    case _ => None
  }

  /**
   * `badRequest(params)`: status 400, and the body is always a NEW MissingParamError
   * built from `params`, even when `params` is itself an error object.
   */
  function BadRequest<T>(params: ParamArg): (r: Response<T>)
    ensures r.statusCode == 400
    ensures r.body.ErrorBody? && r.body.error.MissingParamError? && r.body.error.param == params
  {
    Response(400, ErrorBody(MissingParamError(params)))
  }

  /**
   * Handing badRequest an error object that is already built never yields that object as
   * the body: the body is a new MissingParamError wrapped around it.
   */
  lemma BadRequestWrapsErrorObject<T>(e: HttpError)
    ensures BadRequest<T>(ErrorObject(e)).body.error != e
  {
    var wrapped := MissingParamError(ErrorObject(e));
    assert e < ErrorObject(e) < wrapped;
  }

  /** `serverError()`: takes nothing, answers 500 with a ServerError body. */
  function ServerError<T>(): (r: Response<T>)
    ensures r.statusCode == 500
    ensures r.body == ErrorBody(Errors.ServerError)
  {
    Response(500, ErrorBody(Errors.ServerError))
  }

  /** `unauthorizedError()`: answers 401 with an UnauthorizedError body. */
  function UnauthorizedError<T>(): (r: Response<T>)
    ensures r.statusCode == 401
    ensures r.body == ErrorBody(Errors.UnauthorizedError)
  {
    Response(401, ErrorBody(Errors.UnauthorizedError))
  }

  /** `ok(data)`: answers 200 and hands `data` back as the body, untouched. */
  function Ok<T>(data: T): (r: Response<T>)
    ensures r.statusCode == 200
    ensures r.body.DataBody? && r.body.data == data
  {
    Response(200, DataBody(data))
  }

  /** The response `b` builds (the arguments matter only for badRequest and ok). */
  function Build<T>(b: Builder, params: ParamArg, data: T): Response<T>
  {
    match b
    case BadRequestBuilder => BadRequest(params)
    case ServerErrorBuilder => ServerError()
    case UnauthorizedErrorBuilder => UnauthorizedError()
    case OkBuilder => Ok(data)
  }

  /**
   * The four builders use four distinct status codes, so the status alone tells which
   * builder made a response, whatever their arguments.
   */
  lemma StatusIdentifiesBuilder<T>(b1: Builder, p1: ParamArg, d1: T, b2: Builder, p2: ParamArg, d2: T)
    ensures BuilderOf(Build(b1, p1, d1).statusCode) == Some(b1)
    ensures Build(b1, p1, d1).statusCode == Build(b2, p2, d2).statusCode <==> b1 == b2
  {
  }
}
