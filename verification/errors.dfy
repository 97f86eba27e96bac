/**
 * The error classes of the presentation layer (src/presentation/errors).
 * Their class files are not part of this model; only which class an error is,
 * and the argument it was built from, are modelled, not its message text.
 */
module Errors {

  /** An error object as it appears in a response body. */
  datatype HttpError =
    | MissingParamError(param: ParamArg)
    | InvalidParamError(paramName: string)
    | ServerError
    | UnauthorizedError

  /**
   * The argument a `MissingParamError` is constructed from. JavaScript lets any value
   * be passed; the router passes either a parameter name or an error object it has
   * already built.
   */
  datatype ParamArg =
    | ParamName(name: string)
    | ErrorObject(error: HttpError)
}
