/**
 * The exception hierarchy of the client. `RMSAPIError` and its five subclasses are
 * the constructors up to `ConnectionError`; the Python built-in exceptions the
 * library raises (`ValueError`, `RuntimeError`, and the `AttributeError`, `TypeError`
 * and `KeyError` that duck typing produces on malformed data) are the rest.
 *
 * A `message` is a Json value because the client copies the response body's
 * `"message"` field into it whatever its type. Python's `None` is `Null`.
 */
module Exceptions {
  import opened Wrappers
  import opened Json

  datatype Error =
    | ApiError(message: Json, statusCode: Option<int> := None, responseData: Json := Null)
    | AuthenticationError(message: Json := Str("Authentication failed"), responseData: Json := Null)
    | PermissionError(message: Json := Str("Permission denied"), responseData: Json := Null)
    | NotFoundError(message: Json := Str("Resource not found"), responseData: Json := Null)
    | ValidationError(message: Json := Str("Validation error"), responseData: Json := Null, errorsArg: Json := Null)
    | ConnectionError(message: Json := Str("Connection error"), originalError: Option<string> := None)
    | ValueError(text: string)
    | RuntimeError(text: string)
    | AttributeError(text: string)
    | TypeError(text: string)
    | KeyError(text: string)
  {
    /** `isinstance(e, RMSAPIError)`. */
    predicate IsRmsError()
    {
      !(ValueError? || RuntimeError? || AttributeError? || TypeError? || KeyError?)
    }

    /** `e.status_code`: fixed by each subclass, given explicitly to the base class, absent on a connection error. */
    function StatusCode(): Option<int>
      requires IsRmsError()
    {
      match this
      case ApiError(_, code, _) => code
      case AuthenticationError(_, _) => Some(401)
      case PermissionError(_, _) => Some(403)
      case NotFoundError(_, _) => Some(404)
      case ValidationError(_, _, _) => Some(422)
      case ConnectionError(_, _) => None
    }

    /** `e.response_data` (a connection error carries none). */
    function ResponseData(): Json
      requires IsRmsError()
    {
      if ConnectionError? then Null else responseData
    }

    /** `e.errors` of a validation error: the list it was given, or `[]` when that was falsy. */
    function Errors(): Json
      requires ValidationError?
    {
      if Truthy(errorsArg) then errorsArg else List([])
    }

    /** `str(e)`. */
    function Describe(): string
    {
      if IsRmsError() then PyStr(message) else text
    }
  }

  /** Every subclass fixes its status code whatever it is constructed with; a connection error has none and keeps its cause. */
  lemma SubclassStatusCodes(message: Json, data: Json, errors: Json, cause: Option<string>)
    ensures AuthenticationError(message, data).StatusCode() == Some(401)
    ensures PermissionError(message, data).StatusCode() == Some(403)
    ensures NotFoundError(message, data).StatusCode() == Some(404)
    ensures ValidationError(message, data, errors).StatusCode() == Some(422)
    ensures ConnectionError(message, cause).StatusCode() == None
    ensures ConnectionError(message, cause).ResponseData() == Null
    ensures ConnectionError(message, cause).originalError == cause
  {
  }

  /** Constructed without arguments, each subclass carries its default message. */
  lemma DefaultMessages()
    ensures AuthenticationError().Describe() == "Authentication failed"
    ensures PermissionError().Describe() == "Permission denied"
    ensures NotFoundError().Describe() == "Resource not found"
    ensures ValidationError().Describe() == "Validation error"
    ensures ConnectionError().Describe() == "Connection error"
  {
  }

  /** `errors or []`: a validation error's errors are never falsy, and a non-empty list is kept as given. */
  lemma ValidationErrorsNormalised(message: Json, data: Json, errors: Json)
    ensures ValidationError(message, data, errors).Errors() != Null
    ensures Truthy(errors) ==> ValidationError(message, data, errors).Errors() == errors
    ensures !Truthy(errors) ==> ValidationError(message, data, errors).Errors() == List([])
  {
  }

  /** The base error keeps the message, status code and response data it is given. */
  lemma StoredVerbatim(message: Json, status: Option<int>, data: Json)
    ensures ApiError(message, status, data).Describe() == PyStr(message)
    ensures ApiError(message, status, data).StatusCode() == status
    ensures ApiError(message, status, data).ResponseData() == data
  {
  }
}
