/**
 * The Express error middleware of backend/middleware/errorHandler.js: the status
 * and the JSON body sent for an error that a handler passed to `next`.
 */
module ErrorHandler {
  import opened Common

  /** The `{ success, message, stack }` body; `stack` is undefined outside development. */
  datatype ErrorBody = ErrorBody(status: int, success: bool, message: string, stack: Option<string>)

  /**
   * `errorHandler(err, req, res, next)`: a status still at the default 200 is
   * reported as 500, any other status set before the error is kept; the message
   * falls back to "Server Error" when `err.message` is empty or missing.
   */
  function HandleError(statusCode: int, errMessage: Option<string>, errStack: Option<string>, nodeEnv: Option<string>)
    : (r: ErrorBody)
    ensures r.status == (if statusCode == 200 then 500 else statusCode)
    ensures r.status != 200
    ensures !r.success
    ensures Truthy(errMessage) ==> r.message == errMessage.value
    ensures !Truthy(errMessage) ==> r.message == "Server Error"
    ensures r.message != ""
    ensures r.stack.Some? ==> nodeEnv == Some("development") && Some(r.stack.value) == errStack
    ensures nodeEnv == Some("development") ==> r.stack == errStack
  {
    ErrorBody(
      if statusCode == 200 then 500 else statusCode,
      false,
      if Truthy(errMessage) then errMessage.value else "Server Error",
      if nodeEnv == Some("development") then errStack else None)
  }
}
