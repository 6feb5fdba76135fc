/** The standard envelope of a tool result: a status, a payload on success, an error on failure. */
module McpResponse {
  import opened Wrappers

  datatype Status = SUCCESS | ERROR

  /** A machine-readable code and a human-readable message. */
  datatype McpServerError = McpServerError(code: string, message: string)

  datatype McpServerResponse<T> = McpServerResponse(status: Status, data: Option<T>, error: Option<McpServerError>)

  /** success(data): status SUCCESS, the payload (which may itself be null), no error. */
  function Success<T>(data: Option<T>): (r: McpServerResponse<T>)
    ensures r.status == SUCCESS && r.data == data && r.error.None?
  {
    McpServerResponse(SUCCESS, data, None)
  }

  /** error(code, message): status ERROR, no payload, an error with that code and message. */
  function Error<T>(code: string, message: string): (r: McpServerResponse<T>)
    ensures r.status == ERROR && r.data.None?
    ensures r.error == Some(McpServerError(code, message))
  {
    McpServerResponse(ERROR, None, Some(McpServerError(code, message)))
  }

  /** The shapes the two factories can produce; the constructor being private,
      these are the only responses there are. */
  predicate WellFormed<T>(r: McpServerResponse<T>) {
    match r.status
    case SUCCESS => r.error.None?
    case ERROR => r.data.None? && r.error.Some?
  }

  /** A response is well formed exactly when one of the factories builds it. */
  lemma WellFormedIffFactoryBuilt<T>(r: McpServerResponse<T>)
    ensures WellFormed(r) <==>
      (r == Success(r.data) || (r.error.Some? && r == Error(r.error.value.code, r.error.value.message)))
  {
  }

  /** Every response the factories build is well formed, and the two kinds never coincide. */
  lemma FactoriesWellFormed<T>(data: Option<T>, code: string, message: string)
    ensures WellFormed(Success(data)) && WellFormed(Error<T>(code, message))
    ensures Success(data) != Error<T>(code, message)
  {
  }
}
