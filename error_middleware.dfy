/** The error handler at the end of the request pipeline: it gives an error
    response a status and a JSON body holding the error's message and, outside
    production, its stack trace. */
module ErrorMiddleware {
  import opened Http

  /** A thrown JavaScript `Error`. */
  datatype ThrownError = ThrownError(message: string, stack: string)

  /** The JSON body `{ message, stack }`; `None` is `null`. */
  datatype ErrorBody = ErrorBody(message: string, stack: Option<string>)

  /** `process.env.NODE_ENV === 'production'`; `None` is an unset variable. */
  predicate IsProduction(nodeEnv: Option<string>)
  {
    nodeEnv == Some("production")
  }

  /** The status the handler leaves: an unset (zero) status becomes 500, a set
      one is kept. */
  function FinalStatus(statusCode: nat): (r: nat)
    ensures r != 0
    ensures statusCode != 0 ==> r == statusCode
    ensures statusCode == 0 ==> r == 500
  {
    if statusCode == 0 then 500 else statusCode
  }

  /** The `stack` field: null in production, the error's stack otherwise. */
  function StackField(error: ThrownError, nodeEnv: Option<string>): (r: Option<string>)
    ensures r.None? <==> IsProduction(nodeEnv)
    ensures r.Some? ==> r.value == error.stack
  {
    if IsProduction(nodeEnv) then None else Some(error.stack)
  }

  /** The part of an Express response the handlers and the error handler write. */
  class ServerResponse {
    var statusCode: nat
    var body: Option<ErrorBody>

    constructor ()
      ensures statusCode == 0 && body == None
    {
      statusCode := 0;
      body := None;
    }

    /** `res.status(code)`. */
    method Status(code: nat)
      modifies this`statusCode
      ensures statusCode == code
    {
      statusCode := code;
    }

    /** `errorHandler`. */
    method ErrorHandler(error: ThrownError, nodeEnv: Option<string>)
      modifies this
      ensures statusCode == FinalStatus(old(statusCode))
      ensures body == Some(ErrorBody(error.message, StackField(error, nodeEnv)))
    {
      if statusCode == 0 {
        Status(500);
      }
      body := Some(ErrorBody(error.message, StackField(error, nodeEnv)));
    }
  }

  /** A handler that sets the status of an `HttpError` (when it has one), throws
      it with the given stack trace, and has it reach the error handler: the
      client sees the handler's status, or 500 when the handler set none. */
  method ThrowAndHandle(res: ServerResponse, failure: HttpError, stack: string, nodeEnv: Option<string>)
    requires res.statusCode == 0
    modifies res
    ensures res.statusCode == FinalStatus(failure.status)
    ensures res.body == Some(ErrorBody(failure.message, if IsProduction(nodeEnv) then None else Some(stack)))
  {
    if failure.status != 0 {
      res.Status(failure.status);
    }
    res.ErrorHandler(ThrownError(failure.message, stack), nodeEnv);
  }
}
