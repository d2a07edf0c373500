/** The JSON envelope every backend route answers with, and the final error
    handler that turns anything a handler throws into a 500 answer. */
module Http {

  /** The text of an error envelope. A failed `zod` parse carries the issue
      list as its message; that text is not modelled, only its presence. */
  datatype Message = Text(text: string) | ValidationIssues

  /** `{ code, data }` or `{ code, error: { message } }` */
  datatype Envelope<+T> = Data(data: T) | Error(message: Message)

  datatype Response<+T> = Response(code: int, body: Envelope<T>)

  /** What a handler can throw: an `Error` object (a failed `zod` parse is
      one) or any other thrown value. */
  datatype Thrown = ErrorObject(message: string) | ZodError | NonError

  function Fail<T>(code: int, text: string): (r: Response<T>)
    ensures r.code == code && r.body == Error(Text(text))
  {
    Response(code, Error(Text(text)))
  }

  /** The `errorHandler` middleware: whatever was thrown, the answer is 500;
      its message is the error's own message, or 'Unexpected error' for a
      thrown value that is not an `Error`. */
  function ErrorHandler<T>(e: Thrown): (r: Response<T>)
    ensures r.code == 500 && r.body.Error?
    ensures e.ErrorObject? ==> r.body.message == Text(e.message)
    ensures e.ZodError? ==> r.body.message == ValidationIssues
    ensures e.NonError? ==> r.body.message == Text("Unexpected error")
  {
    match e
    case ErrorObject(m) => Response(500, Error(Text(m)))
    case ZodError => Response(500, Error(ValidationIssues))
    case NonError => Response(500, Error(Text("Unexpected error")))
  }
}
