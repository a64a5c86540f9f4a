/**
 * The last two middlewares of the HTTP application (src/app.ts:33-78): the
 * fallback for unmatched routes and the error handler that turns a thrown
 * value into a status code and an error tag.
 *
 * A thrown value is described by what the handler inspects: whether it has
 * a `send` method, whether it is an `Error`, its message, and its `code`
 * when that is a string.  Messages in the bodies are not modelled.
 */
module ErrorHandlers {
  import opened Wrappers
  import opened InvoiceRepo

  datatype Thrown =
    /** An object with a `send` method, such as the service's error responses; `status` is what it sends. */
    | Responder(status: int)
    /** An `Error`, with its message and its `code` when that is a string. */
    | ErrorObject(message: string, code: Option<string>)
    /** Anything else: a thrown string, `null`, a plain object. */
    | Other

  datatype ErrorTag = DuplicateError | NotFoundError | BusinessError | InternalServerError

  /** The status code sent and, when the handler writes the body itself, its error tag. */
  datatype Reply = Reply(status: int, tag: Option<ErrorTag>)

  /** `isPrismaError`: an `Error` whose `code` is a string. */
  predicate IsPrismaError(e: Thrown) {
    e.ErrorObject? && e.code.Some?
  }

  /** The response to a request that no route matched. */
  function NotFoundFallback(): (r: Reply)
    ensures r.status == 404 && r.tag.None?
  {
    Reply(404, None)
  }

  /** The error handler's chain of rules. */
  function HandleError(e: Thrown): (r: Reply)
    ensures e.Responder? ==> r == Reply(e.status, None)
    ensures !e.Responder? ==> r.tag.Some? && r.status in {409, 404, 400, 500}
  {
    if e.Responder? then Reply(e.status, None)
    else if IsPrismaError(e) && e.code.value == "P2002" then Reply(409, Some(DuplicateError))
    else if IsPrismaError(e) && e.code.value == "P2025" then Reply(404, Some(NotFoundError))
    else if e.ErrorObject? && e.message != "" then Reply(400, Some(BusinessError))
    else Reply(500, Some(InternalServerError))
  }

  /** The two Prisma codes with their own status, whatever the message. */
  lemma PrismaCodes(message: string)
    ensures HandleError(ErrorObject(message, Some("P2002"))) == Reply(409, Some(DuplicateError))
    ensures HandleError(ErrorObject(message, Some("P2025"))) == Reply(404, Some(NotFoundError))
  {
  }

  /**
   * Any other `Error`, a Prisma error with another code included, is a
   * business error exactly when its message is not empty, and an internal
   * error otherwise.
   */
  lemma OtherErrors(message: string, code: Option<string>)
    requires code != Some("P2002") && code != Some("P2025")
    ensures message != "" <==> HandleError(ErrorObject(message, code)) == Reply(400, Some(BusinessError))
    ensures message == "" <==> HandleError(ErrorObject(message, code)) == Reply(500, Some(InternalServerError))
  {
  }

  /** A value that is not an `Error` and cannot send itself is always an internal error. */
  lemma NonErrorsAreInternal()
    ensures HandleError(Other) == Reply(500, Some(InternalServerError))
  {
  }

  /** The status of an `ErrorResponse` subclass. */
  function ResponseStatus(f: Failure): (status: int)
    requires !f.PrismaError?
    ensures f.BadRequest? ==> status == 400
    ensures f.NotFound? ==> status == 404
  {
    if f.BadRequest? then 400 else 404
  }

  /**
   * What reaches the handler when an invoice operation fails: the service's
   * refusals are responses that send themselves, and a repository failure is
   * a Prisma error whose message is `message`.
   */
  function ThrownOf(f: Failure, message: string): (e: Thrown)
    ensures f.PrismaError? ==> e == ErrorObject(message, Some(f.code))
    ensures !f.PrismaError? ==> e.Responder?
  {
    if f.PrismaError? then ErrorObject(message, Some(f.code)) else Responder(ResponseStatus(f))
  }

  /**
   * Every failure of the invoice operations reaches the client as a 400 or a
   * 404: a refusal by its own status, and a row that vanished under an update
   * (`P2025`) as a 404 `NOT_FOUND`.
   */
  lemma FailureStatus(f: Failure, message: string)
    requires f.PrismaError? ==> f.code == RecordNotFound
    ensures HandleError(ThrownOf(f, message)).status in {400, 404}
    ensures f.NotFound? || f.PrismaError? <==> HandleError(ThrownOf(f, message)).status == 404
  {
  }
}
