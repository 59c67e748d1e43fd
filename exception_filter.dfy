/**
 * The global exception filter: how any thrown value becomes the status and
 * the body of the error reply.
 */
module ExceptionFilter {
  import opened Common
  import opened Errors

  const INTERNAL_ERROR_MESSAGE := "Internal Server Error"
  const PRODUCTION := "production"

  /** The reply body; `data` is always null (None). */
  datatype ErrorBody = ErrorBody(success: bool, statusCode: int, message: string, data: Option<string>)

  /** The status handed to `reply` together with the body. */
  datatype Reply = Reply(status: int, body: ErrorBody)

  /** `process.env.NODE_ENV === 'production'` */
  predicate IsProduction(nodeEnv: Option<string>) {
    nodeEnv == Some(PRODUCTION)
  }

  /** `res.message || message`: the response's own message when it is a
      truthy string, the default otherwise (a bare-string response has none). */
  function ResponseMessage(res: HttpResponse): (m: string)
    ensures m != ""
    ensures res.ObjectResponse? && Present(res.message) ==> m == res.message.value
    ensures !(res.ObjectResponse? && Present(res.message)) ==> m == INTERNAL_ERROR_MESSAGE
  {
    match res
    case ObjectResponse(message) => if Present(message) then message.value else INTERNAL_ERROR_MESSAGE
    case StringResponse(_) => INTERNAL_ERROR_MESSAGE
  }

  /** `catch(exception, host)`: the status and body it replies with. */
  function Catch(exception: Exception, nodeEnv: Option<string>): (r: Reply)
    ensures !r.body.success && r.body.data.None? && r.body.statusCode == r.status
    ensures exception.HttpException? ==> r.status == exception.status && r.body.message == ResponseMessage(exception.response)
    ensures !exception.HttpException? ==> r.status == 500
    ensures exception.Error? && !IsProduction(nodeEnv) ==> r.body.message == exception.message
    ensures exception.Error? && IsProduction(nodeEnv) ==> r.body.message == INTERNAL_ERROR_MESSAGE
    ensures exception.NonError? ==> r.body.message == INTERNAL_ERROR_MESSAGE
  {
    var (status, message) :=
      match exception
      case HttpException(s, res) => (s, ResponseMessage(res))
      case Error(m) => (INTERNAL_SERVER_ERROR, if IsProduction(nodeEnv) then INTERNAL_ERROR_MESSAGE else m)
      case NonError => (INTERNAL_SERVER_ERROR, INTERNAL_ERROR_MESSAGE);
    Reply(status, ErrorBody(false, status, message, None))
  }

  /** In production, a reply never carries the text of an exception that is
      not an HttpException. */
  lemma ProductionHidesInternalMessages(exception: Exception, nodeEnv: Option<string>)
    requires IsProduction(nodeEnv) && !exception.HttpException?
    ensures Catch(exception, nodeEnv) == Reply(500, ErrorBody(false, 500, INTERNAL_ERROR_MESSAGE, None))
  {
  }

  /** The service's own exceptions reach the client with their status and
      message, whatever the environment. */
  lemma ServiceExceptionsPassThrough(msg: string, nodeEnv: Option<string>)
    requires msg != ""
    ensures Catch(BadRequest(msg), nodeEnv) == Reply(400, ErrorBody(false, 400, msg, None))
    ensures Catch(Unauthorized(msg), nodeEnv) == Reply(401, ErrorBody(false, 401, msg, None))
    ensures Catch(Conflict(msg), nodeEnv) == Reply(409, ErrorBody(false, 409, msg, None))
  {
  }
}
