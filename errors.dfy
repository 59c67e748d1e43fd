/**
 * The values a service call can throw, as the exception filter sees them:
 * a Nest HttpException (status plus the response object it carries),
 * a plain JavaScript Error (including the ORM's and bcrypt's), or any
 * other thrown value.
 */
module Errors {
  import opened Common

  /** What `getResponse()` of an HttpException yields: an object with an
      optional `message`, or a bare string. */
  datatype HttpResponse = ObjectResponse(message: Option<string>) | StringResponse(text: string)

  datatype Exception =
    | HttpException(status: int, response: HttpResponse)
    | Error(message: string)
    | NonError

  const BAD_REQUEST := 400
  const UNAUTHORIZED := 401
  const CONFLICT := 409
  const INTERNAL_SERVER_ERROR := 500

  /** `new BadRequestException(msg)` */
  function BadRequest(msg: string): Exception {
    HttpException(BAD_REQUEST, ObjectResponse(Some(msg)))
  }

  /** `new UnauthorizedException(msg)` */
  function Unauthorized(msg: string): Exception {
    HttpException(UNAUTHORIZED, ObjectResponse(Some(msg)))
  }

  /** `new ConflictException(msg)` */
  function Conflict(msg: string): Exception {
    HttpException(CONFLICT, ObjectResponse(Some(msg)))
  }

  /** The ORM's error for a create that breaks a unique index. */
  const UNIQUE_VIOLATION := Error("Unique constraint failed")
  /** The ORM's error for deleting a row that does not exist. */
  const RECORD_NOT_FOUND := Error("Record to delete does not exist.")
  /** What bcrypt throws when asked to hash `undefined`. */
  const ILLEGAL_ARGUMENTS := Error("Illegal arguments: undefined, number")
}
