/**
 * `PrismaExceptionFilter.catch`
 * (apps/api/src/common/filters/prisma-exception.filter.ts): the one
 * response written for a known request error of the storage client, chosen
 * by the error's code.
 */
module PrismaFilter {
  import opened Wrappers

  const Conflict: nat := 409
  const NotFound: nat := 404
  const BadRequest: nat := 400

  const UniqueViolation: string := "P2002"
  const RecordNotFound: string := "P2025"

  /** The JSON body; `detail` and `code` are absent when not written. */
  datatype ErrorBody = ErrorBody(message: string, detail: Option<string>, code: Option<string>)

  /** The status and body passed to `response.status(...).json(...)`. */
  datatype HttpResponse = HttpResponse(status: nat, body: ErrorBody)

  const UniqueDetail: string := "A record with one of the unique fields already exists."

  /**
   * Exactly one of three responses: 409 exactly for P2002, 404 exactly for
   * P2025, and 400 for every other code, the only response that echoes the
   * code.
   */
  function Catch(code: string): (r: HttpResponse)
    ensures r.status in {Conflict, NotFound, BadRequest}
    ensures r.status == Conflict <==> code == UniqueViolation
    ensures r.status == NotFound <==> code == RecordNotFound
    ensures r.status == BadRequest <==> code != UniqueViolation && code != RecordNotFound
    ensures r.status == Conflict ==>
      r.body == ErrorBody("Unique constraint violation", Some(UniqueDetail), None)
    ensures r.status == NotFound ==> r.body == ErrorBody("Record not found", None, None)
    ensures r.status == BadRequest ==> r.body == ErrorBody("Database error", None, Some(code))
  {
    if code == UniqueViolation then
      HttpResponse(Conflict, ErrorBody("Unique constraint violation", Some(UniqueDetail), None))
    else if code == RecordNotFound then
      HttpResponse(NotFound, ErrorBody("Record not found", None, None))
    else
      HttpResponse(BadRequest, ErrorBody("Database error", None, Some(code)))
  }
}
