/** `HttpStatusCode` and the status-line table `GetHttpStatus` of the REST server. */
module HttpStatus {

  datatype HttpStatusCode =
    | StatusOk
    | StatusCreated
    | StatusNoContent
    | StatusBadRequest
    | StatusResourceNotFound
    | StatusMethodNotAllowed
    | StatusRequestTimeout
    | StatusConflict
    | StatusInternalServerError
    | StatusInsufficientStorage

  predicate IsDecimalDigit(c: char) {
    '0' <= c <= '9'
  }

  /** A status line as the server sends it: three decimal digits, a space and a reason phrase. */
  predicate IsStatusLine(s: string) {
    |s| > 4 && IsDecimalDigit(s[0]) && IsDecimalDigit(s[1]) && IsDecimalDigit(s[2]) && s[3] == ' '
  }

  /** The numeric code at the head of a status line. */
  function StatusNumber(s: string): (n: int)
    requires IsStatusLine(s)
    ensures 0 <= n < 1000
  {
    (s[0] as int - '0' as int) * 100 + (s[1] as int - '0' as int) * 10 + (s[2] as int - '0' as int)
  }

  /** The status line sent for each code (`OT_REST_HTTP_STATUS_*`). */
  function GetHttpStatus(code: HttpStatusCode): (status: string)
    ensures IsStatusLine(status)
  {
    match code
    case StatusOk => "200 OK"
    case StatusCreated => "201 Created"
    case StatusNoContent => "204 No Content"
    case StatusBadRequest => "400 Bad Request"
    case StatusResourceNotFound => "404 Not Found"
    case StatusMethodNotAllowed => "405 Method Not Allowed"
    case StatusRequestTimeout => "408 Request Timeout"
    case StatusConflict => "409 Conflict"
    case StatusInternalServerError => "500 Internal Server Error"
    case StatusInsufficientStorage => "507 Insufficient Storage"
  }

  /** The numeric code of each status line, as RFC 9110 section 15 assigns it to the reason phrase. */
  function NumericCode(code: HttpStatusCode): nat {
    match code
    case StatusOk => 200
    case StatusCreated => 201
    case StatusNoContent => 204
    case StatusBadRequest => 400
    case StatusResourceNotFound => 404
    case StatusMethodNotAllowed => 405
    case StatusRequestTimeout => 408
    case StatusConflict => 409
    case StatusInternalServerError => 500
    case StatusInsufficientStorage => 507
  }

  /** Every status line carries the number of its code. */
  lemma StatusLineCarriesCode(code: HttpStatusCode)
    ensures StatusNumber(GetHttpStatus(code)) == NumericCode(code)
  {
  }

  /** No two codes share a status line: the line identifies the code. */
  lemma GetHttpStatusInjective(a: HttpStatusCode, b: HttpStatusCode)
    requires GetHttpStatus(a) == GetHttpStatus(b)
    ensures a == b
  {
    StatusLineCarriesCode(a);
    StatusLineCarriesCode(b);
  }

  /** Only the three success codes are sent as 2xx lines. */
  lemma SuccessLines(code: HttpStatusCode)
    ensures GetHttpStatus(code)[0] == '2' <==> code in {StatusOk, StatusCreated, StatusNoContent}
  {
  }
}
