/**
 * The JSON error bodies (responses.go): an HTTP error becomes a body with a
 * single message carrying a status word, the code and the message text.
 */
module Responses {
  const Success: string := "success"
  const Warning: string := "warning"
  const Danger: string := "danger"

  /** One entry of `BaseErrorResponse.Messages`. */
  datatype ErrorMessage = ErrorMessage(status: string, code: int, message: string)

  /** `BaseErrorResponse`. */
  datatype ErrorResponse = ErrorResponse(messages: seq<ErrorMessage>)

  /** The application's `HTTPError`, whose message is a string (so `%v` prints it as it is). */
  datatype HTTPError = HTTPError(code: int, message: string)

  /** Echo's `HTTPError`, with the text its `Error` method renders. */
  datatype EchoHTTPError = EchoHTTPError(code: int, errorText: string)

  /**
   * `ParseHTTPCodeToStatus`: codes below 400 (informational, success and
   * redirects) are "success", 4xx is "warning", anything from 500 up is
   * "danger".
   */
  function ParseHTTPCodeToStatus(code: int): (r: string)
    ensures r == Success <==> code < 400
    ensures r == Warning <==> 400 <= code < 500
    ensures r == Danger <==> 500 <= code
  {
    if code < 300 then Success
    else if 300 <= code < 400 then Success
    else if 400 <= code < 500 then Warning
    else Danger
  }

  /** How serious a status word is. */
  function Severity(status: string): nat
  {
    if status == Danger then 2 else if status == Warning then 1 else 0
  }

  /** A higher code never gets a milder status. */
  lemma StatusIsMonotone(a: int, b: int)
    requires a <= b
    ensures Severity(ParseHTTPCodeToStatus(a)) <= Severity(ParseHTTPCodeToStatus(b))
  {
  }

  /** `ParseHTTPErrorToResponse`: one message with the code, its status and the error's message. */
  function ParseHTTPErrorToResponse(he: HTTPError): (r: ErrorResponse)
    ensures |r.messages| == 1
    ensures r.messages[0].code == he.code && r.messages[0].message == he.message
    ensures r.messages[0].status == ParseHTTPCodeToStatus(he.code)
  {
    ErrorResponse([ErrorMessage(ParseHTTPCodeToStatus(he.code), he.code, he.message)])
  }

  /** `ParseEchoHTTPErrorToResponse`: the same, with the text of echo's `Error` as the message. */
  function ParseEchoHTTPErrorToResponse(he: EchoHTTPError): (r: ErrorResponse)
    ensures |r.messages| == 1
    ensures r.messages[0].code == he.code && r.messages[0].message == he.errorText
    ensures r.messages[0].status == ParseHTTPCodeToStatus(he.code)
  {
    ErrorResponse([ErrorMessage(ParseHTTPCodeToStatus(he.code), he.code, he.errorText)])
  }
}
