/** The label attached to the "request completed" log entry, derived from
    the HTTP status code the handler wrote (observability.go, statusLabel). */
module StatusLabels {

  /** The four classes a status code can fall into. */
  datatype StatusClass = Success | ClientError | ServerError | Unknown {
    function Name(): string {
      match this
      case Success => "success"
      case ClientError => "client_error"
      case ServerError => "server_error"
      case Unknown => "unknown"
    }
  }

  function StatusLabel(code: int): (text: string)
    ensures text in {"success", "client_error", "server_error", "unknown"}
  {
    if code >= 200 && code < 300 then
      "success"
    else if code >= 400 && code < 500 then
      "client_error"
    else if code >= 500 then
      "server_error"
    else
      "unknown"
  }

  /** An independent classification by the hundreds digit of the code:
      1xx and 3xx (and anything below 100) are unknown, 5xx and above are
      server errors. */
  function ClassOf(code: int): StatusClass {
    if code < 200 then Unknown
    else if code / 100 == 2 then Success
    else if code / 100 == 3 then Unknown
    else if code / 100 == 4 then ClientError
    else ServerError
  }

  /** Every integer gets exactly one of the four labels, and the ranges
      that produce each label are exactly these. */
  lemma StatusLabelPartition(code: int)
    ensures StatusLabel(code) == "success" <==> 200 <= code < 300
    ensures StatusLabel(code) == "client_error" <==> 400 <= code < 500
    ensures StatusLabel(code) == "server_error" <==> 500 <= code
    ensures StatusLabel(code) == "unknown" <==> code < 200 || 300 <= code < 400
  {
  }

  lemma StatusLabelAgreesWithClass(code: int)
    ensures StatusLabel(code) == ClassOf(code).Name()
  {
  }
}
