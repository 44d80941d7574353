/**
 * JSON-RPC messages as records of optional fields (simple_rpc/rpc/json.go), and the
 * predicates that classify them.  An absent field is None; raw JSON is kept as text.
 */
module JsonRpc {
  import opened Wrappers

  const VERSION := "2.0"
  const NULL := "null"
  const DEFAULT_ERROR_CODE := -32000
  const INVALID_REQUEST_CODE := -32600
  const SUBSCRIBE_SUFFIX := "_subscribe"
  const UNSUBSCRIBE_SUFFIX := "_unsubscribe"
  const NOTIFICATION_SUFFIX := "_subscription"

  /** A Go error: its text, and the code and data it carries when it implements Error or DataError. */
  datatype Error = Error(text: string, code: Option<int>, data: Option<string>)

  datatype JsonError = JsonError(code: int, message: string, data: Option<string>)

  datatype Message = Message(
    version: string,
    id: Option<string>,
    methodName: string,
    params: Option<string>,
    error: Option<JsonError>,
    result: Option<string>)
  {
    predicate IsNotification() {
      id.None? && methodName != ""
    }

    predicate HasValidId() {
      id.Some? && |id.value| > 0 && id.value[0] != '{' && id.value[0] != '['
    }

    predicate IsCall() {
      HasValidId() && methodName != ""
    }

    predicate IsResponse() {
      HasValidId() && methodName == "" && params.None? && (result.Some? || error.Some?)
    }
  }

  predicate HasSuffix(s: string, suffix: string) {
    |suffix| <= |s| && s[|s| - |suffix|..] == suffix
  }

  function ErrorMessage(err: Error): Message {
    Message(
      VERSION, Some(NULL), "", None,
      Some(JsonError(if err.code.Some? then err.code.value else DEFAULT_ERROR_CODE, err.text, err.data)),
      None)
  }

  function ErrorResponse(msg: Message, err: Error): Message {
    ErrorMessage(err).(id := msg.id)
  }

  /** An encodable result; a result that does not encode becomes an error response. */
  function Response(msg: Message, encoded: Result<string, Error>): Message {
    match encoded
    case Success(text) => Message(VERSION, msg.id, "", None, None, Some(text))
    case Failure(err) => ErrorResponse(msg, err)
  }

  function InvalidRequest(text: string): Error {
    Error(text, Some(INVALID_REQUEST_CODE), None)
  }

  /** A message is at most one of notification, call and response; the rest is malformed. */
  lemma Classification(msg: Message)
    ensures !(msg.IsNotification() && msg.IsCall())
    ensures !(msg.IsNotification() && msg.IsResponse())
    ensures !(msg.IsCall() && msg.IsResponse())
  {
  }
}
