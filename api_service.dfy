/**
 * The HTTP wrapper (src/services/api/service.ts): requests go through a client,
 * successes yield the response body, and every failure is turned into a
 * MessageError by formatError. The client (axios with its base URL, timeout and
 * interceptors) is a function parameter from a request to a body or an error.
 */
module ApiService {
  import opened Wrappers
  import opened Text
  import opened MessageTypes

  /** The parts of an axios error that formatError reads: the response status, whether a request went out, the message. */
  datatype AxiosError = AxiosError(responseStatus: Option<nat>, request: bool, message: string)

  /** Query parameters of a request config. */
  datatype Config = NoConfig | Params(offset: int, limit: int)

  function FormatError(error: AxiosError): (r: MessageError)
    // a response wins over a request, which wins over neither
    ensures error.responseStatus.Some? ==>
              r.message == "Server error: " + NatToString(error.responseStatus.value)
              && r.code == Some("ERR_" + NatToString(error.responseStatus.value))
    ensures error.responseStatus.None? && error.request ==>
              r == MessageError("No response from server", Some("ERR_NO_RESPONSE"))
    ensures error.responseStatus.None? && !error.request ==>
              r == MessageError("Request error: " + error.message, Some("ERR_REQUEST"))
  {
    match error.responseStatus
    case Some(status) =>
      MessageError("Server error: " + NatToString(status), Some("ERR_" + NatToString(status)))
    case None =>
      if error.request then MessageError("No response from server", Some("ERR_NO_RESPONSE"))
      else MessageError("Request error: " + error.message, Some("ERR_REQUEST"))
  }

  /** Whether two errors fall in the same formatError case with the same status. */
  predicate SameKind(a: AxiosError, b: AxiosError) {
    if a.responseStatus.Some? || b.responseStatus.Some? then a.responseStatus == b.responseStatus
    else a.request == b.request
  }

  /** The code alone tells the case apart, and a server error's code tells its status. */
  lemma CodeIdentifiesKind(a: AxiosError, b: AxiosError)
    ensures FormatError(a).code == FormatError(b).code <==> SameKind(a, b)
  {
    var ca, cb := FormatError(a).code.value, FormatError(b).code.value;
    if a.responseStatus.Some? {
      var s := NatToString(a.responseStatus.value);
      assert ca[4] == s[0] && IsDigit(ca[4]);
    }
    if b.responseStatus.Some? {
      var s := NatToString(b.responseStatus.value);
      assert cb[4] == s[0] && IsDigit(cb[4]);
    }
    if a.responseStatus.Some? && b.responseStatus.Some? && ca == cb {
      assert NatToString(a.responseStatus.value) == ca[4..] == cb[4..] == NatToString(b.responseStatus.value);
      NatToStringInjective(a.responseStatus.value, b.responseStatus.value);
    }
    if a.responseStatus.None? && b.responseStatus.None? && a.request != b.request {
      assert ca[4] != cb[4];
    }
  }

  /** A present response is reported by its status even when a request is also recorded. */
  lemma ResponseTakesPrecedence(status: nat, message: string)
    ensures FormatError(AxiosError(Some(status), true, message)) == FormatError(AxiosError(Some(status), false, message))
    ensures FormatError(AxiosError(Some(status), true, message)).code != Some("ERR_NO_RESPONSE")
  {
    CodeIdentifiesKind(AxiosError(Some(status), true, message), AxiosError(None, true, message));
  }

  /** get: the body on success, exactly formatError of the error on failure. */
  function Get<T>(send: (string, Config) -> Result<T, AxiosError>, url: string, config: Config := NoConfig): (r: Result<T, MessageError>)
    ensures r.Success? <==> send(url, config).Success?
    ensures r.Success? ==> r.value == send(url, config).value
    ensures r.Failure? ==> r.error == FormatError(send(url, config).error)
  {
    match send(url, config)
    case Success(data) => Success(data)
    case Failure(e) => Failure(FormatError(e))
  }

  /** post: as get, with a request body. */
  function Post<T, D>(send: (string, Option<D>, Config) -> Result<T, AxiosError>, url: string,
                      data: Option<D> := None, config: Config := NoConfig): (r: Result<T, MessageError>)
    ensures r.Success? <==> send(url, data, config).Success?
    ensures r.Success? ==> r.value == send(url, data, config).value
    ensures r.Failure? ==> r.error == FormatError(send(url, data, config).error)
  {
    match send(url, data, config)
    case Success(body) => Success(body)
    case Failure(e) => Failure(FormatError(e))
  }

  /** The body fetchMessages resolves to. */
  datatype MessagePage = MessagePage(messages: seq<ChatMessage>, total: int)

  /** fetchMessages: a GET of the messages endpoint with `offset` and `limit` (by default 0 and 6) as parameters. */
  function FetchMessages(send: (string, Config) -> Result<MessagePage, AxiosError>, messagesEndpoint: string,
                         offset: int := 0, limit: int := 6): (r: Result<MessagePage, MessageError>)
    ensures r.Success? <==> send(messagesEndpoint, Params(offset, limit)).Success?
    ensures r.Success? ==> r.value == send(messagesEndpoint, Params(offset, limit)).value
    ensures r.Failure? ==> r.error == FormatError(send(messagesEndpoint, Params(offset, limit)).error)
  {
    Get(send, messagesEndpoint, Params(offset, limit))
  }

  /** Without arguments the first six messages are asked for. */
  lemma FetchMessagesDefaults(send: (string, Config) -> Result<MessagePage, AxiosError>, messagesEndpoint: string)
    ensures FetchMessages(send, messagesEndpoint) == FetchMessages(send, messagesEndpoint, 0, 6)
    ensures send(messagesEndpoint, Params(0, 6)).Failure? ==>
              FetchMessages(send, messagesEndpoint).Failure?
              && FetchMessages(send, messagesEndpoint).error.code.Some?
  {
  }
}
