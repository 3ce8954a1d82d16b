/**
 * The client of internal/haproxy/haproxy.go and its legacy copy in pkg/haproxy/haproxy.go:
 * how the base URL is formed, which headers every request carries, and how `sendRequest`
 * classifies a response. The HTTP exchange itself is an input: either a transport error
 * or a response described by its status code and by how its body decodes.
 */
module Transport {
  import opened Wrappers
  import opened Text
  import opened Utils

  /** `haproxy.Client` without its `http.Client`; `baseUrl` is `base_url`. */
  datatype Client = Client(username: string, password: string, baseUrl: string)

  /** `NewClient`: plain HTTP when `insecure`, HTTPS otherwise, and always the `/v2` API path. */
  function NewClient(username: string, password: string, server: string, insecure: bool): (c: Client)
    ensures c.username == username && c.password == password
    ensures HasPrefix(c.baseUrl, "http://") <==> insecure
    ensures HasPrefix(c.baseUrl, "https://") <==> !insecure
    ensures HasSuffix(c.baseUrl, "/v2")
  {
    var scheme := if insecure then "http" else "https";
    var url := scheme + "://" + server + "/v2";
    assert url[|url| - 3..] == "/v2";
    assert insecure ==> url[..7] == "http://" && url[4] == ':';
    assert !insecure ==> url[..8] == "https://" && url[4] == 's';
    assert url[..7][4] == url[4];
    Client(username, password, url)
  }

  /** Reads a base URL back into its security flag and server address. */
  function ParseBaseUrl(url: string): Option<(bool, string)>
  {
    if HasPrefix(url, "http://") && HasSuffix(url, "/v2") && 7 <= |url| - 3 then
      Some((true, url[7..|url| - 3]))
    else if HasPrefix(url, "https://") && HasSuffix(url, "/v2") && 8 <= |url| - 3 then
      Some((false, url[8..|url| - 3]))
    else None
  }

  /** The base URL determines the server address and the scheme it was built with. */
  lemma NewClientBaseUrlParses(username: string, password: string, server: string, insecure: bool)
    ensures ParseBaseUrl(NewClient(username, password, server, insecure).baseUrl) == Some((insecure, server))
  {
    var url := NewClient(username, password, server, insecure).baseUrl;
    if insecure {
      assert url[7..|url| - 3] == server;
    } else {
      assert !HasPrefix(url, "http://") by { assert url[4] == 's'; }
      assert url[8..|url| - 3] == server;
    }
  }

  /** The legacy `NewClient`: always plain HTTP on port 5555, with no insecure option. */
  function LegacyNewClient(username: string, password: string, server: string): (c: Client)
    ensures HasPrefix(c.baseUrl, "http://") && HasSuffix(c.baseUrl, ":5555/v2")
  {
    Client(username, password, "http://" + server + ":5555/v2")
  }

  /** The legacy client is the insecure client of the server address with port 5555 appended. */
  lemma LegacyClientIsInsecurePort5555(username: string, password: string, server: string)
    ensures LegacyNewClient(username, password, server) == NewClient(username, password, server + ":5555", true)
  {
  }

  /*
   * Headers
   */

  const AcceptValue := "application/json; charset=utf-8"

  /** The Authorization value, given the Base64 encoder of section 4 of RFC 4648. */
  function Authorization(c: Client, base64: string -> string): string
  {
    "Basic " + base64(BasicAuthInput(c.username, c.password))
  }

  /**
   * The headers a request leaves with: those the gateway set (a Content-Type, say) with
   * Accept and Authorization set, replacing any earlier value, as `Header.Set` does.
   */
  function SentHeaders(c: Client, headers: map<string, string>, base64: string -> string): (h: map<string, string>)
    ensures h.Keys == headers.Keys + {"Accept", "Authorization"}
    ensures h["Accept"] == AcceptValue && h["Authorization"] == Authorization(c, base64)
    ensures forall k :: k in headers && k != "Accept" && k != "Authorization" ==> h[k] == headers[k]
  {
    headers["Accept" := AcceptValue]["Authorization" := Authorization(c, base64)]
  }

  /** The encoder sees exactly the user-id, a colon and the password, which can be split back. */
  lemma AuthorizationCarriesCredentials(c: Client, base64: string -> string)
    requires Free(c.username, ':')
    ensures exists s :: Authorization(c, base64) == "Basic " + base64(s) && SplitUserPass(s) == Some((c.username, c.password))
  {
    BasicAuthInputSplits(c.username, c.password);
  }

  /*
   * sendRequest
   */

  /** How a response body decodes: into the value asked for, or with a decoder error. */
  datatype Decoding = Decodes | DecodeFails(message: string)

  /**
   * A response as `sendRequest` sees it: the status, the `message` of the body read as an
   * `errorResponse` (None when the body is not such JSON), and how the body decodes into
   * the caller's out-parameter.
   */
  datatype Response = Response(status: int, errorMessage: Option<string>, decoding: Decoding)

  /** What `HTTPClient.Do` returns. */
  datatype Exchange = TransportError(message: string) | Received(response: Response)

  /** The error `sendRequest` returns, or success and whether it filled the out-parameter. */
  datatype SendOutcome = Delivered(decoded: bool) | SendFailed(message: string)

  const StatusNoContent := 204

  /** The text of an error status, as `sendRequest` forms it. */
  function StatusError(r: Response): string
  {
    match r.errorMessage
    case Some(m) => m
    case None => "unknown error, status code: " + Itoa(r.status)
  }

  /**
   * `sendRequest` of internal/haproxy/haproxy.go; `hasTarget` is false when the caller
   * passes a nil out-parameter.
   */
  function SendRequest(x: Exchange, hasTarget: bool): (o: SendOutcome)
    ensures x.TransportError? ==> o == SendFailed(x.message)
    ensures x.Received? && x.response.status >= 300 ==> o == SendFailed(StatusError(x.response))
    ensures o == Delivered(true) <==>
      x.Received? && x.response.status < 300 && x.response.status != StatusNoContent
      && hasTarget && x.response.decoding == Decodes
    ensures o == Delivered(false) <==>
      x.Received? && x.response.status < 300 && (x.response.status == StatusNoContent || !hasTarget)
    ensures o.SendFailed? && x.Received? && x.response.status < 300 ==> x.response.decoding == DecodeFails(o.message)
  {
    match x
    case TransportError(m) => SendFailed(m)
    case Received(r) =>
      if r.status >= 300 then SendFailed(StatusError(r))
      else if r.status == StatusNoContent then Delivered(false)
      else if !hasTarget then Delivered(false)
      else match r.decoding
        case Decodes => Delivered(true)
        case DecodeFails(m) => SendFailed(m)
  }

  /**
   * `sendRequest` of pkg/haproxy/haproxy.go: no nil-target shortcut, so every success
   * status but 204 decodes the body (into a fresh value when the target is nil).
   */
  function LegacySendRequest(x: Exchange): (o: SendOutcome)
    ensures x.TransportError? ==> o == SendFailed(x.message)
    ensures x.Received? && x.response.status >= 300 ==> o == SendFailed(StatusError(x.response))
    ensures o.Delivered? <==>
      x.Received? && x.response.status < 300
      && (x.response.status == StatusNoContent || x.response.decoding == Decodes)
  {
    match x
    case TransportError(m) => SendFailed(m)
    case Received(r) =>
      if r.status >= 300 then SendFailed(StatusError(r))
      else if r.status == StatusNoContent then Delivered(false)
      else match r.decoding
        case Decodes => Delivered(true)
        case DecodeFails(m) => SendFailed(m)
  }

  /** With an out-parameter the two copies classify every exchange alike. */
  lemma LegacyAgreesWithTarget(x: Exchange)
    ensures LegacySendRequest(x) == SendRequest(x, true)
  {
  }

  /**
   * Without one they differ exactly on a success status other than 204, which the legacy
   * copy decodes and the internal one does not; and the legacy copy fails there exactly
   * when the body does not decode, while the internal one always succeeds.
   */
  lemma LegacyDiffersWithoutTarget(x: Exchange)
    ensures LegacySendRequest(x) != SendRequest(x, false) <==>
      x.Received? && x.response.status < 300 && x.response.status != StatusNoContent
    ensures LegacySendRequest(x).SendFailed? != SendRequest(x, false).SendFailed? <==>
      x.Received? && x.response.status < 300 && x.response.status != StatusNoContent
      && x.response.decoding.DecodeFails?
  {
  }

  /** An error status is an error whatever the body and the target, and it never decodes. */
  lemma ErrorStatusFails(x: Exchange, hasTarget: bool)
    requires x.Received? && x.response.status >= 300
    ensures SendRequest(x, hasTarget).SendFailed? && LegacySendRequest(x).SendFailed?
    ensures x.response.errorMessage.None? ==>
      SendRequest(x, hasTarget).message == "unknown error, status code: " + Itoa(x.response.status)
    ensures x.response.errorMessage.None? ==>
      ParseDecimal(SendRequest(x, hasTarget).message[|"unknown error, status code: "|..]) == Some(x.response.status)
  {
    if x.response.errorMessage.None? {
      var m := SendRequest(x, hasTarget).message;
      assert m[|"unknown error, status code: "|..] == Itoa(x.response.status);
      ItoaRoundTrip(x.response.status);
    }
  }
}
