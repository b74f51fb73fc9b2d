/** The plain HTTP backend. A request goes straight to URLSession with a session
    configured for its method; a reply counts as a success only with a 2xx status.
    Login and pairing POST the credentials and succeed exactly when the reply's
    `status` member is "ok". The secure backend (module HttpsNet) is this one built
    with another interface and scheme. */
module HttpNet {
  import opened Common
  import StopNet
  import StopLight

  /** `timeoutIntervalForRequest` of every session. */
  const RequestTimeout := 15

  /** The configuration `createSession(for:)` gives the ephemeral session. */
  datatype SessionConfig = SessionConfig(contentType: string, timeout: int)

  /** `createSession(for:)`: plain text for a GET, JSON for any other method. */
  function CreateSession(httpMethod: string): (c: SessionConfig)
    ensures c.timeout == RequestTimeout
    ensures c.contentType == "text/plain" <==> httpMethod == "GET"
    ensures c.contentType == "application/json" <==> httpMethod != "GET"
  {
    SessionConfig(if httpMethod == "GET" then "text/plain" else "application/json", RequestTimeout)
  }

  /** How a URLSession data task completes: with data and an HTTP response, or
      with an error and no usable response. */
  datatype TaskOutcome = Completed(data: StopNet.Payload, statusCode: nat) | Errored(error: Error)

  /** The network as the model sees it: what the data task for a request, sent
      through a session with the given configuration, completes with. */
  type Network = (SessionConfig, StopNet.Request) -> TaskOutcome

  /** `200...299 ~= statusCode`. */
  predicate IsSuccessCode(code: int) {
    200 <= code <= 299
  }

  const StatusCodePrefix := "Status code: "

  /** The error the source builds for a non-2xx reply. Its literal is written with
      Ruby-style `#{...}`, which Swift does not interpolate, so every status code
      yields the same text. */
  function StatusCodeErrorAsWritten(code: nat): Error {
    Error("Status code: #{response.statusCode}")
  }

  /** Two different status codes, one error text: the code is lost. */
  lemma StatusCodeLostAsWritten()
    ensures StatusCodeErrorAsWritten(404) == StatusCodeErrorAsWritten(500)
  {
  }

  /** The error the source evidently intends: the prefix followed by the code in decimal. */
  function StatusCodeError(code: nat): (e: Error)
    ensures |e.description| > |StatusCodePrefix|
    ensures e.description[..|StatusCodePrefix|] == StatusCodePrefix
  {
    Error(StatusCodePrefix + NatToString(code))
  }

  /** Reads the status code back out of an error text, when it has the intended form. */
  function StatusCodeOf(e: Error): Option<nat> {
    var d := e.description;
    var n := |StatusCodePrefix|;
    if |d| > n && d[..n] == StatusCodePrefix && forall i :: n <= i < |d| ==> IsDigit(d[i]) then
      Some(ParseNat(d[n..]))
    else
      None
  }

  /** With the intended text the status code can be recovered from the error,
      so distinct codes give distinct errors. */
  lemma StatusCodeErrorRoundTrip(code: nat)
    ensures StatusCodeOf(StatusCodeError(code)) == Some(code)
  {
    var d := StatusCodeError(code).description;
    assert d[|StatusCodePrefix|..] == NatToString(code);
    ParseNatToString(code);
  }

  /** `handle(request:)`: the request goes out through a session configured for its
      method; a reply with data and a 2xx status becomes the response, any other
      status becomes an error naming the code, and a failed task passes its error on. */
  function Handle(req: StopNet.Request, network: Network): (r: Result<StopNet.Response>)
    ensures var o := network(CreateSession(req.httpMethod), req);
      (r.Success? <==> o.Completed? && IsSuccessCode(o.statusCode)) &&
      (r.Success? ==> r.value == StopNet.Response(o.data, StopNet.Meta(o.statusCode))) &&
      (o.Completed? && !IsSuccessCode(o.statusCode) ==> r == Failure(StatusCodeError(o.statusCode))) &&
      (o.Errored? ==> r == Failure(o.error))
  {
    match network(CreateSession(req.httpMethod), req)
    case Completed(data, code) =>
      if IsSuccessCode(code) then Success(StopNet.Response(data, StopNet.Meta(code)))
      else Failure(StatusCodeError(code))
    case Errored(e) => Failure(e)
  }

  /** `handle(request:)` exactly as written: a non-2xx reply yields the fixed text
      of `StatusCodeErrorAsWritten`. */
  function HandleAsWritten(req: StopNet.Request, network: Network): (r: Result<StopNet.Response>)
    ensures var o := network(CreateSession(req.httpMethod), req);
      (r.Success? <==> o.Completed? && IsSuccessCode(o.statusCode)) &&
      (r.Success? ==> r.value == StopNet.Response(o.data, StopNet.Meta(o.statusCode))) &&
      (o.Completed? && !IsSuccessCode(o.statusCode) ==> r == Failure(StatusCodeErrorAsWritten(o.statusCode))) &&
      (o.Errored? ==> r == Failure(o.error))
  {
    match network(CreateSession(req.httpMethod), req)
    case Completed(data, code) =>
      if IsSuccessCode(code) then Success(StopNet.Response(data, StopNet.Meta(code)))
      else Failure(StatusCodeErrorAsWritten(code))
    case Errored(e) => Failure(e)
  }

  /** The code as written and the corrected `Handle` agree on every request except
      in the text of a non-2xx error, where the written one has lost the code. */
  lemma HandleDiffersOnlyInStatusText(req: StopNet.Request, network: Network)
    ensures var o := network(CreateSession(req.httpMethod), req);
      (HandleAsWritten(req, network) == Handle(req, network) <==> !(o.Completed? && !IsSuccessCode(o.statusCode))) &&
      (HandleAsWritten(req, network).Success? <==> Handle(req, network).Success?)
  {
    var o := network(CreateSession(req.httpMethod), req);
    if o.Completed? && !IsSuccessCode(o.statusCode) {
      var d := StatusCodeError(o.statusCode).description;
      assert d[|StatusCodePrefix|] != '#' by {
        assert d[|StatusCodePrefix|..] == NatToString(o.statusCode);
      }
      assert StatusCodeErrorAsWritten(o.statusCode).description[|StatusCodePrefix|] == '#';
    }
  }

  /** This backend's `handle`, as the transport of the shared StopNet operations. */
  function Transport(network: Network): StopNet.Request -> Result<StopNet.Response> {
    req => Handle(req, network)
  }

  /** The body of a login or pairing request. */
  function CredentialBody(c: Credentials): (m: StopNet.JsonMap)
    ensures m.Keys == {"username", "password"}
    ensures m["username"] == c.username && m["password"] == c.password
  {
    map["username" := c.username, "password" := c.password]
  }

  /** The completion of `action(_:with:)`: true exactly when the round trip
      succeeded and the reply's `status` member is the string "ok". */
  function CredentialAccepted(r: Result<StopNet.Response>): (ok: bool)
    ensures ok <==> r.Success? && StringValue(Field(r.value.data.json, "status")) == "ok"
    ensures ok <==> r.Success? && Field(r.value.data.json, "status") == JString("ok")
  {
    if r.Success? then
      StringValueIsText(Field(r.value.data.json, "status"), "ok");
      StringValue(Field(r.value.data.json, "status")) == "ok"
    else
      false
  }

  /** The server's verdict on credentials POSTed to `path`, read directly off the
      network: the host is resolved, the task completes with a 2xx status, and
      the reply's `status` member is the string "ok". */
  predicate ServerAccepts(net: StopNet.StopNet, path: string, c: Credentials, network: Network)
    reads net
  {
    net.IsHostResolved() &&
    var o := network(CreateSession("POST"),
                     StopNet.Request(net.hostUrl.value, path, "POST", Some(CredentialBody(c))));
    o.Completed? && IsSuccessCode(o.statusCode) && Field(o.data.json, "status") == JString("ok")
  }

  /** `action(_:with:)`: POST the credentials to the path named `action`. */
  function Action(net: StopNet.StopNet, action: string, c: Credentials, network: Network): (ok: bool)
    reads net
    ensures ok <==> ServerAccepts(net, action, c, network)
  {
    CredentialAccepted(net.Post(action, CredentialBody(c), Transport(network)))
  }

  /** `login(credentials:)`: POST the credentials to "login". */
  function Login(net: StopNet.StopNet, c: Credentials, network: Network): (ok: bool)
    reads net
    ensures ok <==> ServerAccepts(net, "login", c, network)
  {
    Action(net, "login", c, network)
  }

  /** `pair(credentials:)`: POST the credentials to "pair". */
  function Pair(net: StopNet.StopNet, c: Credentials, network: Network): (ok: bool)
    reads net
    ensures ok <==> ServerAccepts(net, "pair", c, network)
  {
    Action(net, "pair", c, network)
  }

  /** `HttpNet()`: the plain interface over the http scheme, not yet resolved. */
  method NewHttpNet() returns (net: StopNet.StopNet)
    ensures fresh(net)
    ensures net.intf == StopNet.Http && net.scheme == "http" && !net.IsHostResolved()
  {
    net := new StopNet.StopNet(StopNet.Http, false);
  }

  /** Switching a lamp on is confirmed by any 2xx reply, even one whose body
      reports a failure: the reply body is not inspected. */
  lemma OnIgnoresReplyBody(net: StopNet.StopNet, network: Network)
    requires net.IsHostResolved()
    requires forall cfg, req ::
      network(cfg, req) == Completed(StopNet.Payload("", JObject(map["status" := JString("fail")])), 200)
    ensures net.On(StopLight.Green, Transport(network)) == Success(StopLight.Green)
  {
    var req := StopNet.Request(net.hostUrl.value, "light", "POST", Some(StopNet.Action("switch", StopLight.Green)));
    assert Transport(network)(req).Success?;
  }
}
