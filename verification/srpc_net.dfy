/** The authenticated backend. Requests travel through a session channel of the
    Knoxen library: the user's channel once login has succeeded, otherwise an
    anonymous library channel that is negotiated on first need and then cached.
    Login promotes the session (the user channel is stored, the library channel is
    closed and dropped); pairing registers the credentials and logs in only when the
    registration is accepted. The library's negotiations and the channels' answers
    are inputs of the model. */
module SrpcNet {
  import opened Common
  import StopNet

  /** `KnRegistrationCode`: the library's verdict on a registration. */
  datatype RegistrationCode =
    | RegNone | RegCreate | RegUpdate | RegOk | RegDuplicate | RegNotFound | RegError

  /** The library entry point that `resolveHost` sets up for the resolved URL. */
  datatype Knoxen = Knoxen(url: StopNet.Url, nonceSize: nat, retry: bool)

  /** The configuration `resolveHost` gives the library for a resolved URL. */
  function KnoxenFor(url: StopNet.Url): Knoxen {
    Knoxen(url, 4, true)
  }

  /** What a channel answers for a request: the reply data and response metadata. */
  datatype SessionResponse = SessionResponse(data: StopNet.Payload, response: StopNet.Meta)

  /** A negotiated channel of the library (anonymous or a user's). Only its
      lifetime is modelled: it is open until `close()` is called. */
  class Client {
    var isOpen: bool

    constructor ()
      ensures isOpen
    {
      isOpen := true;
    }

    method Close()
      modifies this
      ensures !isOpen
    {
      isOpen := false;
    }
  }

  /** The completion of `handle(request:with:)`: a channel's success becomes a
      response with the same data and metadata; its failure is passed on. */
  function Wrap(r: Result<SessionResponse>): (w: Result<StopNet.Response>)
    ensures w.Success? <==> r.Success?
    ensures w.Success? ==> w.value.data == r.value.data && w.value.response == r.value.response
    ensures r.Failure? ==> w == Failure(r.error)
  {
    match r
    case Success(resp) => Success(StopNet.Response(resp.data, resp.response))
    case Failure(e) => Failure(e)
  }

  /** Where the authenticated backend listens and what a static host resolves it to. */
  lemma SrpcEndpoint(config: StopNet.HostConfig, lookup: nat -> Result<StopNet.Url>)
    requires config.useStaticHost
    ensures StopNet.Port(StopNet.Srpc) == 4003 && StopNet.Domain(StopNet.Srpc) == "srpc.local"
    ensures StopNet.Resolve(StopNet.Srpc, StopNet.SchemeFor(false), config, 0, lookup).url ==
      Some(StopNet.Url("http", config.staticHost, 4003))
  {
    StopNet.InterfaceTable(StopNet.Srpc);
  }

  class SrpcNet {
    /** The state shared with every backend: interface, scheme and resolved URL. */
    const net: StopNet.StopNet
    var knoxen: Option<Knoxen>
    var libClient: Client?
    var userClient: Client?

    /** The srpc interface over the http scheme; the library is configured exactly
        when the host is resolved; every cached channel is open. */
    ghost predicate Valid()
      reads this, net, libClient, userClient
    {
      net.intf == StopNet.Srpc && net.scheme == "http" &&
      (knoxen.Some? <==> net.hostUrl.Some?) &&
      (knoxen.Some? ==> knoxen.value == KnoxenFor(net.hostUrl.value)) &&
      (libClient != null ==> libClient.isOpen) &&
      (userClient != null ==> userClient.isOpen)
    }

    /** `SrpcNet()`: the srpc interface, not yet resolved, with no channel. */
    constructor ()
      ensures Valid() && fresh(net)
      ensures !net.IsHostResolved() && libClient == null && userClient == null
    {
      net := new StopNet.StopNet(StopNet.Srpc, false);
      knoxen := None;
      libClient := null;
      userClient := null;
    }

    /** The override of `resolveHost`: discovery as for every backend, and on
        success the library is set up for the resolved URL. */
    method ResolveHost(config: StopNet.HostConfig, attempt: nat, lookup: nat -> Result<StopNet.Url>)
      returns (r: Result<bool>, tried: seq<nat>)
      requires Valid()
      modifies this, net
      ensures Valid()
      ensures var res := StopNet.Resolve(StopNet.Srpc, "http", config, attempt, lookup);
        tried == res.lookups &&
        (r.Success? <==> res.url.Some?) &&
        (r.Success? ==> net.hostUrl == res.url && knoxen == Some(KnoxenFor(res.url.value))) &&
        (r.Failure? ==> r.error == StopNet.ResolveFailed(StopNet.Srpc) &&
                        net.hostUrl == old(net.hostUrl) && knoxen == old(knoxen))
      ensures libClient == old(libClient) && userClient == old(userClient)
    {
      r, tried := net.ResolveHost(config, attempt, lookup);
      if r.Success? {
        knoxen := Some(KnoxenFor(net.hostUrl.value));
      }
    }

    /** The `libClient(callback:)` helper: the cached library channel if there is
        one, otherwise a newly negotiated one, which is cached. It does not look at
        the user channel. */
    method LibClient(negotiation: Outcome) returns (r: Result<Client>)
      requires Valid()
      requires libClient != null || net.IsHostResolved()
      modifies this
      ensures Valid()
      ensures knoxen == old(knoxen) && userClient == old(userClient)
      ensures old(libClient) != null ==> r == Success(old(libClient)) && libClient == old(libClient)
      ensures old(libClient) == null && negotiation.Pass? ==>
        r.Success? && fresh(r.value) && libClient == r.value
      ensures old(libClient) == null && negotiation.Fail? ==>
        r == Failure(negotiation.error) && libClient == null
      ensures r.Success? ==> r.value.isOpen
    {
      if libClient != null {
        r := Success(libClient);
      } else {
        match negotiation
        case Pass =>
          var client := new Client();
          libClient := client;
          r := Success(client);
        case Fail(e) =>
          r := Failure(e);
      }
    }

    /** The override of `handle(request:)`: the request goes through the user
        channel if there is one, else through the library channel, else through a
        library channel negotiated now and cached. `via` is the channel used;
        `reply` is what a channel answers. */
    method Handle(req: StopNet.Request, negotiation: Outcome,
                  reply: StopNet.Request -> Result<SessionResponse>)
      returns (r: Result<StopNet.Response>, via: Client?)
      requires Valid()
      requires userClient != null || libClient != null || net.IsHostResolved()
      modifies this
      ensures Valid()
      ensures knoxen == old(knoxen) && userClient == old(userClient)
      ensures old(userClient) != null ==> via == old(userClient) && libClient == old(libClient)
      ensures old(userClient) == null && old(libClient) != null ==>
        via == old(libClient) && libClient == old(libClient)
      ensures old(userClient) == null && old(libClient) == null && negotiation.Pass? ==>
        via != null && fresh(via) && libClient == via
      ensures old(userClient) == null && old(libClient) == null && negotiation.Fail? ==>
        via == null && libClient == null
      ensures via != null ==> via.isOpen && r == Wrap(reply(req))
      ensures via == null ==> r == Failure(negotiation.error)
    {
      if userClient != null {
        via := userClient;
        r := Wrap(reply(req));
      } else if libClient != null {
        via := libClient;
        r := Wrap(reply(req));
      } else {
        var created := LibClient(negotiation);
        match created
        case Success(client) =>
          libClient := client;
          via := client;
          r := Wrap(reply(req));
        case Failure(e) =>
          via := null;
          r := Failure(e);
      }
    }

    /** `get(path:)` (no body) and `post(path:json:)` on this backend: before
        discovery nothing is negotiated or sent and the call fails with "Host not
        resolved"; after it the request is routed as `Handle` does. */
    method Send(path: string, json: Option<StopNet.JsonMap>, negotiation: Outcome,
                reply: StopNet.Request -> Result<SessionResponse>)
      returns (r: Result<StopNet.Response>, via: Client?)
      requires Valid()
      modifies this
      ensures Valid()
      ensures knoxen == old(knoxen) && userClient == old(userClient)
      ensures !net.IsHostResolved() ==>
        r == Failure(StopNet.HostNotResolved) && via == null && libClient == old(libClient)
      ensures net.IsHostResolved() && old(userClient) != null ==> via == old(userClient)
      ensures net.IsHostResolved() && old(userClient) == null && old(libClient) != null ==>
        via == old(libClient)
      ensures net.IsHostResolved() && (old(userClient) != null || old(libClient) != null) ==>
        libClient == old(libClient)
      ensures net.IsHostResolved() && old(userClient) == null && old(libClient) == null && negotiation.Pass? ==>
        via != null && fresh(via) && libClient == via
      ensures net.IsHostResolved() && old(userClient) == null && old(libClient) == null && negotiation.Fail? ==>
        via == null && libClient == null
      ensures via != null ==> via.isOpen && r == Wrap(reply(StopNet.CreateRequest(net.hostUrl.value, path, json)))
      ensures net.IsHostResolved() && via == null ==>
        old(userClient) == null && old(libClient) == null && negotiation.Fail? && r == Failure(negotiation.error)
    {
      match net.Prepare(path, json)
      case Failure(e) =>
        r := Failure(e);
        via := null;
      case Success(req) =>
        r, via := Handle(req, negotiation, reply);
    }

    /** The override of `login(credentials:)`: obtain the library channel, ask it
        for a user channel for the credentials (`promote`), and on success store the
        user channel, close the library channel and drop it. `lib` is the library
        channel obtained, if any. A failed login changes no user channel and leaves
        the library channel cached and open. */
    method Login(c: Credentials, negotiation: Outcome, promote: Credentials -> Outcome)
      returns (ok: bool, lib: Client?)
      requires Valid()
      requires libClient != null || net.IsHostResolved()
      modifies this, libClient
      ensures Valid()
      ensures knoxen == old(knoxen)
      ensures lib == null <==> old(libClient) == null && negotiation.Fail?
      ensures old(libClient) != null ==> lib == old(libClient)
      ensures old(libClient) == null && lib != null ==> fresh(lib)
      ensures ok <==> lib != null && promote(c).Pass?
      ensures ok ==> userClient != null && fresh(userClient) && libClient == null && !lib.isOpen
      ensures !ok ==> userClient == old(userClient) && libClient == lib && (lib != null ==> lib.isOpen)
    {
      var obtained := LibClient(negotiation);
      match obtained
      case Failure(_) =>
        ok, lib := false, null;
      case Success(client) =>
        lib := client;
        match promote(c)
        case Pass =>
          var user := new Client();
          userClient := user;
          client.Close();
          libClient := null;
          ok := true;
        case Fail(_) =>
          ok := false;
    }

    /** The override of `pair(credentials:)`: obtain the library channel, register
        the credentials (`register`), and log in with the same credentials only when
        the registration code is "ok". `loginCalled` says whether login ran; `lib`
        is the library channel obtained, if any. Unless pairing succeeds, the user
        channel is unchanged and the library channel stays cached and open. */
    method Pair(c: Credentials, negotiation: Outcome,
                register: Credentials -> Result<RegistrationCode>, promote: Credentials -> Outcome)
      returns (ok: bool, loginCalled: bool, lib: Client?)
      requires Valid()
      requires libClient != null || net.IsHostResolved()
      modifies this, libClient
      ensures Valid()
      ensures knoxen == old(knoxen)
      ensures lib == null <==> old(libClient) == null && negotiation.Fail?
      ensures old(libClient) != null ==> lib == old(libClient)
      ensures old(libClient) == null && lib != null ==> fresh(lib)
      ensures loginCalled <==> lib != null && register(c) == Success(RegOk)
      ensures ok <==> loginCalled && promote(c).Pass?
      ensures ok ==> userClient != null && fresh(userClient) && libClient == null && !lib.isOpen
      ensures !ok ==> userClient == old(userClient) && libClient == lib && (lib != null ==> lib.isOpen)
    {
      ok, loginCalled, lib := false, false, null;
      var obtained := LibClient(negotiation);
      if obtained.Success? {
        lib := obtained.value;
        var registration := register(c);
        if registration.Success? && registration.value == RegOk {
          loginCalled := true;
          var same;
          ok, same := Login(c, negotiation, promote);
        }
      }
    }
  }
}
