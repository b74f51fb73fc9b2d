/** The backend-independent part of the device client: the three network
    interfaces, the request and response shapes, discovery of the device's address
    with bounded retry, the "host not resolved" guard, and the decoding of the
    device's replies. Each backend supplies how a request is carried (`handle`). */
module StopNet {
  import opened Common
  import StopLight

  /** `StopNet.resolveAttempts`: lookups made per discovery, at most. */
  const ResolveAttempts: nat := 2

  /** `StopNet.Intf`: the three backends. */
  datatype Intf = Http | Https | Srpc

  /** `Intf.rawValue`. */
  function RawValue(i: Intf): string {
    match i
    case Http => "http"
    case Https => "https"
    case Srpc => "srpc"
  }

  function UpperChar(c: char): char {
    if 'a' <= c <= 'z' then (c as int - 32) as char else c
  }

  /** `String.uppercased()`, on ASCII letters. */
  function Upper(s: string): (r: string)
    ensures |r| == |s|
    ensures forall k :: 0 <= k < |r| ==> !('a' <= r[k] <= 'z')
    ensures forall k :: 0 <= k < |s| && !('a' <= s[k] <= 'z') ==> r[k] == s[k]
    ensures forall k :: 0 <= k < |s| && 'a' <= s[k] <= 'z' ==> 'A' <= r[k] <= 'Z' && r[k] as int - 'A' as int == s[k] as int - 'a' as int
  {
    seq(|s|, k requires 0 <= k < |s| => UpperChar(s[k]))
  }

  /** Upper-casing an upper-cased text changes nothing. */
  lemma UpperIdempotent(s: string)
    ensures Upper(Upper(s)) == Upper(s)
  {
    var u := Upper(s);
    assert forall k :: 0 <= k < |u| ==> Upper(u)[k] == u[k];
  }

  /** `Intf.name`: the raw value, upper-cased. */
  function Name(i: Intf): string {
    Upper(RawValue(i))
  }

  /** `Intf.domain`: the name the device advertises on the local network. */
  function Domain(i: Intf): string {
    RawValue(i) + ".local"
  }

  /** `Intf.port`. */
  function Port(i: Intf): int {
    match i
    case Http => 4001
    case Https => 4002
    case Srpc => 4003
  }

  /** The fixed attributes of each interface. */
  lemma InterfaceTable(i: Intf)
    ensures i == Http ==> Name(i) == "HTTP" && Domain(i) == "http.local" && Port(i) == 4001
    ensures i == Https ==> Name(i) == "HTTPS" && Domain(i) == "https.local" && Port(i) == 4002
    ensures i == Srpc ==> Name(i) == "SRPC" && Domain(i) == "srpc.local" && Port(i) == 4003
  {
    match i
    case Http =>
      assert Name(i) == "HTTP";
    case Https =>
      assert Name(i) == "HTTPS";
    case Srpc =>
      assert Name(i) == "SRPC";
  }

  /** Each interface has a port, a domain and a name of its own. */
  lemma InterfacesDistinct(i: Intf, j: Intf)
    ensures Port(i) == Port(j) ==> i == j
    ensures Domain(i) == Domain(j) ==> i == j
    ensures Name(i) == Name(j) ==> i == j
  {
    InterfaceTable(i);
    InterfaceTable(j);
  }

  /** How Swift renders a backend object in an interpolation: its class name,
      qualified by the app module. Each class is built for one interface. */
  function BackendDescription(i: Intf): string {
    match i
    case Http => "StopLight.HttpNet"
    case Https => "StopLight.HttpsNet"
    case Srpc => "StopLight.SrpcNet"
  }

  /** The URL scheme a backend is built with. */
  function SchemeFor(https: bool): (s: string)
    ensures s == "https" <==> https
    ensures s == "http" <==> !https
  {
    if https then "https" else "http"
  }

  /** `StopNet.Status`: the device's readiness to accept a session. */
  datatype DeviceStatus = Ready | Pairing | Blocked

  /** `Status.rawValue`. */
  function DeviceStatusName(s: DeviceStatus): string {
    match s
    case Ready => "ready"
    case Pairing => "pairing"
    case Blocked => "blocked"
  }

  /** `Status(rawValue:)`. */
  function ParseDeviceStatusName(s: string): Option<DeviceStatus> {
    if s == "ready" then Some(Ready)
    else if s == "pairing" then Some(Pairing)
    else if s == "blocked" then Some(Blocked)
    else None
  }

  lemma DeviceStatusNameRoundTrip(st: DeviceStatus, s: string)
    ensures ParseDeviceStatusName(DeviceStatusName(st)) == Some(st)
    ensures ParseDeviceStatusName(s) == Some(st) <==> DeviceStatusName(st) == s
  {
  }

  /** A base URL, `scheme://host:port`. */
  datatype Url = Url(scheme: string, host: string, port: int)

  /** `StopNet.JsonMap`: a flat JSON object of strings. */
  type JsonMap = map<string, string>

  /** A `URLRequest`: `path` resolved against `base`, the HTTP method, the JSON body. */
  datatype Request = Request(base: Url, path: string, httpMethod: string, body: Option<JsonMap>)

  /** Transport metadata of a reply. */
  datatype Meta = Meta(statusCode: nat)

  /** The reply bytes, seen as UTF-8 text and as what SwiftyJSON makes of them
      (the null value when they are not JSON). */
  datatype Payload = Payload(text: string, json: Json)

  /** `StopNetResponse`: built only for a successful round trip. */
  datatype Response = Response(data: Payload, response: Meta)

  /** `StopNet.useStaticHost` and `StopNet.staticHost`. */
  datatype HostConfig = HostConfig(useStaticHost: bool, staticHost: string)

  const HostNotResolved := Error("Host not resolved")
  const InvalidDeviceStatus := Error("Invalid device status response")
  const InvalidLightsStatus := Error("Failed parsing StopLight response")

  function ResolveFailed(i: Intf): Error {
    Error("Failed resolving host " + BackendDescription(i))
  }

  /** `createRequest(for:json:)`: a POST carrying the JSON body exactly when one is
      given, otherwise the default GET without a body. */
  function CreateRequest(host: Url, path: string, json: Option<JsonMap>): (r: Request)
    ensures r.base == host && r.path == path && r.body == json
    ensures r.httpMethod == "POST" <==> json.Some?
    ensures r.httpMethod == "GET" <==> json.None?
  {
    if json.Some? then Request(host, path, "POST", json) else Request(host, path, "GET", None)
  }

  /** `action(_:color:)`: the body of every request to the "light" path. */
  function Action(action: string, color: StopLight.Color): (m: JsonMap)
    ensures m.Keys == {"action", "light"}
    ensures m["action"] == action && m["light"] == StopLight.ColorName(color)
  {
    map["action" := action, "light" := StopLight.ColorName(color)]
  }

  /** The reply handling of `deviceStatus`: the `status` member must be the
      string name of a device status; a transport error is passed on unchanged. */
  function ParseDeviceStatus(r: Result<Response>): (s: Result<DeviceStatus>)
    ensures r.Failure? ==> s == Failure(r.error)
    ensures s.Success? <==>
      r.Success? && Field(r.value.data.json, "status") in
        {JString("ready"), JString("pairing"), JString("blocked")}
    ensures s.Success? ==> Field(r.value.data.json, "status") == JString(DeviceStatusName(s.value))
    ensures r.Success? && s.Failure? ==> s.error == InvalidDeviceStatus
  {
    match r
    case Failure(e) => Failure(e)
    case Success(resp) =>
      var name := StringOf(Field(resp.data.json, "status"));
      if name.Some? && ParseDeviceStatusName(name.value).Some? then
        Success(ParseDeviceStatusName(name.value).value)
      else
        Failure(InvalidDeviceStatus)
  }

  /** The reply handling of `lightsStatus`: the `status` member must be an object. */
  function ParseLightsStatus(r: Result<Response>): (s: Result<map<string, Json>>)
    ensures r.Failure? ==> s == Failure(r.error)
    ensures s.Success? <==> r.Success? && Field(r.value.data.json, "status").JObject?
    ensures s.Success? ==> Field(r.value.data.json, "status") == JObject(s.value)
    ensures r.Success? && s.Failure? ==> s.error == InvalidLightsStatus
  {
    match r
    case Failure(e) => Failure(e)
    case Success(resp) =>
      var status := Dictionary(Field(resp.data.json, "status"));
      if status.Some? then Success(status.value) else Failure(InvalidLightsStatus)
  }

  /** A reply to `status(color:)` whose text is not a lamp status crashes the app. */
  predicate LightStatusReadable(r: Result<Response>) {
    r.Success? ==> StopLight.ParseStatus(r.value.data.text).Some?
  }

  /** The reply handling of `status(color:)`: the reply text is the status name. */
  function ParseLightStatus(r: Result<Response>): (s: Result<StopLight.Status>)
    requires LightStatusReadable(r)
    ensures r.Failure? ==> s == Failure(r.error)
    ensures r.Success? ==> s.Success? && StopLight.StatusName(s.value) == r.value.data.text
  {
    match r
    case Failure(e) => Failure(e)
    case Success(resp) => Success(StopLight.ParseStatus(resp.data.text).value)
  }

  /** The reply handling of `on` and `blink`: any successful round trip confirms
      the requested colour, whatever the reply says; errors pass on unchanged. */
  function Acknowledge(color: StopLight.Color, r: Result<Response>): (s: Result<StopLight.Color>)
    ensures s.Success? <==> r.Success?
    ensures s.Success? ==> s.value == color
    ensures r.Failure? ==> s == Failure(r.error)
  {
    match r
    case Failure(e) => Failure(e)
    case Success(_) => Success(color)
  }

  /** What one discovery run does: the URL it settles on, if any, and the attempt
      numbers for which it asked the resolver. */
  datatype Resolution = Resolution(url: Option<Url>, lookups: seq<nat>)

  /** `resolveHost(attempt:)` as the source writes it, by re-invocation with the
      next attempt number; `lookup(k)` is what attempt `k` of the name lookup yields. */
  function Resolve(intf: Intf, scheme: string, config: HostConfig, attempt: nat,
                   lookup: nat -> Result<Url>): Resolution
    decreases ResolveAttempts - attempt
  {
    if attempt >= ResolveAttempts then Resolution(None, [])
    else if config.useStaticHost then
      Resolution(Some(Url(scheme, config.staticHost, Port(intf))), [])
    else match lookup(attempt)
      case Success(url) => Resolution(Some(url), [attempt])
      case Failure(_) =>
        var rest := Resolve(intf, scheme, config, attempt + 1, lookup);
        Resolution(rest.url, [attempt] + rest.lookups)
  }

  /** Discovery asks the resolver for consecutive attempts, starting at the given
      one, and never for attempt `ResolveAttempts` or later. */
  lemma {:induction false} ResolveBounded(intf: Intf, scheme: string, config: HostConfig,
                                          attempt: nat, lookup: nat -> Result<Url>)
    ensures var res := Resolve(intf, scheme, config, attempt, lookup);
      |res.lookups| <= ResolveAttempts &&
      forall k :: 0 <= k < |res.lookups| ==> res.lookups[k] == attempt + k < ResolveAttempts
    decreases ResolveAttempts - attempt
  {
    if attempt < ResolveAttempts && !config.useStaticHost && lookup(attempt).Failure? {
      ResolveBounded(intf, scheme, config, attempt + 1, lookup);
    }
  }

  /** With a static host, discovery never asks the resolver and settles on
      `scheme://staticHost:port` unless the attempts are already used up. */
  lemma ResolveStatic(intf: Intf, scheme: string, config: HostConfig, attempt: nat,
                      lookup: nat -> Result<Url>)
    requires config.useStaticHost
    ensures var res := Resolve(intf, scheme, config, attempt, lookup);
      res.lookups == [] &&
      res.url == if attempt < ResolveAttempts then Some(Url(scheme, config.staticHost, Port(intf))) else None
  {
  }

  /** Without a static host, discovery succeeds exactly when some attempt's lookup
      succeeds; it stops at the first success and takes that URL; when it fails it
      has tried every remaining attempt. */
  lemma {:induction false} ResolveFirstSuccess(intf: Intf, scheme: string, config: HostConfig,
                                               attempt: nat, lookup: nat -> Result<Url>)
    requires !config.useStaticHost
    ensures var res := Resolve(intf, scheme, config, attempt, lookup);
      (res.url.Some? <==> exists k :: attempt <= k < ResolveAttempts && lookup(k).Success?) &&
      (forall k :: 0 <= k < |res.lookups| - 1 ==> lookup(res.lookups[k]).Failure?) &&
      (res.url.Some? ==> |res.lookups| > 0 && lookup(res.lookups[|res.lookups| - 1]) == Success(res.url.value)) &&
      (res.url.None? ==> |res.lookups| == (if attempt < ResolveAttempts then ResolveAttempts - attempt else 0))
    decreases ResolveAttempts - attempt
  {
    var res := Resolve(intf, scheme, config, attempt, lookup);
    if attempt < ResolveAttempts {
      if lookup(attempt).Failure? {
        ResolveFirstSuccess(intf, scheme, config, attempt + 1, lookup);
        var rest := Resolve(intf, scheme, config, attempt + 1, lookup);
        assert res.lookups == [attempt] + rest.lookups;
        if rest.url.Some? {
          var k :| attempt + 1 <= k < ResolveAttempts && lookup(k).Success?;
          assert attempt <= k;
        }
        if res.url.Some? {
          var k :| attempt <= k < ResolveAttempts && lookup(k).Success?;
          assert k != attempt;
        }
      }
    }
  }

  /** The state of every backend: its interface, its URL scheme, and the base URL
      discovery found for it. */
  class StopNet {
    const intf: Intf
    const scheme: string
    var hostUrl: Option<Url>

    /** `init(intf:https:)`. */
    constructor (intf: Intf, https: bool)
      ensures this.intf == intf && scheme == SchemeFor(https) && hostUrl == None
    {
      this.intf := intf;
      scheme := SchemeFor(https);
      hostUrl := None;
    }

    predicate IsHostResolved()
      reads this
    {
      hostUrl.Some?
    }

    /** The guard of `get` and `post` followed by `createRequest`: before discovery
        no request is built and the call fails with "Host not resolved". */
    function Prepare(path: string, json: Option<JsonMap>): (r: Result<Request>)
      reads this
      ensures r.Failure? <==> !IsHostResolved()
      ensures r.Failure? ==> r.error == HostNotResolved
      ensures r.Success? ==> r.value == CreateRequest(hostUrl.value, path, json)
    {
      if hostUrl.None? then Failure(HostNotResolved) else Success(CreateRequest(hostUrl.value, path, json))
    }

    /** `get(path:)` over a backend whose transport is `handle`: `handle` sees a GET
        only once the host is resolved. */
    function Get(path: string, handle: Request -> Result<Response>): (r: Result<Response>)
      reads this
      ensures !IsHostResolved() ==> r == Failure(HostNotResolved)
      ensures IsHostResolved() ==> r == handle(Request(hostUrl.value, path, "GET", None))
    {
      match Prepare(path, None)
      case Failure(e) => Failure(e)
      case Success(req) => handle(req)
    }

    /** `post(path:json:)`: `handle` sees a POST with the JSON body only once the host is resolved. */
    function Post(path: string, json: JsonMap, handle: Request -> Result<Response>): (r: Result<Response>)
      reads this
      ensures !IsHostResolved() ==> r == Failure(HostNotResolved)
      ensures IsHostResolved() ==> r == handle(Request(hostUrl.value, path, "POST", Some(json)))
    {
      match Prepare(path, Some(json))
      case Failure(e) => Failure(e)
      case Success(req) => handle(req)
    }

    /** `deviceStatus`: GET "device/status" and decode the reply. */
    function DeviceStatus(handle: Request -> Result<Response>): (s: Result<DeviceStatus>)
      reads this
      ensures !IsHostResolved() ==> s == Failure(HostNotResolved)
      ensures IsHostResolved() ==>
        s == ParseDeviceStatus(handle(Request(hostUrl.value, "device/status", "GET", None)))
    {
      ParseDeviceStatus(Get("device/status", handle))
    }

    /** `lightsStatus`: GET "status" and decode the reply. */
    function LightsStatus(handle: Request -> Result<Response>): (s: Result<map<string, Json>>)
      reads this
      ensures !IsHostResolved() ==> s == Failure(HostNotResolved)
      ensures IsHostResolved() ==>
        s == ParseLightsStatus(handle(Request(hostUrl.value, "status", "GET", None)))
    {
      ParseLightsStatus(Get("status", handle))
    }

    /** `status(color:)`: POST the "status" action for `color` to "light". */
    function LightStatus(color: StopLight.Color, handle: Request -> Result<Response>): (s: Result<StopLight.Status>)
      reads this
      requires LightStatusReadable(Post("light", Action("status", color), handle))
      ensures !IsHostResolved() ==> s == Failure(HostNotResolved)
      ensures IsHostResolved() ==>
        s == ParseLightStatus(handle(Request(hostUrl.value, "light", "POST", Some(Action("status", color)))))
    {
      ParseLightStatus(Post("light", Action("status", color), handle))
    }

    /** `on(color:)`: POST the "switch" action; success confirms `color`. */
    function On(color: StopLight.Color, handle: Request -> Result<Response>): (s: Result<StopLight.Color>)
      reads this
      ensures s.Success? <==> (IsHostResolved() &&
        handle(Request(hostUrl.value, "light", "POST", Some(Action("switch", color)))).Success?)
      ensures s.Success? ==> s.value == color
      ensures !IsHostResolved() ==> s == Failure(HostNotResolved)
    {
      Acknowledge(color, Post("light", Action("switch", color), handle))
    }

    /** `blink(color:)`: POST the "blink" action; success confirms `color`. */
    function Blink(color: StopLight.Color, handle: Request -> Result<Response>): (s: Result<StopLight.Color>)
      reads this
      ensures s.Success? <==> (IsHostResolved() &&
        handle(Request(hostUrl.value, "light", "POST", Some(Action("blink", color)))).Success?)
      ensures s.Success? ==> s.value == color
      ensures !IsHostResolved() ==> s == Failure(HostNotResolved)
    {
      Acknowledge(color, Post("light", Action("blink", color), handle))
    }

    /** `resolveHost(attempt:)`, with the re-invocation for the next attempt
        written as a loop. `tried` lists the attempts for which the resolver was
        asked. On success the base URL is stored; on failure it is left as it was. */
    method ResolveHost(config: HostConfig, attempt: nat, lookup: nat -> Result<Url>)
      returns (r: Result<bool>, tried: seq<nat>)
      modifies this
      ensures var res := Resolve(intf, scheme, config, attempt, lookup);
        tried == res.lookups &&
        (r.Success? <==> res.url.Some?) &&
        (r.Success? ==> r.value && hostUrl == res.url) &&
        (r.Failure? ==> r.error == ResolveFailed(intf) && hostUrl == old(hostUrl))
      ensures |tried| <= ResolveAttempts
      ensures config.useStaticHost ==> tried == []
    {
      var next := attempt;
      tried := [];
      while next < ResolveAttempts
        invariant attempt <= next
        invariant hostUrl == old(hostUrl)
        invariant config.useStaticHost ==> next == attempt && tried == []
        invariant var whole := Resolve(intf, scheme, config, attempt, lookup);
          var rest := Resolve(intf, scheme, config, next, lookup);
          whole == Resolution(rest.url, tried + rest.lookups)
        decreases ResolveAttempts - next
      {
        if config.useStaticHost {
          hostUrl := Some(Url(scheme, config.staticHost, Port(intf)));
          r := Success(true);
          ResolveBounded(intf, scheme, config, attempt, lookup);
          return;
        }
        var found := lookup(next);
        ghost var rest := Resolve(intf, scheme, config, next + 1, lookup);
        if found.Success? {
          hostUrl := Some(found.value);
          tried := tried + [next];
          r := Success(true);
          ResolveBounded(intf, scheme, config, attempt, lookup);
          return;
        }
        assert tried + [next] + rest.lookups == tried + ([next] + rest.lookups);
        tried := tried + [next];
        next := next + 1;
      }
      r := Failure(ResolveFailed(intf));
      ResolveBounded(intf, scheme, config, attempt, lookup);
    }
  }
}
