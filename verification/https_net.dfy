/** The secure backend: the HTTP backend built for the https interface and the
    https scheme. Its requests, replies, login and pairing are HttpNet's. */
module HttpsNet {
  import opened Common
  import StopNet

  /** `HttpsNet()`: the secure interface over the https scheme, not yet resolved. */
  method NewHttpsNet() returns (net: StopNet.StopNet)
    ensures fresh(net)
    ensures net.intf == StopNet.Https && net.scheme == "https" && !net.IsHostResolved()
  {
    net := new StopNet.StopNet(StopNet.Https, true);
  }

  /** Where the secure backend listens and what a static host resolves it to. */
  lemma HttpsEndpoint(config: StopNet.HostConfig, lookup: nat -> Result<StopNet.Url>)
    requires config.useStaticHost
    ensures StopNet.Port(StopNet.Https) == 4002 && StopNet.Domain(StopNet.Https) == "https.local"
    ensures StopNet.Resolve(StopNet.Https, StopNet.SchemeFor(true), config, 0, lookup).url ==
      Some(StopNet.Url("https", config.staticHost, 4002))
  {
    StopNet.InterfaceTable(StopNet.Https);
  }
}
