/** Configuration of the verifier and the classification of one probe. */
module Probe {
  import opened Types

  const MINUTE: nat := 60 * SECOND

  /** Durations as signed nanoseconds, as they are configured. */
  datatype VerifyConfig = VerifyConfig(
    interval: int,
    timeout: int,
    jitter: int,
    concurrency: int,
    upstreamProbe: bool,
    upstreamTimeout: int,
    clusterDomain: string,
    tlsPort: int)

  const DEFAULT_TLS_PORT := 8443

  function Positive(value: int, default: int): int {
    if value <= 0 then default else value
  }

  function WithDefaults(c: VerifyConfig): VerifyConfig {
    var interval := Positive(c.interval, 2 * MINUTE);
    var jitter := Positive(c.jitter, 30 * SECOND);
    c.(interval := interval,
       timeout := Positive(c.timeout, 5 * SECOND),
       jitter := if jitter > interval / 2 then interval / 2 else jitter,
       concurrency := Positive(c.concurrency, 8),
       upstreamTimeout := Positive(c.upstreamTimeout, 10 * SECOND),
       clusterDomain := if c.clusterDomain == "" then "cluster.local" else c.clusterDomain,
       tlsPort := if c.tlsPort == 0 then DEFAULT_TLS_PORT else c.tlsPort)
  }

  /** Field by field on a copy, as the verifier fills it in. */
  method FillDefaults(cfg: VerifyConfig) returns (c: VerifyConfig)
    ensures c == WithDefaults(cfg)
  {
    c := cfg;
    if c.interval <= 0 { c := c.(interval := 2 * MINUTE); }
    if c.timeout <= 0 { c := c.(timeout := 5 * SECOND); }
    if c.jitter <= 0 { c := c.(jitter := 30 * SECOND); }
    if c.jitter > c.interval / 2 { c := c.(jitter := c.interval / 2); }
    if c.concurrency <= 0 { c := c.(concurrency := 8); }
    if c.upstreamTimeout <= 0 { c := c.(upstreamTimeout := 10 * SECOND); }
    if c.clusterDomain == "" { c := c.(clusterDomain := "cluster.local"); }
    if c.tlsPort == 0 { c := c.(tlsPort := DEFAULT_TLS_PORT); }
  }

  /** Defaults leave a usable configuration whose jitter takes at most half the interval,
      and filling them in again changes nothing. */
  lemma DefaultsSettle(cfg: VerifyConfig)
    ensures var c := WithDefaults(cfg);
            && c.interval > 0 && c.timeout > 0 && c.concurrency > 0 && c.upstreamTimeout > 0
            && 0 <= c.jitter && 2 * c.jitter <= c.interval
            && WithDefaults(c) == c
  {
    var c := WithDefaults(cfg);
    assert c.interval / 2 >= 0 && 2 * (c.interval / 2) <= c.interval;
    assert WithDefaults(c).jitter == c.jitter;
    assert WithDefaults(c).clusterDomain == c.clusterDomain;
  }

  /** A configured value is kept, an unset one replaced; jitter is cut to half the interval. */
  lemma DefaultsKeepWhatIsSet(cfg: VerifyConfig)
    ensures var c := WithDefaults(cfg);
            && c.interval == (if cfg.interval > 0 then cfg.interval else 120 * SECOND)
            && c.timeout == (if cfg.timeout > 0 then cfg.timeout else 5 * SECOND)
            && c.concurrency == (if cfg.concurrency > 0 then cfg.concurrency else 8)
            && c.upstreamTimeout == (if cfg.upstreamTimeout > 0 then cfg.upstreamTimeout else 10 * SECOND)
            && c.upstreamProbe == cfg.upstreamProbe
            && (cfg.clusterDomain != "" ==> c.clusterDomain == cfg.clusterDomain)
            && (cfg.clusterDomain == "" ==> c.clusterDomain == "cluster.local")
            && (cfg.tlsPort != 0 ==> c.tlsPort == cfg.tlsPort) && (cfg.tlsPort == 0 ==> c.tlsPort == 8443)
            && (cfg.jitter > 0 && 2 * cfg.jitter <= c.interval ==> c.jitter == cfg.jitter)
            && (cfg.jitter <= 0 && 60 * SECOND <= c.interval ==> c.jitter == 30 * SECOND)
            && (c.jitter != cfg.jitter && c.jitter != 30 * SECOND ==> c.interval - 1 <= 2 * c.jitter <= c.interval)
  {
    var c := WithDefaults(cfg);
    assert c.interval - 1 <= 2 * (c.interval / 2) <= c.interval;
  }

  function ServiceFQDN(k: NamespacedName, clusterDomain: string): string {
    k.name + "." + k.namespace + ".svc." + clusterDomain
  }

  datatype ProbeTarget = ProbeTarget(addr: string, serverName: string, path: string, upstreamTimeout: int)

  /** What the network did with one request. */
  datatype Exchange =
    | NoResponse(detail: string)
    | Responded(statusCode: int)

  /** What the network did with one probe. */
  datatype NetworkOutcome =
    | DialFailed(detail: string)
    | HandshakeFailed(detail: string)
    | Session(exchange: Exchange)

  /** Bad Gateway, Service Unavailable, Gateway Timeout: sections 15.6.3 to 15.6.5 of RFC 9110. */
  predicate GatewayFailure(code: int) {
    code == 502 || code == 503 || code == 504
  }

  function ProbeUpstream(t: ProbeTarget, x: Exchange): UpstreamProbe {
    var url := "https://" + t.addr + t.path;
    match x
    case NoResponse(detail) => UpstreamProbe(UpstreamUnreachable, 0, url, detail)
    case Responded(code) =>
      UpstreamProbe(if GatewayFailure(code) then UpstreamUnreachable else UpstreamReachable, code, url, "")
  }

  const NOT_PROBED := UpstreamProbe(UpstreamNotProbed, 0, "", "")

  function ProbeTunnel(t: ProbeTarget, n: NetworkOutcome): (v: Verification)
    ensures Coherent(v)
    ensures v.upstream.result != UpstreamNotProbed <==> n.Session? && t.path != ""
    ensures v.result == ResultVerified <==> n.Session?
    ensures v.result == ResultUnreachable <==> n.DialFailed?
    ensures v.result == ResultCertInvalid <==> n.HandshakeFailed?
    ensures v.serverName == t.serverName && v.detail == (if n.Session? then "" else n.detail)
    ensures n.Session? && t.path != "" ==>
              && v.upstream.url == "https://" + t.addr + t.path
              && (n.exchange.Responded? ==> v.upstream.statusCode == n.exchange.statusCode && v.upstream.detail == "")
              && (n.exchange.NoResponse? ==> v.upstream.statusCode == 0 && v.upstream.detail == n.exchange.detail)
    ensures v.upstream.result == UpstreamUnreachable <==>
              n.Session? && t.path != "" && (n.exchange.Responded? ==> n.exchange.statusCode in {502, 503, 504})
  {
    match n
    case DialFailed(detail) => Verification(ResultUnreachable, detail, t.serverName, NOT_PROBED)
    case HandshakeFailed(detail) => Verification(ResultCertInvalid, detail, t.serverName, NOT_PROBED)
    case Session(x) =>
      Verification(ResultVerified, "", t.serverName, if t.path != "" then ProbeUpstream(t, x) else NOT_PROBED)
  }

  /** A tunnel whose pods do not claim to serve is reported, not probed. */
  function NotReadyOutcome(t: ProbeTarget): Verification {
    Verification(ResultNotReady, "", t.serverName, NOT_PROBED)
  }
}
