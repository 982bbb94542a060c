/** From what the network did with a probe to what the RemoteApp shows. */
module EndToEnd {
  import opened Types
  import opened History
  import opened Store
  import opened Conditions
  import opened Pods
  import opened PodIndex
  import opened Probe
  import opened Status
  import opened Round

  predicate Says(c: Option<Condition>, status: ConditionStatus, reason: string, message: string) {
    c.Some? && c.value.status == status && c.value.reason == reason && c.value.message == message
  }

  /** TunnelVerified, for a tunnel whose pods claim to serve or not and a probe that met with n. */
  ghost predicate TunnelTold(c: Option<Condition>, ready: bool, n: NetworkOutcome, host: string) {
    && (!ready ==> Says(c, StatusUnknown, "TunnelNotReady", "tunnel is not ready; certificate not verified"))
    && (ready && n.DialFailed? ==> Says(c, StatusFalse, "TunnelUnreachable", n.detail))
    && (ready && n.HandshakeFailed? ==> Says(c, StatusFalse, "CertificateInvalid", n.detail))
    && (ready && n.Session? ==>
          Says(c, StatusTrue, "CertificateVerified", "served certificate verifies for " + host))
  }

  /** What follows the diagnosis while the upstream fails: when it last answered. */
  ghost predicate LastGoodReads(p: seq<Sample>, line: string, fmt: Formats) {
    && (forall t :: LastGood(p, t) ==> line == "last good probe " + fmt.timestamp(t))
    && ((forall t :: !LastGood(p, t)) ==> line == "no good probe recorded since this replica started verifying")
  }

  /** UpstreamReachable, likewise. */
  ghost predicate FarEndTold(c: Option<Condition>, ready: bool, n: NetworkOutcome, url: string, lastGood: string,
                             fmt: Formats)
  {
    && (!ready ==> Says(c, StatusUnknown, "TunnelNotReady", "tunnel is not ready; upstream not probed"))
    && (ready && !n.Session? ==>
          Says(c, StatusUnknown, "TunnelNotVerified", "tunnel TLS did not verify; upstream not probed"))
    && (ready && n.Session? && n.exchange.NoResponse? ==>
          Says(c, StatusFalse, "UpstreamUnreachable", n.exchange.detail + "; " + lastGood))
    && (ready && n.Session? && n.exchange.Responded? && n.exchange.statusCode in {502, 503, 504} ==>
          Says(c, StatusFalse, "UpstreamUnreachable",
               "upstream returned HTTP " + StatusCodeText(n.exchange.statusCode, fmt) + " for " + url +
               "; " + lastGood))
    && (ready && n.Session? && n.exchange.Responded? && n.exchange.statusCode !in {502, 503, 504} ==>
          Says(c, StatusTrue, "UpstreamReachable",
               "upstream answered HTTP " + StatusCodeText(n.exchange.statusCode, fmt) + " for " + url))
  }

  lemma LastGoodTells(h: seq<StoreOp>, upstreamProbe: bool, k: NamespacedName, fmt: Formats)
    ensures LastGoodReads(Present(h, k), LastGoodProbe(Replay(h, true, upstreamProbe), k, fmt), fmt)
  {
    var s := Replay(h, true, upstreamProbe);
    StoreRefinesHistory(h, true, upstreamProbe);
    assert forall t: Time :: Get(s.success, k) == Some(t) <==> LastGood(Present(h, k), t);
  }

  lemma VerifiedTells(cr: RemoteApp, s: StoreState, v: Verification, ready: bool, t: ProbeTarget, n: NetworkOutcome,
                      at: Time)
    requires Get(s.results, cr.key) == Some(v)
    requires (!ready <==> v.result == ResultNotReady) && (ready ==> Records(v, t, n))
    ensures TunnelTold(Some(Stamp(VerifiedCondition(cr, s), at)), ready, n, t.serverName)
  {
  }

  lemma UpstreamTells(cr: RemoteApp, s: StoreState, v: Verification, ready: bool, t: ProbeTarget, n: NetworkOutcome,
                      fmt: Formats, at: Time)
    requires Get(s.results, cr.key) == Some(v) && t.path != ""
    requires (!ready <==> v.result == ResultNotReady) && (ready ==> Records(v, t, n))
    ensures FarEndTold(Some(Stamp(UpstreamCondition(cr, s, fmt), at)), ready, n, "https://" + t.addr + t.path,
                       LastGoodProbe(s, cr.key, fmt), fmt)
  {
  }

  /** After a round and a pass over it, from any history, the two probe conditions say what
      the network did with the probe of the configured place. */
  lemma ConditionsTellNetwork(h: seq<StoreOp>, crs: seq<RemoteApp>, cfg: VerifyConfig, allPods: seq<Pod>,
                              network: Network, cr: RemoteApp, now: Time,
                              pods: seq<Pod>, prev: seq<Condition>, applyErr: string, fmt: Formats, at: Time)
    requires UniqueNames(crs) && cr in crs && !cr.deleting
    ensures var o := RoundOutcomes(crs, ConfiguredAim(cfg), PodGate(allPods), network);
            var h' := h + [Completed(now, o)];
            var s := Replay(h', true, cfg.upstreamProbe);
            var st := ComputeStatus(cr, pods, prev, applyErr, Some(s), fmt, at);
            var lastGood := LastGoodProbe(s, cr.key, fmt);
            && LastGoodReads(Present(h', cr.key), lastGood, fmt)
            && Shown(st.conditions, lastGood, cr, cfg, allPods, network, fmt)
  {
    var o := RoundOutcomes(crs, ConfiguredAim(cfg), PodGate(allPods), network);
    var h' := h + [Completed(now, o)];
    RoundObserves(crs, cfg, allPods, network, cr);
    ReplayOneMore(h, Completed(now, o), true, cfg.upstreamProbe);
    ReplayDomains(h', true, cfg.upstreamProbe);
    LastGoodTells(h', cfg.upstreamProbe, cr.key, fmt);
    StatusShows(Replay(h', true, cfg.upstreamProbe), cr, cfg, allPods, network, o[cr.key],
                pods, prev, applyErr, fmt, at);
  }

  /** What the conditions show of a round's probe of cr. */
  ghost predicate Shown(cs: seq<Condition>, lastGood: string, cr: RemoteApp, cfg: VerifyConfig, allPods: seq<Pod>,
                        network: Network, fmt: Formats)
  {
    var t := TargetOf(cr, cfg);
    var ready := exists p <- ListTbotPods(allPods, cr.key) :: IsLive(p) && IsPodReady(p);
    AimsAt(t, cr, cfg) && BothTold(cs, ready, t, network(t), cfg.upstreamProbe, lastGood, fmt)
  }

  ghost predicate BothTold(cs: seq<Condition>, ready: bool, t: ProbeTarget, n: NetworkOutcome, upstreamProbe: bool,
                           lastGood: string, fmt: Formats)
  {
    var tunnel, farEnd := FindStatusCondition(cs, "TunnelVerified"), FindStatusCondition(cs, "UpstreamReachable");
    && TunnelTold(tunnel, ready, n, t.serverName)
    && if upstreamProbe then FarEndTold(farEnd, ready, n, "https://" + t.addr + t.path, lastGood, fmt)
       else farEnd == None
  }

  lemma StatusShows(s: StoreState, cr: RemoteApp, cfg: VerifyConfig, allPods: seq<Pod>, network: Network,
                    v: Verification, pods: seq<Pod>, prev: seq<Condition>, applyErr: string, fmt: Formats, at: Time)
    requires Observed(v, cr, cfg, allPods, network)
    requires Get(s.results, cr.key) == Some(v) && s.enabled && s.upstreamProbe == cfg.upstreamProbe
    ensures var st := ComputeStatus(cr, pods, prev, applyErr, Some(s), fmt, at);
            Shown(st.conditions, LastGoodProbe(s, cr.key, fmt), cr, cfg, allPods, network, fmt)
  {
    var t := TargetOf(cr, cfg);
    var ready := exists p <- ListTbotPods(allPods, cr.key) :: IsLive(p) && IsPodReady(p);
    BothShow(s, cr, v, ready, t, network(t), pods, prev, applyErr, fmt, at);
  }

  lemma BothShow(s: StoreState, cr: RemoteApp, v: Verification, ready: bool, t: ProbeTarget, n: NetworkOutcome,
                 pods: seq<Pod>, prev: seq<Condition>, applyErr: string, fmt: Formats, at: Time)
    requires Get(s.results, cr.key) == Some(v) && s.enabled && (s.upstreamProbe ==> t.path != "")
    requires (!ready <==> v.result == ResultNotReady) && (ready ==> Records(v, t, n))
    ensures var cs := ComputeStatus(cr, pods, prev, applyErr, Some(s), fmt, at).conditions;
            BothTold(cs, ready, t, n, s.upstreamProbe, LastGoodProbe(s, cr.key, fmt), fmt)
  {
    TunnelShows(s, cr, v, ready, t, n, pods, prev, applyErr, fmt, at);
    FarEndShows(s, cr, v, ready, t, n, pods, prev, applyErr, fmt, at);
  }

  lemma TunnelShows(s: StoreState, cr: RemoteApp, v: Verification, ready: bool, t: ProbeTarget, n: NetworkOutcome,
                    pods: seq<Pod>, prev: seq<Condition>, applyErr: string, fmt: Formats, at: Time)
    requires Get(s.results, cr.key) == Some(v) && s.enabled
    requires (!ready <==> v.result == ResultNotReady) && (ready ==> Records(v, t, n))
    ensures var cs := ComputeStatus(cr, pods, prev, applyErr, Some(s), fmt, at).conditions;
            TunnelTold(FindStatusCondition(cs, "TunnelVerified"), ready, n, t.serverName)
  {
    VerifiedAfter(cr, pods, prev, applyErr, Some(s), fmt, at);
    var cs := ComputeStatus(cr, pods, prev, applyErr, Some(s), fmt, at).conditions;
    VerifiedTells(cr, s, v, ready, t, n, FindStatusCondition(cs, TUNNEL_VERIFIED).value.lastTransition);
  }

  lemma FarEndShows(s: StoreState, cr: RemoteApp, v: Verification, ready: bool, t: ProbeTarget, n: NetworkOutcome,
                    pods: seq<Pod>, prev: seq<Condition>, applyErr: string, fmt: Formats, at: Time)
    requires Get(s.results, cr.key) == Some(v) && s.enabled && (s.upstreamProbe ==> t.path != "")
    requires (!ready <==> v.result == ResultNotReady) && (ready ==> Records(v, t, n))
    ensures var cs := ComputeStatus(cr, pods, prev, applyErr, Some(s), fmt, at).conditions;
            var c := FindStatusCondition(cs, "UpstreamReachable");
            if s.upstreamProbe
            then FarEndTold(c, ready, n, "https://" + t.addr + t.path, LastGoodProbe(s, cr.key, fmt), fmt)
            else c == None
  {
    UpstreamAfter(cr, pods, prev, applyErr, Some(s), fmt, at);
    if s.upstreamProbe {
      var cs := ComputeStatus(cr, pods, prev, applyErr, Some(s), fmt, at).conditions;
      UpstreamTells(cr, s, v, ready, t, n, fmt, FindStatusCondition(cs, UPSTREAM_REACHABLE).value.lastTransition);
    }
  }

  /** Without a verdict, after a lost bundle or before the first round, both say so. */
  lemma NoVerdictTells(s: StoreState, cr: RemoteApp, pods: seq<Pod>, prev: seq<Condition>, applyErr: string,
                       fmt: Formats, at: Time)
    requires s.enabled && s.upstreamProbe && cr.key !in s.results
    ensures var cs := ComputeStatus(cr, pods, prev, applyErr, Some(s), fmt, at).conditions;
            && Says(FindStatusCondition(cs, "TunnelVerified"), StatusUnknown, "VerificationPending",
                    "no TLS verification result yet")
            && Says(FindStatusCondition(cs, "UpstreamReachable"), StatusUnknown, "ProbePending",
                    "no upstream probe result yet")
  {
    VerifiedAfter(cr, pods, prev, applyErr, Some(s), fmt, at);
    UpstreamAfter(cr, pods, prev, applyErr, Some(s), fmt, at);
  }
}
