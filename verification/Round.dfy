/** One probe round from listing to nudging. */
module Round {
  import opened Types
  import opened Sorting
  import opened Pods
  import opened PodIndex
  import opened Probe
  import opened Pool
  import opened Status

  datatype Target = Target(
    key: NamespacedName,
    ready: bool,
    probe: ProbeTarget,
    at: Time,
    previous: Option<Verification>)

  function ProbePath(cr: RemoteApp): string {
    if cr.probePath.Some? && cr.probePath.value != "" then cr.probePath.value else "/"
  }

  function TargetOf(cr: RemoteApp, cfg: VerifyConfig): ProbeTarget {
    var fqdn := ServiceFQDN(cr.key, cfg.clusterDomain);
    ProbeTarget(fqdn + ":" + Decimal(cfg.tlsPort), fqdn,
                if cfg.upstreamProbe then ProbePath(cr) else "", cfg.upstreamTimeout)
  }

  /** What the network answers, target by target. */
  type Network = ProbeTarget -> NetworkOutcome

  /** Where the probe of a RemoteApp goes. */
  type Aim = RemoteApp -> ProbeTarget

  /** Whether a RemoteApp's pods claim that its tunnel is up. */
  type Gate = NamespacedName -> bool

  function ConfiguredAim(cfg: VerifyConfig): Aim {
    cr => TargetOf(cr, cfg)
  }

  /** The reconciler's own join-level readiness, over the pods of the cluster. */
  function PodGate(pods: seq<Pod>): Gate {
    k => SummarizeStatus(ListTbotPods(pods, k)).0
  }

  function OutcomeOf(t: ProbeTarget, ready: bool, network: Network): Verification {
    if ready then ProbeTunnel(t, network(t)) else NotReadyOutcome(t)
  }

  /** What a round reports for one RemoteApp: its pods' own readiness and its own probe,
      nothing else. */
  function AppOutcome(cr: RemoteApp, aim: Aim, gate: Gate, network: Network): Verification {
    OutcomeOf(aim(cr), gate(cr.key), network)
  }

  /** What a round reports for a list of RemoteApps; those being deleted are left out. */
  function RoundOutcomes(crs: seq<RemoteApp>, aim: Aim, gate: Gate, network: Network): Outcomes {
    if crs == [] then map[]
    else
      var rest := RoundOutcomes(crs[..|crs| - 1], aim, gate, network);
      var cr := crs[|crs| - 1];
      if cr.deleting then rest else rest[cr.key := AppOutcome(cr, aim, gate, network)]
  }

  /** The API server names objects uniquely, and never with the empty name. */
  ghost predicate UniqueNames(crs: seq<RemoteApp>) {
    && (forall cr <- crs :: cr.key.name != "")
    && forall i, j :: 0 <= i < j < |crs| ==> crs[i].key != crs[j].key
  }

  /** Exactly the live RemoteApps are covered, each with its own outcome. */
  lemma {:induction false} RoundOutcomesMeaning(crs: seq<RemoteApp>, aim: Aim, gate: Gate, network: Network)
    requires UniqueNames(crs)
    ensures var o := RoundOutcomes(crs, aim, gate, network);
            && (forall cr <- crs :: !cr.deleting ==> cr.key in o && o[cr.key] == AppOutcome(cr, aim, gate, network))
            && (forall k <- o :: exists cr <- crs :: !cr.deleting && cr.key == k)
            && CoherentRound(o)
  {
    RoundCoversNoOther(crs, aim, gate, network);
    forall cr <- crs | !cr.deleting
      ensures var o := RoundOutcomes(crs, aim, gate, network);
              cr.key in o && o[cr.key] == AppOutcome(cr, aim, gate, network)
    {
      var i :| 0 <= i < |crs| && crs[i] == cr;
      RoundCoversOwn(crs, aim, gate, network, i);
    }
  }

  lemma {:induction false} RoundCoversOwn(crs: seq<RemoteApp>, aim: Aim, gate: Gate, network: Network, i: nat)
    requires i < |crs| && !crs[i].deleting && forall a, b :: 0 <= a < b < |crs| ==> crs[a].key != crs[b].key
    ensures var o := RoundOutcomes(crs, aim, gate, network);
            crs[i].key in o && o[crs[i].key] == AppOutcome(crs[i], aim, gate, network)
  {
    var n := |crs| - 1;
    if i < n {
      RoundCoversOwn(crs[..n], aim, gate, network, i);
    }
  }

  lemma {:induction false} RoundCoversNoOther(crs: seq<RemoteApp>, aim: Aim, gate: Gate, network: Network)
    ensures var o := RoundOutcomes(crs, aim, gate, network);
            && (forall k <- o :: exists cr <- crs :: !cr.deleting && cr.key == k)
            && CoherentRound(o)
  {
    if crs != [] {
      var n := |crs| - 1;
      var cr, rest := crs[n], crs[..n];
      RoundCoversNoOther(rest, aim, gate, network);
      forall k <- RoundOutcomes(crs, aim, gate, network) ensures exists x <- crs :: !x.deleting && x.key == k {
        if k in RoundOutcomes(rest, aim, gate, network) {
          var x :| x in rest && !x.deleting && x.key == k;
          assert x in crs;
        } else {
          assert cr in crs && !cr.deleting && cr.key == k;
        }
      }
    }
  }

  /** Where a probe goes: the Service's DNS name, that name with the configured port, and the
      configured path, "/" without one, or no path when the upstream probe is off. */
  ghost predicate AimsAt(t: ProbeTarget, cr: RemoteApp, cfg: VerifyConfig) {
    && t.serverName == cr.key.name + "." + cr.key.namespace + ".svc." + cfg.clusterDomain
    && t.addr == t.serverName + ":" + Decimal(cfg.tlsPort)
    && t.upstreamTimeout == cfg.upstreamTimeout
    && (!cfg.upstreamProbe ==> t.path == "")
    && (cfg.upstreamProbe && (cr.probePath == None || cr.probePath == Some("")) ==> t.path == "/")
    && (cfg.upstreamProbe && cr.probePath.Some? && cr.probePath.value != "" ==> t.path == cr.probePath.value)
  }

  /** What is recorded of a probe of t that met with n. */
  ghost predicate Records(v: Verification, t: ProbeTarget, n: NetworkOutcome) {
    && v.serverName == t.serverName
    && (n.DialFailed? ==> v.result == ResultUnreachable && v.detail == n.detail)
    && (n.HandshakeFailed? ==> v.result == ResultCertInvalid && v.detail == n.detail)
    && (n.Session? ==> v.result == ResultVerified)
    && (n.Session? && t.path != "" && n.exchange.Responded? ==>
          && v.upstream.statusCode == n.exchange.statusCode && v.upstream.url == "https://" + t.addr + t.path
          && (v.upstream.result == UpstreamUnreachable <==> n.exchange.statusCode in {502, 503, 504})
          && v.upstream.result != UpstreamNotProbed)
    && (n.Session? && t.path != "" && n.exchange.NoResponse? ==>
          && v.upstream.statusCode == 0 && v.upstream.detail == n.exchange.detail
          && v.upstream.result == UpstreamUnreachable)
  }

  /** What a round records for a RemoteApp over these pods and this network. */
  ghost predicate Observed(v: Verification, cr: RemoteApp, cfg: VerifyConfig, pods: seq<Pod>, network: Network) {
    var t := TargetOf(cr, cfg);
    var ready := exists p <- ListTbotPods(pods, cr.key) :: IsLive(p) && IsPodReady(p);
    && AimsAt(t, cr, cfg) && v.serverName == t.serverName
    && (!ready <==> v.result == ResultNotReady)
    && (ready ==> Records(v, t, network(t)))
    && (v.upstream.result != UpstreamNotProbed <==> cfg.upstreamProbe && ready && network(t).Session?)
  }

  /** A round records, for every live RemoteApp, what the network did with the probe of the
      place that was configured. */
  lemma RoundObserves(crs: seq<RemoteApp>, cfg: VerifyConfig, pods: seq<Pod>, network: Network, cr: RemoteApp)
    requires UniqueNames(crs) && cr in crs && !cr.deleting
    ensures var o := RoundOutcomes(crs, ConfiguredAim(cfg), PodGate(pods), network);
            cr.key in o && Observed(o[cr.key], cr, cfg, pods, network)
  {
    RoundOutcomesMeaning(crs, ConfiguredAim(cfg), PodGate(pods), network);
    SummarizeStatusMeaning(ListTbotPods(pods, cr.key));
    TargetAims(cr, cfg);
  }

  lemma TargetAims(cr: RemoteApp, cfg: VerifyConfig)
    ensures AimsAt(TargetOf(cr, cfg), cr, cfg)
  {
  }

  /** The gate is the reconciler's own join-level readiness and reads nothing a round
      publishes: while a live pod of a RemoteApp is ready every round probes it, so a
      failing upstream never un-probes itself. */
  lemma GateIgnoresVerdicts(cr: RemoteApp, aim: Aim, pods: seq<Pod>, network: Network)
    ensures var own := ListTbotPods(pods, cr.key);
            && (PodGate(pods)(cr.key) <==> exists p <- own :: IsLive(p) && IsPodReady(p))
            && (PodGate(pods)(cr.key) <==> AppOutcome(cr, aim, PodGate(pods), network).result != ResultNotReady)
            && forall prev, applyErr, reader, fmt, now ::
                 ComputeStatus(cr, own, prev, applyErr, reader, fmt, now).ready ==> PodGate(pods)(cr.key)
  {
    var own := ListTbotPods(pods, cr.key);
    SummarizeStatusMeaning(own);
    forall prev, applyErr, reader, fmt, now
      ensures ComputeStatus(cr, own, prev, applyErr, reader, fmt, now).ready ==> PodGate(pods)(cr.key)
    {
      ReadyIffNoError(cr, own, prev, applyErr, reader, fmt, now);
    }
  }

  // ----- building and ordering the targets -----

  /** What a round knows before it probes. */
  datatype Plan = Plan(aim: Aim, gate: Gate, previous: Outcomes, start: Time, jitter: nat)

  function PlanOf(cfg: VerifyConfig, pods: seq<Pod>, previous: Outcomes, start: Time): Plan {
    Plan(ConfiguredAim(cfg), PodGate(pods), previous, start, if cfg.jitter > 0 then cfg.jitter else 0)
  }

  function JitterDelay(max: int, raw: nat): (r: nat)
    ensures max <= 0 ==> r == 0
    ensures max > 0 ==> r < max && (raw < max ==> r == raw)
  {
    if max <= 0 then 0 else raw % max
  }

  predicate StartsBefore(a: Target, b: Target) { a.at < b.at }

  /** A target says of a RemoteApp what the round needs to know. */
  ghost predicate Aims(t: Target, cr: RemoteApp, plan: Plan) {
    && !cr.deleting && t.key == cr.key && t.probe == plan.aim(cr)
    && t.ready == plan.gate(t.key)
    && t.previous == Get(plan.previous, t.key)
    && plan.start <= t.at <= plan.start + plan.jitter
  }

  ghost predicate DistinctKeys(ts: seq<Target>) {
    forall i, j :: 0 <= i < j < |ts| ==> ts[i].key != ts[j].key
  }

  /** The target is that of some RemoteApp of the list. */
  ghost predicate Aimed(t: Target, crs: seq<RemoteApp>, plan: Plan) {
    exists cr <- crs :: Aims(t, cr, plan)
  }

  /** The targets of a round, in any order: one per live RemoteApp. */
  ghost predicate TargetsFor(ts: seq<Target>, crs: seq<RemoteApp>, plan: Plan) {
    && (forall t <- ts :: Aimed(t, crs, plan))
    && (forall cr <- crs :: !cr.deleting ==> Targeted(ts, cr.key))
    && DistinctKeys(ts)
  }

  /** Some target has this key. */
  ghost predicate Targeted(ts: seq<Target>, k: NamespacedName) {
    ts != [] && (ts[|ts| - 1].key == k || Targeted(ts[..|ts| - 1], k))
  }

  lemma {:induction false} TargetedAt(ts: seq<Target>, k: NamespacedName)
    ensures Targeted(ts, k) <==> exists i :: 0 <= i < |ts| && ts[i].key == k
  {
    if ts != [] {
      var rest := ts[..|ts| - 1];
      TargetedAt(rest, k);
      if Targeted(rest, k) {
        var i :| 0 <= i < |rest| && rest[i].key == k;
        assert ts[i].key == k;
      }
      if i :| 0 <= i < |ts| && ts[i].key == k {
        assert i < |ts| - 1 ==> rest[i].key == k;
      }
    }
  }

  method BuildTargets(crs: seq<RemoteApp>, cfg: VerifyConfig, allPods: seq<Pod>, previous: Outcomes,
                      start: Time, raw: nat -> nat) returns (targets: seq<Target>, plan: Plan)
    requires UniqueNames(crs)
    ensures plan == PlanOf(cfg, allPods, previous, start)
    ensures TargetsFor(targets, crs, plan)
    ensures |targets| <= |crs|
  {
    plan := PlanOf(cfg, allPods, previous, start);
    var podsByApp := GroupTunnelPods(Filter(HasRole, allPods));
    targets := [];
    for i := 0 to |crs|
      invariant |targets| <= i
      invariant TargetsFor(targets, crs[..i], plan)
    {
      targets := AddTarget(targets, crs, i, cfg, allPods, podsByApp, previous, start, raw(i));
    }
    assert crs[..|crs|] == crs;
  }

  /** One turn of the loop: a RemoteApp being deleted is passed over. */
  method AddTarget(targets: seq<Target>, crs: seq<RemoteApp>, i: nat, cfg: VerifyConfig, allPods: seq<Pod>,
                   podsByApp: PodGroups, previous: Outcomes, start: Time, raw: nat) returns (more: seq<Target>)
    requires UniqueNames(crs) && i < |crs| && Indexes(podsByApp, Filter(HasRole, allPods))
    requires TargetsFor(targets, crs[..i], PlanOf(cfg, allPods, previous, start))
    ensures TargetsFor(more, crs[..i + 1], PlanOf(cfg, allPods, previous, start))
    ensures |more| <= |targets| + 1
  {
    ghost var plan := PlanOf(cfg, allPods, previous, start);
    var cr := crs[i];
    assert crs[..i + 1] == crs[..i] + [cr];
    if cr.deleting {
      SkipTarget(targets, crs[..i], plan, cr);
      return targets;
    }
    OthersBefore(crs, i);
    var t := MakeTarget(cr, cfg, allPods, podsByApp, previous, start, raw);
    ExtendTargets(targets, crs[..i], plan, t, cr);
    more := targets + [t];
  }

  lemma OthersBefore(crs: seq<RemoteApp>, i: nat)
    requires UniqueNames(crs) && i < |crs|
    ensures crs[i].key.name != "" && forall x <- crs[..i] :: x.key != crs[i].key
  {
    assert crs[i] in crs;
  }

  /** The loop's body: the gate reads the grouped index, the jitter only delays ready ones. */
  method MakeTarget(cr: RemoteApp, cfg: VerifyConfig, allPods: seq<Pod>, podsByApp: PodGroups,
                    previous: Outcomes, start: Time, raw: nat) returns (t: Target)
    requires !cr.deleting && cr.key.name != "" && Indexes(podsByApp, Filter(HasRole, allPods))
    ensures Aims(t, cr, PlanOf(cfg, allPods, previous, start))
    ensures !t.ready || cfg.jitter <= 0 ==> t.at == start
    ensures t.ready && cfg.jitter > 0 ==> t.at < start + cfg.jitter && (raw < cfg.jitter ==> t.at == start + raw)
  {
    var ready := SummarizeStatus(Bucket(podsByApp, cr.key)).0;
    IndexIsSelector(allPods, cr.key);
    var at := if ready then start + JitterDelay(cfg.jitter, raw) else start;
    t := Target(cr.key, ready, TargetOf(cr, cfg), at, Get(previous, cr.key));
  }

  lemma SkipTarget(ts: seq<Target>, crs: seq<RemoteApp>, plan: Plan, cr: RemoteApp)
    requires TargetsFor(ts, crs, plan) && cr.deleting
    ensures TargetsFor(ts, crs + [cr], plan)
  {
  }

  lemma ExtendTargets(ts: seq<Target>, crs: seq<RemoteApp>, plan: Plan, t: Target, cr: RemoteApp)
    requires TargetsFor(ts, crs, plan) && Aims(t, cr, plan)
    requires forall x <- crs :: x.key != cr.key
    ensures TargetsFor(ts + [t], crs + [cr], plan)
  {
    var ts', crs' := ts + [t], crs + [cr];
    forall u <- ts' ensures Aimed(u, crs', plan) {
      if u in ts {
        var x :| x in crs && Aims(u, x, plan);
        assert x in crs';
      } else {
        assert cr in crs' && Aims(u, cr, plan);
      }
    }
    assert ts'[..|ts'| - 1] == ts;
    forall i | 0 <= i < |ts| ensures ts[i].key != t.key {
      assert ts[i] in ts;
      var x :| x in crs && Aims(ts[i], x, plan);
    }
  }

  /** Sorting by start time loses no target and adds none. */
  lemma SortedTargets(ts: seq<Target>, crs: seq<RemoteApp>, plan: Plan)
    requires TargetsFor(ts, crs, plan)
    ensures var sorted := StableSort(StartsBefore, ts);
            TargetsFor(sorted, crs, plan) && |sorted| == |ts| && Sorted(StartsBefore, sorted)
  {
    var sorted := StableSort(StartsBefore, ts);
    StableSortIsPermutation(StartsBefore, ts);
    StableSortSorts(StartsBefore, ts);
    SameMembers(ts, sorted);
    DistinctKeysPermute(ts, sorted);
    forall cr <- crs | !cr.deleting ensures Targeted(sorted, cr.key) {
      TargetedAt(ts, cr.key);
      var i :| 0 <= i < |ts| && ts[i].key == cr.key;
      assert ts[i] in sorted;
      TargetedAt(sorted, cr.key);
    }
  }

  lemma DistinctKeysPermute(ts: seq<Target>, sorted: seq<Target>)
    requires multiset(ts) == multiset(sorted) && DistinctKeys(ts)
    ensures DistinctKeys(sorted)
  {
    SameMembers(ts, sorted);
    forall i, j | 0 <= i < j < |sorted| ensures sorted[i].key != sorted[j].key {
      OnceInMultiset(ts, sorted[i]);
      if sorted[i] == sorted[j] {
        TwiceInMultiset(sorted, i, j);
        assert false;
      }
      assert sorted[i] in sorted && sorted[j] in sorted;
      var a :| 0 <= a < |ts| && ts[a] == sorted[i];
      var b :| 0 <= b < |ts| && ts[b] == sorted[j];
    }
  }

  lemma TwiceInMultiset<T>(s: seq<T>, i: nat, j: nat)
    requires i < j < |s| && s[i] == s[j]
    ensures multiset(s)[s[i]] >= 2
  {
    assert s == s[..j] + [s[j]] + s[j + 1..];
    assert s[i] in s[..j] by { assert s[..j][i] == s[i]; }
    assert multiset(s[..j])[s[i]] >= 1;
  }

  lemma {:induction false} OnceInMultiset<T>(s: seq<T>, x: T)
    requires forall i, j :: 0 <= i < j < |s| ==> s[i] != s[j]
    ensures multiset(s)[x] <= 1
  {
    if s != [] {
      var n := |s| - 1;
      OnceInMultiset(s[..n], x);
      assert s == s[..n] + [s[n]];
      assert forall i :: 0 <= i < n ==> s[..n][i] != s[n];
      assert s[n] !in s[..n] && s[n] !in multiset(s[..n]);
    }
  }

  // ----- probing -----

  function JobOf(t: Target, network: Network): Job {
    Job(t.ready, t.at, NotReadyOutcome(t.probe), ProbeTunnel(t.probe, network(t.probe)))
  }

  /** How long a round over n RemoteApps can take. */
  function RoundBudget(cfg: VerifyConfig, n: nat): int
    requires cfg.concurrency > 0
  {
    cfg.jitter + CeilDiv(n, cfg.concurrency) * (cfg.timeout + cfg.upstreamTimeout)
  }

  /** The pool over the sorted targets: results in target order, whatever the scheduling. */
  method ProbeAll(targets: seq<Target>, cfg: VerifyConfig, network: Network, start: Time)
    returns (results: seq<Verification>, end: Time)
    requires cfg.concurrency > 0 && cfg.timeout >= 0 && cfg.upstreamTimeout >= 0 && cfg.jitter >= 0
    requires forall t <- targets :: start <= t.at <= start + cfg.jitter
    ensures |results| == |targets|
    ensures forall i :: 0 <= i < |targets| ==> results[i] == OutcomeOf(targets[i].probe, targets[i].ready, network)
    ensures start <= end
    ensures end <= start + RoundBudget(cfg, |targets|)
  {
    var c := PoolFor(targets, cfg, network, start);
    results, end := RunPool(c);
    EndIsMakespan(c, cfg.concurrency);
  }

  /** The pool of one round: the targets in their order, as many workers as there is work
      for, up to the configured number. */
  function PoolFor(targets: seq<Target>, cfg: VerifyConfig, network: Network, start: Time): (c: Setup)
    requires cfg.concurrency > 0 && cfg.timeout >= 0 && cfg.upstreamTimeout >= 0 && cfg.jitter >= 0
    requires forall t <- targets :: start <= t.at <= start + cfg.jitter
    ensures WellFormed(c)
  {
    var jobs := seq(|targets|, i requires 0 <= i < |targets| => JobOf(targets[i], network));
    assert forall i :: 0 <= i < |targets| ==> targets[i] in targets;
    Setup(jobs, if cfg.concurrency < |targets| then cfg.concurrency else |targets|, start,
          cfg.jitter, cfg.timeout + cfg.upstreamTimeout)
  }

  /** Sorting the targets is what keeps a round from oversleeping: while any worker waits
      for a start time, no target still to be dispatched is due. */
  lemma SortedRoundOversleepsNothing(targets: seq<Target>, cfg: VerifyConfig, network: Network, start: Time,
                                     steps: seq<PoolStep>, w: nat, j: nat)
    requires cfg.concurrency > 0 && cfg.timeout >= 0 && cfg.upstreamTimeout >= 0 && cfg.jitter >= 0
    requires forall t <- targets :: start <= t.at <= start + cfg.jitter
    requires Sorted(StartsBefore, targets) && Legal(PoolFor(targets, cfg, network, start), steps)
    requires var s := Exec(PoolFor(targets, cfg, network, start), steps);
             && At(s, w) && s.workers[w].Holding? && s.workers[w].i < |targets|
             && s.clock < targets[s.workers[w].i].at
             && s.next <= j < |targets|
    ensures Exec(PoolFor(targets, cfg, network, start), steps).clock < targets[j].at
  {
    NoWorkIsOverslept(PoolFor(targets, cfg, network, start), steps, w, j);
  }

  // ----- publishing -----

  /** The outcome is new or different. */
  predicate IsChanged(t: Target, v: Verification) {
    t.previous != Some(v)
  }

  method Collect(targets: seq<Target>, results: seq<Verification>)
    returns (observed: Outcomes, changed: seq<NamespacedName>)
    requires |results| == |targets| && DistinctKeys(targets)
    ensures forall i :: 0 <= i < |targets| ==> targets[i].key in observed && observed[targets[i].key] == results[i]
    ensures forall k <- observed :: exists i :: 0 <= i < |targets| && targets[i].key == k
    ensures forall k :: k in changed <==>
              exists i :: 0 <= i < |targets| && targets[i].key == k && IsChanged(targets[i], results[i])
    ensures forall i, j :: 0 <= i < j < |changed| ==> changed[i] != changed[j]
  {
    observed, changed := map[], [];
    for i := 0 to |targets|
      invariant forall j :: 0 <= j < i ==> targets[j].key in observed && observed[targets[j].key] == results[j]
      invariant forall k <- observed :: exists j :: 0 <= j < i && targets[j].key == k
      invariant forall k :: k in changed <==>
                  exists j :: 0 <= j < i && targets[j].key == k && IsChanged(targets[j], results[j])
      invariant forall a, b :: 0 <= a < b < |changed| ==> changed[a] != changed[b]
    {
      observed := observed[targets[i].key := results[i]];
      if IsChanged(targets[i], results[i]) {
        assert targets[i].key !in changed;
        changed := changed + [targets[i].key];
      }
    }
  }

  /** Outcomes collected from an arrangement of the targets. */
  ghost predicate Collected(ts: seq<Target>, observed: Outcomes, network: Network) {
    && (forall i :: 0 <= i < |ts| ==>
          ts[i].key in observed && observed[ts[i].key] == OutcomeOf(ts[i].probe, ts[i].ready, network))
    && (forall k <- observed :: exists i :: 0 <= i < |ts| && ts[i].key == k)
  }

  /** The map collected from any arrangement of the targets is the round's outcomes: it
      depends on readiness and probe answers, not on jitter, sort order or concurrency. */
  lemma CollectedIsRound(ts: seq<Target>, observed: Outcomes, crs: seq<RemoteApp>, plan: Plan, network: Network)
    requires UniqueNames(crs) && TargetsFor(ts, crs, plan) && Collected(ts, observed, network)
    ensures observed == RoundOutcomes(crs, plan.aim, plan.gate, network)
  {
    var o := RoundOutcomes(crs, plan.aim, plan.gate, network);
    RoundOutcomesMeaning(crs, plan.aim, plan.gate, network);
    forall k <- observed ensures k in o && o[k] == observed[k] {
      CollectedKey(ts, observed, crs, plan, network, k);
    }
    forall k <- o ensures k in observed {
      var cr :| cr in crs && !cr.deleting && cr.key == k;
      TargetedAt(ts, k);
    }
  }

  lemma CollectedKey(ts: seq<Target>, observed: Outcomes, crs: seq<RemoteApp>, plan: Plan, network: Network,
                     k: NamespacedName)
    requires TargetsFor(ts, crs, plan) && Collected(ts, observed, network) && k in observed
    ensures exists cr <- crs ::
              !cr.deleting && cr.key == k && observed[k] == AppOutcome(cr, plan.aim, plan.gate, network)
  {
    var i :| 0 <= i < |ts| && ts[i].key == k;
    assert ts[i] in ts;
    var cr :| cr in crs && Aims(ts[i], cr, plan);
  }

  lemma ChangedMeansDiffers(ts: seq<Target>, crs: seq<RemoteApp>, plan: Plan, results: seq<Verification>,
                            observed: Outcomes, k: NamespacedName)
    requires TargetsFor(ts, crs, plan) && |results| == |ts|
    requires forall i :: 0 <= i < |ts| ==> ts[i].key in observed && observed[ts[i].key] == results[i]
    requires forall k <- observed :: exists i :: 0 <= i < |ts| && ts[i].key == k
    ensures (exists i :: 0 <= i < |ts| && ts[i].key == k && IsChanged(ts[i], results[i])) <==>
            Differs(plan.previous, observed, k)
  {
    forall i | 0 <= i < |ts| ensures ts[i].previous == Get(plan.previous, ts[i].key) {
      assert ts[i] in ts;
      var cr :| cr in crs && Aims(ts[i], cr, plan);
    }
    if Differs(plan.previous, observed, k) {
      var i :| 0 <= i < |ts| && ts[i].key == k;
      assert IsChanged(ts[i], results[i]);
    }
  }

  /** The keys a round nudges: those whose verdict it changed, once each, in order. */
  ghost predicate Nudges(nudged: seq<NamespacedName>, before: Outcomes, after: Outcomes) {
    && (forall k :: k in nudged <==> Differs(before, after, k))
    && (forall i, j :: 0 <= i < j < |nudged| ==> KeyLess(nudged[i], nudged[j]))
  }

  lemma SortedKeysAscend(changed: seq<NamespacedName>)
    requires forall i, j :: 0 <= i < j < |changed| ==> changed[i] != changed[j]
    ensures var sorted := StableSort(KeyLess, changed);
            && (forall k :: k in sorted <==> k in changed)
            && (forall i, j :: 0 <= i < j < |sorted| ==> KeyLess(sorted[i], sorted[j]))
            && (forall i, j :: 0 <= i < j < |sorted| ==>
                  if sorted[i].namespace == sorted[j].namespace then StringLess(sorted[i].name, sorted[j].name)
                  else StringLess(sorted[i].namespace, sorted[j].namespace))
  {
    var sorted := StableSort(KeyLess, changed);
    KeyLessIsStrictWeak();
    StableSortSorts(KeyLess, changed);
    StableSortIsPermutation(KeyLess, changed);
    SameMembers(changed, sorted);
    forall i, j | 0 <= i < j < |sorted| ensures KeyLess(sorted[i], sorted[j]) {
      OnceInMultiset(changed, sorted[i]);
      if sorted[i] == sorted[j] {
        TwiceInMultiset(sorted, i, j);
        assert false;
      }
      assert !KeyLess(sorted[j], sorted[i]);
    }
  }

  /** Sends that find the channel full are dropped. */
  function EnqueueAll(queue: seq<NamespacedName>, capacity: nat, keys: seq<NamespacedName>): seq<NamespacedName>
    decreases |keys|
  {
    if keys == [] then queue
    else EnqueueAll(if |queue| < capacity then queue + [keys[0]] else queue, capacity, keys[1..])
  }
}
