/** The verifier object: rounds against a store, nudges into a bounded channel. */
module Verifier {
  import opened Types
  import opened Sorting
  import opened Pods
  import opened Probe
  import opened Pool
  import opened Store
  import opened Status
  import opened Round

  class TLSVerifier {
    const config: VerifyConfig
    const store: VerificationStore
    /** Size of the Events channel; None when none is wired. */
    const channel: Option<nat>
    var queue: seq<NamespacedName>

    constructor (config: VerifyConfig, store: VerificationStore, channel: Option<nat>)
      ensures this.config == config && this.store == store && this.channel == channel && queue == []
    {
      this.config, this.store, this.channel, queue := config, store, channel, [];
    }

    function Capacity(): nat {
      if channel.Some? then channel.value else 0
    }

    method Enqueue(k: NamespacedName)
      modifies this`queue
      ensures queue == if channel.Some? && |old(queue)| < channel.value then old(queue) + [k] else old(queue)
    {
      if channel.None? {
        return;
      }
      if |queue| < channel.value {
        queue := queue + [k];
      }
    }

    method EnqueueEach(keys: seq<NamespacedName>)
      modifies this`queue
      ensures queue == EnqueueAll(old(queue), Capacity(), keys)
    {
      for i := 0 to |keys|
        invariant EnqueueAll(queue, Capacity(), keys[i..]) == EnqueueAll(old(queue), Capacity(), keys)
      {
        assert keys[i..][0] == keys[i] && keys[i..][1..] == keys[i + 1..];
        Enqueue(keys[i]);
      }
    }

    /** One round. Without a trust bundle the verdicts are dropped; a failed listing or a
        cancellation publishes nothing; otherwise the outcomes of all live RemoteApps
        replace the previous ones, and the changed ones are nudged. */
    method RunOnce(bundle: bool, listed: Option<seq<RemoteApp>>, pods: Option<seq<Pod>>, network: Network,
                   start: Time, raw: nat -> nat, cancelled: bool)
      returns (ok: bool, nudged: seq<NamespacedName>, ended: Time)
      requires store.Valid()
      requires listed.Some? ==> UniqueNames(listed.value)
      modifies this`queue, store
      ensures store.Valid()
      ensures ok <==> bundle && listed.Some? && pods.Some? && !cancelled
      ensures !bundle ==> store.State() == BundleLostState(old(store.State()))
      ensures bundle && !ok ==> store.State() == old(store.State()) && store.history == old(store.history)
      ensures !ok ==> queue == old(queue)
      ensures CoherentHistory(old(store.history)) ==> CoherentHistory(store.history)
      ensures ok ==>
                var cfg := WithDefaults(config);
                var o := RoundOutcomes(listed.value, ConfiguredAim(cfg), PodGate(pods.value), network);
                && store.State() == ReplaceState(old(store.State()), o, ended)
                && store.history == old(store.history) + [Completed(ended, o)]
                && Nudges(nudged, old(store.results), o)
                && queue == EnqueueAll(old(queue), Capacity(), nudged)
      ensures ok ==> forall cr <- listed.value :: !cr.deleting ==>
                cr.key in store.results &&
                Observed(store.results[cr.key], cr, WithDefaults(config), pods.value, network)
      ensures ok ==>
                var cfg := WithDefaults(config);
                cfg.concurrency > 0 && start <= ended <= start + RoundBudget(cfg, |listed.value|)
    {
      ok, nudged, ended := false, [], start;
      var cfg := FillDefaults(config);
      DefaultsSettle(config);
      if !bundle {
        store.SetBundleUnavailable();
        return;
      }
      if listed.None? || pods.None? {
        return;
      }
      var observed, keys, end := Observe(cfg, listed.value, pods.value, store.results, network, start, raw);
      if cancelled {
        return;
      }
      RoundOutcomesMeaning(listed.value, ConfiguredAim(cfg), PodGate(pods.value), network);
      forall cr <- listed.value | !cr.deleting
        ensures cr.key in observed && Observed(observed[cr.key], cr, cfg, pods.value, network)
      {
        RoundObserves(listed.value, cfg, pods.value, network, cr);
      }
      store.Replace(observed, end);
      EnqueueEach(keys);
      ok, nudged, ended := true, keys, end;
    }
  }

  /** Everything a round does before it publishes: target, sort, probe, compare. */
  method Observe(cfg: VerifyConfig, crs: seq<RemoteApp>, pods: seq<Pod>, previous: Outcomes, network: Network,
                 start: Time, raw: nat -> nat)
    returns (observed: Outcomes, nudged: seq<NamespacedName>, end: Time)
    requires UniqueNames(crs)
    requires cfg.concurrency > 0 && cfg.timeout > 0 && cfg.upstreamTimeout > 0 && cfg.jitter >= 0
    ensures observed == RoundOutcomes(crs, ConfiguredAim(cfg), PodGate(pods), network)
    ensures Nudges(nudged, previous, observed)
    ensures start <= end <= start + RoundBudget(cfg, |crs|)
  {
    var targets, plan := BuildTargets(crs, cfg, pods, previous, start, raw);
    observed, nudged, end := ProbeInOrder(targets, cfg, crs, plan, network);
    RoundInTime(cfg, |targets|, |crs|);
  }

  method ProbeInOrder(targets: seq<Target>, cfg: VerifyConfig, crs: seq<RemoteApp>, plan: Plan, network: Network)
    returns (observed: Outcomes, nudged: seq<NamespacedName>, end: Time)
    requires UniqueNames(crs) && TargetsFor(targets, crs, plan) && plan.jitter == cfg.jitter
    requires cfg.concurrency > 0 && cfg.timeout > 0 && cfg.upstreamTimeout > 0 && cfg.jitter >= 0
    ensures observed == RoundOutcomes(crs, plan.aim, plan.gate, network)
    ensures Nudges(nudged, plan.previous, observed)
    ensures plan.start <= end <= plan.start + RoundBudget(cfg, |targets|)
  {
    var sorted := SortTargets(targets, crs, plan);
    var results: seq<Verification>;
    results, end := ProbeAll(sorted, cfg, network, plan.start);
    observed, nudged := Publishable(sorted, results, crs, plan, network);
  }

  method SortTargets(targets: seq<Target>, crs: seq<RemoteApp>, ghost plan: Plan) returns (sorted: seq<Target>)
    requires TargetsFor(targets, crs, plan)
    ensures TargetsFor(sorted, crs, plan) && |sorted| == |targets| && Sorted(StartsBefore, sorted)
    ensures forall t <- sorted :: plan.start <= t.at <= plan.start + plan.jitter
  {
    sorted := StableSort(StartsBefore, targets);
    SortedTargets(targets, crs, plan);
    forall t <- sorted ensures plan.start <= t.at <= plan.start + plan.jitter {
      var cr :| cr in crs && Aims(t, cr, plan);
    }
  }

  /** The loop over the results, and the order of the nudges. */
  method Publishable(targets: seq<Target>, results: seq<Verification>, crs: seq<RemoteApp>,
                     ghost plan: Plan, network: Network)
    returns (observed: Outcomes, nudged: seq<NamespacedName>)
    requires UniqueNames(crs) && TargetsFor(targets, crs, plan) && |results| == |targets|
    requires forall i :: 0 <= i < |targets| ==> results[i] == OutcomeOf(targets[i].probe, targets[i].ready, network)
    ensures observed == RoundOutcomes(crs, plan.aim, plan.gate, network)
    ensures Nudges(nudged, plan.previous, observed)
  {
    var changed;
    observed, changed := Collect(targets, results);
    CollectedIsRound(targets, observed, crs, plan, network);
    nudged := StableSort(KeyLess, changed);
    SortedKeysAscend(changed);
    assert nudged == StableSort(KeyLess, changed);
    assert forall i, j :: 0 <= i < j < |nudged| ==> KeyLess(nudged[i], nudged[j]);
    assert forall k :: k in nudged <==> k in changed;
    forall k ensures k in nudged <==> Differs(plan.previous, observed, k) {
      ChangedMeansDiffers(targets, crs, plan, results, observed, k);
    }
  }

  lemma RoundInTime(cfg: VerifyConfig, targets: nat, listed: nat)
    requires cfg.concurrency > 0 && cfg.timeout >= 0 && cfg.upstreamTimeout >= 0 && targets <= listed
    ensures RoundBudget(cfg, targets) <= RoundBudget(cfg, listed)
  {
    CeilDivMonotone(targets, listed, cfg.concurrency);
    Times(CeilDiv(targets, cfg.concurrency), CeilDiv(listed, cfg.concurrency), cfg.timeout + cfg.upstreamTimeout);
  }

  /** With defaults applied, a round ends before the next is due whenever its probes take
      at most half the interval. */
  lemma RoundFitsInterval(config: VerifyConfig, n: nat)
    ensures var cfg := WithDefaults(config);
            && cfg.concurrency > 0
            && var probes := CeilDiv(n, cfg.concurrency) * (cfg.timeout + cfg.upstreamTimeout);
               && RoundBudget(cfg, n) == cfg.jitter + probes
               && (2 * probes <= cfg.interval ==> RoundBudget(cfg, n) <= cfg.interval)
  {
    DefaultsSettle(config);
  }
}
