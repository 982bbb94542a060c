/** The exported series as a projection of the store. */
module Metrics {
  import opened Types
  import opened Store
  import opened Conditions
  import opened Pods
  import opened Status

  datatype Series =
    | Available(usable: bool)
    | TLSVerification(key: NamespacedName, result: VerificationResult)
    | UpstreamProbeStatus(key: NamespacedName, upstream: UpstreamResult, statusCode: int)

  function KeySeries(k: NamespacedName, v: Verification): set<Series> {
    {TLSVerification(k, v.result)} +
    if v.upstream.result != UpstreamNotProbed
    then {UpstreamProbeStatus(k, v.upstream.result, v.upstream.statusCode)} else {}
  }

  function SeriesOf(s: StoreState): set<Series> {
    if !s.enabled then {}
    else (if s.probed then {Available(s.bundleAvailable)} else {}) +
         SeriesFor(s.results, s.results.Keys)
  }

  function SeriesFor(results: Outcomes, keys: set<NamespacedName>): set<Series>
    requires keys <= results.Keys
  {
    set k, x | k in keys && x in KeySeries(k, results[k]) :: x
  }

  lemma SeriesGrow(results: Outcomes, keys: set<NamespacedName>, k: NamespacedName)
    requires keys <= results.Keys && k in results
    ensures SeriesFor(results, keys + {k}) == SeriesFor(results, keys) + KeySeries(k, results[k])
  {
  }

  /** One scrape. */
  method Collect(s: StoreState) returns (out: set<Series>)
    ensures out == SeriesOf(s)
  {
    if !s.enabled {
      return {};
    }
    out := CollectResults(s.results);
    if s.probed {
      out := {Available(s.bundleAvailable)} + out;
    }
  }

  /** The loop over the results, in any order. */
  method CollectResults(results: Outcomes) returns (out: set<Series>)
    ensures out == SeriesFor(results, results.Keys)
  {
    out := {};
    var todo := results.Keys;
    while todo != {}
      invariant todo <= results.Keys
      invariant out == SeriesFor(results, results.Keys - todo)
      decreases |todo|
    {
      var k :| k in todo;
      ghost var done := results.Keys - todo;
      SeriesGrow(results, done, k);
      out := out + KeySeries(k, results[k]);
      todo := todo - {k};
      assert results.Keys - todo == done + {k};
    }
    assert results.Keys - todo == results.Keys;
  }

  /** The availability gauge: it is exported from the first operation on and is up exactly
      when the newest one completed a round. A disabled store exports nothing. */
  lemma AvailabilityTells(h: seq<StoreOp>, enabled: bool, upstreamProbe: bool)
    ensures var out := SeriesOf(Replay(h, enabled, upstreamProbe));
            && (!enabled ==> out == {})
            && (enabled ==> forall b :: Available(b) in out <==> h != [] && (b <==> h[|h| - 1].Completed?))
  {
    ReplayDomains(h, enabled, upstreamProbe);
    StoreRefinesHistory(h, enabled, upstreamProbe);
    var s := Replay(h, enabled, upstreamProbe);
    forall b ensures Available(b) !in SeriesFor(s.results, s.results.Keys) {}
  }

  /** A request was sent, with this class and status. */
  predicate Exported(u: UpstreamProbe, r: UpstreamResult, c: int) {
    r != UpstreamNotProbed && u.result == r && u.statusCode == c
  }

  /** What a scrape can say about one RemoteApp. */
  lemma SeriesForKey(s: StoreState, k: NamespacedName)
    requires s.enabled
    ensures forall r :: TLSVerification(k, r) in SeriesOf(s) <==> k in s.results && s.results[k].result == r
    ensures forall r, c :: UpstreamProbeStatus(k, r, c) in SeriesOf(s) <==>
              k in s.results && Exported(s.results[k].upstream, r, c)
  {
    forall r ensures TLSVerification(k, r) in SeriesOf(s) <==> k in s.results && s.results[k].result == r {
      if k in s.results && s.results[k].result == r {
        assert TLSVerification(k, r) in KeySeries(k, s.results[k]);
      }
    }
    forall r, c ensures UpstreamProbeStatus(k, r, c) in SeriesOf(s) <==>
        k in s.results && Exported(s.results[k].upstream, r, c)
    {
      if k in s.results && Exported(s.results[k].upstream, r, c) {
        assert UpstreamProbeStatus(k, r, c) in KeySeries(k, s.results[k]);
      }
    }
  }

  /** The series about one RemoteApp and its two probe conditions denote the same verdicts. */
  ghost predicate SameVerdicts(out: set<Series>, k: NamespacedName, tls: ConditionStatus, up: ConditionStatus) {
    && (tls == StatusTrue <==> TLSVerification(k, ResultVerified) in out)
    && (tls == StatusFalse <==>
          TLSVerification(k, ResultCertInvalid) in out || TLSVerification(k, ResultUnreachable) in out)
    && (tls == StatusUnknown <==>
          TLSVerification(k, ResultNotReady) in out || forall r :: TLSVerification(k, r) !in out)
    && (up == StatusTrue <==> exists c :: UpstreamProbeStatus(k, UpstreamReachable, c) in out)
    && (up == StatusFalse <==> exists c :: UpstreamProbeStatus(k, UpstreamUnreachable, c) in out)
    && (up == StatusUnknown <==> forall r, c :: UpstreamProbeStatus(k, r, c) !in out)
    && (forall r, r' :: TLSVerification(k, r) in out && TLSVerification(k, r') in out ==> r == r')
  }

  /** Metrics and conditions never disagree, in every reachable state of an enabled store. */
  lemma MetricsMatchConditions(h: seq<StoreOp>, upstreamProbe: bool, cr: RemoteApp, fmt: Formats)
    requires CoherentHistory(h)
    ensures var s := Replay(h, true, upstreamProbe);
            SameVerdicts(SeriesOf(s), cr.key, VerifiedCondition(cr, s).status, UpstreamCondition(cr, s, fmt).status)
  {
    var s := Replay(h, true, upstreamProbe);
    ReplayDomains(h, true, upstreamProbe);
    ResultsAreCoherent(h, upstreamProbe);
    UpstreamStatusMeaning(cr, s, fmt);
    VerifiedStatusMeaning(cr, s);
    ProjectionsMeet(s, cr.key, VerifiedCondition(cr, s).status, UpstreamCondition(cr, s, fmt).status);
  }

  lemma VerifiedStatusMeaning(cr: RemoteApp, s: StoreState)
    ensures VerifiedCondition(cr, s).status == VerifiedStatus(Get(s.results, cr.key))
  {
  }

  lemma ProjectionsMeet(s: StoreState, k: NamespacedName, tls: ConditionStatus, up: ConditionStatus)
    requires s.enabled && tls == VerifiedStatus(Get(s.results, k))
    requires up == StatusFor(Verdict(s, k))
    ensures SameVerdicts(SeriesOf(s), k, tls, up)
  {
    SeriesForKey(s, k);
    VerdictsMeet(SeriesOf(s), k, Get(s.results, k), tls, up);
  }

  lemma ResultsAreCoherent(h: seq<StoreOp>, upstreamProbe: bool)
    requires CoherentHistory(h)
    ensures CoherentRound(Replay(h, true, upstreamProbe).results)
  {
  }

  function VerifiedStatus(verdict: Option<Verification>): ConditionStatus {
    if verdict.None? || verdict.value.result == ResultNotReady then StatusUnknown
    else if verdict.value.result == ResultVerified then StatusTrue
    else StatusFalse
  }

  lemma VerdictsMeet(out: set<Series>, k: NamespacedName, verdict: Option<Verification>,
                     tls: ConditionStatus, up: ConditionStatus)
    requires forall r :: TLSVerification(k, r) in out <==> verdict.Some? && verdict.value.result == r
    requires forall r, c :: UpstreamProbeStatus(k, r, c) in out <==>
               verdict.Some? && Exported(verdict.value.upstream, r, c)
    requires tls == VerifiedStatus(verdict) && up == StatusFor(UpstreamOf(verdict))
    ensures SameVerdicts(out, k, tls, up)
  {
    if verdict.Some? {
      var v := verdict.value;
      assert TLSVerification(k, v.result) in out;
      assert v.upstream.result != UpstreamNotProbed ==>
          UpstreamProbeStatus(k, v.upstream.result, v.upstream.statusCode) in out;
    }
  }

  /** The same for the status a pass writes: the conditions it leaves exist exactly where
      the store says so, and carry what a scrape of the same store exports. */
  lemma StatusMatchesMetrics(h: seq<StoreOp>, upstreamProbe: bool, cr: RemoteApp, pods: seq<Pod>, prev: seq<Condition>,
                             applyErr: string, fmt: Formats, now: Time)
    requires CoherentHistory(h)
    ensures var s := Replay(h, true, upstreamProbe); var k, out := cr.key, SeriesOf(s);
            var cs := ComputeStatus(cr, pods, prev, applyErr, Some(s), fmt, now).conditions;
            var tls, up := FindStatusCondition(cs, TUNNEL_VERIFIED), FindStatusCondition(cs, UPSTREAM_REACHABLE);
            && tls.Some? && (up.Some? <==> upstreamProbe)
            && (tls.value.status == StatusTrue <==> TLSVerification(k, ResultVerified) in out)
            && (tls.value.status == StatusFalse <==>
                  TLSVerification(k, ResultCertInvalid) in out || TLSVerification(k, ResultUnreachable) in out)
            && (up.Some? ==>
                  && (up.value.status == StatusTrue <==>
                        exists c :: UpstreamProbeStatus(k, UpstreamReachable, c) in out)
                  && (up.value.status == StatusFalse <==>
                        exists c :: UpstreamProbeStatus(k, UpstreamUnreachable, c) in out))
  {
    var s := Replay(h, true, upstreamProbe);
    MetricsMatchConditions(h, upstreamProbe, cr, fmt);
    ReplayDomains(h, true, upstreamProbe);
    VerifiedAfter(cr, pods, prev, applyErr, Some(s), fmt, now);
    UpstreamAfter(cr, pods, prev, applyErr, Some(s), fmt, now);
  }
}
