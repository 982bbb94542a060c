/** VerificationStore: the latest outcome of every RemoteApp plus the outage stamps. */
module Store {
  import opened Types
  import opened History

  type StampMap = map<NamespacedName, Time>

  datatype StoreState = StoreState(
    results: Outcomes,
    success: StampMap,
    down: StampMap,
    recovered: StampMap,
    bundleAvailable: bool,
    probed: bool,
    enabled: bool,
    upstreamProbe: bool)
  {
    function StampsFor(k: NamespacedName): Stamps {
      Stamps(Get(success, k), Get(down, k), Get(recovered, k))
    }
  }

  function NewState(enabled: bool, upstreamProbe: bool): StoreState {
    StoreState(map[], map[], map[], map[], false, false, enabled, enabled && upstreamProbe)
  }

  /** The upstream verdict in force for a key. */
  function Verdict(s: StoreState, k: NamespacedName): UpstreamResult {
    UpstreamOf(Get(s.results, k))
  }

  function Updated(s: StoreState, round: Outcomes, now: Time, k: NamespacedName): Stamps
    requires k in round
  {
    NextStamps(s.StampsFor(k), round[k].upstream.result, now)
  }

  function ReplaceState(s: StoreState, round: Outcomes, now: Time): StoreState {
    s.(results := round,
       success := map k | k in round && Updated(s, round, now, k).success.Some?
                  :: Updated(s, round, now, k).success.value,
       down := map k | k in round && Updated(s, round, now, k).down.Some?
               :: Updated(s, round, now, k).down.value,
       recovered := map k | k in round && Updated(s, round, now, k).recovered.Some?
                    :: Updated(s, round, now, k).recovered.value,
       bundleAvailable := true,
       probed := true)
  }

  function BundleLostState(s: StoreState): StoreState {
    s.(results := map[], bundleAvailable := false, probed := true)
  }

  lemma ReplaceStamps(s: StoreState, round: Outcomes, now: Time, k: NamespacedName)
    ensures ReplaceState(s, round, now).StampsFor(k) ==
            if k in round then Updated(s, round, now, k) else NO_STAMPS
  {
  }

  // ----- histories of a store -----

  datatype StoreOp = Completed(at: Time, outcomes: Outcomes) | BundleLost

  function Step(s: StoreState, op: StoreOp): StoreState {
    match op
    case Completed(at, outcomes) => ReplaceState(s, outcomes, at)
    case BundleLost => BundleLostState(s)
  }

  function Replay(h: seq<StoreOp>, enabled: bool, upstreamProbe: bool): StoreState {
    if h == [] then NewState(enabled, upstreamProbe)
    else Step(Replay(h[..|h| - 1], enabled, upstreamProbe), h[|h| - 1])
  }

  /** The rounds that covered k since it was last absent from a complete round. */
  function Present(h: seq<StoreOp>, k: NamespacedName): seq<Sample> {
    if h == [] then []
    else
      var n := |h| - 1;
      match h[n]
      case BundleLost => Present(h[..n], k)
      case Completed(at, outcomes) =>
        if k in outcomes then Present(h[..n], k) + [Sample(at, outcomes[k].upstream.result)] else []
  }

  /** The outcomes in force: those of the newest operation. */
  function Verdicts(h: seq<StoreOp>): Outcomes {
    if h != [] && h[|h| - 1].Completed? then h[|h| - 1].outcomes else map[]
  }

  /** The RemoteApps of the newest complete round, bundle losses aside. */
  function Covered(h: seq<StoreOp>): set<NamespacedName> {
    if h == [] then {}
    else if h[|h| - 1].Completed? then h[|h| - 1].outcomes.Keys
    else Covered(h[..|h| - 1])
  }

  ghost predicate ClockIncreases(h: seq<StoreOp>) {
    forall i, j :: 0 <= i < j < |h| && h[i].Completed? && h[j].Completed? ==> h[i].at < h[j].at
  }

  /** Every published round asked only where the handshake had verified. */
  ghost predicate CoherentHistory(h: seq<StoreOp>) {
    forall op <- h :: op.Completed? ==> CoherentRound(op.outcomes)
  }

  /** The store says exactly what its whole history says. */
  ghost predicate Refines(s: StoreState, h: seq<StoreOp>) {
    && s.results == Verdicts(h)
    && s.probed == (h != [])
    && s.bundleAvailable == (h != [] && h[|h| - 1].Completed?)
    && s.success.Keys + s.down.Keys + s.recovered.Keys <= Covered(h)
    && SuccessRefines(s.success, h) && DownRefines(s.down, h) && RecoveredRefines(s.recovered, h)
  }

  ghost predicate SuccessRefines(m: StampMap, h: seq<StoreOp>) {
    forall k, t: Time :: Get(m, k) == Some(t) <==> LastGood(Present(h, k), t)
  }

  ghost predicate DownRefines(m: StampMap, h: seq<StoreOp>) {
    forall k, t: Time :: Get(m, k) == Some(t) <==> OpenOutage(Present(h, k), t)
  }

  ghost predicate RecoveredRefines(m: StampMap, h: seq<StoreOp>) {
    forall k, t: Time :: Get(m, k) == Some(t) <==> LastRecovery(Present(h, k), t)
  }

  lemma {:induction false} ReplayStamps(h: seq<StoreOp>, enabled: bool, upstreamProbe: bool, k: NamespacedName)
    ensures Replay(h, enabled, upstreamProbe).StampsFor(k) == StampsOf(Present(h, k))
  {
    if h != [] {
      var n := |h| - 1;
      ReplayStamps(h[..n], enabled, upstreamProbe, k);
      if h[n].Completed? {
        ReplaceStamps(Replay(h[..n], enabled, upstreamProbe), h[n].outcomes, h[n].at, k);
        if k in h[n].outcomes {
          var p := Present(h, k);
          assert p[..|p| - 1] == Present(h[..n], k);
        }
      }
    }
  }

  lemma {:induction false} ReplayDomains(h: seq<StoreOp>, enabled: bool, upstreamProbe: bool)
    ensures var s := Replay(h, enabled, upstreamProbe);
            && s.success.Keys + s.down.Keys + s.recovered.Keys <= Covered(h)
            && s.enabled == enabled && s.upstreamProbe == (enabled && upstreamProbe)
  {
    if h != [] {
      ReplayDomains(h[..|h| - 1], enabled, upstreamProbe);
    }
  }

  lemma SuccessIsHistory(m: StampMap, h: seq<StoreOp>)
    requires forall k :: Get(m, k) == StampsOf(Present(h, k)).success
    ensures SuccessRefines(m, h)
  {
    forall k, t: Time ensures Get(m, k) == Some(t) <==> LastGood(Present(h, k), t) {
      StampsAreTheHistory(Present(h, k), t);
    }
  }

  lemma DownIsHistory(m: StampMap, h: seq<StoreOp>)
    requires forall k :: Get(m, k) == StampsOf(Present(h, k)).down
    ensures DownRefines(m, h)
  {
    forall k, t: Time ensures Get(m, k) == Some(t) <==> OpenOutage(Present(h, k), t) {
      StampsAreTheHistory(Present(h, k), t);
    }
  }

  lemma RecoveredIsHistory(m: StampMap, h: seq<StoreOp>)
    requires forall k :: Get(m, k) == StampsOf(Present(h, k)).recovered
    ensures RecoveredRefines(m, h)
  {
    forall k, t: Time ensures Get(m, k) == Some(t) <==> LastRecovery(Present(h, k), t) {
      StampsAreTheHistory(Present(h, k), t);
    }
  }

  lemma MapsAreHistory(s: StoreState, h: seq<StoreOp>)
    requires forall k :: s.StampsFor(k) == StampsOf(Present(h, k))
    ensures SuccessRefines(s.success, h) && DownRefines(s.down, h) && RecoveredRefines(s.recovered, h)
  {
    forall k ensures Get(s.success, k) == StampsOf(Present(h, k)).success
               && Get(s.down, k) == StampsOf(Present(h, k)).down
               && Get(s.recovered, k) == StampsOf(Present(h, k)).recovered
    {
      assert s.StampsFor(k) == StampsOf(Present(h, k));
    }
    SuccessIsHistory(s.success, h);
    DownIsHistory(s.down, h);
    RecoveredIsHistory(s.recovered, h);
  }

  /** Incremental bookkeeping agrees with the full history of rounds, after every
      sequence of rounds and bundle losses. */
  lemma StoreRefinesHistory(h: seq<StoreOp>, enabled: bool, upstreamProbe: bool)
    ensures Refines(Replay(h, enabled, upstreamProbe), h)
  {
    var s := Replay(h, enabled, upstreamProbe);
    ReplayDomains(h, enabled, upstreamProbe);
    forall k ensures s.StampsFor(k) == StampsOf(Present(h, k)) {
      ReplayStamps(h, enabled, upstreamProbe, k);
    }
    MapsAreHistory(s, h);
  }

  lemma ReplayOneMore(h: seq<StoreOp>, op: StoreOp, enabled: bool, upstreamProbe: bool)
    ensures Replay(h + [op], enabled, upstreamProbe) == Step(Replay(h, enabled, upstreamProbe), op)
    ensures Refines(Replay(h + [op], enabled, upstreamProbe), h + [op])
  {
    assert (h + [op])[..|h|] == h;
    StoreRefinesHistory(h + [op], enabled, upstreamProbe);
  }

  lemma {:induction false} PresentIncreasing(h: seq<StoreOp>, k: NamespacedName)
    requires ClockIncreases(h)
    ensures Increasing(Present(h, k))
    ensures forall x <- Present(h, k) :: exists i :: 0 <= i < |h| && h[i].Completed? && h[i].at == x.at
  {
    if h != [] {
      var n := |h| - 1;
      PresentIncreasing(h[..n], k);
      forall x <- Present(h[..n], k) ensures exists i :: 0 <= i < n && h[i].Completed? && h[i].at == x.at {
        var i :| 0 <= i < n && h[..n][i].Completed? && h[..n][i].at == x.at;
        assert h[i].Completed? && h[i].at == x.at;
      }
    }
  }

  /** With an increasing clock, in every reachable state: a recovery is no later than the
      last success, and both lie before the start of an outage that is still open. */
  lemma StampOrder(h: seq<StoreOp>, enabled: bool, upstreamProbe: bool, k: NamespacedName)
    requires ClockIncreases(h)
    ensures Ordered(Replay(h, enabled, upstreamProbe).StampsFor(k))
  {
    ReplayStamps(h, enabled, upstreamProbe, k);
    PresentIncreasing(h, k);
    StampsOrdered(Present(h, k));
  }

  /** A stored unreachable verdict always has its outage open. */
  lemma UnreachableMeansDown(h: seq<StoreOp>, enabled: bool, upstreamProbe: bool, k: NamespacedName)
    requires var s := Replay(h, enabled, upstreamProbe);
             k in s.results && s.results[k].upstream.result == UpstreamUnreachable
    ensures k in Replay(h, enabled, upstreamProbe).down
  {
  }

  // ----- the object -----

  class VerificationStore {
    var results: Outcomes
    var lastUpstreamSuccess: StampMap
    var upstreamDownSince: StampMap
    var upstreamRecoveredAt: StampMap
    var bundleAvailable: bool
    var probed: bool
    const enabled: bool
    const upstreamProbe: bool

    /** Every operation so far. */
    ghost var history: seq<StoreOp>

    ghost function State(): StoreState
      reads this
    {
      StoreState(results, lastUpstreamSuccess, upstreamDownSince, upstreamRecoveredAt,
                 bundleAvailable, probed, enabled, upstreamProbe)
    }

    ghost predicate Valid()
      reads this
    {
      State() == Replay(history, enabled, upstreamProbe)
    }

    constructor (enabled: bool, upstreamProbe: bool)
      ensures Valid() && history == []
      ensures State() == NewState(enabled, upstreamProbe)
    {
      results, lastUpstreamSuccess, upstreamDownSince, upstreamRecoveredAt := map[], map[], map[], map[];
      bundleAvailable, probed := false, false;
      this.enabled, this.upstreamProbe := enabled, enabled && upstreamProbe;
      history := [];
    }

    method Replace(round: Outcomes, now: Time)
      requires Valid()
      modifies this
      ensures Valid() && history == old(history) + [Completed(now, round)]
      ensures State() == ReplaceState(old(State()), round, now)
      ensures Refines(State(), history)
    {
      var successes, down, recovered := RebuildStamps(round, now);
      RebuiltMaps(State(), round, now, successes, down, recovered);
      results := round;
      lastUpstreamSuccess := successes;
      upstreamDownSince := down;
      upstreamRecoveredAt := recovered;
      bundleAvailable := true;
      probed := true;
      ReplayOneMore(history, Completed(now, round), enabled, upstreamProbe);
      history := history + [Completed(now, round)];
    }

    /** The loop of Replace: one pass over the round, filling three fresh maps. */
    method RebuildStamps(round: Outcomes, now: Time)
      returns (successes: StampMap, down: StampMap, recovered: StampMap)
      ensures Tallied(State(), round, now, round.Keys, successes, down, recovered)
    {
      successes, down, recovered := map[], map[], map[];
      var todo := round.Keys;
      ghost var done := {};
      while todo != {}
        invariant todo <= round.Keys && done == round.Keys - todo
        invariant Tallied(State(), round, now, done, successes, down, recovered)
        decreases |todo|
      {
        var key :| key in todo;
        successes, down, recovered := TallyKey(round, key, now, done, successes, down, recovered);
        todo := todo - {key};
        done := done + {key};
      }
      assert done == round.Keys;
    }

    method TallyKey(round: Outcomes, key: NamespacedName, now: Time, ghost done: set<NamespacedName>,
                    successes: StampMap, down: StampMap, recovered: StampMap)
      returns (successes': StampMap, down': StampMap, recovered': StampMap)
      requires key in round && done <= round.Keys - {key}
      requires Tallied(State(), round, now, done, successes, down, recovered)
      ensures Tallied(State(), round, now, done + {key}, successes', down', recovered')
    {
      NotTallied(State(), round, now, done, successes, down, recovered, key);
      successes', down', recovered' := Tally(round[key].upstream.result, key, now, successes, down, recovered);
      TallyOneMore(State(), round, now, done, key, successes, down, recovered, successes', down', recovered');
    }

    /** The switch inside that loop, for one key. */
    method Tally(verdict: UpstreamResult, key: NamespacedName, now: Time,
                 successes: StampMap, down: StampMap, recovered: StampMap)
      returns (successes': StampMap, down': StampMap, recovered': StampMap)
      requires key !in successes && key !in down && key !in recovered
      ensures Stamps(Get(successes', key), Get(down', key), Get(recovered', key)) ==
              NextStamps(State().StampsFor(key), verdict, now)
      ensures successes'.Keys + down'.Keys + recovered'.Keys <= successes.Keys + down.Keys + recovered.Keys + {key}
      ensures forall k | k != key ::
                && Get(successes', k) == Get(successes, k)
                && Get(down', k) == Get(down, k)
                && Get(recovered', k) == Get(recovered, k)
    {
      successes', down', recovered' := successes, down, recovered;
      match verdict {
        case UpstreamReachable =>
          successes' := successes[key := now];
          if key in upstreamDownSince {
            recovered' := recovered[key := now];
          } else {
            recovered' := Carry(upstreamRecoveredAt, recovered, key);
          }
        case UpstreamUnreachable =>
          successes' := Carry(lastUpstreamSuccess, successes, key);
          recovered' := Carry(upstreamRecoveredAt, recovered, key);
          if key in upstreamDownSince {
            down' := down[key := upstreamDownSince[key]];
          } else {
            down' := down[key := now];
          }
        case UpstreamNotProbed =>
          successes' := Carry(lastUpstreamSuccess, successes, key);
          down' := Carry(upstreamDownSince, down, key);
          recovered' := Carry(upstreamRecoveredAt, recovered, key);
      }
    }

    method SetBundleUnavailable()
      requires Valid()
      modifies this
      ensures Valid() && history == old(history) + [BundleLost]
      ensures State() == BundleLostState(old(State()))
      ensures Refines(State(), history)
    {
      results := map[];
      bundleAvailable := false;
      probed := true;
      ReplayOneMore(history, BundleLost, enabled, upstreamProbe);
      history := history + [BundleLost];
    }

    method Result(key: NamespacedName) returns (v: Option<Verification>)
      requires Valid()
      ensures v == Get(Verdicts(history), key)
    {
      StoreRefinesHistory(history, enabled, upstreamProbe);
      v := Get(results, key);
    }

    method LastUpstreamSuccess(key: NamespacedName) returns (t: Option<Time>)
      requires Valid()
      ensures t.Some? ==> LastGood(Present(history, key), t.value)
      ensures t.None? ==> forall u: Time :: !LastGood(Present(history, key), u)
    {
      StoreRefinesHistory(history, enabled, upstreamProbe);
      t := Get(lastUpstreamSuccess, key);
      assert forall u: Time :: t == Some(u) <==> LastGood(Present(history, key), u);
    }

    method UpstreamDownSince(key: NamespacedName) returns (t: Option<Time>)
      requires Valid()
      ensures t.Some? ==> OpenOutage(Present(history, key), t.value)
      ensures t.None? ==> forall u: Time :: !OpenOutage(Present(history, key), u)
    {
      StoreRefinesHistory(history, enabled, upstreamProbe);
      t := Get(upstreamDownSince, key);
      assert forall u: Time :: t == Some(u) <==> OpenOutage(Present(history, key), u);
    }

    method UpstreamRecoveredAt(key: NamespacedName) returns (t: Option<Time>)
      requires Valid()
      ensures t.Some? ==> LastRecovery(Present(history, key), t.value)
      ensures t.None? ==> forall u: Time :: !LastRecovery(Present(history, key), u)
    {
      StoreRefinesHistory(history, enabled, upstreamProbe);
      t := Get(upstreamRecoveredAt, key);
      assert forall u: Time :: t == Some(u) <==> LastRecovery(Present(history, key), u);
    }
  }

  function Carry(from: StampMap, to: StampMap, key: NamespacedName): StampMap {
    if key in from then to[key := from[key]] else to
  }

  /** The three maps hold the stamps of exactly the keys done so far. */
  ghost predicate Tallied(s: StoreState, round: Outcomes, now: Time, done: set<NamespacedName>,
                          successes: StampMap, down: StampMap, recovered: StampMap)
    requires done <= round.Keys
  {
    && successes.Keys + down.Keys + recovered.Keys <= done
    && forall k <- done ::
         Stamps(Get(successes, k), Get(down, k), Get(recovered, k)) == Updated(s, round, now, k)
  }

  lemma NotTallied(s: StoreState, round: Outcomes, now: Time, done: set<NamespacedName>,
                   successes: StampMap, down: StampMap, recovered: StampMap, key: NamespacedName)
    requires done <= round.Keys && Tallied(s, round, now, done, successes, down, recovered) && key !in done
    ensures key !in successes && key !in down && key !in recovered
  {
  }

  lemma TallyOneMore(s: StoreState, round: Outcomes, now: Time, done: set<NamespacedName>, key: NamespacedName,
                     s0: StampMap, d0: StampMap, r0: StampMap, s1: StampMap, d1: StampMap, r1: StampMap)
    requires done <= round.Keys && key in round && Tallied(s, round, now, done, s0, d0, r0)
    requires Stamps(Get(s1, key), Get(d1, key), Get(r1, key)) == Updated(s, round, now, key)
    requires s1.Keys + d1.Keys + r1.Keys <= s0.Keys + d0.Keys + r0.Keys + {key}
    requires forall k | k != key :: Get(s1, k) == Get(s0, k) && Get(d1, k) == Get(d0, k) && Get(r1, k) == Get(r0, k)
    ensures Tallied(s, round, now, done + {key}, s1, d1, r1)
  {
    forall k <- done + {key} ensures Stamps(Get(s1, k), Get(d1, k), Get(r1, k)) == Updated(s, round, now, k) {
      if k != key {
        assert Stamps(Get(s0, k), Get(d0, k), Get(r0, k)) == Updated(s, round, now, k);
      }
    }
  }

  lemma RebuiltMaps(s: StoreState, round: Outcomes, now: Time, successes: StampMap, down: StampMap, recovered: StampMap)
    requires Tallied(s, round, now, round.Keys, successes, down, recovered)
    ensures var after := ReplaceState(s, round, now);
            after.success == successes && after.down == down && after.recovered == recovered
  {
    var after := ReplaceState(s, round, now);
    forall k ensures Get(after.success, k) == Get(successes, k) && Get(after.down, k) == Get(down, k)
               && Get(after.recovered, k) == Get(recovered, k)
    {
      ReplaceStamps(s, round, now, k);
      assert after.StampsFor(k) == if k in round then Updated(s, round, now, k) else NO_STAMPS;
    }
    SameMap(after.success, successes);
    SameMap(after.down, down);
    SameMap(after.recovered, recovered);
  }

  lemma SameMap(a: StampMap, b: StampMap)
    requires forall k :: Get(a, k) == Get(b, k)
    ensures a == b
  {
    forall k ensures k in a <==> k in b {
      assert Get(a, k) == Get(b, k);
    }
    forall k | k in a ensures a[k] == b[k] {
      assert Get(a, k) == Get(b, k);
    }
  }
}
