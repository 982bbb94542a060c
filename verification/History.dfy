/** One RemoteApp's probe history, and what its outages are, read off the whole
    history rather than maintained round by round. */
module History {
  import opened Types

  /** The upstream verdict of one complete round. */
  datatype Sample = Sample(at: Time, verdict: UpstreamResult)

  predicate Reached(p: seq<Sample>, i: int) {
    0 <= i < |p| && p[i].verdict == UpstreamReachable
  }

  predicate Failed(p: seq<Sample>, i: int) {
    0 <= i < |p| && p[i].verdict == UpstreamUnreachable
  }

  /** j is the last round before i that sent a request at all. */
  ghost predicate Precedes(p: seq<Sample>, j: int, i: int) {
    && 0 <= j < i <= |p|
    && p[j].verdict != UpstreamNotProbed
    && forall m :: j < m < i ==> p[m].verdict == UpstreamNotProbed
  }

  /** Round i opened an outage: it failed, and the verdict before it was not a failure. */
  ghost predicate Opens(p: seq<Sample>, i: int) {
    Failed(p, i) && forall j :: Precedes(p, j, i) ==> Reached(p, j)
  }

  /** Round i closed an outage: it succeeded, and the verdict before it was a failure. */
  ghost predicate Closes(p: seq<Sample>, i: int) {
    Reached(p, i) && exists j :: Precedes(p, j, i) && Failed(p, j)
  }

  /** t is the last good probe. */
  ghost predicate LastGood(p: seq<Sample>, t: Time) {
    exists i :: Reached(p, i) && p[i].at == t && forall j :: i < j ==> !Reached(p, j)
  }

  /** t is the start of an outage that no later round ended. */
  ghost predicate OpenOutage(p: seq<Sample>, t: Time) {
    exists i :: Opens(p, i) && p[i].at == t && forall j :: i < j ==> !Reached(p, j)
  }

  /** t is the end of the most recent outage that ended. */
  ghost predicate LastRecovery(p: seq<Sample>, t: Time) {
    exists i :: Closes(p, i) && p[i].at == t && forall j :: i < j ==> !Closes(p, j)
  }

  ghost predicate Increasing(p: seq<Sample>) {
    forall i, j :: 0 <= i < j < |p| ==> p[i].at < p[j].at
  }

  // ----- the bookkeeping one round does for one key -----

  datatype Stamps = Stamps(success: Option<Time>, down: Option<Time>, recovered: Option<Time>)

  const NO_STAMPS := Stamps(None, None, None)

  function NextStamps(s: Stamps, verdict: UpstreamResult, now: Time): Stamps {
    match verdict
    case UpstreamReachable =>
      Stamps(Some(now), None, if s.down.Some? then Some(now) else s.recovered)
    case UpstreamUnreachable =>
      s.(down := if s.down.Some? then s.down else Some(now))
    case UpstreamNotProbed => s
  }

  function StampsOf(p: seq<Sample>): Stamps {
    if p == [] then NO_STAMPS
    else
      var n := |p| - 1;
      NextStamps(StampsOf(p[..n]), p[n].verdict, p[n].at)
  }

  // ----- the bookkeeping agrees with the history -----

  /** Judgements about a round look only at the rounds before it. */
  lemma PrefixJudgements(p: seq<Sample>, n: nat)
    requires n <= |p|
    ensures forall i | i < n :: Opens(p, i) == Opens(p[..n], i)
    ensures forall i | i < n :: Closes(p, i) == Closes(p[..n], i)
    ensures forall i | i < n :: Reached(p, i) == Reached(p[..n], i)
    ensures forall j, i | i <= n :: Precedes(p, j, i) == Precedes(p[..n], j, i)
  {
    var q := p[..n];
    forall j, i | i <= n ensures Precedes(p, j, i) == Precedes(q, j, i) {
      if 0 <= j < i {
        assert forall m :: j <= m < i ==> p[m] == q[m];
      }
    }
    forall i | i < n ensures Opens(p, i) == Opens(q, i) {
      assert forall j :: Precedes(p, j, i) ==> Reached(p, j) == Reached(q, j);
    }
    forall i | i < n ensures Closes(p, i) == Closes(q, i) {
      if Closes(p, i) {
        var j :| Precedes(p, j, i) && Failed(p, j);
        assert Precedes(q, j, i) && Failed(q, j);
      }
      if Closes(q, i) {
        var j :| Precedes(q, j, i) && Failed(q, j);
        assert Precedes(p, j, i) && Failed(p, j);
      }
    }
  }

  /** An outage is open exactly when the last round that asked got no answer. */
  lemma {:induction false} DownMeansLastAskedFailed(p: seq<Sample>)
    ensures StampsOf(p).down.Some? <==> exists j :: Precedes(p, j, |p|) && Failed(p, j)
    ensures StampsOf(p).down.None? <==> forall j :: Precedes(p, j, |p|) ==> Reached(p, j)
  {
    if p != [] {
      var n := |p| - 1;
      var q := p[..n];
      DownMeansLastAskedFailed(q);
      PrefixJudgements(p, n);
      if p[n].verdict == UpstreamNotProbed {
        forall j ensures Precedes(p, j, |p|) == Precedes(q, j, |q|) {
          if Precedes(q, j, |q|) { assert Precedes(p, j, n); }
          if Precedes(p, j, |p|) { assert Precedes(p, j, n); }
        }
        if StampsOf(p).down.Some? {
          var j :| Precedes(q, j, |q|) && Failed(q, j);
          assert Precedes(p, j, |p|) && Failed(p, j);
        }
      } else {
        assert Precedes(p, n, |p|);
        assert forall j :: Precedes(p, j, |p|) ==> j == n;
      }
    } else {
      assert forall j :: !Precedes(p, j, |p|);
    }
  }

  // What each stamp means, and that absence means there is nothing to report.

  ghost predicate SuccessFaithful(p: seq<Sample>, success: Option<Time>) {
    if success.Some? then LastGood(p, success.value) else forall i :: !Reached(p, i)
  }

  ghost predicate RecoveredFaithful(p: seq<Sample>, recovered: Option<Time>) {
    if recovered.Some? then LastRecovery(p, recovered.value) else forall i :: !Closes(p, i)
  }

  lemma {:induction false} StampsSuccess(p: seq<Sample>)
    ensures SuccessFaithful(p, StampsOf(p).success)
  {
    if p != [] {
      var n := |p| - 1;
      var q := p[..n];
      StampsSuccess(q);
      assert forall i :: i < n ==> Reached(p, i) == Reached(q, i);
      if p[n].verdict == UpstreamReachable {
        assert Reached(p, n);
      } else if StampsOf(q).success.Some? {
        var i :| Reached(q, i) && q[i].at == StampsOf(q).success.value && forall j :: i < j ==> !Reached(q, j);
        assert Reached(p, i) && forall j :: i < j ==> !Reached(p, j);
      }
    }
  }

  lemma {:induction false} StampsDown(p: seq<Sample>)
    ensures StampsOf(p).down.Some? ==> OpenOutage(p, StampsOf(p).down.value)
  {
    if p != [] && StampsOf(p).down.Some? {
      var n := |p| - 1;
      var q := p[..n];
      if StampsOf(q).down.Some? {
        StampsDown(q);
        var i :| Opens(q, i) && q[i].at == StampsOf(q).down.value && forall j :: i < j ==> !Reached(q, j);
        assert Opens(p, i) by { PrefixJudgements(p, n); }
        assert forall j :: i < j < n ==> Reached(p, j) == Reached(q, j);
        assert forall j :: i < j ==> !Reached(p, j);
      } else {
        assert Opens(p, n) by { BoundaryStep(p); }
        assert forall j :: n < j ==> !Reached(p, j);
      }
    }
  }

  lemma {:induction false} StampsRecovered(p: seq<Sample>)
    ensures RecoveredFaithful(p, StampsOf(p).recovered)
  {
    if p != [] {
      var n := |p| - 1;
      var q := p[..n];
      StampsRecovered(q);
      PrefixJudgements(p, n);
      BoundaryStep(p);
      if !Closes(p, n) && StampsOf(q).recovered.Some? {
        var i :| Closes(q, i) && q[i].at == StampsOf(q).recovered.value && forall j :: i < j ==> !Closes(q, j);
        assert Closes(p, i) && forall j :: i < j ==> !Closes(p, j);
      }
    }
  }

  /** The three stamps equal the declarative values of the history. */
  lemma StampsAreTheHistory(p: seq<Sample>, t: Time)
    ensures StampsOf(p).success == Some(t) <==> LastGood(p, t)
    ensures StampsOf(p).down == Some(t) <==> OpenOutage(p, t)
    ensures StampsOf(p).recovered == Some(t) <==> LastRecovery(p, t)
  {
    StampsSuccess(p);
    StampsDown(p);
    StampsRecovered(p);
    var s := StampsOf(p);
    if LastGood(p, t) && s.success.Some? {
      OneLastGood(p, t, s.success.value);
    }
    if OpenOutage(p, t) {
      OpenOutageMeansDown(p, t);
      OneOpenOutage(p, t, s.down.value);
    }
    if LastRecovery(p, t) && s.recovered.Some? {
      OneLastRecovery(p, t, s.recovered.value);
    }
  }

  lemma OneLastGood(p: seq<Sample>, t: Time, u: Time)
    requires LastGood(p, t) && LastGood(p, u)
    ensures t == u
  {
  }

  lemma OneLastRecovery(p: seq<Sample>, t: Time, u: Time)
    requires LastRecovery(p, t) && LastRecovery(p, u)
    ensures t == u
  {
  }

  lemma OneOpenOutage(p: seq<Sample>, t: Time, u: Time)
    requires OpenOutage(p, t) && OpenOutage(p, u)
    ensures t == u
  {
    var i :| Opens(p, i) && p[i].at == t && forall j :: i < j ==> !Reached(p, j);
    var k :| Opens(p, k) && p[k].at == u && forall j :: k < j ==> !Reached(p, j);
    if i < k { FailureAfterOpening(p, i, k); }
    if k < i { FailureAfterOpening(p, k, i); }
  }

  /** Nothing opens inside an open outage. */
  lemma FailureAfterOpening(p: seq<Sample>, i: int, k: int)
    requires Failed(p, i) && i < k < |p| && forall j :: i < j ==> !Reached(p, j)
    ensures !Opens(p, k)
  {
    var j := AskedBefore(p, i, k);
    assert Precedes(p, j, k) && !Reached(p, j);
  }

  lemma {:induction false} AskedBefore(p: seq<Sample>, i: int, k: int) returns (j: int)
    requires 0 <= i < k <= |p| && p[i].verdict != UpstreamNotProbed
    ensures i <= j && Precedes(p, j, k)
  {
    j := k - 1;
    while p[j].verdict == UpstreamNotProbed
      invariant i <= j < k
      invariant forall m :: j < m < k ==> p[m].verdict == UpstreamNotProbed
      decreases j
    {
      j := j - 1;
    }
  }

  lemma OpenOutageMeansDown(p: seq<Sample>, t: Time)
    requires OpenOutage(p, t)
    ensures StampsOf(p).down.Some?
  {
    var i :| Opens(p, i) && p[i].at == t && forall j :: i < j ==> !Reached(p, j);
    var j := AskedBefore(p, i, |p|);
    assert !Reached(p, j);
    assert Precedes(p, j, |p|) && Failed(p, j);
    DownMeansLastAskedFailed(p);
  }

  // ----- order of the stamps -----

  ghost predicate Ordered(s: Stamps) {
    && (s.recovered.Some? ==> s.success.Some? && s.recovered.value <= s.success.value)
    && (s.success.Some? && s.down.Some? ==> s.success.value < s.down.value)
    && (s.recovered.Some? && s.down.Some? ==> s.recovered.value < s.down.value)
  }

  ghost predicate Before(s: Stamps, t: Time) {
    && (s.success.Some? ==> s.success.value < t)
    && (s.down.Some? ==> s.down.value < t)
    && (s.recovered.Some? ==> s.recovered.value < t)
  }

  lemma {:induction false} StampsOrdered(p: seq<Sample>)
    requires Increasing(p)
    ensures Ordered(StampsOf(p))
    ensures forall t :: (forall i :: 0 <= i < |p| ==> p[i].at < t) ==> Before(StampsOf(p), t)
  {
    if p != [] {
      var n := |p| - 1;
      StampsOrdered(p[..n]);
      assert Before(StampsOf(p[..n]), p[n].at);
      forall t: Time | forall i :: 0 <= i < |p| ==> p[i].at < t ensures Before(StampsOf(p), t) {
        assert forall i :: 0 <= i < n ==> p[..n][i].at < t by {
          assert forall i :: 0 <= i < n ==> p[..n][i] == p[i];
        }
      }
    }
  }

  // ----- outage boundaries of a history, in order -----

  datatype BoundaryKind = OutageOpened | OutageClosed

  datatype Boundary = Boundary(kind: BoundaryKind, at: Time)

  ghost function Boundaries(p: seq<Sample>): seq<Boundary> {
    if p == [] then []
    else
      var n := |p| - 1;
      Boundaries(p[..n]) +
      (if Opens(p, n) then [Boundary(OutageOpened, p[n].at)]
       else if Closes(p, n) then [Boundary(OutageClosed, p[n].at)]
       else [])
  }

  /** The boundaries of a history alternate, starting with an opening; the last one is
      the stamp the bookkeeping holds. */
  lemma {:induction false} BoundariesAlternate(p: seq<Sample>)
    ensures forall i :: 0 <= i < |Boundaries(p)| ==>
              (Boundaries(p)[i].kind == OutageOpened <==> i % 2 == 0)
    ensures |Boundaries(p)| % 2 == 1 <==> StampsOf(p).down.Some?
    ensures StampsOf(p).down.Some? ==> Boundaries(p)[|Boundaries(p)| - 1].at == StampsOf(p).down.value
    ensures StampsOf(p).recovered.Some? <==> |Boundaries(p)| >= 2
    ensures StampsOf(p).recovered.Some? ==>
              Boundaries(p)[|Boundaries(p)| / 2 * 2 - 1].at == StampsOf(p).recovered.value
  {
    if p != [] {
      var n := |p| - 1;
      BoundariesAlternate(p[..n]);
      BoundaryStep(p);
    }
  }

  /** Whether the newest round is a boundary is decided by the stamps before it. */
  lemma BoundaryStep(p: seq<Sample>)
    requires p != []
    ensures var n := |p| - 1;
            && (Opens(p, n) <==> p[n].verdict == UpstreamUnreachable && StampsOf(p[..n]).down.None?)
            && (Closes(p, n) <==> p[n].verdict == UpstreamReachable && StampsOf(p[..n]).down.Some?)
  {
    var n := |p| - 1;
    var q := p[..n];
    PrefixJudgements(p, n);
    DownMeansLastAskedFailed(q);
    if StampsOf(q).down.Some? {
      var j :| Precedes(q, j, |q|) && Failed(q, j);
      assert Precedes(p, j, n) && Failed(p, j);
    } else {
      forall j | Precedes(p, j, n) ensures Reached(p, j) {
        assert Precedes(q, j, |q|);
      }
    }
  }

  ghost function Openings(p: seq<Sample>): set<int> {
    set i | 0 <= i < |p| && Opens(p, i)
  }

  ghost function Closings(p: seq<Sample>): set<int> {
    set i | 0 <= i < |p| && Closes(p, i)
  }

  lemma MarksGrow(p: seq<Sample>)
    requires p != []
    ensures var n := |p| - 1; n !in Openings(p[..n]) && n !in Closings(p[..n])
    ensures var n := |p| - 1; Openings(p) == Openings(p[..n]) + if Opens(p, n) then {n} else {}
    ensures var n := |p| - 1; Closings(p) == Closings(p[..n]) + if Closes(p, n) then {n} else {}
  {
    PrefixJudgements(p, |p| - 1);
  }

  /** One boundary per round that opened or closed an outage; an outage is open when
      one more was opened than closed. */
  lemma {:induction false} BoundariesCount(p: seq<Sample>)
    ensures |Boundaries(p)| == |Openings(p)| + |Closings(p)|
    ensures |Openings(p)| == |Closings(p)| + if StampsOf(p).down.Some? then 1 else 0
  {
    if p != [] {
      var n := |p| - 1;
      BoundariesCount(p[..n]);
      BoundaryStep(p);
      MarksGrow(p);
      var o, c := Openings(p[..n]), Closings(p[..n]);
      assert |o + {n}| == |o| + 1 && |c + {n}| == |c| + 1;
    }
  }
}
