/** Where exactly-once ends: for each hypothesis of EventsAreExact, the runs that miss it. */
module EventLimits {
  import opened Types
  import opened History
  import opened Store
  import opened Conditions
  import opened Status
  import opened Events
  import opened EventRuns

  // ----- building blocks -----

  function Answer(result: VerificationResult, upstream: UpstreamResult): Verification {
    Verification(result, "", "", UpstreamProbe(upstream, 0, "", ""))
  }

  function Unanswered(key: NamespacedName): Outcomes {
    map[key := Answer(ResultVerified, UpstreamUnreachable)]
  }

  function Answered(key: NamespacedName): Outcomes {
    map[key := Answer(ResultVerified, UpstreamReachable)]
  }

  function NotReady(key: NamespacedName): Outcomes {
    map[key := Answer(ResultNotReady, UpstreamNotProbed)]
  }

  const QUIET_PASS := ReconcilePass([], 1, "", true)

  ghost predicate Ascending(t: seq<Time>) {
    forall i, j :: 0 <= i < j < |t| ==> t[i] < t[j]
  }

  /** A verifier whose attempts are at least a second apart is always spaced, wherever the
      passes fall. */
  lemma SecondsApartAreSpaced(xs: seq<Timed>)
    requires Timeline(xs)
    requires forall i, j :: 0 <= i < j < |xs| && IsAttempt(xs[i]) && IsAttempt(xs[j]) ==> xs[i].at + SECOND <= xs[j].at
    ensures Spaced(xs)
  {
    forall i, j, k | 0 <= i < j < k < |xs| &&
        xs[i].action.ProbeRound? && IsAttempt(xs[j]) && xs[k].action.ReconcilePass?
      ensures xs[i].at < WholeSecond(xs[k].at)
    {
      LessThanASecond(xs[k].at);
    }
  }

  lemma LessThanASecond(t: Time)
    ensures t < WholeSecond(t) + SECOND
  {
  }

  /** A round and an accepted pass over it lead from w to w'. */
  ghost predicate RoundAndPass(key: NamespacedName, w: World, w': World, round: Outcomes, t: Time, u: Time) {
    PassLeads(key, w.(store := ReplaceState(w.store, round, t)), w', u)
  }

  lemma RoundThenPass(key: NamespacedName, fmt: Formats, xs: seq<Timed>, t: Time, u: Time, round: Outcomes)
    requires CoherentRounds(xs) && CoherentRound(round)
    ensures var ys := xs + [Timed(t, ProbeRound(round)), Timed(u, QUIET_PASS)];
            && CoherentRounds(ys)
            && RoundAndPass(key, Run(key, fmt, NEW_STATUS, xs), Run(key, fmt, NEW_STATUS, ys), round, t, u)
  {
    CoherentWithRound(xs, t, u, round);
    StoreFacts(key, fmt, NEW_STATUS, xs);
    RunRoundAndPass(key, fmt, xs, t, u, round);
    PassAfterRound(key, fmt, Run(key, fmt, NEW_STATUS, xs), t, u, round);
  }

  lemma CoherentWithRound(xs: seq<Timed>, t: Time, u: Time, round: Outcomes)
    requires CoherentRounds(xs) && CoherentRound(round)
    ensures CoherentRounds(xs + [Timed(t, ProbeRound(round)), Timed(u, QUIET_PASS)])
  {
  }

  lemma RunRoundAndPass(key: NamespacedName, fmt: Formats, xs: seq<Timed>, t: Time, u: Time, round: Outcomes)
    ensures var w := Run(key, fmt, NEW_STATUS, xs);
            Run(key, fmt, NEW_STATUS, xs + [Timed(t, ProbeRound(round)), Timed(u, QUIET_PASS)]) ==
            Pass(key, fmt, w.(store := ReplaceState(w.store, round, t)), u, [], 1, "", true)
  {
    var x, y := Timed(t, ProbeRound(round)), Timed(u, QUIET_PASS);
    assert xs + [x, y] == xs + [x] + [y];
    RunRound(key, fmt, xs, t, round);
    RunPass(key, fmt, xs + [x], u);
  }

  lemma RunRound(key: NamespacedName, fmt: Formats, xs: seq<Timed>, t: Time, round: Outcomes)
    ensures var w := Run(key, fmt, NEW_STATUS, xs);
            Run(key, fmt, NEW_STATUS, xs + [Timed(t, ProbeRound(round))]) ==
            w.(store := ReplaceState(w.store, round, t))
  {
    assert (xs + [Timed(t, ProbeRound(round))])[..|xs|] == xs;
  }

  lemma RunPass(key: NamespacedName, fmt: Formats, xs: seq<Timed>, u: Time)
    ensures Run(key, fmt, NEW_STATUS, xs + [Timed(u, QUIET_PASS)]) ==
            Pass(key, fmt, Run(key, fmt, NEW_STATUS, xs), u, [], 1, "", true)
  {
    assert (xs + [Timed(u, QUIET_PASS)])[..|xs|] == xs;
  }

  lemma RunNewLeader(key: NamespacedName, fmt: Formats, xs: seq<Timed>, t: Time)
    ensures Run(key, fmt, NEW_STATUS, xs + [Timed(t, NewLeader)]) ==
            Run(key, fmt, NEW_STATUS, xs).(store := NewState(true, true))
  {
    assert (xs + [Timed(t, NewLeader)])[..|xs|] == xs;
  }

  lemma PassAfterRound(key: NamespacedName, fmt: Formats, w: World, t: Time, u: Time, round: Outcomes)
    requires w.store.enabled && w.store.upstreamProbe && CoherentRound(round)
    ensures var w' := Pass(key, fmt, w.(store := ReplaceState(w.store, round, t)), u, [], 1, "", true);
            RoundAndPass(key, w, w', round, t, u)
  {
    PassEffect(key, fmt, w.(store := ReplaceState(w.store, round, t)), u, [], 1, "", true);
  }

  predicate Shown(w: World, status: ConditionStatus) {
    Upstream(w.status).Some? && Upstream(w.status).value.status == status
  }

  /** A failing round and a pass: the outage start is kept or set, the condition turns
      False, and a Warning is added unless the Unknown it leaves is younger. */
  lemma FailingRound(key: NamespacedName, w: World, w': World, t: Time, u: Time)
    requires RoundAndPass(key, w, w', Unanswered(key), t, u)
    requires Upstream(w.status).Some? ==> Shown(w, StatusUnknown)
    ensures var s := NextStamps(w.store.StampsFor(key), UpstreamUnreachable, t);
            && w'.store.StampsFor(key) == s && Shown(w', StatusFalse)
            && Upstream(w'.status).value.lastTransition == WholeSecond(u)
            && if Upstream(w.status).Some? && s.down.value < Upstream(w.status).value.lastTransition
               then w'.trace == w.trace
               else Adds(w, w', Warning, s.down.value)
  {
    ReplaceStamps(w.store, Unanswered(key), t, key);
  }

  /** A round that could not probe, and a pass: silence, and an Unknown stamped now. */
  lemma RollingRound(key: NamespacedName, w: World, w': World, t: Time, u: Time)
    requires RoundAndPass(key, w, w', NotReady(key), t, u)
    requires Upstream(w.status).Some? ==> !Shown(w, StatusUnknown)
    ensures w'.store.StampsFor(key) == w.store.StampsFor(key) && w'.trace == w.trace
    ensures Shown(w', StatusUnknown) && Upstream(w'.status).value.lastTransition == WholeSecond(u)
  {
    ReplaceStamps(w.store, NotReady(key), t, key);
  }

  /** A good round and a pass: an open outage is closed, the condition turns True, and a
      Normal is added unless there is no recovery or the condition it leaves is younger. */
  lemma GoodRound(key: NamespacedName, w: World, w': World, t: Time, u: Time)
    requires RoundAndPass(key, w, w', Answered(key), t, u) && !Shown(w, StatusTrue)
    ensures var s := NextStamps(w.store.StampsFor(key), UpstreamReachable, t);
            && w'.store.StampsFor(key) == s && Shown(w', StatusTrue)
            && if s.recovered.None? ||
                  (Upstream(w.status).Some? && s.recovered.value < Upstream(w.status).value.lastTransition)
               then w'.trace == w.trace
               else Adds(w, w', Normal, s.recovered.value)
  {
    ReplaceStamps(w.store, Answered(key), t, key);
  }

  lemma FreshRun(key: NamespacedName, fmt: Formats)
    ensures var w := Run(key, fmt, NEW_STATUS, []);
            && w.trace == [] && Upstream(w.status) == None
            && w.store.StampsFor(key) == NO_STAMPS && CoherentRounds([])
  {
  }

  lemma PassMakesSeen(xs: seq<Timed>, key: NamespacedName)
    requires xs != [] && xs[|xs| - 1].action == QUIET_PASS
    ensures !Unseen(xs, key)
  {
  }

  /** The trace is n Warnings about one outage start. */
  ghost predicate Warnings(trace: seq<Emission>, n: nat, start: Time) {
    |trace| == n && forall e <- trace :: e.kind == Warning && e.boundary == Some(start)
  }

  // ----- without spacing -----

  /** Rounds with these outcomes, each with a pass before the next. */
  function EachReconciled(rounds: seq<Outcomes>, t: seq<Time>): seq<Timed>
    requires |t| == 2 * |rounds|
  {
    seq(|t|, i requires 0 <= i < |t| => Timed(t[i], if i % 2 == 0 then ProbeRound(rounds[i / 2]) else QUIET_PASS))
  }

  ghost predicate Ordinary(rounds: seq<Outcomes>, key: NamespacedName) {
    forall o <- rounds :: CoherentRound(o) && key in o
  }

  lemma EachReconciledIsPrompt(rounds: seq<Outcomes>, t: seq<Time>, key: NamespacedName)
    requires |t| == 2 * |rounds| && Ascending(t) && Ordinary(rounds, key)
    ensures var xs := EachReconciled(rounds, t);
            && Timeline(xs) && CoherentRounds(xs) && OneLeader(xs) && Prompt(xs, key) && StaysListed(xs, key)
  {
    var xs := EachReconciled(rounds, t);
    forall i | 0 <= i < |xs| && IsAttempt(xs[i]) ensures !Unseen(xs[..i], key) {
      if i > 0 { PassMakesSeen(xs[..i], key); }
    }
    assert forall i :: 0 <= i < |rounds| ==> rounds[i] in rounds;
  }

  /** A failing round, a round during a pod roll, a failing round. */
  function OutageAndRoll(key: NamespacedName): seq<Outcomes> {
    [Unanswered(key), NotReady(key), Unanswered(key)]
  }

  /** An outage that ends, then a pod roll, then a good round. */
  function RecoveryAndRoll(key: NamespacedName): seq<Outcomes> {
    [Unanswered(key), Answered(key), NotReady(key), Answered(key)]
  }

  lemma RollsAreOrdinary(key: NamespacedName)
    ensures Ordinary(OutageAndRoll(key), key) && Ordinary(RecoveryAndRoll(key), key)
  {
  }

  /** The one outage of this run is reported twice exactly when the pass over the pod roll
      is persisted in the second the outage began in, or an earlier one. */
  lemma OneSecondTwoWarnings(key: NamespacedName, fmt: Formats, t: seq<Time>)
    requires |t| == 6 && Ascending(t)
    ensures var xs := EachReconciled(OutageAndRoll(key), t);
            && Timeline(xs) && CoherentRounds(xs) && OneLeader(xs) && Prompt(xs, key) && StaysListed(xs, key)
    ensures Warnings(Run(key, fmt, NEW_STATUS, EachReconciled(OutageAndRoll(key), t)).trace,
                     if WholeSecond(t[3]) <= t[0] then 2 else 1, t[0])
  {
    RollsAreOrdinary(key);
    EachReconciledIsPrompt(OutageAndRoll(key), t, key);
    OutageRun(key, fmt, t);
  }

  lemma OutageRun(key: NamespacedName, fmt: Formats, t: seq<Time>)
    requires |t| == 6
    ensures Warnings(Run(key, fmt, NEW_STATUS, EachReconciled(OutageAndRoll(key), t)).trace,
                     if WholeSecond(t[3]) <= t[0] then 2 else 1, t[0])
  {
    var down, roll := ProbeRound(Unanswered(key)), ProbeRound(NotReady(key));
    var x2 := [] + [Timed(t[0], down), Timed(t[1], QUIET_PASS)];
    var x4 := x2 + [Timed(t[2], roll), Timed(t[3], QUIET_PASS)];
    var x6 := x4 + [Timed(t[4], down), Timed(t[5], QUIET_PASS)];
    assert EachReconciled(OutageAndRoll(key), t) == x6;
    FreshRun(key, fmt);
    RoundThenPass(key, fmt, [], t[0], t[1], Unanswered(key));
    RoundThenPass(key, fmt, x2, t[2], t[3], NotReady(key));
    RoundThenPass(key, fmt, x4, t[4], t[5], Unanswered(key));
    FailRollFail(key, Run(key, fmt, NEW_STATUS, []), Run(key, fmt, NEW_STATUS, x2),
                 Run(key, fmt, NEW_STATUS, x4), Run(key, fmt, NEW_STATUS, x6), t);
  }

  lemma FailRollFail(key: NamespacedName, w0: World, w2: World, w4: World, w6: World, t: seq<Time>)
    requires |t| == 6
    requires w0.trace == [] && Upstream(w0.status) == None && w0.store.StampsFor(key) == NO_STAMPS
    requires RoundAndPass(key, w0, w2, Unanswered(key), t[0], t[1])
    requires RoundAndPass(key, w2, w4, NotReady(key), t[2], t[3])
    requires RoundAndPass(key, w4, w6, Unanswered(key), t[4], t[5])
    ensures Warnings(w6.trace, if WholeSecond(t[3]) <= t[0] then 2 else 1, t[0])
  {
    FailingRound(key, w0, w2, t[0], t[1]);
    RollingRound(key, w2, w4, t[2], t[3]);
    FailingRound(key, w4, w6, t[4], t[5]);
  }

  /** One Warning about the outage start, then n Normals about the one recovery. */
  ghost predicate WarningThenNormals(trace: seq<Emission>, n: nat, start: Time, recovery: Time) {
    && |trace| == n + 1 && trace[0].kind == Warning && trace[0].boundary == Some(start)
    && forall i :: 1 <= i < |trace| ==> trace[i].kind == Normal && trace[i].boundary == Some(recovery)
  }

  /** The one recovery of this run is reported twice exactly when the pass over the pod roll
      is persisted in the second of the recovery, or an earlier one. */
  lemma OneSecondTwoNormals(key: NamespacedName, fmt: Formats, t: seq<Time>)
    requires |t| == 8 && Ascending(t)
    ensures var xs := EachReconciled(RecoveryAndRoll(key), t);
            && Timeline(xs) && CoherentRounds(xs) && OneLeader(xs) && Prompt(xs, key) && StaysListed(xs, key)
    ensures WarningThenNormals(Run(key, fmt, NEW_STATUS, EachReconciled(RecoveryAndRoll(key), t)).trace,
                               if WholeSecond(t[5]) <= t[2] then 2 else 1, t[0], t[2])
  {
    RollsAreOrdinary(key);
    EachReconciledIsPrompt(RecoveryAndRoll(key), t, key);
    RecoveryRun(key, fmt, t);
  }

  lemma RecoveryRun(key: NamespacedName, fmt: Formats, t: seq<Time>)
    requires |t| == 8 && Ascending(t)
    ensures WarningThenNormals(Run(key, fmt, NEW_STATUS, EachReconciled(RecoveryAndRoll(key), t)).trace,
                               if WholeSecond(t[5]) <= t[2] then 2 else 1, t[0], t[2])
  {
    var good := ProbeRound(Answered(key));
    var x2 := [] + [Timed(t[0], ProbeRound(Unanswered(key))), Timed(t[1], QUIET_PASS)];
    var x4 := x2 + [Timed(t[2], good), Timed(t[3], QUIET_PASS)];
    var x6 := x4 + [Timed(t[4], ProbeRound(NotReady(key))), Timed(t[5], QUIET_PASS)];
    var x8 := x6 + [Timed(t[6], good), Timed(t[7], QUIET_PASS)];
    assert EachReconciled(RecoveryAndRoll(key), t) == x8;
    FreshRun(key, fmt);
    RoundThenPass(key, fmt, [], t[0], t[1], Unanswered(key));
    RoundThenPass(key, fmt, x2, t[2], t[3], Answered(key));
    RoundThenPass(key, fmt, x4, t[4], t[5], NotReady(key));
    RoundThenPass(key, fmt, x6, t[6], t[7], Answered(key));
    RecoverRollRecover(key, Run(key, fmt, NEW_STATUS, []), Run(key, fmt, NEW_STATUS, x2),
                       Run(key, fmt, NEW_STATUS, x4), Run(key, fmt, NEW_STATUS, x6), Run(key, fmt, NEW_STATUS, x8), t);
  }

  lemma RecoverRollRecover(key: NamespacedName, w0: World, w2: World, w4: World, w6: World, w8: World, t: seq<Time>)
    requires |t| == 8 && t[1] < t[2]
    requires w0.trace == [] && Upstream(w0.status) == None && w0.store.StampsFor(key) == NO_STAMPS
    requires RoundAndPass(key, w0, w2, Unanswered(key), t[0], t[1])
    requires RoundAndPass(key, w2, w4, Answered(key), t[2], t[3])
    requires RoundAndPass(key, w4, w6, NotReady(key), t[4], t[5])
    requires RoundAndPass(key, w6, w8, Answered(key), t[6], t[7])
    ensures WarningThenNormals(w8.trace, if WholeSecond(t[5]) <= t[2] then 2 else 1, t[0], t[2])
  {
    FailRecover(key, w0, w2, w4, t);
    RollRecover(key, w4, w6, w8, t, t[2]);
    if Adds(w4, w8, Normal, t[2]) {
      AddNormal(w4, w8, t[0], t[2]);
    }
  }

  lemma AddNormal(w: World, w': World, start: Time, recovery: Time)
    requires WarningThenNormals(w.trace, 1, start, recovery) && Adds(w, w', Normal, recovery)
    ensures WarningThenNormals(w'.trace, 2, start, recovery)
  {
  }

  lemma FailRecover(key: NamespacedName, w0: World, w2: World, w4: World, t: seq<Time>)
    requires |t| == 8 && t[1] < t[2]
    requires w0.trace == [] && Upstream(w0.status) == None && w0.store.StampsFor(key) == NO_STAMPS
    requires RoundAndPass(key, w0, w2, Unanswered(key), t[0], t[1])
    requires RoundAndPass(key, w2, w4, Answered(key), t[2], t[3])
    ensures WarningThenNormals(w4.trace, 1, t[0], t[2])
    ensures w4.store.StampsFor(key) == Stamps(Some(t[2]), None, Some(t[2])) && Shown(w4, StatusTrue)
  {
    FailingRound(key, w0, w2, t[0], t[1]);
    assert WholeSecond(t[1]) <= t[1];
    GoodRound(key, w2, w4, t[2], t[3]);
  }

  lemma RollRecover(key: NamespacedName, w4: World, w6: World, w8: World, t: seq<Time>, recovery: Time)
    requires |t| == 8 && Shown(w4, StatusTrue)
    requires w4.store.StampsFor(key) == Stamps(Some(recovery), None, Some(recovery))
    requires RoundAndPass(key, w4, w6, NotReady(key), t[4], t[5])
    requires RoundAndPass(key, w6, w8, Answered(key), t[6], t[7])
    ensures if WholeSecond(t[5]) <= recovery then Adds(w4, w8, Normal, recovery) else w8.trace == w4.trace
  {
    RollingRound(key, w4, w6, t[4], t[5]);
    GoodRound(key, w6, w8, t[6], t[7]);
  }

  // ----- without promptness -----

  /** An outage whose first round is overtaken by a pod roll before any pass. */
  function OvertakenOutage(key: NamespacedName, t: seq<Time>): seq<Timed>
    requires |t| == 5
  {
    [Timed(t[0], ProbeRound(Unanswered(key))),
     Timed(t[1], ProbeRound(NotReady(key))), Timed(t[2], QUIET_PASS),
     Timed(t[3], ProbeRound(Unanswered(key))), Timed(t[4], QUIET_PASS)]
  }

  /** It is shown and never announced, in every spaced run of this shape. */
  lemma CoalescedPassesCanStaySilent(key: NamespacedName, fmt: Formats, t: seq<Time>)
    requires |t| == 5 && Ascending(t)
    ensures var xs := OvertakenOutage(key, t);
            && Timeline(xs) && CoherentRounds(xs) && OneLeader(xs) && StaysListed(xs, key) && !Unseen(xs, key)
            && (Spaced(xs) ==> t[0] < WholeSecond(t[2]))
    ensures var xs := OvertakenOutage(key, t); var w := Run(key, fmt, NEW_STATUS, xs);
            && Shown(w, StatusFalse) && Boundaries(Samples(xs, key)) != []
            && (w.trace == [] <==> t[0] < WholeSecond(t[2]))
  {
    OvertakenShape(key, t);
    if Spaced(OvertakenOutage(key, t)) {
      SpacedAt(OvertakenOutage(key, t), 0, 1, 2);
    }
    OvertakenRun(key, fmt, t);
    DownMeansBoundary(key, fmt, OvertakenOutage(key, t));
  }

  lemma OvertakenShape(key: NamespacedName, t: seq<Time>)
    requires |t| == 5 && Ascending(t)
    ensures var xs := OvertakenOutage(key, t);
            && Timeline(xs) && CoherentRounds(xs) && OneLeader(xs) && StaysListed(xs, key) && !Unseen(xs, key)
  {
    var xs := OvertakenOutage(key, t);
    PassMakesSeen(xs, key);
    AllRoundsList(xs, key);
  }

  /** Every round is one of the three this module uses. */
  lemma AllRoundsList(xs: seq<Timed>, key: NamespacedName)
    requires forall x <- xs :: x.action.ProbeRound? ==>
               x.action.outcomes in [Unanswered(key), NotReady(key), Answered(key)]
    ensures CoherentRounds(xs) && StaysListed(xs, key)
  {
    forall x <- xs | x.action.ProbeRound? ensures CoherentRound(x.action.outcomes) && Lists(x, key) {
    }
  }

  lemma SpacedAt(xs: seq<Timed>, i: nat, j: nat, k: nat)
    requires Spaced(xs) && i < j < k < |xs|
    requires xs[i].action.ProbeRound? && IsAttempt(xs[j]) && xs[k].action.ReconcilePass?
    ensures xs[i].at < WholeSecond(xs[k].at)
  {
  }

  lemma OvertakenRun(key: NamespacedName, fmt: Formats, t: seq<Time>)
    requires |t| == 5
    ensures var w := Run(key, fmt, NEW_STATUS, OvertakenOutage(key, t));
            && w.store.StampsFor(key).down.Some? && Shown(w, StatusFalse)
            && (w.trace == [] <==> t[0] < WholeSecond(t[2]))
  {
    var x1 := [] + [Timed(t[0], ProbeRound(Unanswered(key)))];
    var x3 := x1 + [Timed(t[1], ProbeRound(NotReady(key))), Timed(t[2], QUIET_PASS)];
    var x5 := x3 + [Timed(t[3], ProbeRound(Unanswered(key))), Timed(t[4], QUIET_PASS)];
    assert OvertakenOutage(key, t) == x5;
    FreshRun(key, fmt);
    RunRound(key, fmt, [], t[0], Unanswered(key));
    RoundThenPass(key, fmt, x1, t[1], t[2], NotReady(key));
    RoundThenPass(key, fmt, x3, t[3], t[4], Unanswered(key));
    RollThenFail(key, Run(key, fmt, NEW_STATUS, []), Run(key, fmt, NEW_STATUS, x1),
                 Run(key, fmt, NEW_STATUS, x3), Run(key, fmt, NEW_STATUS, x5), t);
  }

  lemma RollThenFail(key: NamespacedName, w0: World, w1: World, w3: World, w5: World, t: seq<Time>)
    requires |t| == 5
    requires w0.trace == [] && Upstream(w0.status) == None && w0.store.StampsFor(key) == NO_STAMPS
    requires w1 == w0.(store := ReplaceState(w0.store, Unanswered(key), t[0]))
    requires RoundAndPass(key, w1, w3, NotReady(key), t[1], t[2])
    requires RoundAndPass(key, w3, w5, Unanswered(key), t[3], t[4])
    ensures w5.store.StampsFor(key).down.Some? && Shown(w5, StatusFalse)
    ensures w5.trace == [] <==> t[0] < WholeSecond(t[2])
  {
    ReplaceStamps(w0.store, Unanswered(key), t[0], key);
    RollingRound(key, w1, w3, t[1], t[2]);
    FailingRound(key, w3, w5, t[3], t[4]);
  }

  lemma DownMeansBoundary(key: NamespacedName, fmt: Formats, xs: seq<Timed>)
    requires CoherentRounds(xs) && Run(key, fmt, NEW_STATUS, xs).store.StampsFor(key).down.Some?
    ensures Boundaries(Samples(xs, key)) != []
  {
    StoreFacts(key, fmt, NEW_STATUS, xs);
    BoundariesAlternate(Samples(xs, key));
  }

  // ----- without one leader, or without staying listed -----

  /** An outage that is reported and then forgotten, by the action in the middle, before
      the upstream answers again. */
  function ForgottenOutage(key: NamespacedName, t: seq<Time>, gap: Action): seq<Timed>
    requires |t| == 5
  {
    [Timed(t[0], ProbeRound(Unanswered(key))), Timed(t[1], QUIET_PASS), Timed(t[2], gap),
     Timed(t[3], ProbeRound(Answered(key))), Timed(t[4], QUIET_PASS)]
  }

  /** A new leader, or a complete round without the RemoteApp. */
  predicate Forgets(key: NamespacedName, gap: Action) {
    gap.NewLeader? || (gap.ProbeRound? && key !in gap.outcomes && CoherentRound(gap.outcomes))
  }

  /** Its end is shown and never announced. Every other hypothesis of exactness holds. */
  lemma ForgottenOutageIsNeverClosed(key: NamespacedName, fmt: Formats, t: seq<Time>, gap: Action)
    requires |t| == 5 && Ascending(t) && Forgets(key, gap)
    ensures var xs := ForgottenOutage(key, t, gap);
            && Timeline(xs) && CoherentRounds(xs) && Prompt(xs, key) && !Unseen(xs, key)
            && (OneLeader(xs) <==> gap.ProbeRound?) && (StaysListed(xs, key) <==> gap.NewLeader?)
    ensures var w := Run(key, fmt, NEW_STATUS, ForgottenOutage(key, t, gap));
            Warnings(w.trace, 1, t[0]) && Shown(w, StatusTrue)
  {
    ForgottenOutageIsPrompt(key, t, gap);
    ForgottenRun(key, fmt, t, gap);
  }

  lemma ForgottenRun(key: NamespacedName, fmt: Formats, t: seq<Time>, gap: Action)
    requires |t| == 5 && Forgets(key, gap)
    ensures var w := Run(key, fmt, NEW_STATUS, ForgottenOutage(key, t, gap));
            Warnings(w.trace, 1, t[0]) && Shown(w, StatusTrue)
  {
    var x2 := [] + [Timed(t[0], ProbeRound(Unanswered(key))), Timed(t[1], QUIET_PASS)];
    var x3 := x2 + [Timed(t[2], gap)];
    var x5 := x3 + [Timed(t[3], ProbeRound(Answered(key))), Timed(t[4], QUIET_PASS)];
    assert ForgottenOutage(key, t, gap) == x5;
    FreshRun(key, fmt);
    RoundThenPass(key, fmt, [], t[0], t[1], Unanswered(key));
    GapForgets(key, fmt, x2, t[2], gap);
    RoundThenPass(key, fmt, x3, t[3], t[4], Answered(key));
    FailForgetRecover(key, Run(key, fmt, NEW_STATUS, []), Run(key, fmt, NEW_STATUS, x2),
                      Run(key, fmt, NEW_STATUS, x3), Run(key, fmt, NEW_STATUS, x5), t);
  }

  lemma FailForgetRecover(key: NamespacedName, w0: World, w2: World, w3: World, w5: World, t: seq<Time>)
    requires |t| == 5
    requires w0.trace == [] && Upstream(w0.status) == None && w0.store.StampsFor(key) == NO_STAMPS
    requires RoundAndPass(key, w0, w2, Unanswered(key), t[0], t[1])
    requires w3.trace == w2.trace && w3.status == w2.status && w3.store.StampsFor(key) == NO_STAMPS
    requires RoundAndPass(key, w3, w5, Answered(key), t[3], t[4])
    ensures Warnings(w5.trace, 1, t[0]) && Shown(w5, StatusTrue)
  {
    FailingRound(key, w0, w2, t[0], t[1]);
    GoodRound(key, w3, w5, t[3], t[4]);
  }

  lemma GapForgets(key: NamespacedName, fmt: Formats, xs: seq<Timed>, t: Time, gap: Action)
    requires Forgets(key, gap)
    ensures var w, w' := Run(key, fmt, NEW_STATUS, xs), Run(key, fmt, NEW_STATUS, xs + [Timed(t, gap)]);
            w'.status == w.status && w'.trace == w.trace && w'.store.StampsFor(key) == NO_STAMPS
  {
    if gap.NewLeader? {
      RunNewLeader(key, fmt, xs, t);
    } else {
      RunRound(key, fmt, xs, t, gap.outcomes);
      ReplaceStamps(Run(key, fmt, NEW_STATUS, xs).store, gap.outcomes, t, key);
    }
  }

  lemma ForgottenOutageIsPrompt(key: NamespacedName, t: seq<Time>, gap: Action)
    requires |t| == 5 && Ascending(t) && Forgets(key, gap)
    ensures var xs := ForgottenOutage(key, t, gap);
            && Timeline(xs) && CoherentRounds(xs) && Prompt(xs, key) && !Unseen(xs, key)
            && (OneLeader(xs) <==> gap.ProbeRound?) && (StaysListed(xs, key) <==> gap.NewLeader?)
  {
    var xs := ForgottenOutage(key, t, gap);
    ForgottenIsServed(key, t, gap);
    assert xs[2] in xs && Lists(xs[0], key);
  }

  lemma ForgottenIsServed(key: NamespacedName, t: seq<Time>, gap: Action)
    requires |t| == 5 && Forgets(key, gap)
    ensures var xs := ForgottenOutage(key, t, gap); Prompt(xs, key) && !Unseen(xs, key)
  {
    var xs := ForgottenOutage(key, t, gap);
    PassMakesSeen(xs[..2], key);
    PassMakesSeen(xs, key);
    assert xs[..3][..2] == xs[..2] && !Unseen(xs[..3], key);
    forall i | 0 <= i < |xs| && IsAttempt(xs[i]) ensures !Unseen(xs[..i], key) {
      assert i == 0 || i == 2 || i == 3;
    }
  }
}
