/** Events at outage boundaries: what the reconciler emits over whole runs. */
module Events {
  import opened Types
  import opened History
  import opened Store
  import opened Conditions
  import opened Pods
  import opened Status

  datatype EventKind = Warning | Normal

  /** An Event, with the moment it was emitted and the store stamp it was judged by:
      the outage start for a Warning, the recovery for a Normal one. */
  datatype Emission = Emission(kind: EventKind, reason: string, message: string, at: Time, boundary: Option<Time>)

  /** Conditions are persisted with whole-second times. */
  function WholeSecond(t: Time): (r: Time)
    ensures r % SECOND == 0 && r <= t < r + SECOND
  {
    t / SECOND * SECOND
  }

  // ----- recordUpstreamTransition -----

  function Transition(prev: Option<Condition>, next: Condition, stamps: Stamps, at: Time): seq<Emission> {
    var prevStatus := if prev.Some? then prev.value.status else StatusUnknown;
    if prevStatus == next.status then []
    else match next.status
      case StatusFalse =>
        if prev.Some? && prevStatus == StatusUnknown &&
           stamps.down.Some? && stamps.down.value < prev.value.lastTransition
        then []
        else [Emission(Warning, "UpstreamUnreachable", next.message, at, stamps.down)]
      case StatusTrue =>
        if stamps.recovered.None? || (prev.Some? && stamps.recovered.value < prev.value.lastTransition)
        then []
        else [Emission(Normal, "UpstreamReachable", next.message, at, stamps.recovered)]
      case StatusUnknown => []
  }

  function RecordUpstreamTransition(recorder: bool, reader: Reader, key: NamespacedName,
                                    before: seq<Condition>, after: seq<Condition>, at: Time): seq<Emission>
  {
    var next := FindStatusCondition(after, UPSTREAM_REACHABLE);
    if !recorder || reader.None? || next.None? then []
    else Transition(FindStatusCondition(before, UPSTREAM_REACHABLE), next.value, reader.value.StampsFor(key), at)
  }

  // ----- runs -----

  /** One RemoteApp's persisted status, the store beside it, and the Events emitted. */
  datatype World = World(store: StoreState, status: RemoteAppStatus, trace: seq<Emission>)

  datatype Action =
    | ProbeRound(outcomes: Outcomes)
    | LoseBundle
    | NewLeader
    | ReconcilePass(pods: seq<Pod>, generation: int, applyErr: string, accepted: bool)

  datatype Timed = Timed(at: Time, action: Action)

  /** A reconcile pass: nothing is written or said when the status would not change or
      when the patch is not accepted. */
  function Pass(key: NamespacedName, fmt: Formats, w: World, at: Time,
                pods: seq<Pod>, generation: int, applyErr: string, accepted: bool): World
  {
    var cr := RemoteApp(key, generation, false, None);
    var next := ComputeStatus(cr, pods, w.status.conditions, applyErr, Some(w.store), fmt, WholeSecond(at));
    if StatusEqual(w.status, next) || !accepted then w
    else World(w.store, next,
               w.trace + RecordUpstreamTransition(true, Some(w.store), key, w.status.conditions, next.conditions, at))
  }

  function Perform(key: NamespacedName, fmt: Formats, w: World, x: Timed): World {
    match x.action
    case ProbeRound(outcomes) => w.(store := ReplaceState(w.store, outcomes, x.at))
    case LoseBundle => w.(store := BundleLostState(w.store))
    case NewLeader => w.(store := NewState(true, true))
    case ReconcilePass(pods, generation, applyErr, accepted) =>
      Pass(key, fmt, w, x.at, pods, generation, applyErr, accepted)
  }

  /** A run with the upstream probe on, from a fresh store and any persisted status. */
  function Run(key: NamespacedName, fmt: Formats, status: RemoteAppStatus, xs: seq<Timed>): World {
    if xs == [] then World(NewState(true, true), status, [])
    else Perform(key, fmt, Run(key, fmt, status, xs[..|xs| - 1]), xs[|xs| - 1])
  }

  ghost predicate Timeline(xs: seq<Timed>) {
    forall i, j :: 0 <= i < j < |xs| ==> xs[i].at < xs[j].at
  }

  ghost predicate CoherentRounds(xs: seq<Timed>) {
    forall x <- xs :: x.action.ProbeRound? ==> CoherentRound(x.action.outcomes)
  }

  /** The verifier's turns: a round, or one cut short by a missing bundle. */
  predicate IsAttempt(x: Timed) { x.action.ProbeRound? || x.action.LoseBundle? }

  /** A pass may share its second with the newest attempt, not with a round before that. */
  ghost predicate Spaced(xs: seq<Timed>) {
    forall i, j, k | 0 <= i < j < k < |xs| ::
      xs[i].action.ProbeRound? && IsAttempt(xs[j]) && xs[k].action.ReconcilePass? ==>
        xs[i].at < WholeSecond(xs[k].at)
  }

  ghost predicate Legal(xs: seq<Timed>) {
    Timeline(xs) && CoherentRounds(xs) && Spaced(xs)
  }

  lemma LegalPrefix(xs: seq<Timed>)
    requires Legal(xs) && xs != []
    ensures Legal(xs[..|xs| - 1])
  {
  }

  // ----- the store of a run and its history -----

  /** What the current leader's store has been through. */
  function StoreHistory(xs: seq<Timed>): seq<StoreOp> {
    if xs == [] then []
    else
      var n := |xs| - 1;
      match xs[n].action
      case ProbeRound(outcomes) => StoreHistory(xs[..n]) + [Completed(xs[n].at, outcomes)]
      case LoseBundle => StoreHistory(xs[..n]) + [BundleLost]
      case NewLeader => []
      case ReconcilePass(_, _, _, _) => StoreHistory(xs[..n])
  }

  lemma {:induction false} RunStore(key: NamespacedName, fmt: Formats, status: RemoteAppStatus, xs: seq<Timed>)
    ensures Run(key, fmt, status, xs).store == Replay(StoreHistory(xs), true, true)
  {
    if xs != [] {
      var n := |xs| - 1;
      RunStore(key, fmt, status, xs[..n]);
      var h, g := StoreHistory(xs), StoreHistory(xs[..n]);
      if xs[n].action.ProbeRound? || xs[n].action.LoseBundle? {
        assert h[..|h| - 1] == g;
      }
    }
  }

  function Samples(xs: seq<Timed>, key: NamespacedName): seq<Sample> {
    Present(StoreHistory(xs), key)
  }

  /** How each action extends the history of one key. */
  lemma SamplesStep(xs: seq<Timed>, key: NamespacedName)
    requires xs != []
    ensures var n := |xs| - 1; var p := Samples(xs[..n], key);
            Samples(xs, key) ==
            match xs[n].action
            case ProbeRound(o) => if key in o then p + [Sample(xs[n].at, o[key].upstream.result)] else []
            case LoseBundle => p
            case NewLeader => []
            case ReconcilePass(_, _, _, _) => p
  {
  }

  ghost predicate RoundAt(xs: seq<Timed>, t: Time) {
    exists i :: 0 <= i < |xs| && xs[i].action.ProbeRound? && xs[i].at == t
  }

  lemma RoundAtPrefix(xs: seq<Timed>, n: nat, t: Time)
    requires n <= |xs| && RoundAt(xs[..n], t)
    ensures RoundAt(xs, t)
    ensures Timeline(xs) && n < |xs| ==> t < xs[n].at
  {
  }

  lemma {:induction false} SamplesAreRounds(xs: seq<Timed>, key: NamespacedName)
    requires Timeline(xs)
    ensures Increasing(Samples(xs, key))
    ensures forall s <- Samples(xs, key) :: RoundAt(xs, s.at)
  {
    if xs != [] {
      var n := |xs| - 1;
      SamplesAreRounds(xs[..n], key);
      SamplesStep(xs, key);
      forall s <- Samples(xs[..n], key) ensures RoundAt(xs, s.at) && s.at < xs[n].at {
        RoundAtPrefix(xs, n, s.at);
      }
    }
  }

  /** Every round of the history lies before t, the newest attempt's own round aside. */
  ghost predicate OldBefore(p: seq<Sample>, inForce: bool, t: Time) {
    && (forall i :: 0 <= i < |p| - 1 ==> p[i].at < t)
    && (!inForce ==> forall i :: 0 <= i < |p| ==> p[i].at < t)
  }

  lemma {:induction false} OldRoundsBefore(xs: seq<Timed>, key: NamespacedName, t: Time)
    requires Timeline(xs)
    requires forall i, j :: 0 <= i < j < |xs| && xs[i].action.ProbeRound? && IsAttempt(xs[j]) ==> xs[i].at < t
    ensures OldBefore(Samples(xs, key), key in Verdicts(StoreHistory(xs)), t)
  {
    if xs != [] {
      var n := |xs| - 1;
      var ys := xs[..n];
      SamplesStep(xs, key);
      if IsAttempt(xs[n]) {
        SamplesAreRounds(ys, key);
        forall s <- Samples(ys, key) ensures s.at < t {
          var i :| 0 <= i < n && ys[i].action.ProbeRound? && ys[i].at == s.at;
          assert xs[i] == ys[i];
        }
      } else {
        assert forall i :: 0 <= i < n ==> ys[i] == xs[i];
        OldRoundsBefore(ys, key, t);
      }
    }
  }

  /** How the stamps stand to the second a pass is persisted in: behind it, unless the
      verdict in force is the very round that set them. */
  ghost predicate Behind(verdict: UpstreamResult, s: Stamps, second: Time) {
    && (verdict == UpstreamNotProbed ==> Before(s, second))
    && (verdict == UpstreamUnreachable && s.recovered.Some? ==> s.recovered.value < second)
  }

  lemma SamplesSettle(p: seq<Sample>, inForce: bool, verdict: UpstreamResult, second: Time)
    requires Increasing(p) && OldBefore(p, inForce, second)
    requires if inForce then p != [] && p[|p| - 1].verdict == verdict else verdict == UpstreamNotProbed
    ensures Behind(verdict, StampsOf(p), second)
  {
    if inForce {
      var q := p[..|p| - 1];
      StampsOrdered(q);
      assert Before(StampsOf(q), second);
    } else {
      StampsOrdered(p);
    }
  }

  /** What a history h says of a store: its stamps are those of the rounds that covered the
      key, and a verdict in force is the newest of them. */
  ghost predicate Tells(s: StoreState, h: seq<StoreOp>, key: NamespacedName) {
    var p := Present(h, key);
    && s.results == Verdicts(h)
    && s.StampsFor(key) == StampsOf(p)
    && (key in s.results ==> p != [] && p[|p| - 1].verdict == Verdict(s, key))
  }

  lemma ReplayTells(h: seq<StoreOp>, key: NamespacedName)
    ensures Tells(Replay(h, true, true), h, key)
  {
    ReplayStamps(h, true, true, key);
  }

  /** The newest sample decides whether an outage is open. */
  lemma TellsOutage(s: StoreState, h: seq<StoreOp>, key: NamespacedName)
    requires Tells(s, h, key)
    ensures Verdict(s, key) == UpstreamReachable ==> s.StampsFor(key).down.None?
    ensures Verdict(s, key) == UpstreamUnreachable ==> s.StampsFor(key).down.Some?
  {
  }

  /** Facts about the store at any point of a run: its stamps are those of the history,
      a verdict in force is the newest sample, and results stay coherent. */
  lemma StoreFacts(key: NamespacedName, fmt: Formats, status: RemoteAppStatus, xs: seq<Timed>)
    requires CoherentRounds(xs)
    ensures var s := Run(key, fmt, status, xs).store; var p := Samples(xs, key);
            && s.enabled && s.upstreamProbe
            && CoherentRound(s.results)
            && s.StampsFor(key) == StampsOf(p)
            && (Verdict(s, key) == UpstreamReachable ==> s.StampsFor(key).down.None?)
            && (Verdict(s, key) == UpstreamUnreachable ==> s.StampsFor(key).down.Some?)
            && (key in s.results ==> p != [] && p[|p| - 1].verdict == Verdict(s, key))
            && s.results == Verdicts(StoreHistory(xs))
  {
    RunStore(key, fmt, status, xs);
    var h := StoreHistory(xs);
    ReplayDomains(h, true, true);
    ReplayTells(h, key);
    TellsOutage(Replay(h, true, true), h, key);
    NewestRoundIsCoherent(xs);
  }

  /** What a pass at the end of a run finds in the store. */
  ghost predicate PassFinds(s: StoreState, key: NamespacedName, p: seq<Sample>, at: Time) {
    && s.enabled && s.upstreamProbe && CoherentRound(s.results)
    && s.StampsFor(key) == StampsOf(p)
    && Before(StampsOf(p), at) && Behind(Verdict(s, key), StampsOf(p), WholeSecond(at))
    && (key in s.results ==> p != [] && p[|p| - 1].verdict == Verdict(s, key))
    && (Verdict(s, key) == UpstreamReachable ==> StampsOf(p).down.None?)
    && (Verdict(s, key) == UpstreamUnreachable ==> StampsOf(p).down.Some?)
  }

  lemma PassFacts(key: NamespacedName, fmt: Formats, status: RemoteAppStatus, xs: seq<Timed>)
    requires Legal(xs) && xs != [] && xs[|xs| - 1].action.ReconcilePass?
    ensures Samples(xs, key) == Samples(xs[..|xs| - 1], key)
    ensures PassFinds(Run(key, fmt, status, xs[..|xs| - 1]).store, key, Samples(xs, key), xs[|xs| - 1].at)
  {
    var n := |xs| - 1;
    var ys := xs[..n];
    LegalPrefix(xs);
    SamplesStep(xs, key);
    StoreFacts(key, fmt, status, ys);
    StampsBeforePass(xs, key);
    assert forall i :: 0 <= i < n ==> ys[i] == xs[i];
    OldRoundsBefore(ys, key, WholeSecond(xs[n].at));
    var s := Run(key, fmt, status, ys).store;
    SamplesSettle(Samples(ys, key), key in s.results, Verdict(s, key), WholeSecond(xs[n].at));
  }

  lemma StampsBeforePass(xs: seq<Timed>, key: NamespacedName)
    requires Timeline(xs) && xs != []
    ensures Increasing(Samples(xs[..|xs| - 1], key))
    ensures Before(StampsOf(Samples(xs[..|xs| - 1], key)), xs[|xs| - 1].at)
  {
    var n := |xs| - 1;
    var p := Samples(xs[..n], key);
    SamplesAreRounds(xs[..n], key);
    forall i | 0 <= i < |p| ensures p[i].at < xs[n].at {
      assert p[i] in p;
      RoundAtPrefix(xs, n, p[i].at);
    }
    StampsOrdered(p);
  }

  lemma {:induction false} NewestRoundIsCoherent(xs: seq<Timed>)
    requires CoherentRounds(xs)
    ensures CoherentRound(Verdicts(StoreHistory(xs)))
  {
    if xs != [] {
      var n := |xs| - 1;
      assert xs[n] in xs;
      forall y <- xs[..n] | y.action.ProbeRound? ensures CoherentRound(y.action.outcomes) {
        assert y in xs;
      }
      NewestRoundIsCoherent(xs[..n]);
    }
  }

  // ----- the effect of one pass -----

  function Upstream(status: RemoteAppStatus): Option<Condition> {
    FindStatusCondition(status.conditions, UPSTREAM_REACHABLE)
  }

  /** What an accepted pass leads to: the verdict in force on the condition, what the
      transition rule says on the trace, the store untouched. */
  ghost predicate PassLeads(key: NamespacedName, w: World, w': World, at: Time) {
    var was, shown := Upstream(w.status), Upstream(w'.status);
    && w'.store == w.store
    && shown.Some?
    && shown.value.status == StatusFor(Verdict(w.store, key))
    && shown.value.lastTransition == TransitionTime(was, shown.value.status, WholeSecond(at))
    && w'.trace == w.trace + Transition(was, shown.value, w.store.StampsFor(key), at)
  }

  lemma PassEffect(key: NamespacedName, fmt: Formats, w: World, at: Time,
                   pods: seq<Pod>, generation: int, applyErr: string, accepted: bool)
    requires w.store.enabled && w.store.upstreamProbe && CoherentRound(w.store.results)
    ensures var w' := Pass(key, fmt, w, at, pods, generation, applyErr, accepted);
            if accepted then PassLeads(key, w, w', at) else w' == w
  {
    var cr := RemoteApp(key, generation, false, None);
    var prev := w.status.conditions;
    var next := ComputeStatus(cr, pods, prev, applyErr, Some(w.store), fmt, WholeSecond(at));
    UpstreamAfter(cr, pods, prev, applyErr, Some(w.store), fmt, WholeSecond(at));
    UpstreamStatusMeaning(cr, w.store, fmt);
    if StatusEqual(w.status, next) {
      EqualStatusIsSame(cr, pods, w.status, applyErr, Some(w.store), fmt, WholeSecond(at));
    }
  }

  /** An accepted pass leaves exactly the status computed from its inputs, written or already
      there; a rejected one leaves what was. */
  lemma PassPersists(key: NamespacedName, fmt: Formats, w: World, at: Time,
                     pods: seq<Pod>, generation: int, applyErr: string, accepted: bool)
    ensures var cr := RemoteApp(key, generation, false, None);
            var next := ComputeStatus(cr, pods, w.status.conditions, applyErr, Some(w.store), fmt, WholeSecond(at));
            var w' := Pass(key, fmt, w, at, pods, generation, applyErr, accepted);
            w'.store == w.store && w'.status == if accepted then next else w.status
  {
    var cr := RemoteApp(key, generation, false, None);
    var next := ComputeStatus(cr, pods, w.status.conditions, applyErr, Some(w.store), fmt, WholeSecond(at));
    if StatusEqual(w.status, next) {
      EqualStatusIsSame(cr, pods, w.status, applyErr, Some(w.store), fmt, WholeSecond(at));
    }
  }

  /** What the persisted UpstreamReachable condition says, in words. */
  function UpstreamMessage(st: RemoteAppStatus): string {
    if Upstream(st).Some? then Upstream(st).value.message else ""
  }

  /** What a reader of the status learns from a pass over these pods, with this verdict. */
  ghost predicate StatusTells(st: RemoteAppStatus, verdict: UpstreamResult,
                              pods: seq<Pod>, generation: int, applyErr: string)
  {
    && RollUpTold(st, pods, generation, verdict == UpstreamUnreachable, UpstreamMessage(st))
    && RowsTell(st, pods, applyErr)
  }

  ghost predicate RowsTell(st: RemoteAppStatus, pods: seq<Pod>, applyErr: string) {
    var podsReady := exists p <- pods :: IsLive(p) && IsPodReady(p);
    && ReadyTold(FindStatusCondition(st.conditions, READY), st, podsReady)
    && ReconciledTold(FindStatusCondition(st.conditions, RECONCILED), applyErr)
    && RoleTold(FindStatusCondition(st.conditions, IDENTITY_ISSUED), pods, TBOT, IDENTITY_WORDS)
    && RoleTold(FindStatusCondition(st.conditions, TUNNEL_SERVING), pods, GHOSTUNNEL, SERVING_WORDS)
  }

  /** After every accepted pass of every run the persisted status tells what the pods, the
      store and the apply errors of that pass say. */
  lemma PersistedStatusTells(key: NamespacedName, fmt: Formats, status: RemoteAppStatus, xs: seq<Timed>)
    requires xs != [] && CoherentRounds(xs) && IsAcceptedPass(xs[|xs| - 1])
    ensures var w, a := Run(key, fmt, status, xs), xs[|xs| - 1].action;
            StatusTells(w.status, Verdict(w.store, key), a.pods, a.generation, a.applyErr)
  {
    var n := |xs| - 1;
    CoherentPrefix(xs);
    StoreFacts(key, fmt, status, xs[..n]);
    ActionTells(key, fmt, Run(key, fmt, status, xs[..n]), xs[n]);
  }

  lemma ActionTells(key: NamespacedName, fmt: Formats, w: World, x: Timed)
    requires w.store.enabled && w.store.upstreamProbe && CoherentRound(w.store.results) && IsAcceptedPass(x)
    ensures var w', a := Perform(key, fmt, w, x), x.action;
            StatusTells(w'.status, Verdict(w'.store, key), a.pods, a.generation, a.applyErr)
  {
    var a := x.action;
    var w' := Pass(key, fmt, w, x.at, a.pods, a.generation, a.applyErr, true);
    assert Perform(key, fmt, w, x) == w';
    PassTells(key, fmt, w, x.at, a.pods, a.generation, a.applyErr);
    assert StatusTells(w'.status, Verdict(w'.store, key), a.pods, a.generation, a.applyErr);
  }

  lemma PassTells(key: NamespacedName, fmt: Formats, w: World, at: Time,
                  pods: seq<Pod>, generation: int, applyErr: string)
    requires w.store.enabled && w.store.upstreamProbe && CoherentRound(w.store.results)
    ensures var w' := Pass(key, fmt, w, at, pods, generation, applyErr, true);
            w'.store == w.store && StatusTells(w'.status, Verdict(w.store, key), pods, generation, applyErr)
  {
    var cr := RemoteApp(key, generation, false, None);
    PassPersists(key, fmt, w, at, pods, generation, applyErr, true);
    RowsAreTold(cr, w.store, fmt, w.status.conditions, WholeSecond(at), pods, applyErr);
    RollUpIsTold(cr, w.store, fmt, w.status.conditions, WholeSecond(at), pods, applyErr);
  }

  lemma RowsAreTold(cr: RemoteApp, store: StoreState, fmt: Formats, prev: seq<Condition>, now: Time,
                    pods: seq<Pod>, applyErr: string)
    ensures RowsTell(ComputeStatus(cr, pods, prev, applyErr, Some(store), fmt, now), pods, applyErr)
  {
    ConditionsTellStatus(cr, pods, prev, applyErr, Some(store), fmt, now);
    RolesTellPods(cr, pods, prev, applyErr, Some(store), fmt, now);
  }

  lemma RollUpIsTold(cr: RemoteApp, store: StoreState, fmt: Formats, prev: seq<Condition>, now: Time,
                     pods: seq<Pod>, applyErr: string)
    requires store.enabled && store.upstreamProbe && CoherentRound(store.results)
    ensures var st := ComputeStatus(cr, pods, prev, applyErr, Some(store), fmt, now);
            RollUpTold(st, pods, cr.generation, Verdict(store, cr.key) == UpstreamUnreachable, UpstreamMessage(st))
  {
    ReadyIffNoError(cr, pods, prev, applyErr, Some(store), fmt, now);
    UpstreamStatusMeaning(cr, store, fmt);
    UpstreamAfter(cr, pods, prev, applyErr, Some(store), fmt, now);
  }

  lemma CoherentPrefix(xs: seq<Timed>)
    requires CoherentRounds(xs) && xs != []
    ensures CoherentRounds(xs[..|xs| - 1])
  {
    assert forall y <- xs[..|xs| - 1] :: y in xs;
  }

  predicate IsAcceptedPass(x: Timed) { x.action.ReconcilePass? && x.action.accepted }

  /** The last action of a run: an accepted pass, or one that leaves the condition and the
      trace alone. */
  lemma LastAction(key: NamespacedName, fmt: Formats, status: RemoteAppStatus, xs: seq<Timed>)
    requires xs != [] && CoherentRounds(xs)
    ensures var n := |xs| - 1;
            var w, w' := Run(key, fmt, status, xs[..n]), Run(key, fmt, status, xs);
            if IsAcceptedPass(xs[n]) then PassLeads(key, w, w', xs[n].at)
            else w'.status == w.status && w'.trace == w.trace
  {
    var n := |xs| - 1;
    CoherentPrefix(xs);
    StoreFacts(key, fmt, status, xs[..n]);
    ActionEffect(key, fmt, Run(key, fmt, status, xs[..n]), xs[n]);
  }

  lemma ActionEffect(key: NamespacedName, fmt: Formats, w: World, x: Timed)
    requires w.store.enabled && w.store.upstreamProbe && CoherentRound(w.store.results)
    ensures var w' := Perform(key, fmt, w, x);
            if IsAcceptedPass(x) then PassLeads(key, w, w', x.at) else w'.status == w.status && w'.trace == w.trace
  {
    if x.action.ReconcilePass? {
      var a := x.action;
      PassEffect(key, fmt, w, x.at, a.pods, a.generation, a.applyErr, a.accepted);
    }
  }

  // ----- at most one Event per boundary, under any interleaving -----

  ghost predicate AtMostOnce(trace: seq<Emission>) {
    && (forall e <- trace :: e.boundary.Some?)
    && forall i, j :: 0 <= i < j < |trace| && trace[i].kind == trace[j].kind ==> trace[i].boundary != trace[j].boundary
  }

  /** The condition remembers what was already said about an outage. */
  ghost predicate Remembers(s: Stamps, c: Option<Condition>, e: Emission) {
    match e.kind
    case Warning =>
      e.boundary.Some? && s.down == e.boundary ==>
        c.Some? && (c.value.status == StatusFalse ||
                    (c.value.status == StatusUnknown && e.boundary.value < c.value.lastTransition))
    case Normal =>
      e.boundary.Some? && s.recovered == e.boundary ==>
        c.Some? && (c.value.status == StatusTrue || e.boundary.value < c.value.lastTransition)
  }

  /** What is known of an Event after it was emitted, up to the present moment. */
  ghost predicate Spoken(e: Emission, now: Time) {
    e.at <= now && e.boundary.Some? && e.boundary.value < e.at
  }

  ghost predicate OnceInv(w: World, key: NamespacedName, now: Time) {
    && AtMostOnce(w.trace)
    && (forall e <- w.trace :: Spoken(e, now))
    && (forall e <- w.trace :: Remembers(w.store.StampsFor(key), Upstream(w.status), e))
  }

  function Clock(xs: seq<Timed>): Time {
    if xs == [] then 0 else xs[|xs| - 1].at
  }

  lemma ClockBefore(xs: seq<Timed>)
    requires Timeline(xs) && xs != []
    ensures forall x <- xs[..|xs| - 1] :: x.at < xs[|xs| - 1].at
    ensures xs[..|xs| - 1] != [] ==> Clock(xs[..|xs| - 1]) < xs[|xs| - 1].at
  {
  }

  lemma PassKeepsOnce(key: NamespacedName, w: World, w': World, at: Time, earlier: Time, p: seq<Sample>)
    requires OnceInv(w, key, earlier) && earlier <= at
    requires PassLeads(key, w, w', at) && PassFinds(w.store, key, p, at)
    ensures OnceInv(w', key, at)
  {
    var stamps := w.store.StampsFor(key);
    var was, shown := Upstream(w.status), Upstream(w'.status).value;
    var said := Transition(was, shown, stamps, at);
    forall e <- w.trace ensures Remembers(stamps, Some(shown), e) {
      assert Spoken(e, earlier) && Remembers(stamps, was, e);
    }
    forall e <- w.trace ensures Spoken(e, at) {
      assert Spoken(e, earlier);
    }
    if said != [] {
      var e := said[0];
      forall i | 0 <= i < |w.trace| && w.trace[i].kind == e.kind ensures w.trace[i].boundary != e.boundary {
        assert w.trace[i] in w.trace;
        assert Remembers(stamps, was, w.trace[i]);
      }
    }
  }

  /** Over every run — rounds, bundle losses, leader changes, coalesced passes and
      rejected patches in any order, from any persisted status — no two Warnings share an
      outage start and no two Normals share a recovery. */
  lemma {:induction false} EventsAtMostOnce(key: NamespacedName, fmt: Formats, status: RemoteAppStatus, xs: seq<Timed>)
    requires Legal(xs)
    ensures OnceInv(Run(key, fmt, status, xs), key, Clock(xs))
  {
    if xs != [] {
      var n := |xs| - 1;
      var ys, x := xs[..n], xs[n];
      LegalPrefix(xs);
      EventsAtMostOnce(key, fmt, status, ys);
      ClockBefore(xs);
      var w := Run(key, fmt, status, ys);
      if x.action.ReconcilePass? {
        PassFacts(key, fmt, status, xs);
        OncePass(key, fmt, w, x.at, Clock(ys), x.action.pods, x.action.generation, x.action.applyErr, x.action.accepted,
                 Samples(xs, key));
      } else {
        OnceQuiet(key, fmt, w, x, Clock(ys));
      }
    }
  }

  lemma OncePass(key: NamespacedName, fmt: Formats, w: World, at: Time, earlier: Time,
                 pods: seq<Pod>, generation: int, applyErr: string, accepted: bool, p: seq<Sample>)
    requires OnceInv(w, key, earlier) && earlier <= at
    requires PassFinds(w.store, key, p, at)
    ensures OnceInv(Pass(key, fmt, w, at, pods, generation, applyErr, accepted), key, at)
  {
    var w' := Pass(key, fmt, w, at, pods, generation, applyErr, accepted);
    PassEffect(key, fmt, w, at, pods, generation, applyErr, accepted);
    if accepted {
      PassKeepsOnce(key, w, w', at, earlier, p);
    } else {
      LaterKeepsOnce(key, w, w, earlier, at);
    }
  }

  lemma OnceQuiet(key: NamespacedName, fmt: Formats, w: World, x: Timed, earlier: Time)
    requires OnceInv(w, key, earlier) && !x.action.ReconcilePass? && earlier <= x.at
    ensures OnceInv(Perform(key, fmt, w, x), key, x.at)
  {
    if x.action.ProbeRound? {
      ReplaceStamps(w.store, x.action.outcomes, x.at, key);
    }
    LaterKeepsOnce(key, w, Perform(key, fmt, w, x), earlier, x.at);
  }

  /** t is what the stamp was, absent, or set just now. */
  predicate Moves(was: Option<Time>, t: Option<Time>, now: Time) {
    t == was || t == None || t == Some(now)
  }

  /** Nothing but a pass speaks, and an outage opened or closed later has a later stamp. */
  lemma LaterKeepsOnce(key: NamespacedName, w: World, w': World, earlier: Time, now: Time)
    requires OnceInv(w, key, earlier) && earlier <= now
    requires w'.status == w.status && w'.trace == w.trace
    requires var s, s' := w.store.StampsFor(key), w'.store.StampsFor(key);
             Moves(s.down, s'.down, now) && Moves(s.recovered, s'.recovered, now)
    ensures OnceInv(w', key, now)
  {
    forall e <- w'.trace
      ensures Spoken(e, now) && Remembers(w'.store.StampsFor(key), Upstream(w'.status), e)
    {
      assert Spoken(e, earlier) && Remembers(w.store.StampsFor(key), Upstream(w.status), e);
    }
  }

  // ----- the reconciler itself -----

  /** The status half of the reconciler for one RemoteApp: the persisted status and the
      Events emitted so far. */
  class Reconciler {
    const key: NamespacedName
    const recorder: bool
    var status: RemoteAppStatus
    var events: seq<Emission>

    constructor (key: NamespacedName, recorder: bool, status: RemoteAppStatus)
      ensures this.key == key && this.recorder == recorder && this.status == status && events == []
    {
      this.key, this.recorder, this.status, events := key, recorder, status, [];
    }

    method EmitUpstreamTransition(reader: Reader, before: seq<Condition>, after: seq<Condition>, at: Time)
      modifies this`events
      ensures events == old(events) + RecordUpstreamTransition(recorder, reader, key, before, after, at)
    {
      var next := FindStatusCondition(after, UPSTREAM_REACHABLE);
      if !recorder || reader.None? || next.None? {
        return;
      }
      var prev := FindStatusCondition(before, UPSTREAM_REACHABLE);
      var prevStatus := StatusUnknown;
      if prev.Some? {
        prevStatus := prev.value.status;
      }
      if prevStatus == next.value.status {
        return;
      }
      match next.value.status {
        case StatusFalse =>
          var since := Get(reader.value.down, key);
          if prev.Some? && prevStatus == StatusUnknown && since.Some? && since.value < prev.value.lastTransition {
            return;
          }
          events := events + [Emission(Warning, "UpstreamUnreachable", next.value.message, at, since)];
        case StatusTrue =>
          var recovered := Get(reader.value.recovered, key);
          if recovered.None? {
            return;
          }
          if prev.Some? && recovered.value < prev.value.lastTransition {
            return;
          }
          events := events + [Emission(Normal, "UpstreamReachable", next.value.message, at, recovered)];
        case StatusUnknown =>
      }
    }

    /** One status pass. With a store and a recorder it is the pass of the runs above;
        without a recorder it writes the same status and says nothing; without a store it
        writes the status that drops both probe conditions, and says nothing. */
    method ReconcileStatus(pods: seq<Pod>, generation: int, applyErr: string, reader: Reader,
                           fmt: Formats, at: Time, accepted: bool)
      modifies this`status, this`events
      ensures var cr := RemoteApp(key, generation, false, None);
              var next := ComputeStatus(cr, pods, old(status).conditions, applyErr, reader, fmt, WholeSecond(at));
              status == if accepted then next else old(status)
      ensures reader.Some? ==>
                var w := World(reader.value, old(status), old(events));
                var w' := Pass(key, fmt, w, at, pods, generation, applyErr, accepted);
                status == w'.status && events == if recorder then w'.trace else old(events)
      ensures reader.None? ==> events == old(events)
    {
      var cr := RemoteApp(key, generation, false, None);
      var before := status;
      var newStatus := ComputeStatusInPlace(cr, pods, before.conditions, applyErr, reader, fmt, WholeSecond(at));
      var same := StatusEqualStripped(before, newStatus);
      if same {
        EqualStatusIsSame(cr, pods, before, applyErr, reader, fmt, WholeSecond(at));
      }
      if same || !accepted {
        return;
      }
      status := newStatus;
      EmitUpstreamTransition(reader, before.conditions, newStatus.conditions, at);
    }
  }
}
