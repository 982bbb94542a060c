/** Soundness and exactness of the emitted Events. */
module EventRuns {
  import opened Types
  import opened History
  import opened Store
  import opened Conditions
  import opened Status
  import opened Events

  // ----- soundness -----

  /** e is what a pass from w to w' may say, given the rounds p so far: the message the
      pass persisted; a Warning inside an outage that is open; a Normal only for an outage
      that an unreachable round opened and a later reachable one ended, no earlier than the
      condition's previous transition. */
  ghost predicate Sound(e: Emission, w: World, w': World, p: seq<Sample>) {
    && Upstream(w'.status).Some? && e.message == Upstream(w'.status).value.message
    && e.boundary.Some?
    && (e.kind == Warning ==>
          && e.reason == "UpstreamUnreachable" && Upstream(w'.status).value.status == StatusFalse
          && OpenOutage(p, e.boundary.value))
    && (e.kind == Normal ==>
          && e.reason == "UpstreamReachable" && Upstream(w'.status).value.status == StatusTrue
          && LastRecovery(p, e.boundary.value)
          && (Upstream(w.status).Some? ==> Upstream(w.status).value.lastTransition <= e.boundary.value))
  }

  /** Between w and w' one Event was added, and it is sound. */
  ghost predicate SaysSoundly(w: World, w': World, at: Time, p: seq<Sample>) {
    && |w'.trace| == |w.trace| + 1 && w.trace <= w'.trace
    && w'.trace[|w.trace|].at == at
    && Sound(w'.trace[|w.trace|], w, w', p)
  }

  /** Over every run: only an accepted pass speaks, at most once, and what it says is sound. */
  lemma EventsAreSound(key: NamespacedName, fmt: Formats, status: RemoteAppStatus, xs: seq<Timed>)
    requires xs != [] && CoherentRounds(xs)
    ensures var n := |xs| - 1;
            var w, w' := Run(key, fmt, status, xs[..n]), Run(key, fmt, status, xs);
            w'.trace == w.trace || (IsAcceptedPass(xs[n]) && SaysSoundly(w, w', xs[n].at, Samples(xs, key)))
  {
    var n := |xs| - 1;
    LastAction(key, fmt, status, xs);
    if IsAcceptedPass(xs[n]) {
      CoherentPrefix(xs);
      StoreFacts(key, fmt, status, xs[..n]);
      SamplesStep(xs, key);
      SoundLead(key, Run(key, fmt, status, xs[..n]), Run(key, fmt, status, xs), xs[n].at, Samples(xs, key));
    }
  }

  lemma SoundLead(key: NamespacedName, w: World, w': World, at: Time, p: seq<Sample>)
    requires PassLeads(key, w, w', at) && w.store.StampsFor(key) == StampsOf(p)
    requires Verdict(w.store, key) == UpstreamUnreachable ==> StampsOf(p).down.Some?
    ensures w'.trace == w.trace || SaysSoundly(w, w', at, p)
  {
    if StampsOf(p).down.Some? { StampsAreTheHistory(p, StampsOf(p).down.value); }
    if StampsOf(p).recovered.Some? { StampsAreTheHistory(p, StampsOf(p).recovered.value); }
  }

  /** When an accepted pass speaks, read off the history of rounds and the condition it
      replaces: a Warning unless the condition already says False or is an Unknown younger
      than the outage; a Normal unless the condition already says True, no outage ended, or
      the last one ended before the condition's previous transition. */
  ghost predicate SpeaksWhenDue(key: NamespacedName, w: World, w': World, p: seq<Sample>) {
    var was, verdict := Upstream(w.status), Verdict(w.store, key);
    && (verdict == UpstreamUnreachable ==> exists t: Time ::
          && OpenOutage(p, t)
          && (Adds(w, w', Warning, t) <==>
                was.None? || was.value.status == StatusTrue ||
                (was.value.status == StatusUnknown && was.value.lastTransition <= t))
          && (Adds(w, w', Warning, t) || w'.trace == w.trace))
    && (verdict == UpstreamReachable ==>
          && (w'.trace != w.trace <==>
                && (was.Some? ==> was.value.status != StatusTrue)
                && exists t: Time :: LastRecovery(p, t) && (was.Some? ==> was.value.lastTransition <= t))
          && (w'.trace != w.trace ==> exists t: Time :: LastRecovery(p, t) && Adds(w, w', Normal, t)))
    && (verdict == UpstreamNotProbed ==> w'.trace == w.trace)
  }

  ghost predicate Adds(w: World, w': World, kind: EventKind, boundary: Time) {
    && |w'.trace| == |w.trace| + 1 && w.trace <= w'.trace
    && w'.trace[|w.trace|].kind == kind && w'.trace[|w.trace|].boundary == Some(boundary)
  }

  lemma PassSpeaksWhenDue(key: NamespacedName, fmt: Formats, status: RemoteAppStatus, xs: seq<Timed>)
    requires xs != [] && CoherentRounds(xs) && IsAcceptedPass(xs[|xs| - 1])
    ensures SpeaksWhenDue(key, Run(key, fmt, status, xs[..|xs| - 1]), Run(key, fmt, status, xs), Samples(xs, key))
  {
    var n := |xs| - 1;
    LastAction(key, fmt, status, xs);
    CoherentPrefix(xs);
    StoreFacts(key, fmt, status, xs[..n]);
    SamplesStep(xs, key);
    LeadSpeaksWhenDue(key, Run(key, fmt, status, xs[..n]), Run(key, fmt, status, xs), xs[n].at, Samples(xs, key));
  }

  lemma LeadSpeaksWhenDue(key: NamespacedName, w: World, w': World, at: Time, p: seq<Sample>)
    requires PassLeads(key, w, w', at) && w.store.StampsFor(key) == StampsOf(p)
    requires Verdict(w.store, key) == UpstreamUnreachable ==> StampsOf(p).down.Some?
    ensures SpeaksWhenDue(key, w, w', p)
  {
    var s := StampsOf(p);
    if Verdict(w.store, key) == UpstreamUnreachable {
      StampsAreTheHistory(p, s.down.value);
    } else if Verdict(w.store, key) == UpstreamReachable {
      forall t: Time ensures LastRecovery(p, t) <==> s.recovered == Some(t) {
        StampsAreTheHistory(p, t);
      }
      if s.recovered.Some? {
        assert LastRecovery(p, s.recovered.value);
      }
    }
  }

  // ----- at most one Event per boundary, exactly when -----

  /** An Event of this kind about this boundary was already emitted. */
  ghost predicate Told(trace: seq<Emission>, kind: EventKind, boundary: Option<Time>) {
    boundary.Some? && exists e <- trace :: e.kind == kind && e.boundary == boundary
  }

  /** An accepted pass from w says again what was said: a failing upstream, an outage start
      that was warned about, and a condition that does not remember it; or an answering
      upstream, a recovery that was announced, and a condition that does not remember it. */
  ghost predicate Repeats(key: NamespacedName, w: World) {
    var was, s, verdict := Upstream(w.status), w.store.StampsFor(key), Verdict(w.store, key);
    || (&& verdict == UpstreamUnreachable && Told(w.trace, Warning, s.down)
        && (was.None? || was.value.status == StatusTrue ||
            (was.value.status == StatusUnknown && was.value.lastTransition <= s.down.value)))
    || (&& verdict == UpstreamReachable && Told(w.trace, Normal, s.recovered)
        && (was.None? || (was.value.status != StatusTrue && was.value.lastTransition <= s.recovered.value)))
  }

  ghost predicate NeverRepeats(key: NamespacedName, fmt: Formats, status: RemoteAppStatus, xs: seq<Timed>) {
    xs == [] ||
    var n := |xs| - 1;
    && NeverRepeats(key, fmt, status, xs[..n])
    && (IsAcceptedPass(xs[n]) ==> !Repeats(key, Run(key, fmt, status, xs[..n])))
  }

  /** Over every run, spaced or not, no two Warnings share an outage start and no two Normals
      a recovery if and only if no accepted pass repeats. */
  lemma {:induction false} AtMostOnceExactly(key: NamespacedName, fmt: Formats, status: RemoteAppStatus, xs: seq<Timed>)
    requires CoherentRounds(xs)
    ensures AtMostOnce(Run(key, fmt, status, xs).trace) <==> NeverRepeats(key, fmt, status, xs)
  {
    if xs != [] {
      var n := |xs| - 1;
      CoherentPrefix(xs);
      AtMostOnceExactly(key, fmt, status, xs[..n]);
      LastAction(key, fmt, status, xs);
      if IsAcceptedPass(xs[n]) {
        StoreFacts(key, fmt, status, xs[..n]);
        OnceMore(key, Run(key, fmt, status, xs[..n]), Run(key, fmt, status, xs), xs[n].at);
      }
    }
  }

  /** One accepted pass keeps the trace free of repetitions unless it repeats. */
  lemma OnceMore(key: NamespacedName, w: World, w': World, at: Time)
    requires PassLeads(key, w, w', at)
    requires Verdict(w.store, key) == UpstreamUnreachable ==> w.store.StampsFor(key).down.Some?
    ensures AtMostOnce(w'.trace) <==> AtMostOnce(w.trace) && !Repeats(key, w)
  {
    var s := w.store.StampsFor(key);
    var said := Transition(Upstream(w.status), Upstream(w'.status).value, s, at);
    if said == [] {
      assert w'.trace == w.trace;
    } else {
      OneMoreOnce(w.trace, said[0]);
      assert w'.trace == w.trace + [said[0]];
    }
  }

  lemma OneMoreOnce(trace: seq<Emission>, e: Emission)
    ensures AtMostOnce(trace + [e]) <==>
            AtMostOnce(trace) && e.boundary.Some? && !Told(trace, e.kind, e.boundary)
  {
    var longer := trace + [e];
    assert forall i :: 0 <= i < |trace| ==> longer[i] == trace[i];
    if AtMostOnce(longer) {
      assert longer[|trace|] == e && e in longer;
      forall x <- trace ensures x.boundary.Some? && !(x.kind == e.kind && x.boundary == e.boundary) {
        var i :| 0 <= i < |trace| && trace[i] == x;
        assert longer[i] == x && x in longer;
      }
    }
  }

  // ----- exactness -----

  function KindOf(e: Emission): BoundaryKind {
    if e.kind == Warning then OutageOpened else OutageClosed
  }

  /** The trace, read as outage boundaries. */
  function Marks(trace: seq<Emission>): seq<Boundary> {
    seq(|trace|, i requires 0 <= i < |trace| =>
      Boundary(KindOf(trace[i]), if trace[i].boundary.Some? then trace[i].boundary.value else 0))
  }

  /** A nudge is not served yet: some round since the last accepted pass had news of the
      RemoteApp, an outcome other than the one in force before it. */
  predicate Unseen(xs: seq<Timed>, key: NamespacedName) {
    xs != [] &&
    var n := |xs| - 1;
    match xs[n].action
    case ProbeRound(outcomes) => HasNews(xs[..n], outcomes, key) || (key in outcomes && Unseen(xs[..n], key))
    case ReconcilePass(_, _, _, accepted) => !accepted && Unseen(xs[..n], key)
    case LoseBundle => Unseen(xs[..n], key)
    case NewLeader => Unseen(xs[..n], key)
  }

  /** The verifier's own condition for a nudge. */
  predicate HasNews(xs: seq<Timed>, outcomes: Outcomes, key: NamespacedName) {
    Differs(Verdicts(StoreHistory(xs)), outcomes, key)
  }

  ghost predicate OneLeader(xs: seq<Timed>) {
    forall x <- xs :: !x.action.NewLeader?
  }

  /** Every nudge is served before the verifier's next attempt. */
  ghost predicate Prompt(xs: seq<Timed>, key: NamespacedName) {
    forall i :: 0 <= i < |xs| && IsAttempt(xs[i]) ==> !Unseen(xs[..i], key)
  }

  predicate Lists(x: Timed, key: NamespacedName) {
    x.action.ProbeRound? && key in x.action.outcomes
  }

  /** Once a round covered the RemoteApp, every later one does. */
  ghost predicate StaysListed(xs: seq<Timed>, key: NamespacedName) {
    forall i, j :: 0 <= i < j < |xs| && Lists(xs[i], key) && xs[j].action.ProbeRound? ==> Lists(xs[j], key)
  }

  /** What the condition says about the history the reconciler has seen. */
  ghost predicate CondAgrees(s: Stamps, c: Option<Condition>) {
    && (s.down.Some? ==>
          c.Some? && (c.value.status == StatusFalse ||
                      (c.value.status == StatusUnknown && s.down.value < c.value.lastTransition)))
    && (s.down.None? ==> c.Some? ==> c.value.status != StatusFalse)
    && (s.down.None? && s.recovered.Some? ==>
          c.Some? && (c.value.status == StatusTrue || s.recovered.value < c.value.lastTransition))
  }

  function SeenSamples(xs: seq<Timed>, key: NamespacedName): seq<Sample> {
    var p := Samples(xs, key);
    if Unseen(xs, key) && p != [] then p[..|p| - 1] else p
  }

  ghost predicate ExactInv(w: World, xs: seq<Timed>, key: NamespacedName) {
    var p, c := Samples(xs, key), Upstream(w.status);
    && (Unseen(xs, key) ==> p != [] && key in w.store.results && (c.Some? ==> c.value.lastTransition < p[|p| - 1].at))
    && Marks(w.trace) == Boundaries(SeenSamples(xs, key))
    && CondAgrees(StampsOf(SeenSamples(xs, key)), c)
  }

  /** The condition transitioned before this moment. */
  predicate OlderThan(c: Option<Condition>, t: Time) {
    c.Some? ==> c.value.lastTransition < t
  }

  /** A persisted status from outside an outage, older than the run. */
  ghost predicate QuietStart(status: RemoteAppStatus, xs: seq<Timed>) {
    var c := Upstream(status);
    (c.Some? ==> c.value.status != StatusFalse) && forall x <- xs :: OlderThan(c, x.at)
  }

  /** The condition is the persisted one, or a pass of the run wrote it. */
  lemma {:induction false} ConditionIsOld(key: NamespacedName, fmt: Formats, status: RemoteAppStatus, xs: seq<Timed>)
    requires CoherentRounds(xs) && Timeline(xs)
    ensures WrittenBy(Upstream(status), Upstream(Run(key, fmt, status, xs).status), xs)
  {
    if xs != [] {
      var n := |xs| - 1;
      CoherentPrefix(xs);
      ConditionIsOld(key, fmt, status, xs[..n]);
      LastAction(key, fmt, status, xs);
      WrittenStep(key, Upstream(status), Run(key, fmt, status, xs[..n]), Run(key, fmt, status, xs), xs);
    }
  }

  ghost predicate WrittenBy(first: Option<Condition>, c: Option<Condition>, xs: seq<Timed>) {
    c.Some? ==>
      || (first.Some? && c.value.lastTransition == first.value.lastTransition)
      || (xs != [] && c.value.lastTransition <= Clock(xs))
  }

  lemma WrittenStep(key: NamespacedName, first: Option<Condition>, w: World, w': World, xs: seq<Timed>)
    requires Timeline(xs) && xs != [] && WrittenBy(first, Upstream(w.status), xs[..|xs| - 1])
    requires if IsAcceptedPass(xs[|xs| - 1]) then PassLeads(key, w, w', xs[|xs| - 1].at) else w'.status == w.status
    ensures WrittenBy(first, Upstream(w'.status), xs)
  {
    ClockBefore(xs);
  }

  /** An accepted pass over stamps s' that differ from the seen stamps s by at most one
      unseen round at time t. */
  lemma PassOnStamps(s: Stamps, s': Stamps, unseen: bool, verdict: UpstreamResult, t: Time,
                     was: Option<Condition>, shown: Condition, at: Time)
    requires s' == if unseen then NextStamps(s, verdict, t) else s
    requires verdict == UpstreamReachable ==> s'.down.None?
    requires verdict == UpstreamUnreachable ==> s'.down.Some?
    requires unseen && was.Some? ==> was.value.lastTransition < t
    requires CondAgrees(s, was) && Behind(verdict, s', WholeSecond(at))
    requires shown.status == StatusFor(verdict)
    requires shown.lastTransition == TransitionTime(was, shown.status, WholeSecond(at))
    ensures CondAgrees(s', Some(shown))
    ensures Marks(Transition(was, shown, s', at)) ==
            if unseen && verdict == UpstreamUnreachable && s.down.None? then [Boundary(OutageOpened, t)]
            else if unseen && verdict == UpstreamReachable && s.down.Some? then [Boundary(OutageClosed, t)]
            else []
  {
  }

  lemma MarksAppend(a: seq<Emission>, b: seq<Emission>)
    ensures Marks(a + b) == Marks(a) + Marks(b)
  {
  }

  /** Exactly one Event per outage boundary: whenever every nudge has been served, the
      Events of the run are the outage boundaries of the history of rounds, in order and
      with their stamps; before that, all but the newest round's. */
  lemma {:induction false} EventsAreExact(key: NamespacedName, fmt: Formats, status: RemoteAppStatus, xs: seq<Timed>)
    requires Legal(xs) && OneLeader(xs) && Prompt(xs, key) && StaysListed(xs, key) && QuietStart(status, xs)
    ensures ExactInv(Run(key, fmt, status, xs), xs, key)
  {
    if xs != [] {
      LegalPrefix(xs);
      PromptPrefix(xs, key);
      assert forall y <- xs[..|xs| - 1] :: y in xs;
      EventsAreExact(key, fmt, status, xs[..|xs| - 1]);
      ExactStep(key, fmt, status, xs);
    }
  }

  lemma PromptPrefix(xs: seq<Timed>, key: NamespacedName)
    requires OneLeader(xs) && Prompt(xs, key) && StaysListed(xs, key) && xs != []
    ensures var ys := xs[..|xs| - 1]; OneLeader(ys) && Prompt(ys, key) && StaysListed(ys, key)
  {
    var n := |xs| - 1;
    var ys := xs[..n];
    assert forall i :: 0 <= i < n ==> ys[i] == xs[i] && ys[..i] == xs[..i];
  }

  lemma ExactStep(key: NamespacedName, fmt: Formats, status: RemoteAppStatus, xs: seq<Timed>)
    requires Legal(xs) && OneLeader(xs) && Prompt(xs, key) && StaysListed(xs, key) && QuietStart(status, xs)
    requires xs != [] && ExactInv(Run(key, fmt, status, xs[..|xs| - 1]), xs[..|xs| - 1], key)
    ensures ExactInv(Run(key, fmt, status, xs), xs, key)
  {
    var n := |xs| - 1;
    var ys, x := xs[..n], xs[n];
    var w := Run(key, fmt, status, ys);
    LegalPrefix(xs);
    ClockBefore(xs);
    ConditionIsOld(key, fmt, status, ys);
    assert x in xs && OlderThan(Upstream(w.status), x.at);
    if x.action.ReconcilePass? {
      PassFacts(key, fmt, status, xs);
      ExactPassStep(key, fmt, xs, w);
    } else {
      LastAction(key, fmt, status, xs);
      assert IsAttempt(x) && !Unseen(ys, key);
      if Lists(x, key) {
        RoundAddsSample(key, fmt, status, xs);
      } else {
        SamplesStep(xs, key);
        if x.action.ProbeRound? { NeverListed(xs, key); }
      }
      ExactAttempt(key, w, Run(key, fmt, status, xs), xs);
    }
  }

  /** A round or a bundle loss changes what there is to say, not what was said. */
  lemma ExactAttempt(key: NamespacedName, w: World, w': World, xs: seq<Timed>)
    requires xs != [] && IsAttempt(xs[|xs| - 1])
    requires w'.status == w.status && w'.trace == w.trace
    requires var ys, x := xs[..|xs| - 1], xs[|xs| - 1];
             && ExactInv(w, ys, key) && !Unseen(ys, key) && OlderThan(Upstream(w.status), x.at)
             && if Lists(x, key) then AddsSample(xs, key, w'.store, Verdict(w.store, key))
                else Samples(xs, key) == Samples(ys, key)
    ensures ExactInv(w', xs, key)
  {
    var ys, x := xs[..|xs| - 1], xs[|xs| - 1];
    var p := Samples(ys, key);
    if Lists(x, key) {
      if HasNews(ys, x.action.outcomes, key) {
        assert Samples(xs, key)[..|p|] == p;
      } else {
        NoNewsNoBoundary(p, x.at, x.action.outcomes[key].upstream.result);
      }
    }
  }

  /** The round at the end of xs adds its own sample; without news it repeats the newest. */
  ghost predicate AddsSample(xs: seq<Timed>, key: NamespacedName, after: StoreState, inForce: UpstreamResult)
    requires xs != [] && Lists(xs[|xs| - 1], key)
  {
    var ys, x := xs[..|xs| - 1], xs[|xs| - 1];
    var p, verdict := Samples(ys, key), x.action.outcomes[key].upstream.result;
    && Samples(xs, key) == p + [Sample(x.at, verdict)]
    && key in after.results
    && (!HasNews(ys, x.action.outcomes, key) ==> p != [] && p[|p| - 1].verdict == inForce == verdict)
  }

  lemma RoundAddsSample(key: NamespacedName, fmt: Formats, status: RemoteAppStatus, xs: seq<Timed>)
    requires xs != [] && CoherentRounds(xs) && Lists(xs[|xs| - 1], key)
    ensures var w, w' := Run(key, fmt, status, xs[..|xs| - 1]), Run(key, fmt, status, xs);
            AddsSample(xs, key, w'.store, Verdict(w.store, key))
  {
    CoherentPrefix(xs);
    StoreFacts(key, fmt, status, xs[..|xs| - 1]);
    SamplesStep(xs, key);
  }

  /** A round that finds the verdict in force is no boundary, and moves no stamp but the last
      success. */
  lemma NoNewsNoBoundary(p: seq<Sample>, at: Time, verdict: UpstreamResult)
    requires p != [] && p[|p| - 1].verdict == verdict
    ensures var p' := p + [Sample(at, verdict)];
            && Boundaries(p') == Boundaries(p)
            && StampsOf(p').down == StampsOf(p).down && StampsOf(p').recovered == StampsOf(p).recovered
  {
    var p' := p + [Sample(at, verdict)];
    assert p'[..|p|] == p;
    BoundaryStep(p');
  }

  lemma ExactPassStep(key: NamespacedName, fmt: Formats, xs: seq<Timed>, w: World)
    requires xs != [] && xs[|xs| - 1].action.ReconcilePass?
    requires Samples(xs, key) == Samples(xs[..|xs| - 1], key)
    requires ExactInv(w, xs[..|xs| - 1], key)
    requires PassFinds(w.store, key, Samples(xs, key), xs[|xs| - 1].at)
    ensures var x := xs[|xs| - 1]; var a := x.action;
            ExactInv(Pass(key, fmt, w, x.at, a.pods, a.generation, a.applyErr, a.accepted), xs, key)
  {
    var x := xs[|xs| - 1];
    var a := x.action;
    PassEffect(key, fmt, w, x.at, a.pods, a.generation, a.applyErr, a.accepted);
    if a.accepted {
      ExactPass(key, xs, w, Pass(key, fmt, w, x.at, a.pods, a.generation, a.applyErr, a.accepted));
    } else {
      ExactReject(key, xs, w);
    }
  }

  /** A rejected patch leaves the newest round as unseen as it was. */
  lemma ExactReject(key: NamespacedName, xs: seq<Timed>, w: World)
    requires xs != [] && xs[|xs| - 1].action.ReconcilePass? && !xs[|xs| - 1].action.accepted
    requires Samples(xs, key) == Samples(xs[..|xs| - 1], key)
    requires ExactInv(w, xs[..|xs| - 1], key)
    ensures ExactInv(w, xs, key)
  {
  }

  /** A RemoteApp no round has covered has no history. */
  lemma {:induction false} NeverListed(xs: seq<Timed>, key: NamespacedName)
    requires xs != [] && StaysListed(xs, key)
    requires xs[|xs| - 1].action.ProbeRound? && key !in xs[|xs| - 1].action.outcomes
    ensures Samples(xs[..|xs| - 1], key) == []
  {
    var n := |xs| - 1;
    NotListedNoSamples(xs[..n], key);
  }

  lemma {:induction false} NotListedNoSamples(xs: seq<Timed>, key: NamespacedName)
    requires forall x <- xs :: x.action.ProbeRound? ==> key !in x.action.outcomes
    ensures Samples(xs, key) == []
  {
    if xs != [] {
      assert xs[|xs| - 1] in xs;
      forall x <- xs[..|xs| - 1] | x.action.ProbeRound? ensures key !in x.action.outcomes {
        assert x in xs;
      }
      NotListedNoSamples(xs[..|xs| - 1], key);
      SamplesStep(xs, key);
    }
  }

  lemma ExactPass(key: NamespacedName, xs: seq<Timed>, w: World, w': World)
    requires xs != [] && xs[|xs| - 1].action.ReconcilePass? && xs[|xs| - 1].action.accepted
    requires Samples(xs, key) == Samples(xs[..|xs| - 1], key)
    requires ExactInv(w, xs[..|xs| - 1], key)
    requires PassFinds(w.store, key, Samples(xs, key), xs[|xs| - 1].at)
    requires PassLeads(key, w, w', xs[|xs| - 1].at)
    ensures ExactInv(w', xs, key)
  {
    var n := |xs| - 1;
    var ys, x := xs[..n], xs[n];
    var p, seen := Samples(xs, key), SeenSamples(ys, key);
    var was, shown := Upstream(w.status), Upstream(w'.status).value;
    var stamps := StampsOf(p);
    var unseen := Unseen(ys, key);
    var t := if unseen then p[|p| - 1].at else 0;
    PassOnStamps(StampsOf(seen), stamps, unseen, Verdict(w.store, key), t, was, shown, x.at);
    if unseen {
      BoundaryStep(p);
    }
    MarksAppend(w.trace, Transition(was, shown, stamps, x.at));
    assert Boundaries(p) == Boundaries(seen) + Marks(Transition(was, shown, stamps, x.at));
    assert SeenSamples(xs, key) == p;
  }

  /** Hence the trace alternates Warning, Normal, starting with a Warning, with one
      Warning per round that opened an outage and one Normal per round that closed one. */
  lemma EventsAlternate(key: NamespacedName, fmt: Formats, status: RemoteAppStatus, xs: seq<Timed>)
    requires Legal(xs) && OneLeader(xs) && Prompt(xs, key) && StaysListed(xs, key) && QuietStart(status, xs)
    requires !Unseen(xs, key)
    ensures var trace, p := Run(key, fmt, status, xs).trace, Samples(xs, key);
            && (forall i :: 0 <= i < |trace| ==> (trace[i].kind == Warning <==> i % 2 == 0))
            && |trace| == |Openings(p)| + |Closings(p)|
            && |trace| % 2 == |Openings(p)| - |Closings(p)|
            && Marks(trace) == Boundaries(p)
  {
    var trace, p := Run(key, fmt, status, xs).trace, Samples(xs, key);
    EventsAreExact(key, fmt, status, xs);
    BoundariesAlternate(p);
    BoundariesCount(p);
    forall i | 0 <= i < |trace| ensures trace[i].kind == Warning <==> i % 2 == 0 {
      assert Marks(trace)[i].kind == KindOf(trace[i]);
    }
  }
}
