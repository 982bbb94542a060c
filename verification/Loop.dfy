/** The closed loop: rounds publish and nudge, the reconciler refreshes conditions. */
module Loop {
  import opened Types
  import opened Store
  import opened Conditions
  import opened Pods
  import opened Status
  import opened Events
  import opened Round

  // ----- skipping an unchanged key -----

  /** When a round leaves a key's verdict as it was, both probe conditions computed before
      and after it are the same, last-good-probe clause included. */
  lemma SkippingIsSafe(cr: RemoteApp, s: StoreState, round: Outcomes, now: Time, fmt: Formats)
    requires cr.key in round && !Differs(s.results, round, cr.key)
    ensures VerifiedCondition(cr, s) == VerifiedCondition(cr, ReplaceState(s, round, now))
    ensures UpstreamCondition(cr, s, fmt) == UpstreamCondition(cr, ReplaceState(s, round, now), fmt)
  {
    ReplaceStamps(s, round, now, cr.key);
    assert s.StampsFor(cr.key).success == Get(s.success, cr.key);
    ConditionsReadOneKey(cr, s, ReplaceState(s, round, now), fmt);
  }

  /** The probe conditions read one key's verdict, and the last good probe only while the
      upstream is unreachable. */
  lemma ConditionsReadOneKey(cr: RemoteApp, s: StoreState, s': StoreState, fmt: Formats)
    requires Get(s.results, cr.key) == Get(s'.results, cr.key)
    requires cr.key in s.results && s.results[cr.key].upstream.result == UpstreamUnreachable ==>
               Get(s.success, cr.key) == Get(s'.success, cr.key)
    ensures VerifiedCondition(cr, s) == VerifiedCondition(cr, s')
    ensures UpstreamCondition(cr, s, fmt) == UpstreamCondition(cr, s', fmt)
  {
  }

  // ----- agreement -----

  datatype App = App(generation: int, deleting: bool, status: RemoteAppStatus)

  /** The store; what it held before the bundle was lost, until the next complete round; the
      RemoteApps; the reconcile requests that are pending; the verifier's channel and its
      size; the keys a round in flight has listed. */
  datatype LoopState = LoopState(
    store: StoreState,
    kept: Option<StoreState>,
    apps: map<NamespacedName, App>,
    pending: set<NamespacedName>,
    queue: seq<NamespacedName>,
    capacity: nat,
    listed: Option<set<NamespacedName>>)

  datatype LoopAction =
    | Create(key: NamespacedName, generation: int)
    | Edited(key: NamespacedName, generation: int)
    | MarkDeleted(key: NamespacedName)
    | Removed(key: NamespacedName)
    | BundleMissing
    | RoundListed
    | RoundAborted
    | RoundDone(outcomes: Outcomes, nudged: seq<NamespacedName>, now: Time)
    | Delivered
    | Reconciled(key: NamespacedName, pods: seq<Pod>, applyErr: string, accepted: bool, at: Time)

  function AppOf(k: NamespacedName, a: App): RemoteApp {
    RemoteApp(k, a.generation, a.deleting, None)
  }

  function Live(s: LoopState): set<NamespacedName> {
    set k | k in s.apps && !s.apps[k].deleting
  }

  /** The verifier takes one turn at a time: it finds no bundle, or lists and later
      publishes or aborts. Meanwhile RemoteApps come and go. */
  ghost predicate Possible(s: LoopState, a: LoopAction) {
    match a
    case Create(k, _) => k !in s.apps
    case Edited(k, _) => k in s.apps
    case MarkDeleted(k) => k in s.apps
    case Removed(k) => k in s.apps
    case BundleMissing => s.listed.None?
    case RoundListed => s.listed.None?
    case RoundAborted => s.listed.Some?
    case RoundDone(outcomes, nudged, _) =>
      s.listed == Some(outcomes.Keys) && Nudges(nudged, s.store.results, outcomes)
    case Delivered => s.queue != []
    case Reconciled(k, _, _, _, _) => k in s.apps
  }

  function NextStatus(k: NamespacedName, app: App, store: StoreState, pods: seq<Pod>, applyErr: string,
                      at: Time, fmt: Formats): RemoteAppStatus
  {
    ComputeStatus(AppOf(k, app), pods, app.status.conditions, applyErr, Some(store), fmt, WholeSecond(at))
  }

  /** A created or edited RemoteApp is pending through its own watch, a changed outcome once
      it came through the verifier's channel, a rejected patch through the requeue. */
  ghost function Act(s: LoopState, a: LoopAction, fmt: Formats): LoopState
    requires Possible(s, a)
  {
    match a
    case Create(k, generation) =>
      s.(apps := s.apps[k := App(generation, false, NEW_STATUS)], pending := s.pending + {k})
    case Edited(k, generation) =>
      s.(apps := s.apps[k := s.apps[k].(generation := generation)], pending := s.pending + {k})
    case MarkDeleted(k) => s.(apps := s.apps[k := s.apps[k].(deleting := true)])
    case Removed(k) => s.(apps := s.apps - {k})
    case BundleMissing =>
      s.(store := BundleLostState(s.store), kept := if s.kept.Some? then s.kept else Some(s.store))
    case RoundListed => s.(listed := Some(Live(s)))
    case RoundAborted => s.(listed := None)
    case RoundDone(outcomes, nudged, now) =>
      s.(listed := None, kept := None,
         store := ReplaceState(s.store, outcomes, now),
         queue := EnqueueAll(s.queue, s.capacity, nudged))
    case Delivered => s.(queue := s.queue[1..], pending := s.pending + {s.queue[0]})
    case Reconciled(k, pods, applyErr, accepted, at) =>
      var app := s.apps[k];
      var next := NextStatus(k, app, s.store, pods, applyErr, at, fmt);
      if app.deleting || StatusEqual(app.status, next) then s.(pending := s.pending - {k})
      else if accepted then s.(apps := s.apps[k := app.(status := next)], pending := s.pending - {k})
      else s.(pending := s.pending + {k})
  }

  /** A persisted condition shows what is wanted, observedGeneration and time aside. */
  predicate Shows(found: Option<Condition>, wanted: Option<Desired>) {
    match (found, wanted)
    case (None, None) => true
    case (Some(c), Some(d)) => c.status == d.status && c.reason == d.reason && c.message == d.message
    case _ => false
  }

  function WantedVerified(cr: RemoteApp, store: StoreState): Option<Desired> {
    if store.enabled then Some(VerifiedCondition(cr, store)) else None
  }

  function WantedUpstream(cr: RemoteApp, store: StoreState, fmt: Formats): Option<Desired> {
    if store.enabled && store.upstreamProbe then Some(UpstreamCondition(cr, store, fmt)) else None
  }

  ghost predicate Agrees(k: NamespacedName, app: App, store: StoreState, fmt: Formats) {
    var cr, cs := AppOf(k, app), app.status.conditions;
    && Shows(FindStatusCondition(cs, TUNNEL_VERIFIED), WantedVerified(cr, store))
    && Shows(FindStatusCondition(cs, UPSTREAM_REACHABLE), WantedUpstream(cr, store, fmt))
  }

  /** Two stores ask for the same conditions of a RemoteApp. */
  ghost predicate SameWanted(cr: RemoteApp, store: StoreState, store': StoreState, fmt: Formats) {
    && WantedVerified(cr, store) == WantedVerified(cr, store')
    && WantedUpstream(cr, store, fmt) == WantedUpstream(cr, store', fmt)
  }

  /** A reconcile is pending, or a nudge is on its way. */
  predicate Waits(s: LoopState, k: NamespacedName) {
    k in s.pending || k in s.queue
  }

  /** Every live RemoteApp shows what the store says or is about to be reconciled; after a
      bundle loss it may also show what the store said before, until the next round. */
  ghost predicate InStep(s: LoopState, fmt: Formats) {
    forall k <- s.apps :: !s.apps[k].deleting ==>
      || Waits(s, k)
      || Agrees(k, s.apps[k], s.store, fmt)
      || (s.kept.Some? && Agrees(k, s.apps[k], s.kept.value, fmt))
  }

  /** While the bundle is lost the store holds no verdict, and a round in flight has listed
      every live RemoteApp that still shows one. */
  ghost predicate LossTracked(s: LoopState, fmt: Formats) {
    s.kept.Some? ==>
      && s.store.results == map[]
      && (s.listed.Some? ==> forall k <- Live(s) ::
            k in s.listed.value || Waits(s, k) || Agrees(k, s.apps[k], s.store, fmt))
  }

  ghost predicate LoopInv(s: LoopState, fmt: Formats) {
    InStep(s, fmt) && LossTracked(s, fmt)
  }

  lemma ReconciledAgrees(k: NamespacedName, app: App, store: StoreState, pods: seq<Pod>, applyErr: string,
                         at: Time, fmt: Formats)
    ensures var next := NextStatus(k, app, store, pods, applyErr, at, fmt);
            && Agrees(k, app.(status := next), store, fmt)
            && (StatusEqual(app.status, next) ==> Agrees(k, app, store, fmt))
  {
    var cr, prev := AppOf(k, app), app.status.conditions;
    VerifiedAfter(cr, pods, prev, applyErr, Some(store), fmt, WholeSecond(at));
    UpstreamAfter(cr, pods, prev, applyErr, Some(store), fmt, WholeSecond(at));
    if StatusEqual(app.status, NextStatus(k, app, store, pods, applyErr, at, fmt)) {
      EqualStatusIsSame(cr, pods, app.status, applyErr, Some(store), fmt, WholeSecond(at));
    }
  }

  /** What an accepted pass leaves: the whole computed status, and no request. */
  lemma ReconciledPersists(s: LoopState, a: LoopAction, fmt: Formats)
    requires a.Reconciled? && a.accepted && Possible(s, a) && !s.apps[a.key].deleting
    ensures var app := s.apps[a.key];
            var cr := RemoteApp(a.key, app.generation, false, None);
            var prev, now := app.status.conditions, WholeSecond(a.at);
            var next := ComputeStatus(cr, a.pods, prev, a.applyErr, Some(s.store), fmt, now);
            Act(s, a, fmt) == s.(apps := s.apps[a.key := app.(status := next)], pending := s.pending - {a.key})
  {
    var app := s.apps[a.key];
    var next := NextStatus(a.key, app, s.store, a.pods, a.applyErr, a.at, fmt);
    if StatusEqual(app.status, next) {
      EqualStatusIsSame(AppOf(a.key, app), a.pods, app.status, a.applyErr, Some(s.store), fmt, WholeSecond(a.at));
      assert s.apps[a.key := app] == s.apps;
    }
  }

  /** An edited RemoteApp is asked for a pass, and the pass observes the new generation. */
  lemma EditIsObserved(s: LoopState, a: LoopAction, generation: int, fmt: Formats)
    requires a.Reconciled? && a.accepted && a.key in Live(s)
    ensures var s1 := Act(s, Edited(a.key, generation), fmt);
            && a.key in s1.pending && Possible(s1, a)
            && var s2 := Act(s1, a, fmt);
               a.key in s2.apps && s2.apps[a.key].status.observedGeneration == generation && a.key !in s2.pending
  {
    var s1 := Act(s, Edited(a.key, generation), fmt);
    ReconciledPersists(s1, a, fmt);
    var app := s1.apps[a.key];
    ReadyIffNoError(RemoteApp(a.key, app.generation, false, None), a.pods, app.status.conditions, a.applyErr,
                    Some(s1.store), fmt, WholeSecond(a.at));
  }

  /** A round lists exactly the RemoteApps that are there and not being deleted. */
  lemma DeletedIsNotListed(s: LoopState, k: NamespacedName, fmt: Formats)
    requires k in s.apps && s.listed.None?
    ensures var s1 := Act(s, MarkDeleted(k), fmt);
            && Act(s1, RoundListed, fmt).listed.Some?
            && forall j :: j in Act(s1, RoundListed, fmt).listed.value <==> j in s.apps && !s.apps[j].deleting && j != k
  {
  }

  // ----- one action -----

  lemma ReconcileStaysInStep(s: LoopState, a: LoopAction, fmt: Formats)
    requires LoopInv(s, fmt) && a.Reconciled? && Possible(s, a)
    ensures LoopInv(Act(s, a, fmt), fmt)
  {
    var app := s.apps[a.key];
    if !app.deleting {
      ReconciledAgrees(a.key, app, s.store, a.pods, a.applyErr, a.at, fmt);
      var next := NextStatus(a.key, app, s.store, a.pods, a.applyErr, a.at, fmt);
      PassSettlesOne(s, Act(s, a, fmt), a.key, StatusEqual(app.status, next), next, fmt);
    }
  }

  /** A pass drops the request of a RemoteApp that agrees, writes one that then agrees, or
      keeps the request. */
  lemma PassSettlesOne(s: LoopState, s': LoopState, k: NamespacedName, same: bool, next: RemoteAppStatus,
                       fmt: Formats)
    requires LoopInv(s, fmt) && k in s.apps && !s.apps[k].deleting
    requires same ==> Agrees(k, s.apps[k], s.store, fmt)
    requires Agrees(k, s.apps[k].(status := next), s.store, fmt)
    requires || (same && s' == s.(pending := s.pending - {k}))
             || s' == s.(apps := s.apps[k := s.apps[k].(status := next)], pending := s.pending - {k})
             || s' == s.(pending := s.pending + {k})
    ensures LoopInv(s', fmt)
  {
    assert Live(s') == Live(s);
  }

  lemma BundleLossStaysInStep(s: LoopState, fmt: Formats)
    requires LoopInv(s, fmt) && Possible(s, BundleMissing)
    ensures LoopInv(Act(s, BundleMissing, fmt), fmt)
  {
    if s.kept.Some? {
      forall k <- s.apps | Agrees(k, s.apps[k], s.store, fmt)
        ensures Agrees(k, s.apps[k], BundleLostState(s.store), fmt)
      {
        ConditionsReadOneKey(AppOf(k, s.apps[k]), s.store, BundleLostState(s.store), fmt);
      }
    }
  }

  /** Every live RemoteApp waits for a reconcile or shows what the store says now. */
  ghost predicate Agreed(s: LoopState, fmt: Formats) {
    forall k <- Live(s) :: Waits(s, k) || Agrees(k, s.apps[k], s.store, fmt)
  }

  /** A lost bundle nudges nobody: full agreement survives it if and only if no live
      RemoteApp without a reconcile coming holds a verdict. */
  lemma BundleLossExactly(s: LoopState, fmt: Formats)
    requires Agreed(s, fmt) && s.store.enabled && Possible(s, BundleMissing)
    ensures Agreed(Act(s, BundleMissing, fmt), fmt) <==>
            forall k <- Live(s) :: !Waits(s, k) ==> k !in s.store.results
  {
    var s' := Act(s, BundleMissing, fmt);
    assert Live(s') == Live(s);
    forall k <- Live(s) | !Waits(s, k)
      ensures Agrees(k, s.apps[k], s'.store, fmt) <==> k !in s.store.results
    {
      LossShows(k, s.apps[k], s.store, fmt);
    }
  }

  lemma LossShows(k: NamespacedName, app: App, store: StoreState, fmt: Formats)
    requires Agrees(k, app, store, fmt) && store.enabled
    ensures Agrees(k, app, BundleLostState(store), fmt) <==> k !in store.results
  {
    var cr := AppOf(k, app);
    if k in store.results {
      AbsenceShows(cr, store, BundleLostState(store), fmt);
      SameWantedAgrees(k, app, store, BundleLostState(store), fmt);
    } else {
      ConditionsReadOneKey(cr, store, BundleLostState(store), fmt);
    }
  }

  lemma DeliveryStaysInStep(s: LoopState, fmt: Formats)
    requires LoopInv(s, fmt) && Possible(s, Delivered)
    ensures LoopInv(Act(s, Delivered, fmt), fmt)
  {
    var s' := Act(s, Delivered, fmt);
    assert s.queue == [s.queue[0]] + s.queue[1..];
    assert forall k :: Waits(s, k) ==> Waits(s', k);
    assert Live(s') == Live(s);
  }

  lemma WatchStaysInStep(s: LoopState, a: LoopAction, fmt: Formats)
    requires LoopInv(s, fmt) && Possible(s, a)
    requires a.Create? || a.Edited? || a.MarkDeleted? || a.Removed? || a.RoundListed? || a.RoundAborted?
    ensures LoopInv(Act(s, a, fmt), fmt)
  {
    var s' := Act(s, a, fmt);
    if a.Create? || a.Edited? {
      assert Live(s') <= Live(s) + {a.key};
    } else {
      assert Live(s') <= Live(s);
    }
  }

  // ----- one round -----

  /** Which nudges a channel takes: the first ones, as far as there is room. */
  lemma {:induction false} ChannelTakesTheFirst(queue: seq<NamespacedName>, capacity: nat, keys: seq<NamespacedName>)
    requires |queue| <= capacity
    ensures var room := capacity - |queue|;
            EnqueueAll(queue, capacity, keys) == queue + keys[..if |keys| < room then |keys| else room]
    decreases |keys|
  {
    if keys != [] {
      if |queue| < capacity {
        ChannelTakesTheFirst(queue + [keys[0]], capacity, keys[1..]);
      } else {
        ChannelTakesTheFirst(queue, capacity, keys[1..]);
      }
    }
  }

  lemma {:induction false} ChannelKeepsItsOwn(queue: seq<NamespacedName>, capacity: nat, keys: seq<NamespacedName>)
    ensures queue <= EnqueueAll(queue, capacity, keys)
    decreases |keys|
  {
    if keys != [] {
      ChannelKeepsItsOwn(if |queue| < capacity then queue + [keys[0]] else queue, capacity, keys[1..]);
    }
  }

  ghost predicate HasRoom(s: LoopState, nudged: seq<NamespacedName>) {
    |s.queue| + |nudged| <= s.capacity
  }

  /** The round listed every live RemoteApp that holds a verdict and has no reconcile coming. */
  ghost predicate Covers(s: LoopState, outcomes: Outcomes) {
    forall k <- Live(s) :: k in s.store.results && !Waits(s, k) ==> k in outcomes
  }

  /** A live RemoteApp without a reconcile coming is asked for the same conditions as before,
      or, if the round left it out, had no verdict. */
  ghost predicate Reaches(s: LoopState, a: LoopAction, fmt: Formats)
    requires a.RoundDone? && Possible(s, a)
  {
    var s' := Act(s, a, fmt);
    forall k <- Live(s) :: !Waits(s', k) ==>
      if k in a.outcomes then s.kept.None? && SameWanted(AppOf(k, s.apps[k]), s.store, s'.store, fmt)
      else k !in s.store.results
  }

  lemma SameWantedAgrees(k: NamespacedName, app: App, store: StoreState, store': StoreState, fmt: Formats)
    requires Agrees(k, app, store, fmt)
    ensures Agrees(k, app, store', fmt) <==> SameWanted(AppOf(k, app), store, store', fmt)
  {
    var cr, cs := AppOf(k, app), app.status.conditions;
    SameHeaders(cr, store, store', fmt);
    ShowsOne(FindStatusCondition(cs, TUNNEL_VERIFIED), WantedVerified(cr, store), WantedVerified(cr, store'));
    ShowsOne(FindStatusCondition(cs, UPSTREAM_REACHABLE),
             WantedUpstream(cr, store, fmt), WantedUpstream(cr, store', fmt));
  }

  /** Same type and same observedGeneration. */
  predicate SameHeader(d: Option<Desired>, d': Option<Desired>) {
    d.Some? && d'.Some? ==>
      d.value.ctype == d'.value.ctype && d.value.observedGeneration == d'.value.observedGeneration
  }

  lemma SameHeaders(cr: RemoteApp, store: StoreState, store': StoreState, fmt: Formats)
    ensures SameHeader(WantedVerified(cr, store), WantedVerified(cr, store'))
    ensures SameHeader(WantedUpstream(cr, store, fmt), WantedUpstream(cr, store', fmt))
  {
    VerifiedHeader(cr, store);
    VerifiedHeader(cr, store');
    UpstreamHeader(cr, store, fmt);
    UpstreamHeader(cr, store', fmt);
  }

  lemma ShowsOne(found: Option<Condition>, d: Option<Desired>, d': Option<Desired>)
    requires Shows(found, d) && SameHeader(d, d')
    ensures Shows(found, d') <==> d == d'
  {
  }

  /** No verdict and a verdict never look the same. */
  lemma AbsenceShows(cr: RemoteApp, store: StoreState, store': StoreState, fmt: Formats)
    requires store.enabled && store'.enabled && cr.key !in store'.results
    ensures cr.key in store.results ==> !SameWanted(cr, store, store', fmt)
  {
    var d, d' := VerifiedCondition(cr, store), VerifiedCondition(cr, store');
    assert |"VerificationPending"| == 19 && |"CertificateVerified"| == 19;
    assert "VerificationPending"[0] == 'V' && "CertificateVerified"[0] == 'C';
    assert |"TunnelNotReady"| == 14 && |"CertificateInvalid"| == 18 && |"TunnelUnreachable"| == 17;
    assert cr.key in store.results ==> d.reason != d'.reason;
  }

  lemma RoundStaysInStep(s: LoopState, a: LoopAction, fmt: Formats)
    requires LoopInv(s, fmt) && a.RoundDone? && Possible(s, a) && Reaches(s, a, fmt)
    ensures LoopInv(Act(s, a, fmt), fmt)
  {
    var s' := Act(s, a, fmt);
    ChannelKeepsItsOwn(s.queue, s.capacity, a.nudged);
    forall k <- s'.apps | !s'.apps[k].deleting && !Waits(s', k) ensures Agrees(k, s'.apps[k], s'.store, fmt) {
      assert k in Live(s) && !Waits(s, k);
      if k in a.outcomes {
        SameWantedAgrees(k, s.apps[k], s.store, s'.store, fmt);
      } else {
        assert Agrees(k, s.apps[k], s.store, fmt);
        ConditionsReadOneKey(AppOf(k, s.apps[k]), s.store, s'.store, fmt);
      }
    }
  }

  /** For a round that follows no bundle loss that is exact: agreement survives if and only
      if every live RemoteApp is reached. */
  lemma RoundStaysInStepExactly(s: LoopState, a: LoopAction, fmt: Formats)
    requires LoopInv(s, fmt) && s.kept.None? && s.store.enabled && a.RoundDone? && Possible(s, a)
    ensures InStep(Act(s, a, fmt), fmt) <==> Reaches(s, a, fmt)
  {
    var s' := Act(s, a, fmt);
    if Reaches(s, a, fmt) {
      RoundStaysInStep(s, a, fmt);
    }
    ChannelKeepsItsOwn(s.queue, s.capacity, a.nudged);
    if InStep(s', fmt) {
      forall k <- Live(s) | !Waits(s', k)
        ensures if k in a.outcomes then SameWanted(AppOf(k, s.apps[k]), s.store, s'.store, fmt)
                else k !in s.store.results
      {
        assert !Waits(s, k);
        SameWantedAgrees(k, s.apps[k], s.store, s'.store, fmt);
        if k !in a.outcomes {
          AbsenceShows(AppOf(k, s.apps[k]), s.store, s'.store, fmt);
        }
      }
    }
  }

  lemma MembersOfSum(a: seq<NamespacedName>, b: seq<NamespacedName>, k: NamespacedName)
    ensures k in a + b <==> k in a || k in b
  {
  }

  /** With room in the channel a round reaches everyone if and only if it covers them. */
  lemma RoomReaches(s: LoopState, a: LoopAction, fmt: Formats)
    requires a.RoundDone? && Possible(s, a) && HasRoom(s, a.nudged)
    requires s.kept.Some? ==> s.store.results == map[]
    ensures Reaches(s, a, fmt) <==> Covers(s, a.outcomes)
  {
    var s' := Act(s, a, fmt);
    ChannelTakesTheFirst(s.queue, s.capacity, a.nudged);
    assert s'.queue == s.queue + a.nudged;
    forall k ensures Waits(s', k) <==> Waits(s, k) || k in a.nudged {
      MembersOfSum(s.queue, a.nudged, k);
    }
    forall k <- Live(s) | k in a.outcomes && !Waits(s', k)
      ensures s.kept.None? && SameWanted(AppOf(k, s.apps[k]), s.store, s'.store, fmt)
    {
      assert !Differs(s.store.results, a.outcomes, k);
      SkippingIsSafe(AppOf(k, s.apps[k]), s.store, a.outcomes, a.now, fmt);
    }
    forall k | k !in a.outcomes ensures k !in a.nudged {
      assert !Differs(s.store.results, a.outcomes, k);
    }
  }

  // ----- whole runs -----

  lemma StaysInStep(s: LoopState, a: LoopAction, fmt: Formats)
    requires LoopInv(s, fmt) && Possible(s, a) && (a.RoundDone? ==> Reaches(s, a, fmt))
    ensures LoopInv(Act(s, a, fmt), fmt)
  {
    match a
    case RoundDone(_, _, _) => RoundStaysInStep(s, a, fmt);
    case Reconciled(_, _, _, _, _) => ReconcileStaysInStep(s, a, fmt);
    case BundleMissing => BundleLossStaysInStep(s, fmt);
    case Delivered => DeliveryStaysInStep(s, fmt);
    case _ => WatchStaysInStep(s, a, fmt);
  }

  ghost predicate CanPlay(s: LoopState, actions: seq<LoopAction>, fmt: Formats)
    decreases |actions|
  {
    actions == [] || (Possible(s, actions[0]) && CanPlay(Act(s, actions[0], fmt), actions[1..], fmt))
  }

  ghost function Play(s: LoopState, actions: seq<LoopAction>, fmt: Formats): LoopState
    requires CanPlay(s, actions, fmt)
    decreases |actions|
  {
    if actions == [] then s else Play(Act(s, actions[0], fmt), actions[1..], fmt)
  }

  /** Every round of the run reaches everyone. */
  ghost predicate AllReached(s: LoopState, actions: seq<LoopAction>, fmt: Formats)
    requires CanPlay(s, actions, fmt)
    decreases |actions|
  {
    actions == [] ||
    (&& (actions[0].RoundDone? ==> Reaches(s, actions[0], fmt))
     && AllReached(Act(s, actions[0], fmt), actions[1..], fmt))
  }

  /** Before the first RemoteApp is created. */
  ghost predicate Empty(s: LoopState) {
    s.apps == map[] && s.kept == None
  }

  /** In every run in which every round reaches everyone, bundle losses included. */
  lemma {:induction false} AgreementAlongRuns(s: LoopState, actions: seq<LoopAction>, fmt: Formats)
    requires CanPlay(s, actions, fmt) && AllReached(s, actions, fmt)
    requires Empty(s) || LoopInv(s, fmt)
    ensures LoopInv(Play(s, actions, fmt), fmt)
    decreases |actions|
  {
    assert LoopInv(s, fmt);
    if actions != [] {
      StaysInStep(s, actions[0], fmt);
      AgreementAlongRuns(Act(s, actions[0], fmt), actions[1..], fmt);
    }
  }

  ghost predicate AlwaysRoom(s: LoopState, actions: seq<LoopAction>, fmt: Formats)
    requires CanPlay(s, actions, fmt)
    decreases |actions|
  {
    actions == [] ||
    (&& (actions[0].RoundDone? ==> HasRoom(s, actions[0].nudged))
     && AlwaysRoom(Act(s, actions[0], fmt), actions[1..], fmt))
  }

  ghost predicate AlwaysCovered(s: LoopState, actions: seq<LoopAction>, fmt: Formats)
    requires CanPlay(s, actions, fmt)
    decreases |actions|
  {
    actions == [] ||
    (&& (actions[0].RoundDone? ==> Covers(s, actions[0].outcomes))
     && AlwaysCovered(Act(s, actions[0], fmt), actions[1..], fmt))
  }

  ghost predicate AlwaysInStep(s: LoopState, actions: seq<LoopAction>, fmt: Formats)
    requires CanPlay(s, actions, fmt)
    decreases |actions|
  {
    InStep(s, fmt) && (actions == [] || AlwaysInStep(Act(s, actions[0], fmt), actions[1..], fmt))
  }

  /** With room in the channel, every moment of a run is in step if and only if every round
      covers the live RemoteApps that hold a verdict and have no reconcile coming. */
  lemma {:induction false} AgreementExactly(s: LoopState, actions: seq<LoopAction>, fmt: Formats)
    requires CanPlay(s, actions, fmt) && AlwaysRoom(s, actions, fmt) && s.store.enabled
    requires Empty(s) || LoopInv(s, fmt)
    ensures AlwaysInStep(s, actions, fmt) <==> AlwaysCovered(s, actions, fmt)
    decreases |actions|
  {
    assert LoopInv(s, fmt);
    if actions != [] {
      var a := actions[0];
      ExactStep(s, a, fmt);
      if LoopInv(Act(s, a, fmt), fmt) {
        AgreementExactly(Act(s, a, fmt), actions[1..], fmt);
      }
    }
  }

  lemma ExactStep(s: LoopState, a: LoopAction, fmt: Formats)
    requires LoopInv(s, fmt) && s.store.enabled && Possible(s, a) && (a.RoundDone? ==> HasRoom(s, a.nudged))
    ensures Act(s, a, fmt).store.enabled
    ensures InStep(Act(s, a, fmt), fmt) <==> (a.RoundDone? ==> Covers(s, a.outcomes))
    ensures InStep(Act(s, a, fmt), fmt) ==> LoopInv(Act(s, a, fmt), fmt)
  {
    if a.RoundDone? {
      RoomReaches(s, a, fmt);
      if s.kept.None? {
        RoundStaysInStepExactly(s, a, fmt);
      } else {
        RoundStaysInStep(s, a, fmt);
      }
    } else {
      StaysInStep(s, a, fmt);
    }
  }

  // ----- quiescence -----

  /** With nothing new to report, a round nudges nobody. */
  lemma QuietRound(s: StoreState, round: Outcomes, now: Time, nudged: seq<NamespacedName>)
    requires Nudges(nudged, ReplaceState(s, round, now).results, round)
    ensures nudged == []
  {
    if nudged != [] {
      HeadIsMember(nudged);
      assert false;
    }
  }

  lemma HeadIsMember(s: seq<NamespacedName>)
    requires s != []
    ensures s[0] in s
  {
  }

  lemma SameEdits(cr: RemoteApp, pods: seq<Pod>, applyErr: string, s: StoreState, s': StoreState, fmt: Formats)
    requires s.enabled == s'.enabled && s.upstreamProbe == s'.upstreamProbe
    requires VerifiedCondition(cr, s) == VerifiedCondition(cr, s')
    requires UpstreamCondition(cr, s, fmt) == UpstreamCondition(cr, s', fmt)
    ensures StatusEdits(cr, pods, applyErr, Some(s), fmt) == StatusEdits(cr, pods, applyErr, Some(s'), fmt)
    ensures RollUp(cr, pods, Some(s), fmt) == RollUp(cr, pods, Some(s'), fmt)
  {
  }

  /** Constant pods and constant answers: after one round and one accepted pass, a second
      round and a second pass write nothing and say nothing. */
  lemma SecondPassIsQuiet(key: NamespacedName, fmt: Formats, w: World, round: Outcomes,
                          t: Time, u: Time, t': Time, u': Time,
                          pods: seq<Pod>, generation: int, applyErr: string, accepted: bool)
    requires key in round
    ensures var w1 := Pass(key, fmt, w.(store := ReplaceState(w.store, round, t)), u, pods, generation, applyErr, true);
            var w2 := w1.(store := ReplaceState(w1.store, round, t'));
            Pass(key, fmt, w2, u', pods, generation, applyErr, accepted) == w2
  {
    var cr := RemoteApp(key, generation, false, None);
    var s1 := ReplaceState(w.store, round, t);
    var s2 := ReplaceState(s1, round, t');
    SkippingIsSafe(cr, s1, round, t', fmt);
    SameEdits(cr, pods, applyErr, s1, s2, fmt);
    var prev := w.status.conditions;
    StatusIsIdempotent(cr, pods, prev, applyErr, Some(s1), fmt, WholeSecond(u), WholeSecond(u'));
    var first := ComputeStatus(cr, pods, prev, applyErr, Some(s1), fmt, WholeSecond(u));
    if StatusEqual(w.status, first) {
      EqualStatusIsSame(cr, pods, w.status, applyErr, Some(s1), fmt, WholeSecond(u));
    }
    assert ComputeStatus(cr, pods, first.conditions, applyErr, Some(s2), fmt, WholeSecond(u')) == first;
  }
}
