/** Where agreement ends: runs in which a round does not reach a live RemoteApp. */
module LoopLimits {
  import opened Types
  import opened Sorting
  import opened Store
  import opened Status
  import opened Round
  import opened Loop

  // ----- building runs -----

  /** The actions can be taken from s and lead to s'. */
  ghost predicate Leads(s: LoopState, actions: seq<LoopAction>, s': LoopState, fmt: Formats) {
    CanPlay(s, actions, fmt) && Play(s, actions, fmt) == s'
  }

  lemma {:induction false} PlayOn(s: LoopState, actions: seq<LoopAction>, more: seq<LoopAction>, fmt: Formats)
    requires CanPlay(s, actions, fmt) && CanPlay(Play(s, actions, fmt), more, fmt)
    ensures CanPlay(s, actions + more, fmt)
    ensures Play(s, actions + more, fmt) == Play(Play(s, actions, fmt), more, fmt)
    decreases |actions|
  {
    if actions == [] {
      assert actions + more == more;
    } else {
      assert (actions + more)[0] == actions[0];
      assert (actions + more)[1..] == actions[1..] + more;
      PlayOn(Act(s, actions[0], fmt), actions[1..], more, fmt);
    }
  }

  lemma Then(s: LoopState, actions: seq<LoopAction>, s': LoopState,
             more: seq<LoopAction>, s'': LoopState, fmt: Formats)
    requires Leads(s, actions, s', fmt) && Leads(s', more, s'', fmt)
    ensures Leads(s, actions + more, s'', fmt)
  {
    PlayOn(s, actions, more, fmt);
  }

  lemma One(s: LoopState, a: LoopAction, fmt: Formats)
    requires Possible(s, a)
    ensures Leads(s, [a], Act(s, a, fmt), fmt)
  {
    assert [a][1..] == [];
  }

  const NEW_APP := App(1, false, NEW_STATUS)

  lemma Creates(s: LoopState, k: NamespacedName, fmt: Formats)
    requires k !in s.apps
    ensures Leads(s, [Create(k, 1)], s.(apps := s.apps[k := NEW_APP], pending := s.pending + {k}), fmt)
  {
    One(s, Create(k, 1), fmt);
  }

  lemma Removes(s: LoopState, k: NamespacedName, fmt: Formats)
    requires k in s.apps
    ensures Leads(s, [Removed(k)], s.(apps := s.apps - {k}), fmt)
  {
    One(s, Removed(k), fmt);
  }

  lemma ListsLive(s: LoopState, keys: set<NamespacedName>, fmt: Formats)
    requires s.listed.None? && keys == Live(s)
    ensures Leads(s, [RoundListed], s.(listed := Some(keys)), fmt)
  {
    One(s, RoundListed, fmt);
  }

  lemma Delivers(s: LoopState, k: NamespacedName, fmt: Formats)
    requires s.queue == [k] && k in s.pending
    ensures Leads(s, [Delivered], s.(queue := []), fmt)
  {
    One(s, Delivered, fmt);
    assert s.pending + {k} == s.pending && [k][1..] == [];
  }

  lemma Publishes(s: LoopState, outcomes: Outcomes, nudged: seq<NamespacedName>, now: Time, fmt: Formats)
    requires s.listed == Some(outcomes.Keys) && Nudges(nudged, s.store.results, outcomes)
    requires s.queue == [] && s.kept == None
    ensures Leads(s, [RoundDone(outcomes, nudged, now)],
                  s.(listed := None, store := ReplaceState(s.store, outcomes, now),
                     queue := nudged[..if |nudged| < s.capacity then |nudged| else s.capacity]), fmt)
  {
    One(s, RoundDone(outcomes, nudged, now), fmt);
    ChannelTakesTheFirst([], s.capacity, nudged);
    var room := if |nudged| < s.capacity then |nudged| else s.capacity;
    assert [] + nudged[..room] == nudged[..room];
  }

  lemma PublishesNothing(s: LoopState, now: Time, fmt: Formats)
    requires s.listed == Some({}) && s.queue == [] && s.kept == None
    ensures Leads(s, [RoundDone(map[], [], now)],
                  s.(listed := None, store := ReplaceState(s.store, map[], now)), fmt)
  {
    var none: Outcomes := map[];
    assert none.Keys == {};
    Publishes(s, none, [], now, fmt);
  }

  function PassOf(k: NamespacedName, at: Time): LoopAction {
    Reconciled(k, [], "", true, at)
  }

  /** An accepted pass leaves a live RemoteApp that shows what the store says. */
  lemma Passes(s: LoopState, k: NamespacedName, at: Time, fmt: Formats) returns (app: App)
    requires k in s.apps && !s.apps[k].deleting
    ensures Leads(s, [PassOf(k, at)], s.(apps := s.apps[k := app], pending := s.pending - {k}), fmt)
    ensures !app.deleting && Agrees(k, app, s.store, fmt)
  {
    One(s, PassOf(k, at), fmt);
    ReconciledAgrees(k, s.apps[k], s.store, [], "", at, fmt);
    app := ActPass(s, k, at, fmt);
  }

  lemma ActPass(s: LoopState, k: NamespacedName, at: Time, fmt: Formats) returns (app: App)
    requires k in s.apps && !s.apps[k].deleting
    ensures Act(s, PassOf(k, at), fmt) == s.(apps := s.apps[k := app], pending := s.pending - {k})
    ensures var next := NextStatus(k, s.apps[k], s.store, [], "", at, fmt);
            || (app == s.apps[k] && StatusEqual(s.apps[k].status, next))
            || app == s.apps[k].(status := next)
  {
    var next := NextStatus(k, s.apps[k], s.store, [], "", at, fmt);
    app := if StatusEqual(s.apps[k].status, next) then s.apps[k] else s.apps[k].(status := next);
    assert s.apps == s.apps[k := s.apps[k]];
  }

  function Start(capacity: nat, upstreamProbe: bool): LoopState {
    LoopState(NewState(true, upstreamProbe), None, map[], {}, [], capacity, None)
  }

  /** A live RemoteApp without a reconcile coming, which shows a store that differs about
      whether there is a verdict for it. */
  lemma Drifts(s: LoopState, k: NamespacedName, shown: StoreState, fmt: Formats)
    requires k in Live(s) && !Waits(s, k) && s.kept.None? && s.store.enabled && shown.enabled
    requires Agrees(k, s.apps[k], shown, fmt)
    requires k in s.store.results <==> k !in shown.results
    ensures !InStep(s, fmt)
  {
    var cr := AppOf(k, s.apps[k]);
    if k in s.store.results {
      AbsenceShows(cr, s.store, shown, fmt);
    } else {
      AbsenceShows(cr, shown, s.store, fmt);
    }
    SameWantedAgrees(k, s.apps[k], shown, s.store, fmt);
  }

  lemma NudgesAll(nudged: seq<NamespacedName>, outcomes: Outcomes)
    requires forall k :: k in nudged <==> k in outcomes
    requires forall i, j :: 0 <= i < j < |nudged| ==> KeyLess(nudged[i], nudged[j])
    ensures Nudges(nudged, map[], outcomes)
  {
  }

  // ----- a RemoteApp re-created while a round is in flight -----

  function FirstRound(k: NamespacedName, v: Verification, t: Time): seq<LoopAction> {
    [Create(k, 1)] + [RoundListed] + [RoundDone(map[k := v], [k], t)]
  }

  function NudgeAndPass(k: NamespacedName, t: Time): seq<LoopAction> {
    [Delivered] + [PassOf(k, t)]
  }

  function Recreate(k: NamespacedName): seq<LoopAction> {
    [Removed(k)] + [RoundListed] + [Create(k, 1)]
  }

  function PassAndPublish(k: NamespacedName, t: Time, u: Time): seq<LoopAction> {
    [PassOf(k, t)] + [RoundDone(map[], [], u)]
  }

  /** Create, round, nudge, pass; then delete, list, re-create, pass, publish. */
  function RecreationRun(k: NamespacedName, v: Verification, t: seq<Time>): seq<LoopAction>
    requires |t| == 4
  {
    FirstRound(k, v, t[0]) + NudgeAndPass(k, t[1]) + Recreate(k) + PassAndPublish(k, t[2], t[3])
  }

  /** The re-created RemoteApp is left showing a verdict the store has dropped, with no
      nudge, whatever the verdict was. */
  lemma RecreatedMidRoundDrifts(k: NamespacedName, v: Verification, t: seq<Time>, capacity: nat,
                                upstreamProbe: bool, fmt: Formats)
    requires |t| == 4 && capacity > 0
    ensures var s, run := Start(capacity, upstreamProbe), RecreationRun(k, v, t);
            CanPlay(s, run, fmt) && !InStep(Play(s, run, fmt), fmt)
  {
    var s0 := Start(capacity, upstreamProbe);
    var store := ReplaceState(s0.store, map[k := v], t[0]);
    var s3 := AfterFirstRound(s0, k, store);
    LeadsFirstRound(s0, k, v, t[0], fmt);
    var app := LeadsNudgeAndPass(s3, k, t[1], fmt);
    var s5 := s3.(queue := [], apps := map[k := app], pending := {});
    LeadsRecreate(s5, k, fmt);
    var s8 := s5.(apps := map[k := NEW_APP], pending := {k}, listed := Some({}));
    var s10 := LeadsPassAndPublish(s8, k, t[2], t[3], fmt);
    Then(s0, FirstRound(k, v, t[0]), s3, NudgeAndPass(k, t[1]), s5, fmt);
    Then(s0, FirstRound(k, v, t[0]) + NudgeAndPass(k, t[1]), s5, Recreate(k), s8, fmt);
    Then(s0, FirstRound(k, v, t[0]) + NudgeAndPass(k, t[1]) + Recreate(k), s8,
         PassAndPublish(k, t[2], t[3]), s10, fmt);
  }

  function AfterFirstRound(s: LoopState, k: NamespacedName, store: StoreState): LoopState {
    s.(apps := map[k := NEW_APP], pending := {k}, store := store, queue := [k])
  }

  lemma LeadsFirstRound(s: LoopState, k: NamespacedName, v: Verification, t: Time, fmt: Formats)
    requires s == Start(s.capacity, s.store.upstreamProbe) && s.capacity > 0
    ensures Leads(s, FirstRound(k, v, t), AfterFirstRound(s, k, ReplaceState(s.store, map[k := v], t)), fmt)
  {
    var s1 := s.(apps := map[k := NEW_APP], pending := {k});
    Creates(s, k, fmt);
    assert s.apps[k := NEW_APP] == s1.apps && s.pending + {k} == {k};
    ListsLive(s1, {k}, fmt);
    NudgesAll([k], map[k := v]);
    assert (map[k := v]).Keys == {k};
    Publishes(s1.(listed := Some({k})), map[k := v], [k], t, fmt);
    assert [k][..1] == [k];
    Then(s, [Create(k, 1)], s1, [RoundListed], s1.(listed := Some({k})), fmt);
    Then(s, [Create(k, 1)] + [RoundListed], s1.(listed := Some({k})), [RoundDone(map[k := v], [k], t)],
         AfterFirstRound(s, k, ReplaceState(s.store, map[k := v], t)), fmt);
  }

  lemma LeadsNudgeAndPass(s: LoopState, k: NamespacedName, t: Time, fmt: Formats) returns (app: App)
    requires s.queue == [k] && s.pending == {k} && s.apps == map[k := NEW_APP]
    ensures Leads(s, NudgeAndPass(k, t), s.(queue := [], apps := map[k := app], pending := {}), fmt)
    ensures !app.deleting && Agrees(k, app, s.store, fmt)
  {
    Delivers(s, k, fmt);
    app := Passes(s.(queue := []), k, t, fmt);
    assert s.apps[k := app] == map[k := app] && s.pending - {k} == {};
    Then(s, [Delivered], s.(queue := []), [PassOf(k, t)], s.(queue := [], apps := map[k := app], pending := {}), fmt);
  }

  lemma LeadsRecreate(s: LoopState, k: NamespacedName, fmt: Formats)
    requires s.apps.Keys == {k} && s.pending == {} && s.listed == None
    ensures Leads(s, Recreate(k), s.(apps := map[k := NEW_APP], pending := {k}, listed := Some({})), fmt)
  {
    var s1 := s.(apps := map[]);
    Removes(s, k, fmt);
    assert s.apps - {k} == map[];
    ListsLive(s1, {}, fmt);
    Creates(s1.(listed := Some({})), k, fmt);
    assert s1.apps[k := NEW_APP] == map[k := NEW_APP] && s.pending + {k} == {k};
    Then(s, [Removed(k)], s1, [RoundListed], s1.(listed := Some({})), fmt);
    Then(s, [Removed(k)] + [RoundListed], s1.(listed := Some({})), [Create(k, 1)],
         s.(apps := map[k := NEW_APP], pending := {k}, listed := Some({})), fmt);
  }

  lemma LeadsPassAndPublish(s: LoopState, k: NamespacedName, t: Time, u: Time, fmt: Formats) returns (s': LoopState)
    requires s.apps == map[k := NEW_APP] && s.pending == {k} && s.queue == [] && s.kept == None
    requires s.listed == Some({}) && s.store.enabled && k in s.store.results
    ensures Leads(s, PassAndPublish(k, t, u), s', fmt) && !InStep(s', fmt)
  {
    var app := Passes(s, k, t, fmt);
    var s1 := s.(apps := map[k := app], pending := {});
    assert s.apps[k := app] == s1.apps && s.pending - {k} == {};
    PublishesNothing(s1, u, fmt);
    s' := s1.(listed := None, store := ReplaceState(s.store, map[], u));
    Then(s, [PassOf(k, t)], s1, [RoundDone(map[], [], u)], s', fmt);
    Drifts(s', k, s.store, fmt);
  }

  // ----- a lost bundle -----

  /** Create, round, nudge, pass; then the bundle is missing. */
  function LossRun(k: NamespacedName, v: Verification, t: seq<Time>): seq<LoopAction>
    requires |t| == 2
  {
    FirstRound(k, v, t[0]) + NudgeAndPass(k, t[1]) + [BundleMissing]
  }

  /** The RemoteApp is left showing a verdict the store has dropped, with no nudge. */
  lemma BundleLossDrifts(k: NamespacedName, v: Verification, t: seq<Time>, capacity: nat,
                         upstreamProbe: bool, fmt: Formats)
    requires |t| == 2 && capacity > 0
    ensures var s, run := Start(capacity, upstreamProbe), LossRun(k, v, t);
            && CanPlay(s, run, fmt) && !Agreed(Play(s, run, fmt), fmt)
            && Play(s, run, fmt).pending == {} && Play(s, run, fmt).queue == []
  {
    var s0 := Start(capacity, upstreamProbe);
    var s3 := AfterFirstRound(s0, k, ReplaceState(s0.store, map[k := v], t[0]));
    LeadsFirstRound(s0, k, v, t[0], fmt);
    var app := LeadsNudgeAndPass(s3, k, t[1], fmt);
    var s5 := s3.(queue := [], apps := map[k := app], pending := {});
    var s6 := LeadsLoss(s5, k, fmt);
    Then(s0, FirstRound(k, v, t[0]), s3, NudgeAndPass(k, t[1]), s5, fmt);
    Then(s0, FirstRound(k, v, t[0]) + NudgeAndPass(k, t[1]), s5, [BundleMissing], s6, fmt);
  }

  lemma LeadsLoss(s: LoopState, k: NamespacedName, fmt: Formats) returns (s': LoopState)
    requires s.apps.Keys == {k} && !s.apps[k].deleting && s.pending == {} && s.queue == [] && s.listed == None
    requires s.store.enabled && k in s.store.results && Agrees(k, s.apps[k], s.store, fmt)
    ensures Leads(s, [BundleMissing], s', fmt) && !Agreed(s', fmt) && s'.pending == {} && s'.queue == []
  {
    One(s, BundleMissing, fmt);
    s' := Act(s, BundleMissing, fmt);
    BundleLossExactly(s, fmt);
    assert k in Live(s) && !Waits(s, k);
  }

  // ----- a full channel -----

  function CreateBoth(a: NamespacedName, b: NamespacedName): seq<LoopAction> {
    [Create(a, 1)] + [Create(b, 1)]
  }

  function PassBoth(a: NamespacedName, b: NamespacedName, t: Time, u: Time): seq<LoopAction> {
    [PassOf(a, t)] + [PassOf(b, u)]
  }

  function News(a: NamespacedName, b: NamespacedName, v: Verification, t: Time): seq<LoopAction> {
    [RoundListed] + [RoundDone(map[a := v, b := v], [a, b], t)]
  }

  /** Two RemoteApps are created and reconciled; the first round has news of both. */
  function CrowdedRun(a: NamespacedName, b: NamespacedName, v: Verification, t: seq<Time>): seq<LoopAction>
    requires |t| == 3
  {
    CreateBoth(a, b) + PassBoth(a, b, t[0], t[1]) + News(a, b, v, t[2])
  }

  /** With a channel of one, the nudge for the first fills it and the one for the second is
      dropped: it keeps showing that there is no verdict, and nothing is queued for it. */
  lemma FullChannelDrifts(a: NamespacedName, b: NamespacedName, v: Verification, t: seq<Time>,
                          upstreamProbe: bool, fmt: Formats)
    requires |t| == 3 && KeyLess(a, b)
    ensures var s, run := Start(1, upstreamProbe), CrowdedRun(a, b, v, t);
            && CanPlay(s, run, fmt) && !InStep(Play(s, run, fmt), fmt)
            && Play(s, run, fmt).queue == [a] && b in Play(s, run, fmt).store.results && !Waits(Play(s, run, fmt), b)
  {
    KeyLessIsStrictWeak();
    var s0 := Start(1, upstreamProbe);
    var s2 := Both(s0, a, b, NEW_APP, NEW_APP, {a} + {b});
    LeadsCreateBoth(s0, a, b, fmt);
    var first, second := LeadsPassBoth(s2, a, b, t[0], t[1], fmt);
    var s4 := Both(s2, a, b, first, second, {});
    assert s2.pending - {a} - {b} == {};
    var s6 := LeadsNews(s4, a, b, v, t[2], fmt);
    Then(s0, CreateBoth(a, b), s2, PassBoth(a, b, t[0], t[1]), s4, fmt);
    Then(s0, CreateBoth(a, b) + PassBoth(a, b, t[0], t[1]), s4, News(a, b, v, t[2]), s6, fmt);
  }

  function Both(s: LoopState, a: NamespacedName, b: NamespacedName, first: App, second: App,
                pending: set<NamespacedName>): LoopState
  {
    s.(apps := s.apps[a := first][b := second], pending := pending)
  }

  lemma LeadsCreateBoth(s: LoopState, a: NamespacedName, b: NamespacedName, fmt: Formats)
    requires a != b && a !in s.apps && b !in s.apps && s.pending == {}
    ensures Leads(s, CreateBoth(a, b), Both(s, a, b, NEW_APP, NEW_APP, {a} + {b}), fmt)
  {
    var s1 := s.(apps := s.apps[a := NEW_APP], pending := s.pending + {a});
    Creates(s, a, fmt);
    Creates(s1, b, fmt);
    assert s.pending + {a} == {a};
    Then(s, [Create(a, 1)], s1, [Create(b, 1)], Both(s, a, b, NEW_APP, NEW_APP, {a} + {b}), fmt);
  }

  lemma LeadsPassBoth(s: LoopState, a: NamespacedName, b: NamespacedName, t: Time, u: Time, fmt: Formats)
    returns (first: App, second: App)
    requires a != b && a in s.apps && b in s.apps && !s.apps[a].deleting && !s.apps[b].deleting
    ensures Leads(s, PassBoth(a, b, t, u), Both(s, a, b, first, second, s.pending - {a} - {b}), fmt)
    ensures !first.deleting && !second.deleting && Agrees(b, second, s.store, fmt)
  {
    first := Passes(s, a, t, fmt);
    var s1 := s.(apps := s.apps[a := first], pending := s.pending - {a});
    second := Passes(s1, b, u, fmt);
    Then(s, [PassOf(a, t)], s1, [PassOf(b, u)], Both(s, a, b, first, second, s.pending - {a} - {b}), fmt);
  }

  lemma LeadsNews(s: LoopState, a: NamespacedName, b: NamespacedName, v: Verification, t: Time, fmt: Formats)
    returns (s': LoopState)
    requires KeyLess(a, b) && a != b && s.store.results == map[] && s.store.enabled && s.kept == None
    requires s.queue == [] && s.capacity == 1 && s.listed == None && s.pending == {}
    requires s.apps.Keys == {a, b} && !s.apps[a].deleting && !s.apps[b].deleting
    requires Agrees(b, s.apps[b], s.store, fmt)
    ensures Leads(s, News(a, b, v, t), s', fmt) && !InStep(s', fmt)
    ensures s'.queue == [a] && b in s'.store.results && !Waits(s', b)
  {
    var outcomes := map[a := v, b := v];
    var s1 := s.(listed := Some({a, b}));
    ListsLive(s, {a, b}, fmt);
    NudgesAll([a, b], outcomes);
    assert [a, b][..1] == [a] && outcomes.Keys == {a, b};
    Publishes(s1, outcomes, [a, b], t, fmt);
    s' := s1.(listed := None, store := ReplaceState(s.store, outcomes, t), queue := [a]);
    Then(s, [RoundListed], s1, [RoundDone(outcomes, [a, b], t)], s', fmt);
    Drifts(s', b, s.store, fmt);
  }
}
