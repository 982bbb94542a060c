/** What the operator reads off a list of tunnel pods. */
module Pods {
  import opened Types
  import opened Sorting

  datatype Waiting = Waiting(reason: string, message: string)

  datatype Terminated = Terminated(reason: string, exitCode: int)

  datatype ContainerStatus = ContainerStatus(
    name: string,
    ready: bool,
    restartCount: int,
    waiting: Option<Waiting>,
    terminated: Option<Terminated>,
    lastTerminated: Option<Terminated>)

  datatype PodCondition = PodCondition(ctype: string, status: string)

  datatype Pod = Pod(
    namespace: string,
    name: string,
    labels: map<string, string>,
    terminating: bool,
    conditions: seq<PodCondition>,
    phase: string,
    reason: string,
    initStatuses: seq<ContainerStatus>,
    statuses: seq<ContainerStatus>)

  const NO_TBOT_PODS := "no tbot pods"
  const TBOT := "tbot"
  const GHOSTUNNEL := "ghostunnel"

  predicate IsLive(p: Pod) { !p.terminating }

  function FirstReady(cs: seq<PodCondition>): bool {
    if cs == [] then false
    else if cs[0].ctype == "Ready" then cs[0].status == "True"
    else FirstReady(cs[1..])
  }

  predicate IsPodReady(p: Pod) { FirstReady(p.conditions) }

  /** Ready is what the first Ready condition says, and no without one. */
  lemma {:induction false} FirstReadyDecides(cs: seq<PodCondition>)
    ensures FirstReady(cs) <==>
            exists i :: 0 <= i < |cs| && cs[i] == PodCondition("Ready", "True") &&
                        forall j :: 0 <= j < i ==> cs[j].ctype != "Ready"
  {
    if cs != [] && cs[0].ctype != "Ready" {
      var rest := cs[1..];
      FirstReadyDecides(rest);
      if i :| 0 <= i < |rest| && rest[i] == PodCondition("Ready", "True") &&
              forall j :: 0 <= j < i ==> rest[j].ctype != "Ready" {
        assert cs[i + 1] == rest[i] && forall j :: 0 < j < i + 1 ==> cs[j] == rest[j - 1];
      }
      if i :| 0 <= i < |cs| && cs[i] == PodCondition("Ready", "True") &&
              forall j :: 0 <= j < i ==> cs[j].ctype != "Ready" {
        assert rest[i - 1] == cs[i] && forall j :: 0 <= j < i - 1 ==> rest[j] == cs[j + 1];
      }
    }
  }

  method LiveTbotPods(pods: seq<Pod>) returns (out: seq<Pod>)
    ensures out == Filter(IsLive, pods)
    ensures forall p :: p in out <==> p in pods && !p.terminating
  {
    out := [];
    for i := 0 to |pods|
      invariant out == Filter(IsLive, pods[..i])
    {
      assert pods[..i + 1] == pods[..i] + [pods[i]];
      FilterAppend(IsLive, pods[..i], [pods[i]]);
      if pods[i].terminating {
        continue;
      }
      out := out + [pods[i]];
    }
    assert pods[..|pods|] == pods;
    forall p ensures p in out <==> p in pods && !p.terminating { FilterMember(IsLive, pods, p); }
  }

  // ----- containers -----

  function AllContainerStatuses(p: Pod): seq<ContainerStatus> {
    p.initStatuses + p.statuses
  }

  predicate Unready(c: ContainerStatus) { !c.ready }

  /** Index of the last tbot entry, -1 without one. */
  function LastTbot(cs: seq<ContainerStatus>): (r: int)
    ensures -1 <= r < |cs|
    ensures r >= 0 ==> cs[r].name == TBOT && forall k :: r < k < |cs| ==> cs[k].name != TBOT
    ensures r < 0 ==> forall c <- cs :: c.name != TBOT
  {
    if cs == [] then -1
    else if cs[|cs| - 1].name == TBOT then |cs| - 1
    else
      assert cs == cs[..|cs| - 1] + [cs[|cs| - 1]];
      LastTbot(cs[..|cs| - 1])
  }

  function Swapped<T>(s: seq<T>, i: nat, j: nat): seq<T>
    requires i < |s| && j < |s|
  {
    s[i := s[j]][j := s[i]]
  }

  function UnreadyTbotFirst(p: Pod): seq<ContainerStatus> {
    var out := Filter(Unready, AllContainerStatuses(p));
    var tbot := LastTbot(out);
    if tbot > 0 then Swapped(out, 0, tbot) else out
  }

  method UnreadyContainers(p: Pod) returns (out: seq<ContainerStatus>)
    ensures out == UnreadyTbotFirst(p)
    ensures TbotTakesTheFront(Filter(Unready, p.initStatuses + p.statuses), out)
  {
    var tbot;
    out, tbot := CollectUnready(AllContainerStatuses(p));
    if tbot > 0 {
      out := out[0 := out[tbot]][tbot := out[0]];
    }
    TbotFirst(p);
  }

  /** The appending loop, which remembers where the last tbot entry went. */
  method CollectUnready(all: seq<ContainerStatus>) returns (out: seq<ContainerStatus>, tbot: int)
    ensures out == Filter(Unready, all) && tbot == LastTbot(out)
  {
    out, tbot := [], -1;
    for i := 0 to |all|
      invariant out == Filter(Unready, all[..i])
      invariant tbot == LastTbot(out)
    {
      assert all[..i + 1] == all[..i] + [all[i]];
      FilterAppend(Unready, all[..i], [all[i]]);
      if all[i].ready {
        continue;
      }
      if all[i].name == TBOT {
        tbot := |out|;
      }
      assert (out + [all[i]])[..|out|] == out;
      out := out + [all[i]];
    }
    assert all[..|all|] == all;
  }

  /** out is list, except that the last tbot entry and the first entry change places. */
  ghost predicate TbotTakesTheFront(list: seq<ContainerStatus>, out: seq<ContainerStatus>) {
    if forall c <- list :: c.name != TBOT then out == list
    else exists j :: 0 <= j < |list| && TbotFrom(list, out, j)
  }

  ghost predicate TbotFrom(list: seq<ContainerStatus>, out: seq<ContainerStatus>, j: nat)
    requires j < |list|
  {
    && list[j].name == TBOT && (forall k :: j < k < |list| ==> list[k].name != TBOT)
    && |out| == |list| && out[0] == list[j] && out[j] == list[0]
    && forall k :: 0 < k < |list| && k != j ==> out[k] == list[k]
  }

  /** The report walks exactly the unready containers, init containers before regular ones,
      with tbot in front when it is unready. */
  lemma TbotFirst(p: Pod)
    ensures TbotTakesTheFront(Filter(Unready, p.initStatuses + p.statuses), UnreadyTbotFirst(p))
    ensures multiset(UnreadyTbotFirst(p)) ==
            multiset(Filter(Unready, p.initStatuses)) + multiset(Filter(Unready, p.statuses))
    ensures forall c :: c in UnreadyTbotFirst(p) <==> (c in p.initStatuses || c in p.statuses) && !c.ready
    ensures (exists c :: (c in p.initStatuses || c in p.statuses) && !c.ready && c.name == TBOT) ==>
              UnreadyTbotFirst(p) != [] && UnreadyTbotFirst(p)[0].name == TBOT
  {
    var out := Filter(Unready, p.initStatuses + p.statuses);
    FilterAppend(Unready, p.initStatuses, p.statuses);
    FrontSwap(out);
    SameMembers(UnreadyTbotFirst(p), out);
    forall c ensures c in out <==> (c in p.initStatuses || c in p.statuses) && !c.ready {
      FilterMember(Unready, p.initStatuses + p.statuses, c);
    }
  }

  lemma FrontSwap(out: seq<ContainerStatus>)
    ensures var tbot := LastTbot(out);
            var swapped := if tbot > 0 then Swapped(out, 0, tbot) else out;
            && TbotTakesTheFront(out, swapped) && multiset(swapped) == multiset(out)
            && ((exists c <- out :: c.name == TBOT) ==> swapped != [] && swapped[0].name == TBOT)
  {
    var tbot := LastTbot(out);
    if tbot >= 0 {
      assert out[tbot] in out;
      assert TbotFrom(out, if tbot > 0 then Swapped(out, 0, tbot) else out, tbot);
    }
  }

  // ----- summaries -----

  function RestartNote(c: ContainerStatus): string {
    if c.restartCount > 0 then " (" + Decimal(c.restartCount) + " restarts)" else ""
  }

  function LastTerminationNote(c: ContainerStatus): string {
    match c.lastTerminated
    case None => ""
    case Some(t) => ", last termination: " + t.reason + " (" + Decimal(t.exitCode) + ")"
  }

  function MessageNote(w: Waiting): string {
    if w.message != "" then ": " + w.message else ""
  }

  function WaitingSummary(c: ContainerStatus): (r: string)
    ensures c.waiting.Some? && c.waiting.value.reason != "" ==> r != ""
    ensures c.waiting.None? ==> r == ""
  {
    match c.waiting
    case None => ""
    case Some(w) => w.reason + RestartNote(c) + LastTerminationNote(c) + MessageNote(w)
  }

  function TerminatedSummary(c: ContainerStatus): (r: string)
    ensures r != "" <==> c.terminated.Some?
    ensures c.terminated.Some? ==>
              var head := "Terminated: " + c.terminated.value.reason;
              head <= r && r[|head|..] == " (" + Decimal(c.terminated.value.exitCode) + ")"
  {
    match c.terminated
    case None => ""
    case Some(t) => "Terminated: " + t.reason + " (" + Decimal(t.exitCode) + ")"
  }

  /** The line one container contributes to a summary. */
  function ContainerSummary(c: ContainerStatus): string {
    if WaitingSummary(c) != "" then WaitingSummary(c) else TerminatedSummary(c)
  }

  /** The reason one container contributes to the ranking. */
  function ContainerReason(c: ContainerStatus): string {
    if c.waiting.Some? && c.waiting.value.reason != "" then c.waiting.value.reason
    else if c.terminated.Some? then c.terminated.value.reason
    else ""
  }

  /** The first non-empty line, or the empty string. */
  function FirstLine<T>(f: T -> string, s: seq<T>): string {
    if s == [] then "" else if f(s[0]) != "" then f(s[0]) else FirstLine(f, s[1..])
  }

  /** Where FirstLine found its line. */
  function Source<T>(f: T -> string, s: seq<T>): (r: Option<nat>)
    ensures r.Some? ==> r.value < |s| && f(s[r.value]) != "" && FirstLine(f, s) == f(s[r.value])
    ensures r.Some? ==> forall j :: 0 <= j < r.value ==> f(s[j]) == ""
    ensures r.None? ==> FirstLine(f, s) == "" && forall x <- s :: f(x) == ""
  {
    if s == [] then None
    else if f(s[0]) != "" then Some(0)
    else match Source(f, s[1..])
      case None => None
      case Some(i) => assert s[1..][i] == s[i + 1]; Some(i + 1)
  }

  function PodErrorReason(p: Pod): string {
    var reason := FirstLine(ContainerReason, UnreadyTbotFirst(p));
    if reason != "" then reason
    else if p.phase == "Failed" then (if p.reason != "" then p.reason else "Failed")
    else p.phase
  }

  function SummarizePodError(p: Pod): (r: string)
    ensures r == "" <==> IsPodReady(p)
  {
    if IsPodReady(p) then ""
    else
      var line := FirstLine(ContainerSummary, UnreadyTbotFirst(p));
      if line != "" then line else PhaseText(p)
  }

  function PhaseText(p: Pod): (r: string)
    ensures r != ""
  {
    if p.phase == "Failed" then "Failed: " + (if p.reason == "" then "Failed" else p.reason)
    else if p.phase != "" then p.phase
    else "unknown pod state"
  }

  /** A container has something to show when it terminated, or waits and the kubelet says
      anything about it. */
  lemma ShowsSomething(c: ContainerStatus)
    ensures ContainerSummary(c) != "" <==>
            || c.terminated.Some?
            || (c.waiting.Some? && (c.waiting.value.reason != "" || c.waiting.value.message != "" ||
                                    c.restartCount > 0 || c.lastTerminated.Some?))
    ensures c.waiting.None? ==> ContainerSummary(c) == TerminatedSummary(c)
    ensures WaitingSummary(c) != "" ==> ContainerSummary(c) == WaitingSummary(c)
  {
  }

  /** What a waiting container's line holds, in order: its reason, its restarts if any, how
      it last ended if it did, and the kubelet's message if there is one. */
  lemma WaitingSummaryReads(c: ContainerStatus)
    requires c.waiting.Some?
    ensures var w := c.waiting.value;
            exists restarts, last, message ::
              && WaitingSummary(c) == w.reason + restarts + last + message
              && (c.restartCount <= 0 ==> restarts == "")
              && (c.restartCount > 0 ==> restarts == " (" + Decimal(c.restartCount) + " restarts)")
              && (c.lastTerminated.None? ==> last == "")
              && (c.lastTerminated.Some? ==>
                    last == ", last termination: " + c.lastTerminated.value.reason +
                            " (" + Decimal(c.lastTerminated.value.exitCode) + ")")
              && (w.message == "" ==> message == "") && (w.message != "" ==> message == ": " + w.message)
  {
    var w := c.waiting.value;
    assert WaitingSummary(c) == w.reason + RestartNote(c) + LastTerminationNote(c) + MessageNote(w);
  }

  lemma {:induction false} FirstLineAt<T>(f: T -> string, s: seq<T>, i: nat)
    requires i <= |s| && forall j :: 0 <= j < i ==> f(s[j]) == ""
    ensures i < |s| && f(s[i]) != "" ==> FirstLine(f, s) == f(s[i])
    ensures i == |s| ==> FirstLine(f, s) == ""
  {
    if s != [] && i > 0 {
      assert forall j :: 0 <= j < i - 1 ==> s[1..][j] == s[j + 1];
      FirstLineAt(f, s[1..], i - 1);
    }
  }

  /** What the phase says of a pod none of whose containers shows anything. */
  predicate PhaseLine(p: Pod, line: string) {
    && (p.phase == "Failed" && p.reason != "" ==> line == "Failed: " + p.reason)
    && (p.phase == "Failed" && p.reason == "" ==> line == "Failed: Failed")
    && (p.phase != "Failed" && p.phase != "" ==> line == p.phase)
    && (p.phase == "" ==> line == "unknown pod state")
  }

  /** The line of a pod is a container's own: the first in tbot-first order with anything to
      show. With none, the phase speaks. */
  lemma SummaryIsAContainersOwn(p: Pod, i: nat)
    requires !IsPodReady(p) && i <= |UnreadyTbotFirst(p)|
    requires forall j :: 0 <= j < i ==> ContainerSummary(UnreadyTbotFirst(p)[j]) == ""
    ensures var cs := UnreadyTbotFirst(p);
            && (i < |cs| && ContainerSummary(cs[i]) != "" ==> SummarizePodError(p) == ContainerSummary(cs[i]))
            && (i == |cs| ==> PhaseLine(p, SummarizePodError(p)))
  {
    FirstLineAt(ContainerSummary, UnreadyTbotFirst(p), i);
    if i == |UnreadyTbotFirst(p)| { PhaseSpeaks(p); }
  }

  lemma PhaseSpeaks(p: Pod)
    ensures PhaseLine(p, PhaseText(p))
  {
  }

  /** Ranking and summary look at the same container exactly when the first container
      with anything to show also names a reason. */
  lemma SameSource(cs: seq<ContainerStatus>)
    ensures Source(ContainerReason, cs) == Source(ContainerSummary, cs) <==>
            var shown := Source(ContainerSummary, cs);
            shown.Some? ==> ContainerReason(cs[shown.value]) != ""
  {
    forall c | ContainerReason(c) != "" ensures ContainerSummary(c) != "" {
      ReasonGivesSummary(c);
    }
    SourcesMeet(ContainerReason, ContainerSummary, cs);
  }

  lemma ReasonGivesSummary(c: ContainerStatus)
    requires ContainerReason(c) != ""
    ensures ContainerSummary(c) != ""
  {
  }

  lemma SourcesMeet<T>(f: T -> string, g: T -> string, s: seq<T>)
    requires forall x <- s :: f(x) != "" ==> g(x) != ""
    ensures Source(f, s) == Source(g, s) <==>
            var shown := Source(g, s);
            shown.Some? ==> f(s[shown.value]) != ""
  {
  }

  /** In particular whenever every state carries a reason. */
  lemma ReasonsGivenSameSource(p: Pod)
    requires forall c <- p.initStatuses + p.statuses ::
               && (c.waiting.Some? ==> c.waiting.value.reason != "")
               && (c.terminated.Some? ==> c.terminated.value.reason != "")
    ensures Source(ContainerReason, UnreadyTbotFirst(p)) == Source(ContainerSummary, UnreadyTbotFirst(p))
  {
    var cs := UnreadyTbotFirst(p);
    TbotFirst(p);
    var shown := Source(ContainerSummary, cs);
    if shown.Some? {
      assert cs[shown.value] in cs;
    }
    SameSource(cs);
  }

  /** A Waiting state with a message and no reason separates the two: the summary
      describes tbot while the ranking takes ghostunnel's reason. */
  lemma RankingCanMissTheSummary()
    ensures exists p ::
      && Source(ContainerSummary, UnreadyTbotFirst(p)) == Some(0)
      && Source(ContainerReason, UnreadyTbotFirst(p)) == Some(1)
  {
    var tbot := ContainerStatus(TBOT, false, 0, Some(Waiting("", "pulling")), None, None);
    var tls := ContainerStatus(GHOSTUNNEL, false, 0, Some(Waiting("CrashLoopBackOff", "")), None, None);
    var p := Pod("ns", "p", map[], false, [], "Pending", "", [tbot], [tls]);
    assert AllContainerStatuses(p) == [tbot, tls];
    TwoUnready(tbot, tls);
    SecondSource(ContainerReason, tbot, tls);
    assert ContainerSummary(tbot) == ": pulling";
    assert Source(ContainerSummary, [tbot, tls]) == Some(0);
    assert UnreadyTbotFirst(p) == [tbot, tls];
  }

  lemma TwoUnready(a: ContainerStatus, b: ContainerStatus)
    requires !a.ready && !b.ready && a.name == TBOT && b.name != TBOT
    ensures Filter(Unready, [a, b]) == [a, b] && LastTbot([a, b]) == 0
  {
    FilterAppend(Unready, [a], [b]);
    FilterOne(Unready, a);
    FilterOne(Unready, b);
    assert [a] + [b] == [a, b] && [a, b][..1] == [a];
  }

  lemma SecondSource<T>(f: T -> string, a: T, b: T)
    requires f(a) == "" && f(b) != ""
    ensures Source(f, [a, b]) == Some(1)
  {
    assert [a, b][1..] == [b];
  }

  // ----- ranking pods -----

  function ErrorSeverity(reason: string): nat {
    if reason in {"ImagePullBackOff", "ErrImagePull", "CreateContainerConfigError"} then 1
    else if reason == "CrashLoopBackOff" then 2
    else if reason in {"Error", "OOMKilled"} then 3
    else if reason in {"ContainerCreating", "PodInitializing"} then 4
    else 5
  }

  function Rank(p: Pod): nat { ErrorSeverity(PodErrorReason(p)) }

  predicate PodLess(a: Pod, b: Pod) {
    if Rank(a) != Rank(b) then Rank(a) < Rank(b) else StringLess(a.name, b.name)
  }

  lemma PodLessIsStrictWeak()
    ensures StrictWeakOrder(PodLess)
  {
    StringLessIsStrictWeak();
  }

  /** Names identify the pods of one list. */
  ghost predicate NamesIdentify(pods: seq<Pod>) {
    forall a <- pods, b <- pods :: a.name == b.name ==> a == b
  }

  function PickWorstSummary(pods: seq<Pod>): string
    requires pods != []
  {
    var ordered := StableSort(PodLess, pods);
    StableSortIsPermutation(PodLess, pods);
    assert |multiset(ordered)| == |multiset(pods)| == |pods|;
    var line := FirstLine(SummarizePodError, ordered);
    if line != "" then line else SummarizePodError(ordered[0])
  }

  function SummarizeStatus(pods: seq<Pod>): (bool, string) {
    var live := Filter(IsLive, pods);
    if live == [] then (false, NO_TBOT_PODS)
    else if exists p <- live :: IsPodReady(p) then (true, "")
    else (false, PickWorstSummary(live))
  }

  /** p is the one live pod that precedes or ties with every other in the ranking. */
  ghost predicate IsWorst(pods: seq<Pod>, p: Pod) {
    && p in pods && IsLive(p)
    && forall q <- pods :: IsLive(q) ==> !PodLess(q, p)
  }

  /** Ready means some live pod is ready; otherwise the error is the summary of the
      worst live pod, and it is never empty. */
  lemma SummarizeStatusMeaning(pods: seq<Pod>)
    ensures var (ready, lastError) := SummarizeStatus(pods);
            && (ready <==> exists p <- pods :: IsLive(p) && IsPodReady(p))
            && (ready <==> lastError == "")
            && (!ready && (exists p <- pods :: IsLive(p)) ==>
                  exists p :: IsWorst(pods, p) && lastError == SummarizePodError(p))
            && ((forall p <- pods :: !IsLive(p)) ==> lastError == NO_TBOT_PODS)
  {
    var live := Filter(IsLive, pods);
    assert forall p :: p in live <==> p in pods && IsLive(p) by {
      forall p ensures p in live <==> p in pods && IsLive(p) { FilterMember(IsLive, pods, p); }
    }
    if live != [] {
      assert live[0] in live;
      if !exists p <- live :: IsPodReady(p) {
        WorstIsFirst(live);
        var p := StableSort(PodLess, live)[0];
        assert IsWorst(pods, p);
      }
    }
  }

  /** Reasons from the most to the least actionable; anything else comes last. */
  const TIERS: seq<set<string>> := [
    {"ImagePullBackOff", "ErrImagePull", "CreateContainerConfigError"},
    {"CrashLoopBackOff"},
    {"Error", "OOMKilled"},
    {"ContainerCreating", "PodInitializing"}]

  /** A container names this reason: it waits with it or, not waiting with any, terminated
      with it. */
  predicate Names(c: ContainerStatus, reason: string) {
    && reason != ""
    && if c.waiting.Some? && c.waiting.value.reason != "" then c.waiting.value.reason == reason
       else c.terminated.Some? && c.terminated.value.reason == reason
  }

  predicate NamesNone(c: ContainerStatus) {
    && (c.waiting.Some? ==> c.waiting.value.reason == "")
    && (c.terminated.Some? ==> c.terminated.value.reason == "")
  }

  /** The reason that decides a pod's tier: that of the first unready container, tbot before
      the others, that names one; without any the phase, or why the pod failed. */
  ghost predicate Decides(p: Pod, reason: string) {
    var cs := UnreadyTbotFirst(p);
    || (exists i :: 0 <= i < |cs| && Names(cs[i], reason) && forall j :: 0 <= j < i ==> NamesNone(cs[j]))
    || (&& (forall c <- cs :: NamesNone(c))
        && (p.phase != "Failed" ==> reason == p.phase)
        && (p.phase == "Failed" && p.reason != "" ==> reason == p.reason)
        && (p.phase == "Failed" && p.reason == "" ==> reason == "Failed"))
  }

  ghost predicate InTier(p: Pod, tier: nat)
    requires tier < |TIERS|
  {
    exists reason <- TIERS[tier] :: Decides(p, reason)
  }

  lemma DecidedByContainers(p: Pod, reason: string)
    ensures Decides(p, reason) <==> reason == PodErrorReason(p)
  {
    var cs := UnreadyTbotFirst(p);
    assert forall i :: 0 <= i < |cs| ==> cs[i] in cs;
    forall c ensures NamesNone(c) <==> ContainerReason(c) == "" {}
    forall c ensures Names(c, reason) <==> reason != "" && ContainerReason(c) == reason {}
    FirstLineIs(ContainerReason, cs, reason);
    FirstLineIs(ContainerReason, cs, "");
  }

  /** A line is the first one when some entry gives it and none before gives any. */
  lemma FirstLineIs<T>(f: T -> string, s: seq<T>, line: string)
    ensures FirstLine(f, s) == line <==>
            if line == "" then forall i :: 0 <= i < |s| ==> f(s[i]) == ""
            else exists i :: 0 <= i < |s| && f(s[i]) == line && forall j :: 0 <= j < i ==> f(s[j]) == ""
  {
    var at := Source(f, s);
    FirstLineAt(f, s, if at.Some? then at.value else |s|);
    if line == "" {
      if at.Some? { assert f(s[at.value]) != ""; }
    } else if i :| 0 <= i < |s| && f(s[i]) == line && forall j :: 0 <= j < i ==> f(s[j]) == "" {
      FirstLineAt(f, s, i);
    }
  }

  lemma TierIsRank(p: Pod, tier: nat)
    requires tier < |TIERS|
    ensures InTier(p, tier) <==> Rank(p) == tier + 1
  {
    ReasonTier(PodErrorReason(p), tier);
    DecidedByContainers(p, PodErrorReason(p));
    forall reason <- TIERS[tier] ensures Decides(p, reason) <==> reason == PodErrorReason(p) {
      DecidedByContainers(p, reason);
    }
  }

  lemma ReasonTier(reason: string, tier: nat)
    requires tier < |TIERS|
    ensures reason in TIERS[tier] <==> ErrorSeverity(reason) == tier + 1
  {
    assert |"ImagePullBackOff"| == 16 && |"ErrImagePull"| == 12 && |"CreateContainerConfigError"| == 26;
    assert |"CrashLoopBackOff"| == 16 && "CrashLoopBackOff"[0] == 'C' && "ImagePullBackOff"[0] == 'I';
    assert |"Error"| == 5 && |"OOMKilled"| == 9 && |"ContainerCreating"| == 17 && |"PodInitializing"| == 15;
    assert tier == 0 || tier == 1 || tier == 2 || tier == 3;
  }

  /** With no live pod ready, the error shown belongs to the worst tier any live pod is in,
      and within that tier to the first pod by name. */
  lemma WorstTierIsShown(pods: seq<Pod>, tier: nat, q: Pod)
    requires tier < |TIERS| && q in pods && IsLive(q) && InTier(q, tier)
    requires forall p <- pods :: IsLive(p) ==> !IsPodReady(p)
    requires forall p <- pods, better: nat :: IsLive(p) && better < tier ==> !InTier(p, better)
    ensures exists p <- pods ::
              && IsLive(p) && InTier(p, tier) && SummarizeStatus(pods).1 == SummarizePodError(p)
              && forall o <- pods :: IsLive(o) && InTier(o, tier) ==> !StringLess(o.name, p.name)
  {
    TierIsRank(q, tier);
    forall p <- pods | IsLive(p) ensures Rank(p) > tier {
      NoBetterTier(p, tier);
    }
    WorstRankIsShown(pods, tier + 1, q);
    var p :| p in pods && ShownAtRank(pods, tier + 1, p);
    TierIsRank(p, tier);
    forall o <- pods | IsLive(o) && InTier(o, tier) ensures !StringLess(o.name, p.name) {
      TierIsRank(o, tier);
    }
  }

  lemma NoBetterTier(p: Pod, tier: nat)
    requires tier < |TIERS| && forall better: nat :: better < tier ==> !InTier(p, better)
    ensures Rank(p) > tier
  {
    if Rank(p) <= tier {
      TierIsRank(p, Rank(p) - 1);
    }
  }

  /** The error shown is that of p, which comes first by name among the live pods of a rank. */
  ghost predicate ShownAtRank(pods: seq<Pod>, rank: nat, p: Pod) {
    && IsLive(p) && Rank(p) == rank && SummarizeStatus(pods).1 == SummarizePodError(p)
    && forall o <- pods :: IsLive(o) && Rank(o) == rank ==> !StringLess(o.name, p.name)
  }

  lemma WorstRankIsShown(pods: seq<Pod>, rank: nat, q: Pod)
    requires q in pods && IsLive(q) && Rank(q) == rank
    requires forall p <- pods :: IsLive(p) ==> !IsPodReady(p) && Rank(p) >= rank
    ensures exists p <- pods :: ShownAtRank(pods, rank, p)
  {
    SummarizeStatusMeaning(pods);
    var p :| IsWorst(pods, p) && SummarizeStatus(pods).1 == SummarizePodError(p);
    assert !PodLess(q, p);
    forall o <- pods | IsLive(o) && Rank(o) == rank ensures !StringLess(o.name, p.name) {
      assert !PodLess(o, p);
    }
    assert ShownAtRank(pods, rank, p);
  }

  lemma WorstIsFirst(live: seq<Pod>)
    requires live != [] && forall p <- live :: !IsPodReady(p)
    ensures StableSort(PodLess, live) != []
    ensures var p := StableSort(PodLess, live)[0];
            && p in live && (forall q <- live :: !PodLess(q, p))
            && PickWorstSummary(live) == SummarizePodError(p)
  {
    PodLessIsStrictWeak();
    StableSortSorts(PodLess, live);
    StableSortIsPermutation(PodLess, live);
    var ordered := StableSort(PodLess, live);
    assert |multiset(ordered)| == |multiset(live)| == |live|;
    assert ordered[0] in multiset(live);
    forall q | q in live ensures !PodLess(q, ordered[0]) {
      assert q in multiset(ordered);
      var i :| 0 <= i < |ordered| && ordered[i] == q;
      assert i > 0 ==> !PodLess(ordered[i], ordered[0]);
    }
  }

  // ----- one container role across pods -----

  function FirstNamed(cs: seq<ContainerStatus>, container: string): Option<ContainerStatus> {
    if cs == [] then None
    else if cs[0].name == container then Some(cs[0])
    else FirstNamed(cs[1..], container)
  }

  function FindContainerStatus(p: Pod, container: string): Option<ContainerStatus> {
    FirstNamed(AllContainerStatuses(p), container)
  }

  /** The entry found for a name is the first one, init containers before regular ones. */
  lemma {:induction false} FirstNamedIsFirst(cs: seq<ContainerStatus>, container: string)
    ensures var r := FirstNamed(cs, container);
            && (r.None? <==> forall c <- cs :: c.name != container)
            && (r.Some? ==> exists i :: 0 <= i < |cs| && cs[i] == r.value && r.value.name == container &&
                              forall j :: 0 <= j < i ==> cs[j].name != container)
  {
    if cs != [] && cs[0].name != container {
      var rest := cs[1..];
      FirstNamedIsFirst(rest, container);
      var r := FirstNamed(rest, container);
      if r.Some? {
        var i :| 0 <= i < |rest| && rest[i] == r.value && forall j :: 0 <= j < i ==> rest[j].name != container;
        assert cs[i + 1] == r.value && forall j :: 0 < j < i + 1 ==> cs[j] == rest[j - 1];
      }
    }
  }

  lemma FoundContainer(p: Pod, container: string)
    ensures FindContainerStatus(p, container) == FirstNamed(p.initStatuses + p.statuses, container)
    ensures FindContainerStatus(p, container) == None <==>
            forall c :: c in p.initStatuses || c in p.statuses ==> c.name != container
    ensures var all := p.initStatuses + p.statuses;
            RoleReady(p, container) <==>
            exists i :: 0 <= i < |all| && all[i].name == container && all[i].ready &&
                        forall j :: 0 <= j < i ==> all[j].name != container
  {
    FirstNamedIsFirst(p.initStatuses + p.statuses, container);
  }

  predicate RoleReady(p: Pod, container: string) {
    var c := FindContainerStatus(p, container);
    c.Some? && c.value.ready
  }

  function CarriesRole(container: string): Pod -> bool {
    p => FindContainerStatus(p, container).Some?
  }

  function RoleLine(container: string): Pod -> string {
    p => match FindContainerStatus(p, container)
      case None => ""
      case Some(c) => ContainerSummary(c)
  }

  function SummarizeRole(pods: seq<Pod>, container: string): (bool, string) {
    var live := Filter(IsLive, pods);
    if live == [] then (false, NO_TBOT_PODS)
    else if exists p <- live :: RoleReady(p, container) then (true, "")
    else
      var unready := Filter(CarriesRole(container), live);
      if unready == [] then (false, "")
      else
        var line := FirstLine(RoleLine(container), StableSort(PodLess, unready));
        (false, if line != "" then line else "not ready")
  }

  /** p carries the container, shows something about it, and no live pod that ranks before p
      does. */
  ghost predicate ShownForRole(pods: seq<Pod>, container: string, p: Pod) {
    && p in pods && IsLive(p) && RoleLine(container)(p) != ""
    && forall q <- pods :: IsLive(q) && RoleLine(container)(q) != "" ==> !PodLess(q, p)
  }

  /** With no live pod ready in a role, the line shown is that of the worst-ranked pod that
      shows anything about the container. */
  lemma RoleShowsTheWorst(pods: seq<Pod>, container: string)
    requires forall p <- pods :: IsLive(p) ==> !RoleReady(p, container)
    requires exists p <- pods :: IsLive(p) && FindContainerStatus(p, container).Some?
    ensures var line := SummarizeRole(pods, container).1;
            || (exists p :: ShownForRole(pods, container, p) && line == RoleLine(container)(p))
            || (line == "not ready" && forall p <- pods :: IsLive(p) ==> RoleLine(container)(p) == "")
  {
    var live, carries, f := Filter(IsLive, pods), CarriesRole(container), RoleLine(container);
    var unready := Filter(carries, live);
    forall p ensures p in unready <==> p in pods && IsLive(p) && carries(p) {
      FilterMember(IsLive, pods, p);
      FilterMember(carries, live, p);
    }
    forall p ensures p in live <==> p in pods && IsLive(p) { FilterMember(IsLive, pods, p); }
    PodLessIsStrictWeak();
    StableSortSorts(PodLess, unready);
    StableSortIsPermutation(PodLess, unready);
    var ordered := StableSort(PodLess, unready);
    SameMembers(unready, ordered);
    FirstLineIsWorst(f, ordered);
    var at := Source(f, ordered);
    if at.Some? {
      var p := ordered[at.value];
      assert p in ordered;
      forall q <- pods | IsLive(q) && f(q) != "" ensures !PodLess(q, p) {
        assert q in ordered;
      }
      assert ShownForRole(pods, container, p);
    } else {
      forall q <- pods | IsLive(q) ensures f(q) == "" {
        if carries(q) { assert q in ordered; }
      }
    }
  }

  lemma FirstLineIsWorst(f: Pod -> string, ordered: seq<Pod>)
    requires Sorted(PodLess, ordered) && StrictWeakOrder(PodLess)
    ensures var at := Source(f, ordered);
            at.Some? ==> forall q <- ordered :: f(q) != "" ==> !PodLess(q, ordered[at.value])
  {
    var at := Source(f, ordered);
    if at.Some? {
      forall q <- ordered | f(q) != "" ensures !PodLess(q, ordered[at.value]) {
        var i :| 0 <= i < |ordered| && ordered[i] == q;
        assert i >= at.value;
      }
    }
  }

  /** The collecting loop: it stops at the first ready container. */
  method UnreadyInRole(live: seq<Pod>, container: string) returns (found: bool, unready: seq<Pod>)
    ensures found <==> exists p <- live :: RoleReady(p, container)
    ensures !found ==> unready == Filter(CarriesRole(container), live)
  {
    found, unready := false, [];
    for i := 0 to |live|
      invariant unready == Filter(CarriesRole(container), live[..i])
      invariant forall j :: 0 <= j < i ==> !RoleReady(live[j], container)
    {
      assert live[..i + 1] == live[..i] + [live[i]];
      FilterAppend(CarriesRole(container), live[..i], [live[i]]);
      var c := FindContainerStatus(live[i], container);
      if c.None? {
        continue;
      }
      if c.value.ready {
        assert live[i] in live && RoleReady(live[i], container);
        return true, unready;
      }
      unready := unready + [live[i]];
    }
    assert live[..|live|] == live;
  }

  method SummarizeRoleLoop(pods: seq<Pod>, container: string) returns (ready: bool, summary: string)
    ensures (ready, summary) == SummarizeRole(pods, container)
  {
    var live := LiveTbotPods(pods);
    if |live| == 0 {
      return false, NO_TBOT_PODS;
    }
    var found, unready := UnreadyInRole(live, container);
    if found {
      return true, "";
    }
    if |unready| == 0 {
      return false, "";
    }
    var line := FirstLine(RoleLine(container), StableSort(PodLess, unready));
    return false, if line != "" then line else "not ready";
  }

  // ----- the order of the pod list does not matter -----

  lemma RankingForgetsOrder(pods: seq<Pod>, shuffled: seq<Pod>)
    requires multiset(pods) == multiset(shuffled) && NamesIdentify(pods)
    ensures StableSort(PodLess, pods) == StableSort(PodLess, shuffled)
  {
    PodLessIsStrictWeak();
    assert NoTies(PodLess, pods) by {
      forall a <- pods, b <- pods | a != b ensures PodLess(a, b) || PodLess(b, a) {
        StringTotal(a.name, b.name);
      }
    }
    StableSortPermutation(PodLess, pods, shuffled);
  }

  lemma FilterKeepsIdentity(keep: Pod -> bool, pods: seq<Pod>)
    requires NamesIdentify(pods)
    ensures NamesIdentify(Filter(keep, pods))
  {
    var kept := Filter(keep, pods);
    forall a <- kept, b <- kept | a.name == b.name ensures a == b {
      FilterMember(keep, pods, a);
      FilterMember(keep, pods, b);
    }
  }

  lemma SameMembers<T>(s: seq<T>, t: seq<T>)
    requires multiset(s) == multiset(t)
    ensures |s| == |t|
    ensures forall x :: x in s <==> x in t
  {
    assert |s| == |multiset(s)| == |multiset(t)| == |t|;
    assert forall x :: x in s <==> x in multiset(s);
    assert forall x :: x in t <==> x in multiset(t);
  }

  lemma StatusForgetsOrder(pods: seq<Pod>, shuffled: seq<Pod>)
    requires multiset(pods) == multiset(shuffled) && NamesIdentify(pods)
    ensures SummarizeStatus(pods) == SummarizeStatus(shuffled)
  {
    var a, b := Filter(IsLive, pods), Filter(IsLive, shuffled);
    FilterPermutation(IsLive, pods, shuffled);
    FilterKeepsIdentity(IsLive, pods);
    SameMembers(a, b);
    RankingForgetsOrder(a, b);
  }

  lemma RoleForgetsOrder(pods: seq<Pod>, shuffled: seq<Pod>, container: string)
    requires multiset(pods) == multiset(shuffled) && NamesIdentify(pods)
    ensures SummarizeRole(pods, container) == SummarizeRole(shuffled, container)
  {
    var a, b := Filter(IsLive, pods), Filter(IsLive, shuffled);
    FilterPermutation(IsLive, pods, shuffled);
    FilterKeepsIdentity(IsLive, pods);
    SameMembers(a, b);
    var carries := CarriesRole(container);
    FilterPermutation(carries, a, b);
    FilterKeepsIdentity(carries, a);
    SameMembers(Filter(carries, a), Filter(carries, b));
    RankingForgetsOrder(Filter(carries, a), Filter(carries, b));
  }
}
