/** Deriving RemoteApp.status from pods and the verification store. */
module Status {
  import opened Types
  import opened Sorting
  import opened Conditions
  import opened Pods
  import opened Store

  datatype RemoteApp = RemoteApp(
    key: NamespacedName,
    generation: int,
    deleting: bool,
    probePath: Option<string>)

  datatype RemoteAppStatus = RemoteAppStatus(
    ready: bool,
    lastError: string,
    observedGeneration: int,
    conditions: seq<Condition>)

  const NEW_STATUS := RemoteAppStatus(false, "", 0, [])

  const READY := "Ready"
  const IDENTITY_ISSUED := "IdentityIssued"
  const TUNNEL_SERVING := "TunnelServing"
  const TUNNEL_VERIFIED := "TunnelVerified"
  const UPSTREAM_REACHABLE := "UpstreamReachable"
  const RECONCILED := "Reconciled"

  const CONDITION_TYPES := [READY, IDENTITY_ISSUED, TUNNEL_SERVING, TUNNEL_VERIFIED, UPSTREAM_REACHABLE, RECONCILED]

  /** The read side of the store as wired into the reconciler; None when it is not. */
  type Reader = Option<StoreState>

  predicate VerificationOn(reader: Reader) {
    reader.Some? && reader.value.enabled
  }

  predicate UpstreamProbeOn(reader: Reader) {
    VerificationOn(reader) && reader.value.upstreamProbe
  }

  // ----- the two probe conditions -----

  function VerifiedCondition(cr: RemoteApp, s: StoreState): Desired {
    var cond := (status, reason, message) => Desired(TUNNEL_VERIFIED, status, cr.generation, reason, message);
    match Get(s.results, cr.key)
    case None => cond(StatusUnknown, "VerificationPending", "no TLS verification result yet")
    case Some(v) =>
      match v.result
      case ResultVerified => cond(StatusTrue, "CertificateVerified", "served certificate verifies for " + v.serverName)
      case ResultNotReady => cond(StatusUnknown, "TunnelNotReady", "tunnel is not ready; certificate not verified")
      case ResultCertInvalid => cond(StatusFalse, "CertificateInvalid", v.detail)
      case ResultUnreachable => cond(StatusFalse, "TunnelUnreachable", v.detail)
  }

  function StatusCodeText(code: int, fmt: Formats): (r: string)
    ensures Decimal(code) <= r && (r == Decimal(code) <==> fmt.statusText(code) == "")
    ensures fmt.statusText(code) != "" ==> r[|Decimal(code)|..] == " " + fmt.statusText(code)
  {
    if fmt.statusText(code) != "" then Decimal(code) + " " + fmt.statusText(code) else Decimal(code)
  }

  function LastGoodProbe(s: StoreState, k: NamespacedName, fmt: Formats): string {
    match Get(s.success, k)
    case Some(t) => "last good probe " + fmt.timestamp(t)
    case None => "no good probe recorded since this replica started verifying"
  }

  function UpstreamCondition(cr: RemoteApp, s: StoreState, fmt: Formats): Desired {
    var cond := (status, reason, message) => Desired(UPSTREAM_REACHABLE, status, cr.generation, reason, message);
    match Get(s.results, cr.key)
    case None => cond(StatusUnknown, "ProbePending", "no upstream probe result yet")
    case Some(v) =>
      if v.result == ResultNotReady then
        cond(StatusUnknown, "TunnelNotReady", "tunnel is not ready; upstream not probed")
      else if v.result != ResultVerified then
        cond(StatusUnknown, "TunnelNotVerified", "tunnel TLS did not verify; upstream not probed")
      else
        match v.upstream.result
        case UpstreamReachable =>
          cond(StatusTrue, "UpstreamReachable",
               "upstream answered HTTP " + StatusCodeText(v.upstream.statusCode, fmt) + " for " + v.upstream.url)
        case UpstreamUnreachable =>
          var detail :=
            if v.upstream.statusCode != 0
            then "upstream returned HTTP " + StatusCodeText(v.upstream.statusCode, fmt) + " for " + v.upstream.url
            else v.upstream.detail;
          cond(StatusFalse, "UpstreamUnreachable", detail + "; " + LastGoodProbe(s, cr.key, fmt))
        case UpstreamNotProbed =>
          cond(StatusUnknown, "ProbePending", "no upstream probe outcome (\"not_probed\")")
  }

  function StatusFor(verdict: UpstreamResult): ConditionStatus {
    match verdict
    case UpstreamReachable => StatusTrue
    case UpstreamUnreachable => StatusFalse
    case UpstreamNotProbed => StatusUnknown
  }

  /** A coherent store's verdict is exactly what the condition's status says. */
  lemma UpstreamStatusMeaning(cr: RemoteApp, s: StoreState, fmt: Formats)
    requires CoherentRound(s.results)
    ensures UpstreamCondition(cr, s, fmt).status == StatusFor(Verdict(s, cr.key))
  {
    if cr.key in s.results {
      assert Coherent(s.results[cr.key]);
    }
  }

  /** What the edit sets names this generation. */
  predicate Observes(e: Edit, generation: int) {
    e.Put? ==> e.desired.observedGeneration == generation
  }

  function VerifiedEdit(cr: RemoteApp, reader: Reader): (e: Edit)
    ensures EditType(e) == TUNNEL_VERIFIED && Observes(e, cr.generation)
  {
    if VerificationOn(reader) then Put(VerifiedCondition(cr, reader.value)) else Drop(TUNNEL_VERIFIED)
  }

  function UpstreamEdit(cr: RemoteApp, reader: Reader, fmt: Formats): (e: Edit)
    ensures EditType(e) == UPSTREAM_REACHABLE && Observes(e, cr.generation)
  {
    if UpstreamProbeOn(reader) then Put(UpstreamCondition(cr, reader.value, fmt)) else Drop(UPSTREAM_REACHABLE)
  }

  predicate UpstreamDown(cr: RemoteApp, reader: Reader, fmt: Formats) {
    UpstreamProbeOn(reader) && UpstreamCondition(cr, reader.value, fmt).status == StatusFalse
  }

  // ----- the roll-up and the per-role conditions -----

  function BoolStatus(b: bool): ConditionStatus {
    if b then StatusTrue else StatusFalse
  }

  function ReadyReason(ready: bool, lastError: string): string {
    if ready then "TunnelReady" else if lastError == NO_TBOT_PODS then "NoPods" else "PodNotReady"
  }

  function RollUp(cr: RemoteApp, pods: seq<Pod>, reader: Reader, fmt: Formats): (bool, string) {
    var (podsReady, lastError) := SummarizeStatus(pods);
    if podsReady && UpstreamDown(cr, reader, fmt)
    then (false, UpstreamCondition(cr, reader.value, fmt).message)
    else (podsReady, lastError)
  }

  function ReadyCondition(cr: RemoteApp, pods: seq<Pod>, reader: Reader, fmt: Formats): (r: Desired)
    ensures r.ctype == READY && r.observedGeneration == cr.generation
  {
    var (podsReady, podError) := SummarizeStatus(pods);
    var (ready, lastError) := RollUp(cr, pods, reader, fmt);
    Desired(READY, BoolStatus(ready), cr.generation,
            if podsReady && !ready then "UpstreamUnreachable" else ReadyReason(ready, podError),
            if ready then "tbot tunnel ready" else lastError)
  }

  function RoleCondition(ctype: string, generation: int, role: (bool, string),
                         trueReason: string, falseReason: string, readyMessage: string): Desired
  {
    var (ready, summary) := role;
    if ready then Desired(ctype, StatusTrue, generation, trueReason, readyMessage)
    else if summary == "" then Desired(ctype, StatusUnknown, generation, falseReason, "no container status yet")
    else if summary == NO_TBOT_PODS then Desired(ctype, StatusFalse, generation, "NoPods", summary)
    else Desired(ctype, StatusFalse, generation, falseReason, summary)
  }

  function IdentityCondition(cr: RemoteApp, role: (bool, string)): (r: Desired)
    ensures r.ctype == IDENTITY_ISSUED && r.observedGeneration == cr.generation
  {
    RoleCondition(IDENTITY_ISSUED, cr.generation, role,
                  "IdentityIssued", "IdentityNotIssued", "tbot reports a usable identity")
  }

  function ServingCondition(cr: RemoteApp, role: (bool, string)): (r: Desired)
    ensures r.ctype == TUNNEL_SERVING && r.observedGeneration == cr.generation
  {
    RoleCondition(TUNNEL_SERVING, cr.generation, role,
                  "TunnelServing", "TunnelNotServing", "TLS listener is accepting connections")
  }

  function ReconciledCondition(cr: RemoteApp, applyErr: string): (r: Desired)
    ensures r.ctype == RECONCILED && r.observedGeneration == cr.generation
  {
    if applyErr == ""
    then Desired(RECONCILED, StatusTrue, cr.generation, "ReconcileSucceeded", "all owned objects applied")
    else Desired(RECONCILED, StatusFalse, cr.generation, "ReconcileError", applyErr)
  }

  // ----- the whole status -----

  function StatusEdits(cr: RemoteApp, pods: seq<Pod>, applyErr: string, reader: Reader, fmt: Formats): seq<Edit> {
    [ Put(ReadyCondition(cr, pods, reader, fmt)),
      Put(IdentityCondition(cr, SummarizeRole(pods, TBOT))),
      Put(ServingCondition(cr, SummarizeRole(pods, GHOSTUNNEL))),
      VerifiedEdit(cr, reader),
      UpstreamEdit(cr, reader, fmt),
      Put(ReconciledCondition(cr, applyErr)) ]
  }

  function ComputeStatus(cr: RemoteApp, pods: seq<Pod>, prev: seq<Condition>, applyErr: string,
                         reader: Reader, fmt: Formats, now: Time): RemoteAppStatus
  {
    var (ready, lastError) := RollUp(cr, pods, reader, fmt);
    RemoteAppStatus(ready, lastError, cr.generation,
                    ApplyEdits(prev, StatusEdits(cr, pods, applyErr, reader, fmt), now))
  }

  /** Step by step over one mutable list, as the reconciler does it. */
  method ComputeStatusInPlace(cr: RemoteApp, pods: seq<Pod>, prev: seq<Condition>, applyErr: string,
                              reader: Reader, fmt: Formats, now: Time) returns (status: RemoteAppStatus)
    ensures status == ComputeStatus(cr, pods, prev, applyErr, reader, fmt, now)
    ensures status.ready <==> status.lastError == ""
  {
    var (podsReady, lastError) := SummarizeStatus(pods);
    var conditions := prev;
    var upstreamDown := UpstreamDown(cr, reader, fmt);
    var ready := podsReady && !upstreamDown;
    var readyCond := Desired(READY, BoolStatus(ready), cr.generation, ReadyReason(ready, lastError), lastError);
    if ready {
      readyCond := readyCond.(message := "tbot tunnel ready");
    } else if podsReady && upstreamDown {
      lastError := UpstreamCondition(cr, reader.value, fmt).message;
      readyCond := readyCond.(reason := "UpstreamUnreachable", message := lastError);
    }
    assert readyCond == ReadyCondition(cr, pods, reader, fmt);
    conditions := SetStatusCondition(conditions, readyCond, now);
    var identityReady, identitySummary := SummarizeRoleLoop(pods, TBOT);
    conditions := SetStatusCondition(conditions, IdentityCondition(cr, (identityReady, identitySummary)), now);
    var servingReady, servingSummary := SummarizeRoleLoop(pods, GHOSTUNNEL);
    conditions := SetStatusCondition(conditions, ServingCondition(cr, (servingReady, servingSummary)), now);
    if VerificationOn(reader) {
      conditions := SetStatusCondition(conditions, VerifiedCondition(cr, reader.value), now);
    } else {
      conditions := RemoveStatusCondition(conditions, TUNNEL_VERIFIED);
    }
    if UpstreamProbeOn(reader) {
      conditions := SetStatusCondition(conditions, UpstreamCondition(cr, reader.value, fmt), now);
    } else {
      conditions := RemoveStatusCondition(conditions, UPSTREAM_REACHABLE);
    }
    conditions := SetStatusCondition(conditions, ReconciledCondition(cr, applyErr), now);
    UnfoldEdits(prev, StatusEdits(cr, pods, applyErr, reader, fmt), now);
    status := RemoteAppStatus(ready, lastError, cr.generation, conditions);
    ReadyIffNoError(cr, pods, prev, applyErr, reader, fmt, now);
  }

  lemma UnfoldEdits(cs: seq<Condition>, es: seq<Edit>, now: Time)
    requires |es| == 6
    ensures ApplyEdits(cs, es, now) ==
            ApplyEdit(ApplyEdit(ApplyEdit(ApplyEdit(ApplyEdit(ApplyEdit(
              cs, es[0], now), es[1], now), es[2], now), es[3], now), es[4], now), es[5], now)
  {
    var c1 := ApplyEdit(cs, es[0], now);
    var c2 := ApplyEdit(c1, es[1], now);
    var c3 := ApplyEdit(c2, es[2], now);
    var c4 := ApplyEdit(c3, es[3], now);
    var c5 := ApplyEdit(c4, es[4], now);
    calc {
      ApplyEdits(cs, es, now);
      ApplyEdits(c1, es[1..], now);
      { assert es[1..][0] == es[1] && es[1..][1..] == es[2..]; }
      ApplyEdits(c2, es[2..], now);
      { assert es[2..][0] == es[2] && es[2..][1..] == es[3..]; }
      ApplyEdits(c3, es[3..], now);
      { assert es[3..][0] == es[3] && es[3..][1..] == es[4..]; }
      ApplyEdits(c4, es[4..], now);
      { assert es[4..][0] == es[4] && es[4..][1..] == es[5..]; }
      ApplyEdits(c5, es[5..], now);
      { assert es[5..][0] == es[5] && es[5..][1..] == []; }
      ApplyEdit(c5, es[5], now);
    }
  }

  // ----- what holds of every status -----

  /** One edit per type, in the order of CONDITION_TYPES. */
  ghost predicate Scripted(es: seq<Edit>) {
    |es| == |CONDITION_TYPES| && forall i :: 0 <= i < |es| ==> EditType(es[i]) == CONDITION_TYPES[i]
  }

  lemma ScriptIsDistinct(es: seq<Edit>)
    requires Scripted(es)
    ensures DistinctTypes(es)
    ensures forall e <- es :: EditType(e) in CONDITION_TYPES
  {
  }

  lemma ListIsScripted(ready: Desired, identity: Desired, serving: Desired, verified: Edit, upstream: Edit,
                       reconciled: Desired)
    requires ready.ctype == READY && identity.ctype == IDENTITY_ISSUED && serving.ctype == TUNNEL_SERVING
    requires EditType(verified) == TUNNEL_VERIFIED && EditType(upstream) == UPSTREAM_REACHABLE
    requires reconciled.ctype == RECONCILED
    ensures Scripted([Put(ready), Put(identity), Put(serving), verified, upstream, Put(reconciled)])
  {
  }

  lemma EditsAreDistinct(cr: RemoteApp, pods: seq<Pod>, applyErr: string, reader: Reader, fmt: Formats)
    ensures var es := StatusEdits(cr, pods, applyErr, reader, fmt);
            && Scripted(es) && DistinctTypes(es)
            && forall e <- es :: EditType(e) in CONDITION_TYPES
  {
    ListIsScripted(ReadyCondition(cr, pods, reader, fmt),
                   IdentityCondition(cr, SummarizeRole(pods, TBOT)),
                   ServingCondition(cr, SummarizeRole(pods, GHOSTUNNEL)),
                   VerifiedEdit(cr, reader), UpstreamEdit(cr, reader, fmt),
                   ReconciledCondition(cr, applyErr));
    ScriptIsDistinct(StatusEdits(cr, pods, applyErr, reader, fmt));
  }

  /** The upstream probe is on and the last request through the tunnel was not answered. */
  predicate FarEndDown(cr: RemoteApp, reader: Reader, fmt: Formats) {
    && reader.Some? && reader.value.enabled && reader.value.upstreamProbe
    && UpstreamCondition(cr, reader.value, fmt).status == StatusFalse
  }

  /** The roll-up over these pods, with or without a far end that is down and what the probe
      found there. */
  ghost predicate RollUpTold(st: RemoteAppStatus, pods: seq<Pod>, generation: int, down: bool, found: string) {
    var podsReady := exists p <- pods :: IsLive(p) && IsPodReady(p);
    && (st.ready <==> st.lastError == "")
    && (st.ready <==> podsReady && !down)
    && (podsReady && down ==> st.lastError == found)
    && ((exists p <- pods :: IsLive(p)) && !podsReady ==>
          exists p :: IsWorst(pods, p) && st.lastError == SummarizePodError(p))
    && ((forall p <- pods :: !IsLive(p)) ==> st.lastError == "no tbot pods")
    && st.observedGeneration == generation
  }

  /** lastError is empty exactly when the RemoteApp is Ready, for every input; while no
      live pod is ready it is the summary of the worst-ranked live pod, and with a ready pod
      and a failing upstream what the probe found. */
  lemma ReadyIffNoError(cr: RemoteApp, pods: seq<Pod>, prev: seq<Condition>, applyErr: string,
                        reader: Reader, fmt: Formats, now: Time)
    ensures RollUpTold(ComputeStatus(cr, pods, prev, applyErr, reader, fmt, now), pods, cr.generation,
                       FarEndDown(cr, reader, fmt),
                       if reader.Some? then UpstreamCondition(cr, reader.value, fmt).message else "")
  {
    SummarizeStatusMeaning(pods);
    if UpstreamDown(cr, reader, fmt) {
      FailureHasMessage(cr, reader.value, fmt);
    }
  }

  lemma FailureHasMessage(cr: RemoteApp, s: StoreState, fmt: Formats)
    requires UpstreamCondition(cr, s, fmt).status == StatusFalse
    ensures UpstreamCondition(cr, s, fmt).message != ""
  {
  }

  /** What one role's condition is called and says. */
  datatype RoleWords = RoleWords(ready: string, unready: string, readyMessage: string)

  const IDENTITY_WORDS := RoleWords("IdentityIssued", "IdentityNotIssued", "tbot reports a usable identity")
  const SERVING_WORDS := RoleWords("TunnelServing", "TunnelNotServing", "TLS listener is accepting connections")

  /** What a role's condition says: True iff some live pod has the container ready, Unknown
      iff there are live pods and none carries it; when False, what the worst pod shows. */
  ghost predicate RoleTold(c: Option<Condition>, pods: seq<Pod>, container: string, words: RoleWords) {
    && c.Some?
    && (c.value.status == StatusTrue <==> exists p <- pods :: IsLive(p) && RoleReady(p, container))
    && (c.value.status == StatusUnknown <==>
          && (exists p <- pods :: IsLive(p))
          && forall p <- pods :: IsLive(p) ==> FindContainerStatus(p, container) == None)
    && ((forall p <- pods :: !IsLive(p)) ==> c.value.status == StatusFalse && c.value.reason == "NoPods")
    && (c.value.status == StatusTrue ==> c.value.reason == words.ready && c.value.message == words.readyMessage)
    && (c.value.status == StatusUnknown ==>
          c.value.reason == words.unready && c.value.message == "no container status yet")
    && (c.value.status == StatusFalse ==>
          && c.value.message == SummarizeRole(pods, container).1
          && c.value.reason == if c.value.message == NO_TBOT_PODS then "NoPods" else words.unready)
  }

  lemma RoleSummaryMeaning(pods: seq<Pod>, container: string)
    ensures var (ready, summary) := SummarizeRole(pods, container);
            && (ready <==> exists p <- pods :: IsLive(p) && RoleReady(p, container))
            && (!ready && summary == "" <==>
                  && (exists p <- pods :: IsLive(p))
                  && forall p <- pods :: IsLive(p) ==> FindContainerStatus(p, container) == None)
            && ((forall p <- pods :: !IsLive(p)) ==> !ready && summary == NO_TBOT_PODS)
  {
    var live := Filter(IsLive, pods);
    forall p ensures p in live <==> p in pods && IsLive(p) { FilterMember(IsLive, pods, p); }
    var carries := CarriesRole(container);
    var unready := Filter(carries, live);
    forall p ensures p in unready <==> p in live && carries(p) { FilterMember(carries, live, p); }
    if live != [] { assert live[0] in live; }
    if unready != [] { assert unready[0] in unready; }
  }

  ghost predicate RoleSays(d: Desired, role: (bool, string), words: RoleWords) {
    if role.0 then d.status == StatusTrue && d.reason == words.ready && d.message == words.readyMessage
    else if role.1 == "" then
      d.status == StatusUnknown && d.reason == words.unready && d.message == "no container status yet"
    else d.status == StatusFalse && d.message == role.1 &&
         d.reason == if role.1 == NO_TBOT_PODS then "NoPods" else words.unready
  }

  lemma RoleConditionSays(ctype: string, generation: int, role: (bool, string), words: RoleWords)
    ensures var d := RoleCondition(ctype, generation, role, words.ready, words.unready, words.readyMessage);
            RoleSays(d, role, words)
  {
  }

  lemma RoleTellsPods(prev: seq<Condition>, es: seq<Edit>, i: nat, now: Time, pods: seq<Pod>, container: string,
                      words: RoleWords)
    requires DistinctTypes(es) && i < |es| && es[i].Put?
    requires RoleSays(es[i].desired, SummarizeRole(pods, container), words)
    ensures RoleTold(FindStatusCondition(ApplyEdits(prev, es, now), EditType(es[i])), pods, container, words)
  {
    FindAfterEditAt(prev, es, i, now);
    RoleSummaryMeaning(pods, container);
  }

  /** The role conditions say what the pods say. */
  lemma RolesTellPods(cr: RemoteApp, pods: seq<Pod>, prev: seq<Condition>, applyErr: string,
                      reader: Reader, fmt: Formats, now: Time)
    ensures var cs := ComputeStatus(cr, pods, prev, applyErr, reader, fmt, now).conditions;
            && RoleTold(FindStatusCondition(cs, IDENTITY_ISSUED), pods, "tbot", IDENTITY_WORDS)
            && RoleTold(FindStatusCondition(cs, TUNNEL_SERVING), pods, "ghostunnel", SERVING_WORDS)
  {
    var es := StatusEdits(cr, pods, applyErr, reader, fmt);
    EditsAreDistinct(cr, pods, applyErr, reader, fmt);
    var tbot, tls := SummarizeRole(pods, TBOT), SummarizeRole(pods, GHOSTUNNEL);
    assert es[1] == Put(IdentityCondition(cr, tbot)) && es[2] == Put(ServingCondition(cr, tls));
    RoleConditionSays(IDENTITY_ISSUED, cr.generation, tbot, IDENTITY_WORDS);
    RoleConditionSays(TUNNEL_SERVING, cr.generation, tls, SERVING_WORDS);
    RoleTellsPods(prev, es, 1, now, pods, TBOT, IDENTITY_WORDS);
    RoleTellsPods(prev, es, 2, now, pods, GHOSTUNNEL, SERVING_WORDS);
  }

  /** The Ready condition repeats status.ready and status.lastError, with the reason that
      says who is to blame. */
  ghost predicate ReadyTold(c: Option<Condition>, st: RemoteAppStatus, podsReady: bool) {
    && c.Some?
    && (c.value.status == StatusTrue <==> st.ready) && (c.value.status == StatusFalse <==> !st.ready)
    && c.value.message == (if st.ready then "tbot tunnel ready" else st.lastError)
    && (st.ready ==> c.value.reason == "TunnelReady")
    && (!st.ready && podsReady ==> c.value.reason == "UpstreamUnreachable")
    && (!podsReady && st.lastError == "no tbot pods" ==> c.value.reason == "NoPods")
    && (!podsReady && st.lastError != "no tbot pods" ==> c.value.reason == "PodNotReady")
  }

  /** Reconciled says whether every owned object was applied. */
  ghost predicate ReconciledTold(c: Option<Condition>, applyErr: string) {
    && c.Some?
    && (applyErr == "" ==> c.value.status == StatusTrue && c.value.reason == "ReconcileSucceeded" &&
                           c.value.message == "all owned objects applied")
    && (applyErr != "" ==> c.value.status == StatusFalse && c.value.reason == "ReconcileError" &&
                           c.value.message == applyErr)
  }

  lemma ConditionsTellStatus(cr: RemoteApp, pods: seq<Pod>, prev: seq<Condition>, applyErr: string,
                             reader: Reader, fmt: Formats, now: Time)
    ensures var st := ComputeStatus(cr, pods, prev, applyErr, reader, fmt, now);
            var podsReady := exists p <- pods :: IsLive(p) && IsPodReady(p);
            && ReadyTold(FindStatusCondition(st.conditions, READY), st, podsReady)
            && ReconciledTold(FindStatusCondition(st.conditions, RECONCILED), applyErr)
  {
    var es := StatusEdits(cr, pods, applyErr, reader, fmt);
    EditsAreDistinct(cr, pods, applyErr, reader, fmt);
    FindAfterEditAt(prev, es, 0, now);
    FindAfterEditAt(prev, es, 5, now);
    SummarizeStatusMeaning(pods);
  }

  lemma VerifiedHeader(cr: RemoteApp, store: StoreState)
    ensures var d := VerifiedCondition(cr, store);
            d.ctype == TUNNEL_VERIFIED && d.observedGeneration == cr.generation
  {
  }

  lemma UpstreamHeader(cr: RemoteApp, store: StoreState, fmt: Formats)
    ensures var d := UpstreamCondition(cr, store, fmt);
            d.ctype == UPSTREAM_REACHABLE && d.observedGeneration == cr.generation
  {
  }

  /** Every condition a pass sets names the generation it was computed for. */
  lemma ConditionsObserveGeneration(cr: RemoteApp, pods: seq<Pod>, prev: seq<Condition>, applyErr: string,
                                    reader: Reader, fmt: Formats, now: Time, i: nat)
    requires i < |CONDITION_TYPES|
    ensures var st := ComputeStatus(cr, pods, prev, applyErr, reader, fmt, now);
            var c := FindStatusCondition(st.conditions, CONDITION_TYPES[i]);
            c.Some? ==> c.value.observedGeneration == cr.generation
  {
    var es := StatusEdits(cr, pods, applyErr, reader, fmt);
    EditsAreDistinct(cr, pods, applyErr, reader, fmt);
    FindAfterEditAt(prev, es, i, now);
    ListObserves(ReadyCondition(cr, pods, reader, fmt),
                 IdentityCondition(cr, SummarizeRole(pods, TBOT)),
                 ServingCondition(cr, SummarizeRole(pods, GHOSTUNNEL)),
                 VerifiedEdit(cr, reader), UpstreamEdit(cr, reader, fmt),
                 ReconciledCondition(cr, applyErr), cr.generation, i);
  }

  lemma ListObserves(ready: Desired, identity: Desired, serving: Desired, verified: Edit, upstream: Edit,
                     reconciled: Desired, generation: int, i: nat)
    requires forall d <- [ready, identity, serving, reconciled] :: d.observedGeneration == generation
    requires Observes(verified, generation) && Observes(upstream, generation) && i < 6
    ensures Observes([Put(ready), Put(identity), Put(serving), verified, upstream, Put(reconciled)][i], generation)
  {
    var ds := [ready, identity, serving, reconciled];
    assert ds[0] in ds && ds[1] in ds && ds[2] in ds && ds[3] in ds;
  }

  function TypesOf(cs: seq<Condition>): seq<string> {
    seq(|cs|, i requires 0 <= i < |cs| => cs[i].ctype)
  }

  lemma {:induction false} SetAppends(cs: seq<Condition>, d: Desired, now: Time)
    requires FindStatusCondition(cs, d.ctype) == None
    ensures TypesOf(SetStatusCondition(cs, d, now)) == TypesOf(cs) + [d.ctype]
  {
    if cs != [] {
      SetAppends(cs[1..], d, now);
      assert TypesOf(cs) == [cs[0].ctype] + TypesOf(cs[1..]);
      var rest := SetStatusCondition(cs[1..], d, now);
      assert TypesOf([cs[0]] + rest) == [cs[0].ctype] + TypesOf(rest);
    }
  }

  lemma {:induction false} PutsAppend(cs: seq<Condition>, es: seq<Edit>, now: Time)
    requires DistinctTypes(es) && forall e <- es :: e.Put? && FindStatusCondition(cs, EditType(e)) == None
    ensures TypesOf(ApplyEdits(cs, es, now)) == TypesOf(cs) + seq(|es|, i requires 0 <= i < |es| => EditType(es[i]))
    decreases |es|
  {
    if es != [] {
      var next := ApplyEdit(cs, es[0], now);
      SetAppends(cs, es[0].desired, now);
      forall e <- es[1..] ensures e.Put? && FindStatusCondition(next, EditType(e)) == None {
        var j :| 0 <= j < |es[1..]| && es[1..][j] == e;
        assert e == es[j + 1];
        FindAfterEdit(cs, es[0], now, EditType(e));
      }
      PutsAppend(next, es[1..], now);
      assert forall i :: 0 < i < |es| ==> es[i] == es[1..][i - 1];
    }
  }

  /** A first pass lists the roll-up, the two roles, the two probes and the operator's own
      state, in this order. */
  lemma FirstListReads(cr: RemoteApp, pods: seq<Pod>, applyErr: string, reader: Reader, fmt: Formats, now: Time)
    requires UpstreamProbeOn(reader)
    ensures TypesOf(ComputeStatus(cr, pods, [], applyErr, reader, fmt, now).conditions) ==
            ["Ready", "IdentityIssued", "TunnelServing", "TunnelVerified", "UpstreamReachable", "Reconciled"]
  {
    var es := StatusEdits(cr, pods, applyErr, reader, fmt);
    EditsAreDistinct(cr, pods, applyErr, reader, fmt);
    ScriptOnEmpty(es, now);
  }

  lemma ScriptOnEmpty(es: seq<Edit>, now: Time)
    requires Scripted(es) && forall e <- es :: e.Put?
    ensures TypesOf(ApplyEdits([], es, now)) == CONDITION_TYPES
  {
    ScriptIsDistinct(es);
    PutsAppend([], es, now);
    assert seq(|es|, i requires 0 <= i < |es| => EditType(es[i])) == CONDITION_TYPES;
  }

  /** The order in which pods are listed never shows. */
  lemma StatusForgetsPodOrder(cr: RemoteApp, pods: seq<Pod>, shuffled: seq<Pod>, prev: seq<Condition>,
                              applyErr: string, reader: Reader, fmt: Formats, now: Time)
    requires multiset(pods) == multiset(shuffled) && NamesIdentify(pods)
    ensures ComputeStatus(cr, pods, prev, applyErr, reader, fmt, now) ==
            ComputeStatus(cr, shuffled, prev, applyErr, reader, fmt, now)
  {
    StatusForgetsOrder(pods, shuffled);
    RoleForgetsOrder(pods, shuffled, TBOT);
    RoleForgetsOrder(pods, shuffled, GHOSTUNNEL);
  }

  predicate StatusEqual(a: RemoteAppStatus, b: RemoteAppStatus) {
    && a.ready == b.ready && a.lastError == b.lastError && a.observedGeneration == b.observedGeneration
    && |a.conditions| == |b.conditions|
    && forall i :: 0 <= i < |a.conditions| ==> Content(a.conditions[i]) == Content(b.conditions[i])
  }

  /** Zeroes the transition times of two copies and compares what is left. */
  method StatusEqualStripped(a: RemoteAppStatus, b: RemoteAppStatus) returns (same: bool)
    ensures same <==> StatusEqual(a, b)
  {
    var ac := StripTimes(a.conditions);
    var bc := StripTimes(b.conditions);
    same := a.(conditions := ac) == b.(conditions := bc);
    if StatusEqual(a, b) {
      assert forall i :: 0 <= i < |ac| ==> Content(ac[i]) == Content(bc[i]);
      assert ac == bc;
    }
    if same {
      assert forall i :: 0 <= i < |ac| ==> Content(ac[i]) == Content(a.conditions[i]) == Content(b.conditions[i]);
    }
  }

  method StripTimes(cs: seq<Condition>) returns (out: seq<Condition>)
    ensures |out| == |cs|
    ensures forall i :: 0 <= i < |cs| ==> out[i].lastTransition == 0 && Content(out[i]) == Content(cs[i])
  {
    out := cs;
    for i := 0 to |cs|
      invariant |out| == |cs|
      invariant forall j :: 0 <= j < i ==> out[j].lastTransition == 0 && Content(out[j]) == Content(cs[j])
      invariant forall j :: i <= j < |cs| ==> out[j] == cs[j]
    {
      out := out[i := out[i].(lastTransition := 0)];
    }
  }

  lemma {:induction false} FindByContent(a: seq<Condition>, b: seq<Condition>, t: string)
    requires |a| == |b| && forall i :: 0 <= i < |a| ==> Content(a[i]) == Content(b[i])
    ensures var fa, fb := FindStatusCondition(a, t), FindStatusCondition(b, t);
            fa.Some? == fb.Some? && (fa.Some? ==> Content(fa.value) == Content(fb.value))
  {
    if a != [] {
      assert Content(a[0]) == Content(b[0]);
      forall i | 0 <= i < |a[1..]| ensures Content(a[1..][i]) == Content(b[1..][i]) {
        assert a[1..][i] == a[i + 1] && b[1..][i] == b[i + 1];
      }
      FindByContent(a[1..], b[1..], t);
    }
  }

  /** Computing again from the result, at any later time, changes nothing: whatever the
      previous list was, the second pass of the reconciler has nothing to write. */
  lemma StatusIsIdempotent(cr: RemoteApp, pods: seq<Pod>, prev: seq<Condition>, applyErr: string,
                           reader: Reader, fmt: Formats, now: Time, later: Time)
    ensures var st := ComputeStatus(cr, pods, prev, applyErr, reader, fmt, now);
            && ComputeStatus(cr, pods, st.conditions, applyErr, reader, fmt, later) == st
            && StatusEqual(st, ComputeStatus(cr, pods, st.conditions, applyErr, reader, fmt, later))
  {
    var es := StatusEdits(cr, pods, applyErr, reader, fmt);
    EditsAreDistinct(cr, pods, applyErr, reader, fmt);
    EditsSettle(prev, es, now);
    SettledScriptIsFixed(ApplyEdits(prev, es, now), es, later);
  }

  /** When only times could differ, not even times do. */
  lemma EqualStatusIsSame(cr: RemoteApp, pods: seq<Pod>, before: RemoteAppStatus, applyErr: string,
                          reader: Reader, fmt: Formats, now: Time)
    requires StatusEqual(before, ComputeStatus(cr, pods, before.conditions, applyErr, reader, fmt, now))
    ensures ComputeStatus(cr, pods, before.conditions, applyErr, reader, fmt, now) == before
  {
    var es := StatusEdits(cr, pods, applyErr, reader, fmt);
    var after := ApplyEdits(before.conditions, es, now);
    EditsAreDistinct(cr, pods, applyErr, reader, fmt);
    EditsSettle(before.conditions, es, now);
    forall e <- es ensures Settled(before.conditions, e) {
      FindByContent(before.conditions, after, EditType(e));
      assert Settled(after, e);
    }
    SettledScriptIsFixed(before.conditions, es, now);
  }

  /** Conditions other controllers own survive, in order. */
  lemma StatusKeepsForeignConditions(cr: RemoteApp, pods: seq<Pod>, prev: seq<Condition>, applyErr: string,
                                     reader: Reader, fmt: Formats, now: Time, foreign: Condition -> bool)
    requires forall c :: foreign(c) ==> c.ctype !in CONDITION_TYPES
    ensures var st := ComputeStatus(cr, pods, prev, applyErr, reader, fmt, now);
            Filter(foreign, st.conditions) == Filter(foreign, prev)
  {
    EditsAreDistinct(cr, pods, applyErr, reader, fmt);
    EditsKeepForeign(prev, StatusEdits(cr, pods, applyErr, reader, fmt), now, foreign);
  }

  /** The time is kept while the status is the same, and is now when the entry is new or has
      another status. */
  ghost predicate TimeMoves(was: Option<Condition>, shown: Condition, now: Time) {
    && (was.Some? && was.value.status == shown.status ==> shown.lastTransition == was.value.lastTransition)
    && (was.Some? && was.value.status != shown.status ==> shown.lastTransition == now)
    && (was.None? ==> shown.lastTransition == now)
  }

  /** The six own conditions carry a transition time that moved exactly when their status
      did; an entry of another type is what it was. */
  lemma TransitionTimeMovesWithStatus(cr: RemoteApp, pods: seq<Pod>, prev: seq<Condition>, applyErr: string,
                                      reader: Reader, fmt: Formats, now: Time, t: string)
    ensures var was, shown := FindStatusCondition(prev, t),
              FindStatusCondition(ComputeStatus(cr, pods, prev, applyErr, reader, fmt, now).conditions, t);
            && (t !in CONDITION_TYPES ==> shown == was)
            && (t in CONDITION_TYPES && shown.Some? ==> TimeMoves(was, shown.value, now))
  {
    EditsAreDistinct(cr, pods, applyErr, reader, fmt);
    ScriptMovesTimes(prev, StatusEdits(cr, pods, applyErr, reader, fmt), now, t);
  }

  lemma ScriptMovesTimes(prev: seq<Condition>, es: seq<Edit>, now: Time, t: string)
    requires Scripted(es)
    ensures var was, shown := FindStatusCondition(prev, t), FindStatusCondition(ApplyEdits(prev, es, now), t);
            && (t !in CONDITION_TYPES ==> shown == was)
            && (t in CONDITION_TYPES && shown.Some? ==> TimeMoves(was, shown.value, now))
  {
    ScriptIsDistinct(es);
    if t in CONDITION_TYPES {
      var i :| 0 <= i < |CONDITION_TYPES| && CONDITION_TYPES[i] == t;
      FindAfterEditAt(prev, es, i, now);
    } else {
      FindAfterEdits(prev, es, now, t);
    }
  }

  /** The condition of one type after a pass: the edit for it decides everything. */
  lemma UpstreamAfter(cr: RemoteApp, pods: seq<Pod>, prev: seq<Condition>, applyErr: string,
                      reader: Reader, fmt: Formats, now: Time)
    ensures var st := ComputeStatus(cr, pods, prev, applyErr, reader, fmt, now);
            FindStatusCondition(st.conditions, UPSTREAM_REACHABLE) ==
            if reader.Some? && reader.value.enabled && reader.value.upstreamProbe
            then var d := UpstreamCondition(cr, reader.value, fmt);
                 Some(Stamp(d, TransitionTime(FindStatusCondition(prev, UPSTREAM_REACHABLE), d.status, now)))
            else None
  {
    var es := StatusEdits(cr, pods, applyErr, reader, fmt);
    EditsAreDistinct(cr, pods, applyErr, reader, fmt);
    FindAfterEditAt(prev, es, 4, now);
    assert es[4] == UpstreamEdit(cr, reader, fmt);
  }

  lemma VerifiedAfter(cr: RemoteApp, pods: seq<Pod>, prev: seq<Condition>, applyErr: string,
                      reader: Reader, fmt: Formats, now: Time)
    ensures var st := ComputeStatus(cr, pods, prev, applyErr, reader, fmt, now);
            FindStatusCondition(st.conditions, TUNNEL_VERIFIED) ==
            if reader.Some? && reader.value.enabled
            then var d := VerifiedCondition(cr, reader.value);
                 Some(Stamp(d, TransitionTime(FindStatusCondition(prev, TUNNEL_VERIFIED), d.status, now)))
            else None
  {
    var es := StatusEdits(cr, pods, applyErr, reader, fmt);
    EditsAreDistinct(cr, pods, applyErr, reader, fmt);
    FindAfterEditAt(prev, es, 3, now);
    assert es[3] == VerifiedEdit(cr, reader);
  }
}
