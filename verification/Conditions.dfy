/** Kubernetes status conditions as the meta helpers edit them. */
module Conditions {
  import opened Types
  import opened Sorting

  datatype ConditionStatus = StatusTrue | StatusFalse | StatusUnknown

  datatype Condition = Condition(
    ctype: string,
    status: ConditionStatus,
    observedGeneration: int,
    reason: string,
    message: string,
    lastTransition: Time)

  /** A condition as a caller builds it, before the helper stamps a transition time. */
  datatype Desired = Desired(
    ctype: string,
    status: ConditionStatus,
    observedGeneration: int,
    reason: string,
    message: string)

  function Stamp(d: Desired, at: Time): Condition {
    Condition(d.ctype, d.status, d.observedGeneration, d.reason, d.message, at)
  }

  /** Everything statusEqual compares: all but the transition time. */
  function Content(c: Condition): Desired {
    Desired(c.ctype, c.status, c.observedGeneration, c.reason, c.message)
  }

  function FindStatusCondition(cs: seq<Condition>, t: string): (r: Option<Condition>)
    ensures r.Some? ==> r.value.ctype == t
  {
    if cs == [] then None
    else if cs[0].ctype == t then Some(cs[0])
    else FindStatusCondition(cs[1..], t)
  }

  /** The time an entry carries after a status is set over it: it moves only with the status. */
  function TransitionTime(prev: Option<Condition>, status: ConditionStatus, now: Time): Time {
    if prev.Some? && prev.value.status == status then prev.value.lastTransition else now
  }

  /** Overwrites the first entry of the type, or appends one. */
  function SetStatusCondition(cs: seq<Condition>, d: Desired, now: Time): (r: seq<Condition>) {
    if cs == [] then [Stamp(d, now)]
    else if cs[0].ctype == d.ctype then
      [Stamp(d, TransitionTime(Some(cs[0]), d.status, now))] + cs[1..]
    else [cs[0]] + SetStatusCondition(cs[1..], d, now)
  }

  function RemoveStatusCondition(cs: seq<Condition>, t: string): (r: seq<Condition>) {
    if cs == [] then []
    else (if cs[0].ctype == t then [] else [cs[0]]) + RemoveStatusCondition(cs[1..], t)
  }

  // ----- edit scripts: what computeStatus does to the list -----

  datatype Edit = Put(desired: Desired) | Drop(ctype: string)

  function EditType(e: Edit): string {
    match e
    case Put(d) => d.ctype
    case Drop(t) => t
  }

  function ApplyEdit(cs: seq<Condition>, e: Edit, now: Time): seq<Condition> {
    match e
    case Put(d) => SetStatusCondition(cs, d, now)
    case Drop(t) => RemoveStatusCondition(cs, t)
  }

  function ApplyEdits(cs: seq<Condition>, es: seq<Edit>, now: Time): seq<Condition>
    decreases |es|
  {
    if es == [] then cs else ApplyEdits(ApplyEdit(cs, es[0], now), es[1..], now)
  }

  ghost predicate DistinctTypes(es: seq<Edit>) {
    forall i, j :: 0 <= i < j < |es| ==> EditType(es[i]) != EditType(es[j])
  }

  /** The list already says what the edit asks for. */
  predicate Settled(cs: seq<Condition>, e: Edit) {
    var found := FindStatusCondition(cs, EditType(e));
    match e
    case Put(d) => found.Some? && Content(found.value) == d
    case Drop(_) => found == None
  }

  /** What Put and Drop leave behind for a reader of any type. */
  lemma {:induction false} FindAfterSet(cs: seq<Condition>, d: Desired, now: Time, t: string)
    ensures FindStatusCondition(SetStatusCondition(cs, d, now), t) ==
            if t == d.ctype
            then Some(Stamp(d, TransitionTime(FindStatusCondition(cs, t), d.status, now)))
            else FindStatusCondition(cs, t)
  {
    if cs != [] && cs[0].ctype != d.ctype {
      FindAfterSet(cs[1..], d, now, t);
    }
  }

  lemma {:induction false} FindAfterRemove(cs: seq<Condition>, dropped: string, t: string)
    ensures FindStatusCondition(RemoveStatusCondition(cs, dropped), t) ==
            if t == dropped then None else FindStatusCondition(cs, t)
  {
    if cs != [] {
      FindAfterRemove(cs[1..], dropped, t);
      var rest := RemoveStatusCondition(cs[1..], dropped);
      assert [] + rest == rest && ([cs[0]] + rest)[1..] == rest;
    }
  }

  lemma FindAfterEdit(cs: seq<Condition>, e: Edit, now: Time, t: string)
    ensures t != EditType(e) ==>
              FindStatusCondition(ApplyEdit(cs, e, now), t) == FindStatusCondition(cs, t)
    ensures Settled(ApplyEdit(cs, e, now), e)
    ensures e.Put? ==>
              FindStatusCondition(ApplyEdit(cs, e, now), e.desired.ctype) ==
              Some(Stamp(e.desired, TransitionTime(FindStatusCondition(cs, e.desired.ctype), e.desired.status, now)))
  {
    match e
    case Put(d) =>
      FindAfterSet(cs, d, now, t);
      FindAfterSet(cs, d, now, d.ctype);
    case Drop(dropped) =>
      FindAfterRemove(cs, dropped, t);
      FindAfterRemove(cs, dropped, dropped);
  }

  /** A whole script: untouched types keep their entry; an edited one holds the
      edit's content, and its transition time moved exactly when its status did. */
  lemma {:induction false} FindAfterEdits(cs: seq<Condition>, es: seq<Edit>, now: Time, t: string)
    requires DistinctTypes(es)
    ensures (forall e <- es :: EditType(e) != t) ==>
              FindStatusCondition(ApplyEdits(cs, es, now), t) == FindStatusCondition(cs, t)
    ensures forall e <- es :: EditType(e) == t ==>
              FindStatusCondition(ApplyEdits(cs, es, now), t) ==
                if e.Drop? then None
                else Some(Stamp(e.desired, TransitionTime(FindStatusCondition(cs, t), e.desired.status, now)))
    decreases |es|
  {
    if es != [] {
      var next := ApplyEdit(cs, es[0], now);
      FindAfterEdit(cs, es[0], now, t);
      FindAfterEdits(next, es[1..], now, t);
      forall e | e in es && EditType(e) == t
        ensures FindStatusCondition(ApplyEdits(cs, es, now), t) ==
                if e.Drop? then None
                else Some(Stamp(e.desired, TransitionTime(FindStatusCondition(cs, t), e.desired.status, now)))
      {
        if e == es[0] {
          forall e' <- es[1..] ensures EditType(e') != t {
            var j :| 0 <= j < |es[1..]| && es[1..][j] == e';
            assert es[j + 1] == e';
          }
        } else {
          assert e in es[1..];
          var j :| 0 <= j < |es[1..]| && es[1..][j] == e;
          assert es[j + 1] == e && EditType(es[0]) != t;
        }
      }
    }
  }

  /** The same, for the edit at one position of the script. */
  lemma FindAfterEditAt(cs: seq<Condition>, es: seq<Edit>, i: nat, now: Time)
    requires DistinctTypes(es) && i < |es|
    ensures var t := EditType(es[i]);
            FindStatusCondition(ApplyEdits(cs, es, now), t) ==
              if es[i].Drop? then None
              else Some(Stamp(es[i].desired, TransitionTime(FindStatusCondition(cs, t), es[i].desired.status, now)))
  {
    FindAfterEdits(cs, es, now, EditType(es[i]));
    assert es[i] in es;
  }

  lemma {:induction false} EditsSettle(cs: seq<Condition>, es: seq<Edit>, now: Time)
    requires DistinctTypes(es)
    ensures forall e <- es :: Settled(ApplyEdits(cs, es, now), e)
  {
    forall e <- es ensures Settled(ApplyEdits(cs, es, now), e) {
      FindAfterEdits(cs, es, now, EditType(e));
    }
  }

  lemma {:induction false} SettledIsFixed(cs: seq<Condition>, e: Edit, now: Time)
    requires Settled(cs, e)
    ensures ApplyEdit(cs, e, now) == cs
  {
    if cs != [] {
      if e.Drop? {
        assert FindStatusCondition(cs, e.ctype) == FindStatusCondition(cs[1..], e.ctype);
        SettledIsFixed(cs[1..], e, now);
      } else if cs[0].ctype != e.desired.ctype {
        SettledIsFixed(cs[1..], e, now);
      }
    }
  }

  /** Running a script over a list it has settled changes nothing, at any later time. */
  lemma {:induction false} SettledScriptIsFixed(cs: seq<Condition>, es: seq<Edit>, now: Time)
    requires forall e <- es :: Settled(cs, e)
    ensures ApplyEdits(cs, es, now) == cs
  {
    if es != [] {
      SettledIsFixed(cs, es[0], now);
      SettledScriptIsFixed(cs, es[1..], now);
    }
  }

  /** Entries of types the script does not name survive, in order. */
  lemma {:induction false} EditsKeepForeign(cs: seq<Condition>, es: seq<Edit>, now: Time, foreign: Condition -> bool)
    requires forall c, e :: e in es && foreign(c) ==> c.ctype != EditType(e)
    ensures Filter(foreign, ApplyEdits(cs, es, now)) == Filter(foreign, cs)
    decreases |es|
  {
    if es != [] {
      EditKeepsForeign(cs, es[0], now, foreign);
      EditsKeepForeign(ApplyEdit(cs, es[0], now), es[1..], now, foreign);
    }
  }

  lemma {:induction false} EditKeepsForeign(cs: seq<Condition>, e: Edit, now: Time, foreign: Condition -> bool)
    requires forall c :: foreign(c) ==> c.ctype != EditType(e)
    ensures Filter(foreign, ApplyEdit(cs, e, now)) == Filter(foreign, cs)
  {
    match e
    case Drop(t) =>
      if cs != [] {
        EditKeepsForeign(cs[1..], e, now, foreign);
        FilterAppend(foreign, if cs[0].ctype == t then [] else [cs[0]], RemoveStatusCondition(cs[1..], t));
      }
    case Put(d) =>
      if cs == [] {
        assert !foreign(Stamp(d, now));
      } else if cs[0].ctype == d.ctype {
        var head := Stamp(d, TransitionTime(Some(cs[0]), d.status, now));
        assert ([head] + cs[1..])[1..] == cs[1..];
        assert !foreign(head) && !foreign(cs[0]);
      } else {
        EditKeepsForeign(cs[1..], e, now, foreign);
        var rest := SetStatusCondition(cs[1..], d, now);
        assert ([cs[0]] + rest)[1..] == rest;
      }
  }
}
