/**
 Status conditions: setCondition of internal/controller/nginxserver_controller.go.

 The slice is updated in place by `ConditionList.Set`; `SetCondition` is its specification on values,
 and the lemmas say what any history of calls leaves behind.
 */
module Conditions {
  import opened Api

  /** One call of setCondition, with the clock reading it takes. */
  datatype Update = Update(kind: ConditionType, status: ConditionStatus, reason: Reason, message: Message,
                           generation: nat, now: int)

  /** The entry a call leaves where an entry of its kind already stands. */
  function Revised(c: Condition, u: Update): Condition {
    c.(status := u.status,
       reason := u.reason,
       message := u.message,
       observedGeneration := u.generation,
       lastTransition := if c.status != u.status then u.now else c.lastTransition)
  }

  function Fresh(u: Update): Condition {
    Condition(u.kind, u.status, u.now, u.reason, u.message, u.generation)
  }

  function SetCondition(conds: seq<Condition>, u: Update): seq<Condition> {
    if conds == [] then [Fresh(u)]
    else if conds[0].kind == u.kind then [Revised(conds[0], u)] + conds[1..]
    else [conds[0]] + SetCondition(conds[1..], u)
  }

  function SetAll(conds: seq<Condition>, us: seq<Update>): seq<Condition> {
    if us == [] then conds else SetCondition(SetAll(conds, us[..|us| - 1]), us[|us| - 1])
  }

  /** The first entry of a kind: what readers of a condition list look up. */
  function Find(conds: seq<Condition>, kind: ConditionType): Option<Condition> {
    if conds == [] then None
    else if conds[0].kind == kind then Some(conds[0])
    else Find(conds[1..], kind)
  }

  predicate Holds(conds: seq<Condition>, kind: ConditionType) {
    Find(conds, kind).Some? && Find(conds, kind).value.status == ConditionTrue
  }

  function Kinds(conds: seq<Condition>): seq<ConditionType> {
    if conds == [] then [] else [conds[0].kind] + Kinds(conds[1..])
  }

  ghost predicate Distinct<T(!new)>(s: seq<T>) {
    forall i, j :: 0 <= i < j < |s| ==> s[i] != s[j]
  }

  /** The conditions slice that setCondition receives by pointer. */
  class ConditionList {
    var items: seq<Condition>

    constructor (items: seq<Condition>)
      ensures this.items == items
    {
      this.items := items;
    }

    method Set(u: Update)
      modifies this
      ensures items == SetCondition(old(items), u)
    {
      for i := 0 to |items|
        invariant items == old(items)
        invariant forall j :: 0 <= j < i ==> items[j].kind != u.kind
      {
        if items[i].kind == u.kind {
          SetInPlace(items, u, i);
          if items[i].status != u.status {
            items := items[i := items[i].(lastTransition := u.now)];
          }
          items := items[i := items[i].(status := u.status)];
          items := items[i := items[i].(reason := u.reason)];
          items := items[i := items[i].(message := u.message)];
          items := items[i := items[i].(observedGeneration := u.generation)];
          return;
        }
      }
      SetAtEnd(items, u);
      items := items + [Fresh(u)];
    }
  }

  /** Where the first entry of the kind stands, only that entry is revised. */
  lemma {:induction false} SetInPlace(conds: seq<Condition>, u: Update, i: nat)
    requires i < |conds| && conds[i].kind == u.kind
    requires forall j :: 0 <= j < i ==> conds[j].kind != u.kind
    ensures SetCondition(conds, u) == conds[i := Revised(conds[i], u)]
  {
    if i > 0 {
      SetInPlace(conds[1..], u, i - 1);
    }
  }

  lemma {:induction false} SetAtEnd(conds: seq<Condition>, u: Update)
    requires forall j :: 0 <= j < |conds| ==> conds[j].kind != u.kind
    ensures SetCondition(conds, u) == conds + [Fresh(u)]
  {
    if conds != [] {
      SetAtEnd(conds[1..], u);
    }
  }

  /**
   One call: the kind it names reads back as the call said, with the clock moved exactly when the status changed
   or the kind is new; every other kind reads back as before.
   */
  lemma {:induction false} SetThenFind(conds: seq<Condition>, u: Update, kind: ConditionType)
    ensures kind == u.kind ==>
              Find(SetCondition(conds, u), kind) ==
              Some(if Find(conds, kind).Some? then Revised(Find(conds, kind).value, u) else Fresh(u))
    ensures kind != u.kind ==> Find(SetCondition(conds, u), kind) == Find(conds, kind)
  {
    if conds != [] && conds[0].kind != u.kind {
      SetThenFind(conds[1..], u, kind);
    }
  }

  /** A call that says what already stands changes nothing, not even the clock. */
  lemma {:induction false} SetAgain(conds: seq<Condition>, u: Update)
    requires Find(conds, u.kind).Some?
    requires var c := Find(conds, u.kind).value;
             c.status == u.status && c.reason == u.reason && c.message == u.message && c.observedGeneration == u.generation
    ensures SetCondition(conds, u) == conds
  {
    if conds[0].kind != u.kind {
      SetAgain(conds[1..], u);
    }
  }

  /** A kind is found exactly when some entry carries it. */
  lemma {:induction false} FindIffPresent(conds: seq<Condition>, kind: ConditionType)
    ensures Find(conds, kind).Some? <==> kind in Kinds(conds)
  {
    if conds != [] {
      FindIffPresent(conds[1..], kind);
    }
  }

  /** First-insertion order: a call keeps the list of kinds, or appends its own kind to it. */
  lemma {:induction false} SetKeepsOrder(conds: seq<Condition>, u: Update)
    ensures Kinds(SetCondition(conds, u)) ==
            if u.kind in Kinds(conds) then Kinds(conds) else Kinds(conds) + [u.kind]
  {
    if conds != [] {
      if conds[0].kind != u.kind {
        SetKeepsOrder(conds[1..], u);
      }
    }
  }

  // ---------------------------------------------------------------- histories

  /** The kinds of a history of calls, each at its first appearance. */
  function FirstAppearances(us: seq<Update>): seq<ConditionType> {
    if us == [] then []
    else
      var before := FirstAppearances(us[..|us| - 1]);
      var kind := us[|us| - 1].kind;
      if kind in before then before else before + [kind]
  }

  /** The last call that named `kind`, if any. */
  function LastCall(us: seq<Update>, kind: ConditionType): (r: Option<nat>)
    ensures r.Some? ==> r.value < |us|
  {
    if us == [] then None
    else if us[|us| - 1].kind == kind then Some(|us| - 1)
    else LastCall(us[..|us| - 1], kind)
  }

  /** The last call of the history gave `kind` a status it did not have just before. */
  predicate Transitions(us: seq<Update>, kind: ConditionType)
    requires us != []
  {
    var n := |us| - 1;
    && us[n].kind == kind
    && match LastCall(us[..n], kind) {
         case None => true
         case Some(p) => us[p].status != us[n].status
       }
  }

  /** The last call at which the status of `kind` changed, if any. */
  function LastChange(us: seq<Update>, kind: ConditionType): (r: Option<nat>)
    ensures r.Some? ==> r.value < |us|
  {
    if us == [] then None
    else if Transitions(us, kind) then Some(|us| - 1)
    else LastChange(us[..|us| - 1], kind)
  }

  /** `LastCall` is the greatest index that names the kind. */
  lemma {:induction false} LastCallIsLast(us: seq<Update>, kind: ConditionType, j: nat)
    requires j < |us| && us[j].kind == kind
    ensures LastCall(us, kind).Some? && j <= LastCall(us, kind).value
    ensures us[LastCall(us, kind).value].kind == kind
  {
    if us[|us| - 1].kind != kind {
      LastCallIsLast(us[..|us| - 1], kind, j);
    }
  }

  /** `LastChange` is the greatest call at which the status changed. */
  lemma {:induction false} LastChangeIsLast(us: seq<Update>, kind: ConditionType, j: nat)
    requires j < |us| && Transitions(us[..j + 1], kind)
    ensures LastChange(us, kind).Some? && j <= LastChange(us, kind).value
    ensures Transitions(us[..LastChange(us, kind).value + 1], kind)
  {
    if j == |us| - 1 {
      assert us[..j + 1] == us;
    } else if Transitions(us, kind) {
      assert us[..|us|] == us;
    } else {
      var before := us[..|us| - 1];
      assert before[..j + 1] == us[..j + 1];
      LastChangeIsLast(before, kind, j);
      assert before[..LastChange(before, kind).value + 1] == us[..LastChange(before, kind).value + 1];
    }
  }

  lemma {:induction false} AppearancesDistinct(us: seq<Update>)
    ensures Distinct(FirstAppearances(us))
  {
    if us != [] {
      AppearancesDistinct(us[..|us| - 1]);
    }
  }

  /** After any history of calls from an empty list, each kind stands once, in the order of their first calls. */
  lemma {:induction false} HistoryOrder(us: seq<Update>)
    ensures Kinds(SetAll([], us)) == FirstAppearances(us)
    ensures Distinct(Kinds(SetAll([], us)))
  {
    AppearancesDistinct(us);
    if us != [] {
      var before := us[..|us| - 1];
      HistoryOrder(before);
      SetKeepsOrder(SetAll([], before), us[|us| - 1]);
    }
  }

  /**
   After any history of calls from an empty list, a kind reads what its last call wrote, and its
   transition time is the clock of the last call that changed its status.
   */
  lemma {:induction false} HistoryContent(us: seq<Update>, kind: ConditionType)
    ensures LastCall(us, kind).None? <==> LastChange(us, kind).None?
    ensures LastCall(us, kind).None? ==> Find(SetAll([], us), kind) == None
    ensures LastCall(us, kind).Some? ==>
              var u, t := us[LastCall(us, kind).value], us[LastChange(us, kind).value];
              Find(SetAll([], us), kind) ==
              Some(Condition(kind, u.status, t.now, u.reason, u.message, u.generation))
  {
    if us != [] {
      var before := us[..|us| - 1];
      HistoryContent(before, kind);
      SetThenFind(SetAll([], before), us[|us| - 1], kind);
    }
  }
}
