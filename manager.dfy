/**
 * The status value every resource kind embeds (conditions, observed
 * generation, annotations) together with the condition manager's
 * operations on it.  A call `s.MarkTrue(cset, t)` stands for the source's
 * `cset.Manage(s).MarkTrue(t)`: the manager is bound to one status for one
 * call and updates its condition list in place.
 */
module Manager {
  import opened Wrappers
  import opened Conditions

  class Status {
    var conditions: seq<Condition>
    var observedGeneration: int
    var annotations: map<string, string>

    /**
     * Sorted by type, one condition per type: the shape the manager's writes
     * keep, and the one a list without repeated types takes at its first
     * changing write.
     */
    ghost predicate Valid()
      reads this
    {
      Sorted(conditions)
    }

    /** The zero status. */
    constructor ()
      ensures conditions == [] && observedGeneration == 0 && annotations == map[]
      ensures Valid()
    {
      conditions := [];
      observedGeneration := 0;
      annotations := map[];
    }

    /** A status built from a literal condition list, as the source's tests do. */
    constructor FromConditions(cs: seq<Condition>)
      ensures conditions == cs && observedGeneration == 0 && annotations == map[]
      ensures Valid() <==> Sorted(cs)
    {
      conditions := cs;
      observedGeneration := 0;
      annotations := map[];
    }

    /** The stored condition of type `t`, or None: a scan of the list in order. */
    method GetCondition(t: ConditionType) returns (c: Option<Condition>)
      ensures c == Lookup(conditions, t)
      ensures c.Some? ==> c.value in conditions && c.value.condType == t
      ensures c.None? <==> forall x :: x in conditions ==> x.condType != t
    {
      var i := 0;
      while i < |conditions|
        invariant 0 <= i <= |conditions|
        invariant Lookup(conditions[i..], t) == Lookup(conditions, t)
      {
        if conditions[i].condType == t {
          return Some(conditions[i]);
        }
        assert conditions[i..][1..] == conditions[i + 1..];
        i := i + 1;
      }
      return None;
    }

    method GetTopLevelCondition(cset: ConditionSet) returns (c: Option<Condition>)
      ensures c == Lookup(conditions, cset.happy)
    {
      c := GetCondition(cset.happy);
    }

    /** True iff the top-level condition is present and True. */
    method IsHappy(cset: ConditionSet) returns (happy: bool)
      ensures happy <==> StatusOf(conditions, cset.happy) == True
    {
      var c := GetCondition(cset.happy);
      happy := c.Some? && c.value.status == True;
    }

    /**
     * The top-level condition the dependents imply, computed by one pass
     * over the dependents in registration order.
     */
    method ComputeTopLevel(cset: ConditionSet) returns (top: Condition)
      ensures top == Aggregate(cset, conditions)
    {
      var deps := cset.dependents;
      var firstFalse: Option<Condition> := None;
      var firstUnknown: Option<Condition> := None;
      ghost var falseType: Option<ConditionType> := None;
      ghost var unknownType: Option<ConditionType> := None;
      for i := 0 to |deps|
        invariant falseType == FirstWithStatus(deps[..i], conditions, False)
        invariant unknownType == FirstWithStatus(deps[..i], conditions, Unknown)
        invariant firstFalse.Some? <==> falseType.Some?
        invariant falseType.Some? ==> firstFalse.value == Condition(cset.happy, False,
                    ReasonOf(conditions, falseType.value), MessageOf(conditions, falseType.value))
        invariant firstUnknown.Some? <==> unknownType.Some?
        invariant unknownType.Some? ==> firstUnknown.value == Condition(cset.happy, Unknown,
                    ReasonOf(conditions, unknownType.value), MessageOf(conditions, unknownType.value))
      {
        FirstWithStatusSnoc(deps[..i], deps[i], conditions, False);
        FirstWithStatusSnoc(deps[..i], deps[i], conditions, Unknown);
        assert deps[..i + 1] == deps[..i] + [deps[i]];
        var c := GetCondition(deps[i]);
        var s, reason, message := Unknown, "", "";
        if c.Some? {
          s, reason, message := c.value.status, c.value.reason, c.value.message;
        }
        if s == False && firstFalse.None? {
          firstFalse := Some(Condition(cset.happy, False, reason, message));
          falseType := Some(deps[i]);
        } else if s == Unknown && firstUnknown.None? {
          firstUnknown := Some(Condition(cset.happy, Unknown, reason, message));
          unknownType := Some(deps[i]);
        }
      }
      assert deps[..|deps|] == deps;
      if firstFalse.Some? {
        top := firstFalse.value;
      } else if firstUnknown.Some? {
        top := firstUnknown.value;
      } else {
        top := Blank(cset.happy, True);
      }
    }

    /** Stores `c` and, when `c` is a registered dependent, recomputes the top-level condition. */
    method Mark(cset: ConditionSet, c: Condition)
      requires cset.WellFormed()
      modifies this`conditions
      ensures conditions == Marked(cset, old(conditions), c)
      ensures old(Valid()) ==> Valid()
    {
      conditions := SetCondition(conditions, c);
      if IsDependent(cset, c.condType) {
        var top := ComputeTopLevel(cset);
        conditions := SetCondition(conditions, top);
      }
    }

    method MarkTrue(cset: ConditionSet, t: ConditionType)
      requires cset.WellFormed()
      modifies this`conditions
      ensures conditions == Marked(cset, old(conditions), Blank(t, True))
      ensures old(Valid()) ==> Valid()
    {
      Mark(cset, Blank(t, True));
    }

    method MarkFalse(cset: ConditionSet, t: ConditionType, reason: string, message: string)
      requires cset.WellFormed()
      modifies this`conditions
      ensures conditions == Marked(cset, old(conditions), Condition(t, False, reason, message))
      ensures old(Valid()) ==> Valid()
    {
      Mark(cset, Condition(t, False, reason, message));
    }

    method MarkUnknown(cset: ConditionSet, t: ConditionType, reason: string, message: string)
      requires cset.WellFormed()
      modifies this`conditions
      ensures conditions == Marked(cset, old(conditions), Condition(t, Unknown, reason, message))
      ensures old(Valid()) ==> Valid()
    {
      Mark(cset, Condition(t, Unknown, reason, message));
    }

    /** Adds every registered type that is missing, as Unknown, and changes nothing stored. */
    method InitializeConditions(cset: ConditionSet)
      modifies this`conditions
      ensures conditions == InitializeAll(cset.Types(), old(conditions))
      ensures old(Valid()) ==> Valid()
    {
      var types := cset.Types();
      for i := 0 to |types|
        invariant InitializeAll(types[i..], conditions) == InitializeAll(types, old(conditions))
      {
        ghost var before := conditions;
        assert types[i..][0] == types[i] && types[i..][1..] == types[i + 1..];
        var existing := GetCondition(types[i]);
        if existing.None? {
          conditions := SetCondition(conditions, Blank(types[i], Unknown));
        }
        assert conditions == InitializeOne(before, types[i]);
      }
      if old(Valid()) {
        InitializeKeepsOrder(types, old(conditions));
      }
    }
  }
}
