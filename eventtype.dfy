/**
 * The EventTypeDefinition resource's condition set: the living set built
 * from Ready alone.  Ready is its own top-level type, so the set has no
 * dependents; it is the zero-dependent instance of the condition manager.
 */
module EventTypeDefinition {
  import opened Wrappers
  import opened Conditions

  const EventTypeDefinitionConditionReady: ConditionType := Ready

  const EventTypeCondSet := ConditionSet(EventTypeDefinitionConditionReady, [])

  /** Initialising an empty status gives the single Ready condition, Unknown. */
  lemma EventTypeInitializeFromEmpty()
    ensures InitializeAll(EventTypeCondSet.Types(), []) == [Blank(Ready, Unknown)]
  {
    assert EventTypeCondSet.Types() == [Ready];
    assert InitializeOne([], Ready) == [Blank(Ready, Unknown)];
  }

  /** With no dependents nothing can hold the top-level condition back: its aggregate is True. */
  lemma EventTypeAggregateIsTrue(cs: seq<Condition>)
    ensures Aggregate(EventTypeCondSet, cs).status == True
  {
  }

  /** Marking any condition other than Ready leaves Ready's status as it was. */
  lemma EventTypeMarkLeavesReady(cs: seq<Condition>, c: Condition)
    requires c.condType != Ready
    ensures StatusOf(Marked(EventTypeCondSet, cs, c), Ready) == StatusOf(cs, Ready)
  {
    assert EventTypeCondSet.WellFormed();
    assert !IsDependent(EventTypeCondSet, c.condType);
  }
}
