/**
 * The Trigger status as its lifecycle test drives it: a living condition set
 * over four dependents (the Broker's readiness, the subscription, the
 * subscriber's resolution and the dependency annotation), the in-place
 * Propagate and Mark operations the test calls, the test's driver proved
 * against the reference verdict, and the asserted cases of GetCondition,
 * InitializeConditions and the top-level condition.
 */
module Trigger {
  import opened Wrappers
  import opened Conditions
  import opened Manager
  import opened Broker

  const TriggerConditionBroker: ConditionType := "Broker"
  const TriggerConditionSubscribed: ConditionType := "Subscribed"
  const TriggerConditionDependency: ConditionType := "Dependency"
  const TriggerConditionSubscriberResolved: ConditionType := "SubscriberResolved"

  const TriggerCondSet := ConditionSet(Ready, [
    TriggerConditionBroker,
    TriggerConditionSubscribed,
    TriggerConditionDependency,
    TriggerConditionSubscriberResolved])

  lemma TriggerCondSetShape()
    ensures TriggerCondSet.WellFormed() && TriggerCondSet.happy == Ready
    ensures TriggerCondSet.dependents == [TriggerConditionBroker, TriggerConditionSubscribed,
                                          TriggerConditionDependency, TriggerConditionSubscriberResolved]
  {
  }

  /**
   * The five Trigger conditions in the manager's order, sorted by type:
   * Broker, Dependency, Ready, Subscribed, SubscriberResolved.
   */
  function TriggerConditions(broker: ConditionStatus, dependency: ConditionStatus, ready: ConditionStatus,
                             subscribed: ConditionStatus, resolved: ConditionStatus): seq<Condition>
  {
    [Blank(TriggerConditionBroker, broker)] + ([Blank(TriggerConditionDependency, dependency)] + ([Blank(Ready, ready)] +
      ([Blank(TriggerConditionSubscribed, subscribed)] + [Blank(TriggerConditionSubscriberResolved, resolved)])))
  }

  /** Consecutive Trigger types are in the manager's order. */
  lemma TriggerTypeOrder()
    ensures TypeLess(TriggerConditionBroker, TriggerConditionDependency)
    ensures TypeLess(TriggerConditionDependency, Ready)
    ensures TypeLess(Ready, TriggerConditionSubscribed)
    ensures TypeLess(TriggerConditionSubscribed, TriggerConditionSubscriberResolved)
  {
  }

  /** That order is the manager's order by type. */
  lemma TriggerConditionsSorted(broker: ConditionStatus, dependency: ConditionStatus, ready: ConditionStatus,
                                subscribed: ConditionStatus, resolved: ConditionStatus)
    ensures Sorted(TriggerConditions(broker, dependency, ready, subscribed, resolved))
  {
    TriggerTypeOrder();
    var l4 := [Blank(TriggerConditionSubscriberResolved, resolved)];
    var l3 := [Blank(TriggerConditionSubscribed, subscribed)] + l4;
    var l2 := [Blank(Ready, ready)] + l3;
    var l1 := [Blank(TriggerConditionDependency, dependency)] + l2;
    var l0 := [Blank(TriggerConditionBroker, broker)] + l1;
    SortedCons(Blank(TriggerConditionSubscriberResolved, resolved), []);
    SortedCons(Blank(TriggerConditionSubscribed, subscribed), l4);
    SortedCons(Blank(Ready, ready), l3);
    SortedCons(Blank(TriggerConditionDependency, dependency), l2);
    SortedCons(Blank(TriggerConditionBroker, broker), l1);
    assert l0 == TriggerConditions(broker, dependency, ready, subscribed, resolved);
  }

  /** The five conditions with the given status are one Blank condition per registered Trigger type. */
  lemma TriggerConditionsMembers(st: ConditionStatus)
    ensures forall x :: x in TriggerConditions(st, st, st, st, st) <==>
      x == Blank(x.condType, st) && x.condType in TriggerCondSet.Types()
  {
    assert TriggerCondSet.Types() == [Ready, TriggerConditionBroker, TriggerConditionSubscribed,
                                      TriggerConditionDependency, TriggerConditionSubscriberResolved];
  }

  /** The "empty" case: an empty status initialises to the five conditions, all Unknown, in that order. */
  lemma TriggerInitializeFromEmpty()
    ensures InitializeAll(TriggerCondSet.Types(), []) == TriggerConditions(Unknown, Unknown, Unknown, Unknown, Unknown)
  {
    TriggerConditionsSorted(Unknown, Unknown, Unknown, Unknown, Unknown);
    TriggerConditionsMembers(Unknown);
    InitializeFromEmptyIs(TriggerCondSet.Types(), TriggerConditions(Unknown, Unknown, Unknown, Unknown, Unknown));
  }

  /**
   * The Trigger's top-level status is the reference verdict over its four
   * dependents' statuses.
   */
  lemma TriggerAggregate(cs: seq<Condition>)
    ensures Aggregate(TriggerCondSet, cs).status ==
      Verdict([StatusOf(cs, TriggerConditionBroker), StatusOf(cs, TriggerConditionSubscribed),
               StatusOf(cs, TriggerConditionDependency), StatusOf(cs, TriggerConditionSubscriberResolved)])
  {
    TriggerCondSetShape();
    AggregateIsVerdict(TriggerCondSet, cs);
    var ss := StatusesOf(cs, TriggerCondSet.dependents);
    assert ss == [ss[0], ss[1], ss[2], ss[3]];
  }

  class TriggerStatus {
    /** The embedded duck-typed status. */
    const status: Status

    constructor ()
      ensures fresh(status) && status.conditions == []
    {
      status := new Status();
    }

    /** A TriggerStatus holding a literal condition list, as the test builds them. */
    constructor FromConditions(cs: seq<Condition>)
      ensures fresh(status) && status.conditions == cs
    {
      status := new Status.FromConditions(cs);
    }

    method GetCondition(t: ConditionType) returns (c: Option<Condition>)
      ensures c == Lookup(status.conditions, t)
    {
      c := status.GetCondition(t);
    }

    method GetTopLevelCondition() returns (c: Option<Condition>)
      ensures c == Lookup(status.conditions, Ready)
    {
      c := status.GetTopLevelCondition(TriggerCondSet);
    }

    method IsReady() returns (ready: bool)
      ensures ready <==> StatusOf(status.conditions, Ready) == True
    {
      ready := status.IsHappy(TriggerCondSet);
    }

    method InitializeConditions()
      modifies status`conditions
      ensures status.conditions == InitializeAll(TriggerCondSet.Types(), old(status.conditions))
    {
      status.InitializeConditions(TriggerCondSet);
    }

    /** Mirrors the Broker's top-level condition into the Broker dependent. */
    method PropagateBrokerStatus(bs: BrokerStatus)
      modifies status`conditions
      ensures status.conditions ==
        Marked(TriggerCondSet, old(status.conditions), Mirrored(TriggerConditionBroker, old(Lookup(bs.status.conditions, Ready))))
      ensures StatusOf(status.conditions, TriggerConditionBroker) == old(StatusOf(bs.status.conditions, Ready))
    {
      var bc := bs.status.GetTopLevelCondition(BrokerCondSet);
      TriggerCondSetShape();
      status.Mark(TriggerCondSet, Mirrored(TriggerConditionBroker, bc));
    }

    /** Mirrors a Subscription's top-level condition into the Subscribed dependent. */
    method PropagateSubscriptionStatus(ss: Status)
      modifies status`conditions
      ensures status.conditions ==
        Marked(TriggerCondSet, old(status.conditions), Mirrored(TriggerConditionSubscribed, old(Lookup(ss.conditions, Ready))))
      ensures StatusOf(status.conditions, TriggerConditionSubscribed) == old(StatusOf(ss.conditions, Ready))
    {
      var sc := ss.GetCondition(Ready);
      TriggerCondSetShape();
      status.Mark(TriggerCondSet, Mirrored(TriggerConditionSubscribed, sc));
    }

    /** A Subscription this Trigger does not own makes Subscribed False. */
    method MarkSubscriptionNotOwned(subscriptionName: string)
      modifies status`conditions
      ensures status.conditions ==
        Marked(TriggerCondSet, old(status.conditions),
               Condition(TriggerConditionSubscribed, False, "SubscriptionNotOwned",
                         "Subscription " + subscriptionName + " is not owned by this Trigger."))
      ensures StatusOf(status.conditions, TriggerConditionSubscribed) == False
    {
      TriggerCondSetShape();
      status.MarkFalse(TriggerCondSet, TriggerConditionSubscribed, "SubscriptionNotOwned",
                       "Subscription " + subscriptionName + " is not owned by this Trigger.");
    }

    method MarkSubscriberResolvedSucceeded()
      modifies status`conditions
      ensures status.conditions == MarkTrue(TriggerCondSet, old(status.conditions), TriggerConditionSubscriberResolved)
      ensures StatusOf(status.conditions, TriggerConditionSubscriberResolved) == True
    {
      TriggerCondSetShape();
      status.MarkTrue(TriggerCondSet, TriggerConditionSubscriberResolved);
    }

    method MarkSubscriberResolvedFailed(reason: string, message: string)
      modifies status`conditions
      ensures status.conditions ==
        Marked(TriggerCondSet, old(status.conditions), Condition(TriggerConditionSubscriberResolved, False, reason, message))
      ensures StatusOf(status.conditions, TriggerConditionSubscriberResolved) == False
    {
      TriggerCondSetShape();
      status.MarkFalse(TriggerCondSet, TriggerConditionSubscriberResolved, reason, message);
    }

    method MarkDependencySucceeded()
      modifies status`conditions
      ensures status.conditions == MarkTrue(TriggerCondSet, old(status.conditions), TriggerConditionDependency)
      ensures StatusOf(status.conditions, TriggerConditionDependency) == True
    {
      TriggerCondSetShape();
      status.MarkTrue(TriggerCondSet, TriggerConditionDependency);
    }

    method MarkDependencyUnknown(reason: string, message: string)
      modifies status`conditions
      ensures status.conditions ==
        Marked(TriggerCondSet, old(status.conditions), Condition(TriggerConditionDependency, Unknown, reason, message))
      ensures StatusOf(status.conditions, TriggerConditionDependency) == Unknown
    {
      TriggerCondSetShape();
      status.MarkUnknown(TriggerCondSet, TriggerConditionDependency, reason, message);
    }

    method MarkDependencyFailed(reason: string, message: string)
      modifies status`conditions
      ensures status.conditions ==
        Marked(TriggerCondSet, old(status.conditions), Condition(TriggerConditionDependency, False, reason, message))
      ensures StatusOf(status.conditions, TriggerConditionDependency) == False
    {
      TriggerCondSetShape();
      status.MarkFalse(TriggerCondSet, TriggerConditionDependency, reason, message);
    }
  }

  // ---------------------------------------------------------------------
  // The condition-status test's driver, one step per dependent.  Each step
  // states the status it leaves in its own dependent and that it leaves the
  // other three dependents' statuses as they were.
  // ---------------------------------------------------------------------

  /** Propagates the Broker's status when there is one. */
  method BrokerStep(ts: TriggerStatus, bs: BrokerStatus?)
    modifies ts.status`conditions
    ensures StatusOf(ts.status.conditions, TriggerConditionBroker) ==
      if bs == null then old(StatusOf(ts.status.conditions, TriggerConditionBroker))
      else old(StatusOf(bs.status.conditions, Ready))
    ensures StatusOf(ts.status.conditions, TriggerConditionSubscribed) == old(StatusOf(ts.status.conditions, TriggerConditionSubscribed))
    ensures StatusOf(ts.status.conditions, TriggerConditionDependency) == old(StatusOf(ts.status.conditions, TriggerConditionDependency))
    ensures StatusOf(ts.status.conditions, TriggerConditionSubscriberResolved) == old(StatusOf(ts.status.conditions, TriggerConditionSubscriberResolved))
  {
    if bs != null {
      ghost var before := ts.status.conditions;
      ghost var c := Mirrored(TriggerConditionBroker, Lookup(bs.status.conditions, Ready));
      ts.PropagateBrokerStatus(bs);
      TriggerCondSetShape();
      MarkKeepsStatus(TriggerCondSet, before, c, TriggerConditionSubscribed);
      MarkKeepsStatus(TriggerCondSet, before, c, TriggerConditionDependency);
      MarkKeepsStatus(TriggerCondSet, before, c, TriggerConditionSubscriberResolved);
    }
  }

  /** Marks the subscription not owned, or propagates its status when there is one. */
  method SubscriptionStep(ts: TriggerStatus, subscriptionOwned: bool, ss: Status?)
    modifies ts.status`conditions
    ensures StatusOf(ts.status.conditions, TriggerConditionSubscribed) ==
      if !subscriptionOwned then False
      else if ss == null then old(StatusOf(ts.status.conditions, TriggerConditionSubscribed))
      else old(StatusOf(ss.conditions, Ready))
    ensures StatusOf(ts.status.conditions, TriggerConditionBroker) == old(StatusOf(ts.status.conditions, TriggerConditionBroker))
    ensures StatusOf(ts.status.conditions, TriggerConditionDependency) == old(StatusOf(ts.status.conditions, TriggerConditionDependency))
    ensures StatusOf(ts.status.conditions, TriggerConditionSubscriberResolved) == old(StatusOf(ts.status.conditions, TriggerConditionSubscriberResolved))
  {
    ghost var before := ts.status.conditions;
    ghost var c: Condition;
    if !subscriptionOwned {
      c := Condition(TriggerConditionSubscribed, False, "SubscriptionNotOwned",
                     "Subscription  is not owned by this Trigger.");
      ts.MarkSubscriptionNotOwned("");
    } else if ss != null {
      c := Mirrored(TriggerConditionSubscribed, Lookup(ss.conditions, Ready));
      ts.PropagateSubscriptionStatus(ss);
    } else {
      return;
    }
    TriggerCondSetShape();
    MarkKeepsStatus(TriggerCondSet, before, c, TriggerConditionBroker);
    MarkKeepsStatus(TriggerCondSet, before, c, TriggerConditionDependency);
    MarkKeepsStatus(TriggerCondSet, before, c, TriggerConditionSubscriberResolved);
  }

  /** Marks the subscriber resolved, or not. */
  method SubscriberStep(ts: TriggerStatus, subscriberResolved: bool)
    modifies ts.status`conditions
    ensures StatusOf(ts.status.conditions, TriggerConditionSubscriberResolved) == if subscriberResolved then True else False
    ensures StatusOf(ts.status.conditions, TriggerConditionBroker) == old(StatusOf(ts.status.conditions, TriggerConditionBroker))
    ensures StatusOf(ts.status.conditions, TriggerConditionSubscribed) == old(StatusOf(ts.status.conditions, TriggerConditionSubscribed))
    ensures StatusOf(ts.status.conditions, TriggerConditionDependency) == old(StatusOf(ts.status.conditions, TriggerConditionDependency))
  {
    ghost var before := ts.status.conditions;
    ghost var c: Condition;
    if subscriberResolved {
      c := Blank(TriggerConditionSubscriberResolved, True);
      ts.MarkSubscriberResolvedSucceeded();
    } else {
      c := Condition(TriggerConditionSubscriberResolved, False, "Unable to get the Subscriber's URI", "subscriber not found");
      ts.MarkSubscriberResolvedFailed("Unable to get the Subscriber's URI", "subscriber not found");
    }
    TriggerCondSetShape();
    MarkKeepsStatus(TriggerCondSet, before, c, TriggerConditionBroker);
    MarkKeepsStatus(TriggerCondSet, before, c, TriggerConditionSubscribed);
    MarkKeepsStatus(TriggerCondSet, before, c, TriggerConditionDependency);
  }

  /**
   * Marks the dependency from the annotation's status; as a dependent's
   * mark it also recomputes the top-level condition.
   */
  method DependencyStep(ts: TriggerStatus, dependencyAnnotationExists: bool, dependencyStatus: ConditionStatus)
    modifies ts.status`conditions
    ensures StatusOf(ts.status.conditions, TriggerConditionDependency) ==
      if !dependencyAnnotationExists || dependencyStatus == True then True
      else if dependencyStatus == Unknown then Unknown
      else False
    ensures StatusOf(ts.status.conditions, TriggerConditionBroker) == old(StatusOf(ts.status.conditions, TriggerConditionBroker))
    ensures StatusOf(ts.status.conditions, TriggerConditionSubscribed) == old(StatusOf(ts.status.conditions, TriggerConditionSubscribed))
    ensures StatusOf(ts.status.conditions, TriggerConditionSubscriberResolved) == old(StatusOf(ts.status.conditions, TriggerConditionSubscriberResolved))
    ensures Lookup(ts.status.conditions, Ready).Some?
    ensures StatusOf(ts.status.conditions, Ready) == Aggregate(TriggerCondSet, ts.status.conditions).status
  {
    ghost var before := ts.status.conditions;
    ghost var c: Condition;
    if !dependencyAnnotationExists || dependencyStatus == True {
      c := Blank(TriggerConditionDependency, True);
      ts.MarkDependencySucceeded();
    } else if dependencyStatus == Unknown {
      c := Condition(TriggerConditionDependency, Unknown, "The status of dependency is unknown", "The status of dependency is unknown: nil");
      ts.MarkDependencyUnknown("The status of dependency is unknown", "The status of dependency is unknown: nil");
    } else {
      c := Condition(TriggerConditionDependency, False, "The status of dependency is false", "The status of dependency is unknown: nil");
      ts.MarkDependencyFailed("The status of dependency is false", "The status of dependency is unknown: nil");
    }
    TriggerCondSetShape();
    MarkKeepsStatus(TriggerCondSet, before, c, TriggerConditionBroker);
    MarkKeepsStatus(TriggerCondSet, before, c, TriggerConditionSubscribed);
    MarkKeepsStatus(TriggerCondSet, before, c, TriggerConditionSubscriberResolved);
  }

  /**
   * One case of the Trigger condition-status test: build an empty
   * TriggerStatus, apply the test's marks in its order and read the
   * top-level status.  The result is the reference verdict over what each
   * step records in its dependent.
   */
  method ConditionStatusCase(bs: BrokerStatus?, subscriptionOwned: bool, ss: Status?,
                             subscriberResolved: bool, dependencyAnnotationExists: bool,
                             dependencyStatus: ConditionStatus)
    returns (got: ConditionStatus)
    ensures var broker := if bs == null then Unknown else StatusOf(bs.status.conditions, Ready);
            var subscribed := if !subscriptionOwned then False
                              else if ss == null then Unknown
                              else StatusOf(ss.conditions, Ready);
            var dependency := if !dependencyAnnotationExists || dependencyStatus == True then True
                              else if dependencyStatus == Unknown then Unknown
                              else False;
            var resolved := if subscriberResolved then True else False;
            got == Verdict([broker, subscribed, dependency, resolved])
  {
    ghost var broker := if bs == null then Unknown else StatusOf(bs.status.conditions, Ready);
    ghost var subscribed := if !subscriptionOwned then False
                            else if ss == null then Unknown
                            else StatusOf(ss.conditions, Ready);
    var ts := new TriggerStatus();
    BrokerStep(ts, bs);
    assert StatusOf(ts.status.conditions, TriggerConditionBroker) == broker;
    SubscriptionStep(ts, subscriptionOwned, ss);
    assert StatusOf(ts.status.conditions, TriggerConditionSubscribed) == subscribed;
    SubscriberStep(ts, subscriberResolved);
    DependencyStep(ts, dependencyAnnotationExists, dependencyStatus);
    TriggerAggregate(ts.status.conditions);
    var top := ts.GetTopLevelCondition();
    assert top.Some?;
    got := top.value.status;
  }

  /** A Subscription status whose top-level condition has status `s`. */
  method SubscriptionStatusWith(s: ConditionStatus) returns (ss: Status)
    ensures fresh(ss) && ss.conditions == [Blank(Ready, s)]
  {
    ss := new Status.FromConditions([Blank(Ready, s)]);
  }

  /** The nine cases of the condition-status test, in the test's order, give the wanted statuses. */
  method ConditionStatusTable() returns (got: seq<ConditionStatus>)
    ensures got == [True, Unknown, False, False, False, False, Unknown, False, False]
  {
    var ready := ReadyBrokerStatus();
    var unknown := UnknownBrokerStatus();
    var failed := FalseBrokerStatus();
    var readySub := SubscriptionStatusWith(True);
    var falseSub := SubscriptionStatusWith(False);
    assert StatusOf(readySub.conditions, Ready) == True;
    assert StatusOf(falseSub.conditions, Ready) == False;
    var allHappy := ConditionStatusCase(ready, true, readySub, true, false, Unknown);
    var brokerUnknown := ConditionStatusCase(unknown, true, readySub, true, false, Unknown);
    var brokerFalse := ConditionStatusCase(failed, true, readySub, true, false, Unknown);
    var subscribedSad := ConditionStatusCase(ready, true, falseSub, true, false, Unknown);
    var notOwned := ConditionStatusCase(ready, false, readySub, true, false, Unknown);
    var subscriberFailed := ConditionStatusCase(ready, true, readySub, false, true, True);
    var dependencyUnknown := ConditionStatusCase(ready, true, readySub, true, true, Unknown);
    var dependencyFalse := ConditionStatusCase(ready, true, readySub, true, true, False);
    var allSad := ConditionStatusCase(failed, false, falseSub, false, true, False);
    got := [allHappy, brokerUnknown, brokerFalse, subscribedSad, notOwned,
            subscriberFailed, dependencyUnknown, dependencyFalse, allSad];
  }

  /**
   * The GetCondition cases of the trigger test: a lone Ready condition is
   * found, Subscribed is found among all four, and "foo" is absent.
   */
  method GetConditionTable() returns (single: Option<Condition>, multiple: Option<Condition>, unknown: Option<Condition>)
    ensures single == Some(Blank(Ready, True))
    ensures multiple == Some(Blank(TriggerConditionSubscribed, False))
    ensures unknown == None
  {
    var one := new TriggerStatus.FromConditions([Blank(Ready, True)]);
    single := one.GetCondition(Ready);
    var all := new TriggerStatus.FromConditions([
      Blank(TriggerConditionBroker, True), Blank(TriggerConditionSubscribed, False),
      Blank(TriggerConditionDependency, True), Blank(TriggerConditionSubscriberResolved, True)]);
    multiple := all.GetCondition(TriggerConditionSubscribed);
    var lone := new TriggerStatus.FromConditions([Blank(TriggerConditionSubscribed, False)]);
    unknown := lone.GetCondition("foo");
  }

  /**
   * The InitializeConditions cases of the trigger test: starting from one
   * stored condition, that condition is kept as it is and every other
   * registered type, Ready included, is added as Unknown.
   */
  method InitializeConditionsCase(stored: Condition) returns (r: seq<Condition>)
    requires stored.condType in TriggerCondSet.Types()
    ensures Sorted(r)
    ensures Lookup(r, stored.condType) == Some(stored)
    ensures forall t :: t in TriggerCondSet.Types() && t != stored.condType ==> Lookup(r, t) == Some(Blank(t, Unknown))
    ensures forall x :: x in r ==> x == stored || (x.condType in TriggerCondSet.Types() && x == Blank(x.condType, Unknown))
  {
    var ts := new TriggerStatus.FromConditions([stored]);
    ts.InitializeConditions();
    r := ts.status.conditions;
    var types := TriggerCondSet.Types();
    InitializeKeepsOrder(types, [stored]);
    forall t | t in types ensures Lookup(r, t) == if t == stored.condType then Some(stored) else Some(Blank(t, Unknown)) {
      InitializeLookup(types, [stored], t);
    }
    forall x | x in r ensures x == stored || (x.condType in types && x == Blank(x.condType, Unknown)) {
      InitializeMembers(types, [stored], x);
    }
  }

  /** The members of the "one false" case's expected list. */
  lemma OneFalseMembers()
    ensures forall x :: x in TriggerConditions(False, Unknown, Unknown, Unknown, Unknown) <==>
      x == Blank(TriggerConditionBroker, False)
      || (x == Blank(x.condType, Unknown) && x.condType in TriggerCondSet.Types() && x.condType != TriggerConditionBroker)
  {
    assert TriggerCondSet.Types() == [Ready, TriggerConditionBroker, TriggerConditionSubscribed,
                                      TriggerConditionDependency, TriggerConditionSubscriberResolved];
  }

  /** The members of the "one true" case's expected list. */
  lemma OneTrueMembers()
    ensures forall x :: x in TriggerConditions(Unknown, Unknown, Unknown, True, Unknown) <==>
      x == Blank(TriggerConditionSubscribed, True)
      || (x == Blank(x.condType, Unknown) && x.condType in TriggerCondSet.Types() && x.condType != TriggerConditionSubscribed)
  {
    assert TriggerCondSet.Types() == [Ready, TriggerConditionBroker, TriggerConditionSubscribed,
                                      TriggerConditionDependency, TriggerConditionSubscriberResolved];
  }

  /**
   * The "one false" and "one true" cases, compared as whole lists: the stored
   * condition is kept and the five conditions come out in the order by type.
   */
  method InitializeConditionsTable() returns (oneFalse: seq<Condition>, oneTrue: seq<Condition>)
    ensures oneFalse == TriggerConditions(False, Unknown, Unknown, Unknown, Unknown)
    ensures oneTrue == TriggerConditions(Unknown, Unknown, Unknown, True, Unknown)
  {
    var falseStatus := new TriggerStatus.FromConditions([Blank(TriggerConditionBroker, False)]);
    falseStatus.InitializeConditions();
    oneFalse := falseStatus.status.conditions;
    TriggerConditionsSorted(False, Unknown, Unknown, Unknown, Unknown);
    OneFalseMembers();
    InitializeFromOneIs(TriggerCondSet.Types(), Blank(TriggerConditionBroker, False),
                        TriggerConditions(False, Unknown, Unknown, Unknown, Unknown));
    var trueStatus := new TriggerStatus.FromConditions([Blank(TriggerConditionSubscribed, True)]);
    trueStatus.InitializeConditions();
    oneTrue := trueStatus.status.conditions;
    TriggerConditionsSorted(Unknown, Unknown, Unknown, True, Unknown);
    OneTrueMembers();
    InitializeFromOneIs(TriggerCondSet.Types(), Blank(TriggerConditionSubscribed, True),
                        TriggerConditions(Unknown, Unknown, Unknown, True, Unknown));
  }
}
