/**
 * BrokerStatus: the Broker's condition set (Ready over six dependents) and
 * the status operations the Broker reconciler calls.  Every operation goes
 * through the condition manager; SetAddress also stores the hostname.
 */
module Broker {
  import opened Wrappers
  import opened Conditions
  import opened Manager

  const BrokerConditionIngress: ConditionType := "IngressReady"
  const BrokerConditionTriggerChannel: ConditionType := "TriggerChannelReady"
  const BrokerConditionIngressChannel: ConditionType := "IngressChannelReady"
  const BrokerConditionIngressSubscription: ConditionType := "IngressSubscriptionReady"
  const BrokerConditionFilter: ConditionType := "FilterReady"
  const BrokerConditionAddressable: ConditionType := "Addressable"

  /** The failure reason every Mark*Failed records. */
  const FailedReason := "failed"

  const BrokerCondSet := ConditionSet(Ready, [
    BrokerConditionIngress,
    BrokerConditionTriggerChannel,
    BrokerConditionIngressChannel,
    BrokerConditionFilter,
    BrokerConditionAddressable,
    BrokerConditionIngressSubscription])

  /** The Broker set is a living set over exactly its six dependents, none of them Ready. */
  lemma BrokerCondSetShape()
    ensures BrokerCondSet.WellFormed() && BrokerCondSet.happy == Ready
    ensures forall t :: t in BrokerCondSet.dependents <==>
      t in {BrokerConditionIngress, BrokerConditionTriggerChannel, BrokerConditionIngressChannel,
            BrokerConditionFilter, BrokerConditionAddressable, BrokerConditionIngressSubscription}
    ensures |BrokerCondSet.dependents| == 6
  {
  }

  /**
   * With the other five dependents True, marking the ingress subscription
   * ready makes the Broker Ready.
   */
  lemma IngressSubscriptionCompletesBroker(cs: seq<Condition>)
    requires StatusOf(cs, BrokerConditionIngress) == True
    requires StatusOf(cs, BrokerConditionTriggerChannel) == True
    requires StatusOf(cs, BrokerConditionIngressChannel) == True
    requires StatusOf(cs, BrokerConditionFilter) == True
    requires StatusOf(cs, BrokerConditionAddressable) == True
    ensures StatusOf(MarkTrue(BrokerCondSet, cs, BrokerConditionIngressSubscription), Ready) == True
  {
    BrokerCondSetShape();
    MarkTrueAmongTrue(BrokerCondSet, cs, BrokerConditionIngressSubscription);
  }

  class BrokerStatus {
    /** The embedded duck-typed status (conditions and observed generation). */
    const status: Status
    /** Address.Hostname */
    var hostname: string

    constructor ()
      ensures fresh(status) && status.conditions == [] && hostname == ""
    {
      status := new Status();
      hostname := "";
    }

    method GetCondition(t: ConditionType) returns (c: Option<Condition>)
      ensures c == Lookup(status.conditions, t)
    {
      c := status.GetCondition(t);
    }

    /** IsReady is the manager's IsHappy: the Ready condition is present and True. */
    method IsReady() returns (ready: bool)
      ensures ready <==> StatusOf(status.conditions, Ready) == True
    {
      ready := status.IsHappy(BrokerCondSet);
    }

    method InitializeConditions()
      modifies status`conditions
      ensures status.conditions == InitializeAll(BrokerCondSet.Types(), old(status.conditions))
    {
      status.InitializeConditions(BrokerCondSet);
    }

    /** Marks dependent `t` True; shared body of the six Mark*Ready operations. */
    method MarkReady(t: ConditionType)
      requires t in BrokerCondSet.dependents
      modifies status`conditions
      ensures status.conditions == MarkTrue(BrokerCondSet, old(status.conditions), t)
    {
      status.MarkTrue(BrokerCondSet, t);
    }

    /** Marks dependent `t` False with reason "failed" and the error's text; shared body of Mark*Failed. */
    method MarkFailed(t: ConditionType, err: string)
      requires t in BrokerCondSet.dependents
      modifies status`conditions
      ensures status.conditions == Marked(BrokerCondSet, old(status.conditions), Condition(t, False, FailedReason, err))
      ensures StatusOf(status.conditions, Ready) == False
    {
      status.MarkFalse(BrokerCondSet, t, FailedReason, err);
      MarkFalseMakesUnready(BrokerCondSet, old(status.conditions), t, FailedReason, err);
    }

    method MarkIngressReady()
      modifies status`conditions
      ensures status.conditions == MarkTrue(BrokerCondSet, old(status.conditions), BrokerConditionIngress)
    {
      MarkReady(BrokerConditionIngress);
    }

    method MarkIngressFailed(err: string)
      modifies status`conditions
      ensures status.conditions == Marked(BrokerCondSet, old(status.conditions), Condition(BrokerConditionIngress, False, FailedReason, err))
      ensures StatusOf(status.conditions, Ready) == False
    {
      MarkFailed(BrokerConditionIngress, err);
    }

    method MarkTriggerChannelReady()
      modifies status`conditions
      ensures status.conditions == MarkTrue(BrokerCondSet, old(status.conditions), BrokerConditionTriggerChannel)
    {
      MarkReady(BrokerConditionTriggerChannel);
    }

    method MarkTriggerChannelFailed(err: string)
      modifies status`conditions
      ensures status.conditions == Marked(BrokerCondSet, old(status.conditions), Condition(BrokerConditionTriggerChannel, False, FailedReason, err))
      ensures StatusOf(status.conditions, Ready) == False
    {
      MarkFailed(BrokerConditionTriggerChannel, err);
    }

    method MarkIngressChannelReady()
      modifies status`conditions
      ensures status.conditions == MarkTrue(BrokerCondSet, old(status.conditions), BrokerConditionIngressChannel)
    {
      MarkReady(BrokerConditionIngressChannel);
    }

    method MarkIngressChannelFailed(err: string)
      modifies status`conditions
      ensures status.conditions == Marked(BrokerCondSet, old(status.conditions), Condition(BrokerConditionIngressChannel, False, FailedReason, err))
      ensures StatusOf(status.conditions, Ready) == False
    {
      MarkFailed(BrokerConditionIngressChannel, err);
    }

    method MarkIngressSubscriptionReady()
      modifies status`conditions
      ensures status.conditions == MarkTrue(BrokerCondSet, old(status.conditions), BrokerConditionIngressSubscription)
    {
      MarkReady(BrokerConditionIngressSubscription);
    }

    method MarkIngressSubscriptionFailed(err: string)
      modifies status`conditions
      ensures status.conditions == Marked(BrokerCondSet, old(status.conditions), Condition(BrokerConditionIngressSubscription, False, FailedReason, err))
      ensures StatusOf(status.conditions, Ready) == False
    {
      MarkFailed(BrokerConditionIngressSubscription, err);
    }

    method MarkFilterReady()
      modifies status`conditions
      ensures status.conditions == MarkTrue(BrokerCondSet, old(status.conditions), BrokerConditionFilter)
    {
      MarkReady(BrokerConditionFilter);
    }

    method MarkFilterFailed(err: string)
      modifies status`conditions
      ensures status.conditions == Marked(BrokerCondSet, old(status.conditions), Condition(BrokerConditionFilter, False, FailedReason, err))
      ensures StatusOf(status.conditions, Ready) == False
    {
      MarkFailed(BrokerConditionFilter, err);
    }

    /**
     * Stores the hostname; a non-empty one marks Addressable True, the empty
     * one marks it False (and with it Ready).
     */
    method SetAddress(h: string)
      modifies this`hostname, status`conditions
      ensures hostname == h
      ensures status.conditions ==
        if h != "" then MarkTrue(BrokerCondSet, old(status.conditions), BrokerConditionAddressable)
        else Marked(BrokerCondSet, old(status.conditions),
               Condition(BrokerConditionAddressable, False, "emptyHostname", "hostname is the empty string"))
      ensures h == "" ==> StatusOf(status.conditions, Ready) == False
    {
      hostname := h;
      if h != "" {
        status.MarkTrue(BrokerCondSet, BrokerConditionAddressable);
      } else {
        MarkFailedWith(BrokerConditionAddressable, "emptyHostname", "hostname is the empty string");
      }
    }

    method MarkFailedWith(t: ConditionType, reason: string, message: string)
      requires t in BrokerCondSet.dependents
      modifies status`conditions
      ensures status.conditions == Marked(BrokerCondSet, old(status.conditions), Condition(t, False, reason, message))
      ensures StatusOf(status.conditions, Ready) == False
    {
      status.MarkFalse(BrokerCondSet, t, reason, message);
      MarkFalseMakesUnready(BrokerCondSet, old(status.conditions), t, reason, message);
    }
  }

  /** A Broker whose six dependents have all been marked ready, in the reconciler's order. */
  method ReadyBrokerStatus() returns (bs: BrokerStatus)
    ensures fresh(bs) && fresh(bs.status)
    ensures StatusOf(bs.status.conditions, Ready) == True
  {
    bs := new BrokerStatus();
    bs.InitializeConditions();
    BrokerCondSetShape();
    ghost var c0 := bs.status.conditions;
    bs.MarkIngressReady();
    MarkTrueKeepsTrue(BrokerCondSet, c0, BrokerConditionIngress, BrokerConditionIngress);
    ghost var c1 := bs.status.conditions;
    bs.MarkTriggerChannelReady();
    MarkTrueKeepsTrue(BrokerCondSet, c1, BrokerConditionTriggerChannel, BrokerConditionIngress);
    MarkTrueKeepsTrue(BrokerCondSet, c1, BrokerConditionTriggerChannel, BrokerConditionTriggerChannel);
    ghost var c2 := bs.status.conditions;
    bs.MarkIngressChannelReady();
    MarkTrueKeepsTrue(BrokerCondSet, c2, BrokerConditionIngressChannel, BrokerConditionIngress);
    MarkTrueKeepsTrue(BrokerCondSet, c2, BrokerConditionIngressChannel, BrokerConditionTriggerChannel);
    MarkTrueKeepsTrue(BrokerCondSet, c2, BrokerConditionIngressChannel, BrokerConditionIngressChannel);
    ghost var c3 := bs.status.conditions;
    bs.MarkFilterReady();
    MarkTrueKeepsTrue(BrokerCondSet, c3, BrokerConditionFilter, BrokerConditionIngress);
    MarkTrueKeepsTrue(BrokerCondSet, c3, BrokerConditionFilter, BrokerConditionTriggerChannel);
    MarkTrueKeepsTrue(BrokerCondSet, c3, BrokerConditionFilter, BrokerConditionIngressChannel);
    MarkTrueKeepsTrue(BrokerCondSet, c3, BrokerConditionFilter, BrokerConditionFilter);
    ghost var c4 := bs.status.conditions;
    bs.SetAddress("broker.example");
    MarkTrueKeepsTrue(BrokerCondSet, c4, BrokerConditionAddressable, BrokerConditionIngress);
    MarkTrueKeepsTrue(BrokerCondSet, c4, BrokerConditionAddressable, BrokerConditionTriggerChannel);
    MarkTrueKeepsTrue(BrokerCondSet, c4, BrokerConditionAddressable, BrokerConditionIngressChannel);
    MarkTrueKeepsTrue(BrokerCondSet, c4, BrokerConditionAddressable, BrokerConditionFilter);
    MarkTrueKeepsTrue(BrokerCondSet, c4, BrokerConditionAddressable, BrokerConditionAddressable);
    ghost var c5 := bs.status.conditions;
    bs.MarkIngressSubscriptionReady();
    IngressSubscriptionCompletesBroker(c5);
  }

  /** A Broker that has only been initialised: Ready is Unknown. */
  method UnknownBrokerStatus() returns (bs: BrokerStatus)
    ensures fresh(bs) && fresh(bs.status)
    ensures StatusOf(bs.status.conditions, Ready) == Unknown
  {
    bs := new BrokerStatus();
    bs.InitializeConditions();
    InitializeFromEmpty(BrokerCondSet);
  }

  /** A Broker whose ingress has failed: Ready is False. */
  method FalseBrokerStatus() returns (bs: BrokerStatus)
    ensures fresh(bs) && fresh(bs.status)
    ensures StatusOf(bs.status.conditions, Ready) == False
  {
    bs := new BrokerStatus();
    bs.InitializeConditions();
    bs.MarkIngressFailed("ingress unavailable");
  }
}
