# Knative eventing condition statuses, validators and builders

This project models the status logic shared by the resources of the
eventing repository, plus the small self-contained pieces around it.
It is written in Dafny.

Every resource status holds a list of conditions. Each condition has a
type, a tri-state status (True, False or Unknown), a reason and a message.
A *condition set* names the top-level type, `Ready`, and the dependent
types that decide it. The condition manager works on that list:

- `InitializeConditions` adds every missing registered type as Unknown.
- `MarkTrue`, `MarkFalse` and `MarkUnknown` write one condition. When that
  condition is a registered dependent, they also recompute `Ready`:
  - `Ready` is True when every dependent is True;
  - it is False when some dependent is False;
  - it is Unknown otherwise.
- `GetCondition`, `GetTopLevelCondition` and `IsHappy` read the list.

A write that changes the list drops every condition of the written type,
adds the new condition and sorts the whole list by type. A write of the
condition already stored for its type changes nothing. A list built by
hand in another order therefore keeps that order until its first changing
write; from then on a list with one condition per type is sorted.

The modules are:

- `Conditions`: condition values, sorted lists and the manager's rules as
  functions. This includes the reference verdict `Verdict` that the
  aggregate is proved against.
- `Manager`: the `Status` class. Its methods update the condition list in
  place. Each method is proved against the functions of `Conditions`.
- `Broker`, `Integration`, `Trigger`, `EventTypeDefinition`: the per-resource
  condition sets and status classes. `Trigger` also holds the trigger
  lifecycle test's cases, as method-call sequences with their expected
  outcomes proved.
- `Subscription`: the Subscription spec validator and its immutability
  check.
- `Registry`: the event-type registry's receiver. It turns a Group of
  definitions into EventType records, one Create call each.
- `Encoding`: the CloudEvents HTTP `Encoding` enumeration and its three
  string mappings.
- `Filter`: the broker filter's Deployment and Service builders.

The manager keeps the conditions sorted by type, not in the order the set
declares them. The trigger test at
pkg/apis/eventing/v1alpha1/trigger_lifecycle_test.go:135-150 expects the
order Broker, Dependency, Ready, Subscribed, SubscriberResolved after
initialisation. `Conditions.SortByType` and `Conditions.InsertSorted`
do the sort. `Conditions.SetConditionSorts` and `Conditions.MarkedSorts`
prove that a changing write sorts a list in any order.
`Conditions.InitializeKeepsOrder` and `Manager.Status.Mark` prove that a
sorted list stays sorted.

Foreign calls are parameters of the functions and methods that use them:
Destination and reference validators, the spec diff, URL parsing, the
cluster's Create call and the decoding of event data.

## Model

| member | source | states |
|---|---|---|
| `Conditions.Lookup` | pkg/apis/eventing/v1alpha1/broker_types.go:108-111 | lookup by type: a Some result is a stored condition of that type; None exactly when no stored condition has that type |
| `Conditions.LookupFindsStored` | pkg/apis/eventing/v1alpha1/trigger_lifecycle_test.go:75-101 | in any list with at most one condition per type, sorted or not, a stored condition is what a lookup of its type returns, wherever it sits |
| `Conditions.SortedUniqueTypes` | pkg/apis/eventing/v1alpha1/trigger_lifecycle_test.go:135-150 | a list sorted by type repeats no type |
| `Conditions.LookupFindsStoredSorted` | pkg/apis/eventing/v1alpha1/broker_types.go:108-111 | so in every list the manager keeps, a stored condition is what its type's lookup returns |
| `Conditions.SortedCons` | pkg/apis/eventing/v1alpha1/trigger_lifecycle_test.go:135-150 | a condition whose type is below the head of a sorted list can be put in front of it, and the list stays sorted |
| `Conditions.SetCondition` | pkg/apis/eventing/v1alpha1/broker_types.go:123-128 | writing the condition already stored alone for its type changes nothing; any other write replaces every condition of its type by the new one and keeps the other conditions, as a multiset and in what each type's lookup finds; a sorted list stays sorted |
| `Conditions.InsertSorted` | pkg/apis/eventing/v1alpha1/trigger_lifecycle_test.go:135-150 | the inserted condition is what its type's lookup finds; every other lookup and every other member is kept |
| `Conditions.SortByType` | pkg/apis/eventing/v1alpha1/trigger_lifecycle_test.go:135-150 | the sort keeps the list's multiset of conditions and what every type's lookup finds |
| `Conditions.SortByTypeOrders` | pkg/apis/eventing/v1alpha1/trigger_lifecycle_test.go:135-150 | the sorted list is ordered by type, and strictly sorted when no type repeats |
| `Conditions.SetConditionSorts` | pkg/apis/eventing/v1alpha1/trigger_lifecycle_test.go:78-83 | a write that changes the list orders it by type whatever order it had, and sorts it strictly when no type repeats |
| `Conditions.Aggregate` | pkg/apis/eventing/v1alpha1/trigger_lifecycle_test.go:242-335 | the recomputed top-level condition has the happy type; it is True iff every dependent is True and False iff some dependent is False |
| `Conditions.AggregateIsVerdict` | pkg/apis/eventing/v1alpha1/trigger_lifecycle_test.go:242-335 | the aggregate's status equals the reference verdict over the dependents' statuses: False if any is False, else Unknown if any is Unknown, else True |
| `Conditions.StatusesOf` | pkg/apis/eventing/v1alpha1/trigger_lifecycle_test.go:363 | one status per listed type, the stored one (absent reads as Unknown) |
| `Conditions.AggregateDependsOnDependents` | pkg/apis/sources/v1alpha1/integration_lifecycle.go:36-39 | two lists whose dependents have the same statuses have the same top-level status; types outside the set do not gate readiness |
| `Conditions.Mirrored` | pkg/apis/sources/v1alpha1/integration_lifecycle.go:87-99 | the condition written for a child's Ready: absent gives Unknown with empty reason and message; True gives True; False and Unknown keep the child's reason and message |
| `Conditions.Marked` | pkg/apis/eventing/v1alpha1/broker_types.go:123-161 | a mark stores the condition; it recomputes Ready only for a registered dependent; every other type keeps its condition; the list stays sorted |
| `Conditions.MarkedSorts` | pkg/apis/eventing/v1alpha1/trigger_lifecycle_test.go:78-83 | a mark that changes a list without repeated types leaves it sorted by type, whatever order it was built in |
| `Conditions.MarkTrue` | pkg/apis/eventing/v1alpha1/broker_types.go:124 | no contract of its own: the mark of a blank True condition; `Conditions.MarkTrueKeepsTrue` and `Conditions.MarkTrueAmongTrue` state what it does to the dependents and to Ready |
| `Conditions.MarkAllTrue` | pkg/apis/eventing/v1alpha1/broker_types.go:123-157 | no contract of its own: MarkTrue of each listed type in turn; `Conditions.MarkAllTrueStatuses` and `Conditions.MarkingAllDependentsTrueIsReady` state its effect |
| `Conditions.MarkFalseMakesUnready` | pkg/apis/eventing/v1alpha1/broker_types.go:127-129 | marking a dependent False makes the top-level status False |
| `Conditions.MarkUnknownAmongTrue` | pkg/apis/eventing/v1alpha1/trigger_lifecycle_test.go:303-312 | with every other dependent True, one Unknown dependent makes the top-level status Unknown |
| `Conditions.MarkTrueAmongTrue` | pkg/apis/eventing/v1alpha1/trigger_lifecycle_test.go:242-250 | with every other dependent True, marking the last one True makes the top-level status True |
| `Conditions.MarkKeepsStatus` | pkg/apis/eventing/v1alpha1/broker_types.go:123-125 | a mark changes the status of no type other than its own and, for dependents, Ready |
| `Conditions.MarkSoleDependent` | pkg/apis/sources/v1alpha1/integration_lifecycle.go:36-39 | in a set with one dependent, marking it gives Ready exactly that status |
| `Conditions.MarkTrueKeepsTrue` | pkg/apis/eventing/v1alpha1/broker_types.go:123-157 | after MarkTrue of any type, the marked dependent and every previously True dependent are True |
| `Conditions.MarkAllTrueStatuses` | pkg/apis/eventing/v1alpha1/broker_types.go:123-157 | marking a sequence of dependents True leaves each of them True, whatever the order |
| `Conditions.MarkingAllDependentsTrueIsReady` | pkg/apis/eventing/v1alpha1/trigger_lifecycle_test.go:242-250 | marking every dependent True, in any order, makes the resource Ready |
| `Conditions.InitializeOne` | pkg/apis/eventing/v1alpha1/broker_types.go:118-121 | no contract of its own: a type with no stored condition is written as Unknown, a stored one is left as it is; the `Initialize` lemmas below state the effect of the whole pass |
| `Conditions.InitializeAll` | pkg/apis/eventing/v1alpha1/broker_types.go:118-121 | no contract of its own: InitializeOne for each registered type in order; `Conditions.InitializeLookup`, `Conditions.InitializeMembers`, `Conditions.InitializeKeepsOrder` and `Conditions.InitializeResult` state what it gives |
| `Conditions.InitializeLookup` | pkg/apis/eventing/v1alpha1/broker_types.go:118-121 | after initialisation a registered type that was missing reads as Unknown; every other lookup is unchanged |
| `Conditions.InitializeMembers` | pkg/apis/eventing/v1alpha1/trigger_lifecycle_test.go:155-216 | the initialised list holds exactly the old conditions plus an Unknown one for each missing registered type |
| `Conditions.InitializeKeepsOrder` | pkg/apis/eventing/v1alpha1/trigger_lifecycle_test.go:135-150 | initialisation keeps the list sorted by type |
| `Conditions.InitializeResult` | pkg/apis/eventing/v1alpha1/trigger_lifecycle_test.go:164-185 | the initialised list is the unique sorted list with those members |
| `Conditions.InitializeComplete` | pkg/apis/eventing/v1alpha1/broker_types.go:118-121 | a list that already holds every registered type is left unchanged |
| `Conditions.InitializeIdempotent` | pkg/apis/eventing/v1alpha1/broker_types.go:118-121 | initialising twice is the same as initialising once |
| `Conditions.InitializeFromEmpty` | pkg/apis/eventing/v1alpha1/trigger_lifecycle_test.go:130-153 | an empty status initialises to one Unknown condition per registered type, Ready included, and nothing else, sorted |
| `Conditions.InitializeFromEmptyIs` | pkg/apis/eventing/v1alpha1/trigger_lifecycle_test.go:130-153 | initialising an empty list gives exactly the sorted list of one Unknown condition per registered type |
| `Conditions.InitializeFromOneIs` | pkg/apis/eventing/v1alpha1/trigger_lifecycle_test.go:155-216 | initialising a one-condition list gives exactly the sorted list of that condition and one Unknown condition per other registered type |
| `Conditions.SortedExtensional` | pkg/apis/eventing/v1alpha1/trigger_lifecycle_test.go:219-224 | two sorted lists with the same members are equal, so the comparison of a whole list is fixed by its members |
| `Manager.Status.FromConditions` | pkg/apis/eventing/v1alpha1/trigger_lifecycle_test.go:78-83 | a status built from a literal list holds exactly that list, and is in the manager's shape iff the list is sorted |
| `Manager.Status.GetCondition` | pkg/apis/eventing/v1alpha1/broker_types.go:108-111 | the scan returns the lookup's result: a stored condition of the type, or None iff the type is absent |
| `Manager.Status.GetTopLevelCondition` | pkg/apis/sources/v1alpha1/integration_lifecycle.go:51-54 | returns the stored Ready condition |
| `Manager.Status.IsHappy` | pkg/apis/eventing/v1alpha1/broker_types.go:113-116 | true iff Ready is stored and True |
| `Manager.Status.ComputeTopLevel` | pkg/apis/eventing/v1alpha1/trigger_lifecycle_test.go:363 | one pass over the dependents computes exactly the aggregate |
| `Manager.Status.Mark` | pkg/apis/sources/v1alpha1/integration_lifecycle.go:90-98 | the list after the call is the marked list; a sorted list stays sorted |
| `Manager.Status.MarkTrue` | pkg/apis/eventing/v1alpha1/broker_types.go:124 | stores a True condition with empty reason and message; a sorted list stays sorted |
| `Manager.Status.MarkFalse` | pkg/apis/eventing/v1alpha1/broker_types.go:128 | stores a False condition with the given reason and message; a sorted list stays sorted |
| `Manager.Status.MarkUnknown` | pkg/apis/sources/v1alpha1/integration_lifecycle.go:90 | stores an Unknown condition with the given reason and message; a sorted list stays sorted |
| `Manager.Status.InitializeConditions` | pkg/apis/eventing/v1alpha1/broker_types.go:118-121 | the loop over the registered types leaves the initialised list |
| `Broker.BrokerCondSetShape` | pkg/apis/eventing/v1alpha1/broker_types.go:69-75 | Ready over exactly six dependents: Ingress, TriggerChannel, IngressChannel, Filter, Addressable, IngressSubscription |
| `Broker.IngressSubscriptionCompletesBroker` | pkg/apis/eventing/v1alpha1/broker_types.go:147-149 | with the other five dependents True, marking the ingress subscription ready makes the Broker Ready |
| `Broker.BrokerStatus.GetCondition` | pkg/apis/eventing/v1alpha1/broker_types.go:108-111 | the stored condition of the type, or none |
| `Broker.BrokerStatus.IsReady` | pkg/apis/eventing/v1alpha1/broker_types.go:113-116 | the manager's IsHappy: Ready is True |
| `Broker.BrokerStatus.InitializeConditions` | pkg/apis/eventing/v1alpha1/broker_types.go:118-121 | initialises the Broker set's types |
| `Broker.BrokerStatus.MarkReady` | pkg/apis/eventing/v1alpha1/broker_types.go:123-157 | MarkTrue of one Broker dependent |
| `Broker.BrokerStatus.MarkFailed` | pkg/apis/eventing/v1alpha1/broker_types.go:127-161 | marks the dependent False with reason "failed" and the error's text; afterwards Ready is False |
| `Broker.BrokerStatus.MarkIngressReady` | pkg/apis/eventing/v1alpha1/broker_types.go:123-125 | MarkTrue of IngressReady |
| `Broker.BrokerStatus.MarkIngressFailed` | pkg/apis/eventing/v1alpha1/broker_types.go:127-129 | IngressReady False, reason "failed"; Broker not ready |
| `Broker.BrokerStatus.MarkTriggerChannelReady` | pkg/apis/eventing/v1alpha1/broker_types.go:131-133 | MarkTrue of TriggerChannelReady |
| `Broker.BrokerStatus.MarkTriggerChannelFailed` | pkg/apis/eventing/v1alpha1/broker_types.go:135-137 | TriggerChannelReady False, reason "failed"; Broker not ready |
| `Broker.BrokerStatus.MarkIngressChannelReady` | pkg/apis/eventing/v1alpha1/broker_types.go:139-141 | MarkTrue of IngressChannelReady |
| `Broker.BrokerStatus.MarkIngressChannelFailed` | pkg/apis/eventing/v1alpha1/broker_types.go:143-145 | IngressChannelReady False, reason "failed"; Broker not ready |
| `Broker.BrokerStatus.MarkIngressSubscriptionReady` | pkg/apis/eventing/v1alpha1/broker_types.go:147-149 | MarkTrue of IngressSubscriptionReady |
| `Broker.BrokerStatus.MarkIngressSubscriptionFailed` | pkg/apis/eventing/v1alpha1/broker_types.go:151-153 | IngressSubscriptionReady False, reason "failed"; Broker not ready |
| `Broker.BrokerStatus.MarkFilterReady` | pkg/apis/eventing/v1alpha1/broker_types.go:155-157 | MarkTrue of FilterReady |
| `Broker.BrokerStatus.MarkFilterFailed` | pkg/apis/eventing/v1alpha1/broker_types.go:159-161 | FilterReady False, reason "failed"; Broker not ready |
| `Broker.BrokerStatus.SetAddress` | pkg/apis/eventing/v1alpha1/broker_types.go:163-172 | always stores the hostname; non-empty marks Addressable True; empty marks it False with "emptyHostname" and "hostname is the empty string", and Ready becomes False |
| `Broker.BrokerStatus.MarkFailedWith` | pkg/apis/eventing/v1alpha1/broker_types.go:170 | marks a dependent False with the given reason and message; Ready becomes False |
| `Broker.ReadyBrokerStatus` | pkg/apis/eventing/v1alpha1/trigger_lifecycle_test.go:243 | initialising, then marking all six dependents ready, gives a Ready Broker |
| `Broker.UnknownBrokerStatus` | pkg/apis/eventing/v1alpha1/trigger_lifecycle_test.go:253 | a Broker that has only been initialised has Ready Unknown |
| `Broker.FalseBrokerStatus` | pkg/apis/eventing/v1alpha1/trigger_lifecycle_test.go:263 | a Broker whose ingress failed has Ready False |
| `Integration.IntegrationCondSetShape` | pkg/apis/sources/v1alpha1/integration_lifecycle.go:36-39 | the only dependent is ContainerSourceReady; SinkProvided is not registered |
| `Integration.PropagationMirrorsChildReadiness` | pkg/apis/sources/v1alpha1/integration_lifecycle.go:87-99 | after the propagation mark, Ready has the child's Ready status, absent counting as Unknown |
| `Integration.SinkProvidedDoesNotGateReadiness` | pkg/apis/sources/v1alpha1/integration_lifecycle.go:36-39 | writing SinkProvided stores it and leaves the Ready condition as it was |
| `Integration.IntegrationSourceStatus.GetCondition` | pkg/apis/sources/v1alpha1/integration_lifecycle.go:47-49 | the stored condition of the type, or none |
| `Integration.IntegrationSourceStatus.GetTopLevelCondition` | pkg/apis/sources/v1alpha1/integration_lifecycle.go:52-54 | the stored Ready condition |
| `Integration.IntegrationSourceStatus.IsReady` | pkg/apis/sources/v1alpha1/integration_lifecycle.go:57-59 | Ready is True |
| `Integration.IntegrationSourceStatus.InitializeConditions` | pkg/apis/sources/v1alpha1/integration_lifecycle.go:62-64 | initialises Ready and ContainerSourceReady |
| `Integration.IntegrationSourceStatus.MarkSink` | pkg/apis/sources/v1alpha1/integration_lifecycle.go:66-73 | stores the URI; a non-empty printed URI marks SinkProvided True, an empty one False with "SinkEmpty"; the Ready condition is unchanged |
| `Integration.IntegrationSourceStatus.MarkNoSink` | pkg/apis/sources/v1alpha1/integration_lifecycle.go:75-77 | SinkProvided False with the caller's reason and message; the Ready condition is unchanged |
| `Integration.IntegrationSourceStatus.PropagateContainerSourcueStatus` | pkg/apis/sources/v1alpha1/integration_lifecycle.go:79-103 | keeps conditions and observed generation across the copy; takes annotations, sink URI, CloudEvent attributes and auth from the child; marks the mirrored child Ready, so Ready equals the child's Ready status |
| `Integration.IntegrationSourceStatus.RecordChildReadiness` | pkg/apis/sources/v1alpha1/integration_lifecycle.go:88-99 | each arm of the switch marks ContainerSourceReady with the mirrored condition, and Ready takes the child's status |
| `Trigger.TriggerCondSetShape` | pkg/apis/eventing/v1alpha1/trigger_lifecycle_test.go:135-150 | Ready over the four dependents Broker, Subscribed, Dependency and SubscriberResolved, Ready not among them |
| `Trigger.TriggerTypeOrder` | pkg/apis/eventing/v1alpha1/trigger_lifecycle_test.go:135-150 | by type, Broker < Dependency < Ready < Subscribed < SubscriberResolved |
| `Trigger.TriggerConditionsSorted` | pkg/apis/eventing/v1alpha1/trigger_lifecycle_test.go:135-150 | the five conditions in the test's order, whatever their statuses, form a sorted list |
| `Trigger.TriggerConditionsMembers` | pkg/apis/eventing/v1alpha1/trigger_lifecycle_test.go:135-150 | those five conditions are exactly one per registered Trigger type |
| `Trigger.TriggerInitializeFromEmpty` | pkg/apis/eventing/v1alpha1/trigger_lifecycle_test.go:130-153 | the "empty" case: initialising an empty Trigger status gives exactly the test's list of five Unknown conditions, in its order |
| `Trigger.TriggerAggregate` | pkg/apis/eventing/v1alpha1/trigger_lifecycle_test.go:242-335 | the Trigger's top-level status is the verdict over its four dependents |
| `Trigger.TriggerStatus.GetCondition` | pkg/apis/eventing/v1alpha1/trigger_lifecycle_test.go:115-121 | the stored condition of the type, or none |
| `Trigger.TriggerStatus.GetTopLevelCondition` | pkg/apis/eventing/v1alpha1/trigger_lifecycle_test.go:363 | the stored Ready condition |
| `Trigger.TriggerStatus.IsReady` | pkg/apis/eventing/v1alpha1/trigger_lifecycle_test.go:363-366 | Ready is True |
| `Trigger.TriggerStatus.InitializeConditions` | pkg/apis/eventing/v1alpha1/trigger_lifecycle_test.go:221 | initialises the Trigger set's types |
| `Trigger.TriggerStatus.PropagateBrokerStatus` | pkg/apis/eventing/v1alpha1/trigger_lifecycle_test.go:339-341 | marks the Broker dependent with the Broker's mirrored Ready; the dependent takes the Broker's Ready status |
| `Trigger.TriggerStatus.PropagateSubscriptionStatus` | pkg/apis/eventing/v1alpha1/trigger_lifecycle_test.go:344-346 | marks Subscribed with the Subscription's mirrored Ready; Subscribed takes its status |
| `Trigger.TriggerStatus.MarkSubscriptionNotOwned` | pkg/apis/eventing/v1alpha1/trigger_lifecycle_test.go:342-343 | Subscribed becomes False |
| `Trigger.TriggerStatus.MarkSubscriberResolvedSucceeded` | pkg/apis/eventing/v1alpha1/trigger_lifecycle_test.go:347-348 | SubscriberResolved becomes True |
| `Trigger.TriggerStatus.MarkSubscriberResolvedFailed` | pkg/apis/eventing/v1alpha1/trigger_lifecycle_test.go:349-350 | SubscriberResolved becomes False with the given reason and message |
| `Trigger.TriggerStatus.MarkDependencySucceeded` | pkg/apis/eventing/v1alpha1/trigger_lifecycle_test.go:352-356 | Dependency becomes True |
| `Trigger.TriggerStatus.MarkDependencyUnknown` | pkg/apis/eventing/v1alpha1/trigger_lifecycle_test.go:357-358 | Dependency becomes Unknown with the given reason and message |
| `Trigger.TriggerStatus.MarkDependencyFailed` | pkg/apis/eventing/v1alpha1/trigger_lifecycle_test.go:359-360 | Dependency becomes False with the given reason and message |
| `Trigger.BrokerStep` | pkg/apis/eventing/v1alpha1/trigger_lifecycle_test.go:339-341 | sets Broker's status from the Broker, if there is one; the other three dependents keep their statuses |
| `Trigger.SubscriptionStep` | pkg/apis/eventing/v1alpha1/trigger_lifecycle_test.go:342-346 | not owned gives Subscribed False; otherwise it takes the Subscription's status, if there is one; the other dependents are kept |
| `Trigger.SubscriberStep` | pkg/apis/eventing/v1alpha1/trigger_lifecycle_test.go:347-351 | SubscriberResolved True or False as resolved; the other dependents are kept |
| `Trigger.DependencyStep` | pkg/apis/eventing/v1alpha1/trigger_lifecycle_test.go:352-362 | Dependency True without annotation or with True, Unknown for Unknown, False otherwise; Ready is then stored and is the aggregate |
| `Trigger.ConditionStatusCase` | pkg/apis/eventing/v1alpha1/trigger_lifecycle_test.go:336-368 | the driver's top-level status is the verdict over what each step records |
| `Trigger.SubscriptionStatusWith` | pkg/apis/eventing/v1alpha1/trigger_lifecycle_test.go:247 | a Subscription status whose Ready has the given status |
| `Trigger.ConditionStatusTable` | pkg/apis/eventing/v1alpha1/trigger_lifecycle_test.go:241-335 | the nine cases give True, Unknown, False, False, False, False, Unknown, False, False, as the test wants |
| `Trigger.GetConditionTable` | pkg/apis/eventing/v1alpha1/trigger_lifecycle_test.go:63-113 | a lone Ready is found; Subscribed is found among four; "foo" is absent |
| `Trigger.InitializeConditionsCase` | pkg/apis/eventing/v1alpha1/trigger_lifecycle_test.go:155-216 | a stored condition survives initialisation unchanged; every other registered type is added as Unknown; nothing else is added; the list is sorted |
| `Trigger.InitializeConditionsTable` | pkg/apis/eventing/v1alpha1/trigger_lifecycle_test.go:155-216 | the "one false" and "one true" cases, as whole lists: Broker False or Subscribed True is kept, the four other types come out Unknown, and the five are in the test's order |
| `Trigger.OneFalseMembers` | pkg/apis/eventing/v1alpha1/trigger_lifecycle_test.go:164-185 | the "one false" expected list holds Broker False and an Unknown condition for each other registered type, nothing else |
| `Trigger.OneTrueMembers` | pkg/apis/eventing/v1alpha1/trigger_lifecycle_test.go:196-216 | the "one true" expected list holds Subscribed True and an Unknown condition for each other registered type, nothing else |
| `EventTypeDefinition.EventTypeInitializeFromEmpty` | pkg/apis/eventing/v1alpha1/eventtypedefinition_lifecycle.go:5 | the zero-dependent set initialises to the single Ready condition, Unknown |
| `EventTypeDefinition.EventTypeAggregateIsTrue` | pkg/apis/eventing/v1alpha1/eventtypedefinition_lifecycle.go:5 | with no dependents the aggregate is True |
| `EventTypeDefinition.EventTypeMarkLeavesReady` | pkg/apis/eventing/v1alpha1/eventtypedefinition_lifecycle.go:5-8 | marking any other type leaves Ready's status unchanged |
| `Subscription.Under` | pkg/apis/messaging/v1beta1/subscription_validation.go:43 | a path moved under a field starts with that field's name |
| `Subscription.ViaField` | pkg/apis/messaging/v1beta1/subscription_validation.go:31 | every error keeps its message and details, and each of its paths moves under the field |
| `Subscription.ViaFieldIsUnder` | pkg/apis/messaging/v1beta1/subscription_validation.go:40-43 | after ViaField every path lies under the field |
| `Subscription.NilOrEmpty` | pkg/apis/messaging/v1beta1/subscription_validation.go:70-72 | no contract of its own: isDestinationNilOrEmpty, absent or equal to the zero Destination; `Subscription.EmptyDestinationNotValidated` and `Subscription.ValidSpecIff` state its role |
| `Subscription.ChannelErrors` | pkg/apis/messaging/v1beta1/subscription_validation.go:40-45 | no contract of its own: a nil channel contributes nothing; `Subscription.ValidateSpecPaths` proves its errors lie under `channel` |
| `Subscription.MissingErrors` | pkg/apis/messaging/v1beta1/subscription_validation.go:47-53 | no contract of its own: the missing-field error exactly when subscriber and reply are both nil or empty; `Subscription.ValidSpecIff` and `Subscription.ValidateSpecAccumulates` state its part in the result |
| `Subscription.DestinationErrors` | pkg/apis/messaging/v1beta1/subscription_validation.go:55-65 | no contract of its own: a nil or empty destination is not validated; `Subscription.ValidateSpecPaths` proves its errors lie under the field's name |
| `Subscription.ValidateSpec` | pkg/apis/messaging/v1beta1/subscription_validation.go:34-68 | with no channel, only the missing-field and destination checks contribute; with subscriber and reply both nil or empty, the missing-field error is there |
| `Subscription.Validate` | pkg/apis/messaging/v1beta1/subscription_validation.go:29-32 | one error per error of the spec, in the same order, with the same message and details, and every path `p` moved to `spec.p` (`spec` for an empty path) |
| `Subscription.ValidSpecIff` | pkg/apis/messaging/v1beta1/subscription_validation.go:38-67 | no error iff the channel (if any) is valid, at least one of subscriber and reply is given, and each one given is valid |
| `Subscription.ValidateSpecAccumulates` | pkg/apis/messaging/v1beta1/subscription_validation.go:38-67 | every check's errors appear in the result whatever the other checks found; the result has exactly their combined length |
| `Subscription.ValidateSpecPaths` | pkg/apis/messaging/v1beta1/subscription_validation.go:40-65 | channel errors lie under `channel`, subscriber errors under `subscriber`, reply errors under `reply` |
| `Subscription.EmptyDestinationNotValidated` | pkg/apis/messaging/v1beta1/subscription_validation.go:47-65 | an empty subscriber with no reply is not validated; it raises only the missing-field error |
| `Subscription.ImmutablePart` | pkg/apis/messaging/v1beta1/subscription_validation.go:80 | the spec with subscriber and reply blanked and the rest kept |
| `Subscription.CheckImmutableFields` | pkg/apis/messaging/v1beta1/subscription_validation.go:74-95 | no original gives no error; a failed diff gives "Failed to diff Subscription" with the diff's error as details; a non-empty diff gives "Immutable fields changed (-old +new)" with the diff as details; an empty one gives none; every error is at `spec` |
| `Subscription.MutableFieldsMayChange` | pkg/apis/messaging/v1beta1/subscription_validation.go:79-80 | an update changing only subscriber and reply passes |
| `Subscription.ImmutableFieldsMayNotChange` | pkg/apis/messaging/v1beta1/subscription_validation.go:87-92 | any other change gives "Immutable fields changed (-old +new)" at `spec` with the diff as details |
| `Registry.AttributeAt` | pkg/registry/registry.go:86-87 | a missing key reads as the zero attribute, whose value is nil |
| `Registry.Lower` | pkg/registry/registry.go:81 | same length; each ASCII capital becomes its small letter and every other character is kept |
| `Registry.LowerIsLowerCase` | pkg/registry/registry.go:81 | lower-casing leaves no capital and is idempotent |
| `Registry.EventTypeName` | pkg/registry/registry.go:81 | the lower-cased group ID, "-", then the lower-cased definition ID |
| `Registry.EventTypeNameIsLowerCase` | pkg/registry/registry.go:81 | the EventType name has no capital letter |
| `Registry.EventTypeNamesCollideIff` | pkg/registry/registry.go:81 | within a group, two definitions get the same name iff their IDs agree once lower-cased |
| `Registry.ReadURLValue` | pkg/registry/registry.go:100-106 | panics exactly when the value is not a string; otherwise the parser's result, None when parsing fails |
| `Registry.Panics` | pkg/registry/registry.go:86-87 | no contract of its own: the `source` or `dataschema` attribute is missing or not a string; `Registry.ReadURLValue` and `Registry.MakeEventType` prove that exactly these definitions panic |
| `Registry.MakeEventType` | pkg/registry/registry.go:79-91 | none exactly when reading an attribute panics; otherwise name, namespace "knative-eventing", type the unlowered ID, broker "", description copied, source and schema read from the attributes |
| `Registry.FirstPanic` | pkg/registry/registry.go:77 | the first definition whose record panics, or the count when none does |
| `Registry.Failures` | pkg/registry/registry.go:92-95 | no contract of its own: the number of creates that failed; `Registry.FailureLog` proves the log has that many lines |
| `Registry.LogLine` | pkg/registry/registry.go:93-95 | one line "Got error: " + e for a create that failed with e, none for one that succeeded |
| `Registry.FailureLog` | pkg/registry/registry.go:92-95 | exactly one line per failed create, so none when every create succeeds |
| `Registry.FailureLogHasEveryFailure` | pkg/registry/registry.go:92-95 | each create that fails with error e leaves the line "Got error: " + e in the log |
| `Registry.FailureLogOnlyFailures` | pkg/registry/registry.go:92-95 | every line of the log is "Got error: " + e for some create that failed with error e |
| `Registry.FailureLogSnoc` | pkg/registry/registry.go:77-96 | the log grows in create order: one more create appends its own line, if any, at the end |
| `Registry.Receive` | pkg/registry/registry.go:67-98 | undecodable data logs "Got error while unmarshalling data: " + the error and gives a 400 with no creates; otherwise one record per definition, in order, up to the first panic; no reply unless a panic; each failed create is logged and the loop continues |
| `Encoding.Version` | vendor/github.com/cloudevents/sdk-go/pkg/cloudevents/transport/http/encoding.go:47-76 | no contract of its own: `Encoding.VersionMatchesReference` proves it is the minor version the declaration order implies, `Encoding.UnknownValues` that it is "Unknown" outside 0..7 |
| `Encoding.String` | vendor/github.com/cloudevents/sdk-go/pkg/cloudevents/transport/http/encoding.go:17-45 | no contract of its own: `Encoding.StringIsFamilyAndVersion` proves it is the family title, " Encoding " and Version, `Encoding.StringInjective` that it tells the known encodings apart |
| `Encoding.Codec` | vendor/github.com/cloudevents/sdk-go/pkg/cloudevents/transport/http/encoding.go:78-107 | no contract of its own, as written: `Encoding.CodecIsFamilyAndVersion` proves it is family "/" version except for BinaryV02, `Encoding.CodecCollision` that BinaryV02 and BinaryV03 collide |
| `Encoding.ConstantsAreConsecutive` | vendor/github.com/cloudevents/sdk-go/pkg/cloudevents/transport/http/encoding.go:5-15 | Default to Unknown are 0 to 8; Unknown is not a known encoding |
| `Encoding.VersionMatchesReference` | vendor/github.com/cloudevents/sdk-go/pkg/cloudevents/transport/http/encoding.go:47-71 | Version is "Default" for Default and otherwise the minor version that the declaration order implies |
| `Encoding.StringIsFamilyAndVersion` | vendor/github.com/cloudevents/sdk-go/pkg/cloudevents/transport/http/encoding.go:17-41 | String is the family title, " Encoding ", then Version |
| `Encoding.UnknownValues` | vendor/github.com/cloudevents/sdk-go/pkg/cloudevents/transport/http/encoding.go:42-44 | any value outside 0..7 gives "Unknown Encoding", "Unknown" and "unknown" |
| `Encoding.CodecIsFamilyAndVersion` | vendor/github.com/cloudevents/sdk-go/pkg/cloudevents/transport/http/encoding.go:84-101 | every known non-Default encoding except BinaryV02 has codec family "/" version |
| `Encoding.StringInjective` | vendor/github.com/cloudevents/sdk-go/pkg/cloudevents/transport/http/encoding.go:17-41 | the display strings of the eight known encodings are pairwise distinct |
| `Encoding.StringMarks` | vendor/github.com/cloudevents/sdk-go/pkg/cloudevents/transport/http/encoding.go:17-41 | the second and last letters of each known display string |
| `Encoding.CodecCollision` | vendor/github.com/cloudevents/sdk-go/pkg/cloudevents/transport/http/encoding.go:90-97 | BinaryV02 and BinaryV03 share "binary/v0.3" although their versions differ |
| `Encoding.CodecIntendedIsFamilyAndVersion` | vendor/github.com/cloudevents/sdk-go/pkg/cloudevents/transport/http/encoding.go:84-101 | with BinaryV02 corrected, every known non-Default codec is family "/" version |
| `Encoding.CodecIntendedInjective` | vendor/github.com/cloudevents/sdk-go/pkg/cloudevents/transport/http/encoding.go:80-107 | the corrected codec names tell the known encodings apart |
| `Filter.FilterLabels` | pkg/reconciler/v1alpha1/broker/resources/filter.go:113-118 | no contract of its own: `Filter.FilterLabelsShape` proves it has exactly the broker and brokerRole labels |
| `Filter.BrokerControllerRef` | pkg/reconciler/v1alpha1/broker/resources/filter.go:42-48 | no contract of its own: `Filter.FilterObjectsOwnedByBroker` proves it names the Broker as controlling owner |
| `Filter.MakeFilterDeployment` | pkg/reconciler/v1alpha1/broker/resources/filter.go:37-84 | no contract of its own: `Filter.FilterObjectsNamed`, `Filter.DeploymentSelectsItsPods`, `Filter.FilterPodSpec` and `Filter.FilterObjectsOwnedByBroker` state its fields |
| `Filter.MakeFilterService` | pkg/reconciler/v1alpha1/broker/resources/filter.go:86-111 | no contract of its own: `Filter.FilterObjectsNamed`, `Filter.ServiceSelectsFilterPodsIff`, `Filter.FilterServicePorts` and `Filter.FilterObjectsOwnedByBroker` state its fields |
| `Filter.FilterLabelsShape` | pkg/reconciler/v1alpha1/broker/resources/filter.go:113-118 | exactly two labels: broker to the broker's name, brokerRole to "filter" |
| `Filter.FilterObjectsNamed` | pkg/reconciler/v1alpha1/broker/resources/filter.go:40-41 | Deployment and Service are both named broker name + "-broker-filter", in the broker's namespace |
| `Filter.DeploymentSelectsItsPods` | pkg/reconciler/v1alpha1/broker/resources/filter.go:52-57 | the Deployment's selector equals its pod template labels |
| `Filter.ServiceSelectsFilterPodsIff` | pkg/reconciler/v1alpha1/broker/resources/filter.go:101 | a broker's Service selects a broker's filter pods iff the two brokers have the same name |
| `Filter.FilterPodSpec` | pkg/reconciler/v1alpha1/broker/resources/filter.go:62-79 | one container "filter" with the image; the pod uses the service account; the single env var NAMESPACE comes from metadata.namespace |
| `Filter.FilterServicePorts` | pkg/reconciler/v1alpha1/broker/resources/filter.go:102-108 | one port "http", 80 to 8080 |
| `Filter.FilterObjectsOwnedByBroker` | pkg/reconciler/v1alpha1/broker/resources/filter.go:42-48 | each object has one owner reference: the broker, as controller, with kind "Broker" |

## Left out

- The condition manager lives in a knative library that is not part of this
  model. Only what the call sites and tests here fix is modelled:
  - lookup by type;
  - initialisation fills only missing types, with Unknown;
  - the aggregate's True/False/Unknown rule;
  - unregistered types do not gate readiness.
- `Conditions.Aggregate`: the reason and message it gives the top-level
  condition are a model choice (the first False dependent's, else the
  first non-True dependent's) and no contract constrains them.
- `Conditions.SetCondition`: knative's write also changes nothing when any
  stored condition of the written type, not only a lone one, equals the
  new condition. The model leaves the list alone only when the new
  condition is the one condition of its type. Go's sort is not stable, so
  the order of two conditions of one repeated type after a write is
  unspecified there; the model keeps their stored order.
- The manager's other rules are not modelled:
  - a MarkTrue that sets Ready only once all dependents are True;
  - an initialisation that sets dependents True when Ready is already True.
  The model recomputes Ready from the dependents after every dependent
  mark, and initialisation only writes Unknown.
- `lastTransitionTime` (a wall clock) and `Severity` are not modelled.
- Messages built with a format string are opaque strings.
- A Go condition status other than True, False or Unknown cannot be
  written, because the status type has three values. So the default branch
  of the propagation switch at integration_lifecycle.go:97-98 is not a
  separate case.
- `Integration.IntegrationSourceStatus.RecordChildReadiness`: the four-way
  switch is one mark of the condition `Conditions.Mirrored` builds. Each
  MarkTrue/MarkFalse/MarkUnknown arm stores that same condition.
- `Trigger`: pkg/apis/eventing/v1alpha1/trigger_lifecycle.go is not part
  of this model. Its names come from the test: the four dependents Broker,
  Subscribed, Dependency and SubscriberResolved. Its propagation follows
  the mirroring rule of integration_lifecycle.go, as does the not-owned
  reason "SubscriptionNotOwned". The Subscription's status is a status with
  only a Ready condition.
- The test helper behind `TestHelper.ReadyBrokerStatus()` and the other
  `TestHelper` calls is not part of this model. `Broker.ReadyBrokerStatus`,
  `Broker.UnknownBrokerStatus`, `Broker.FalseBrokerStatus` and
  `Trigger.SubscriptionStatusWith` build statuses that have the Ready
  status each helper's name promises.
- The test's comparison ignores every field but type and status; the
  expected lists are stated with empty reasons and messages, which is what
  initialisation writes. The virtual-service and Kubernetes-service flags of the
  test are not read by its driver, so they are not modelled.
- `Subscription.ViaField`: knative's path flattening also splits dotted
  parts and attaches `[index]` parts without a dot. Here a path is joined
  with a dot, and an empty path becomes the field's name.
- `Subscription.ValidateSpec`: knative's `Also` merges errors and sorts
  them when printing. Here errors are concatenated in check order. The
  properties are stated by membership and length, except
  `Subscription.EmptyDestinationNotValidated`.
- The Destination and reference validators, the `DeepEqual` used for the
  empty Destination and the spec diff are parameters or plain equality.
  The context handed to the validators is not modelled.
- `Registry.Lower`: Go's `strings.ToLower` lower-cases all of Unicode.
  The model lower-cases ASCII letters only.
- `Registry.Receive`: decoding the event's data, URL parsing and Create are
  parameters. The model has no handler, client start-up or HTTP receiver
  (`NewHandler`, `Start`). A panic is an outcome that ends the loop; the
  runtime's recovery is not modelled. `create` is a function of the record
  alone, so two equal records in one group get the same outcome; a cluster
  that refuses the second Create of a name with AlreadyExists is not
  modelled.
- The observability observer (timers, float latencies, tracing), the
  registry's process entry point and the registry controller stub are not
  modelled.
- The Broker and BrokerList schema types and the interface assertions of
  broker_types.go are not modelled.
- `Filter`: the objects are reduced to the fields the builders set. The
  group/version of the owner reference is taken as
  eventing.knative.dev/v1alpha1.

## Findings

| source | as written | input that shows it | evidently intended | confidence | as-written member | corrected member |
|---|---|---|---|---|---|---|
| vendor/github.com/cloudevents/sdk-go/pkg/cloudevents/transport/http/encoding.go:90-91 | `Codec(BinaryV02)` returns "binary/v0.3" | BinaryV02 (3): its codec equals BinaryV03's, while Version says "v0.2" | "binary/v0.2", matching the family "/" version pattern of every other codec | medium, not executed | `Encoding.CodecCollision` | `Encoding.CodecIntendedInjective` |
