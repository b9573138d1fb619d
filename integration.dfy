/**
 * IntegrationSourceStatus: a source whose only registered dependent is the
 * readiness of the ContainerSource it owns.  The SinkProvided condition is
 * still written (by MarkSink and MarkNoSink) but its registration is
 * commented out in the source, so it never gates readiness.
 */
module Integration {
  import opened Wrappers
  import opened Conditions
  import opened Manager

  const SinkProvided: ConditionType := "SinkProvided"
  const ContainerSourceReady: ConditionType := "ContainerSourceReady"

  const IntegrationCondSet := ConditionSet(Ready, [ContainerSourceReady])

  /** The registered dependents are exactly ContainerSourceReady; SinkProvided is not one of them. */
  lemma IntegrationCondSetShape()
    ensures IntegrationCondSet.WellFormed() && IntegrationCondSet.happy == Ready
    ensures IntegrationCondSet.dependents == [ContainerSourceReady]
    ensures SinkProvided != Ready && SinkProvided !in IntegrationCondSet.dependents
  {
  }

  /** A resolved sink address; `text` is what the URL prints as. */
  datatype URL = URL(text: string)

  /** The printed form of a possibly absent URL: an absent one prints as the empty string. */
  function URLString(u: Option<URL>): string
  {
    if u.Some? then u.value.text else ""
  }

  /** One CloudEvent type/source pair a source announces. */
  datatype CloudEventAttributes = CloudEventAttributes(ceType: string, source: string)

  /** The service accounts a source authenticates as. */
  datatype AuthStatus = AuthStatus(serviceAccountName: Option<string>, serviceAccountNames: seq<string>)

  /** The duck-typed source status a ContainerSource reports. */
  datatype SourceStatus = SourceStatus(
    conditions: seq<Condition>,
    observedGeneration: int,
    annotations: map<string, string>,
    sinkURI: Option<URL>,
    ceAttributes: seq<CloudEventAttributes>)

  datatype ContainerSourceStatus = ContainerSourceStatus(sourceStatus: SourceStatus, auth: Option<AuthStatus>)

  /**
   * After propagation the integration source is exactly as ready as its
   * child: Ready takes the child's Ready status, and an absent child Ready
   * counts as Unknown.
   */
  lemma PropagationMirrorsChildReadiness(cs: seq<Condition>, child: seq<Condition>)
    ensures var r := Marked(IntegrationCondSet, cs, Mirrored(ContainerSourceReady, Lookup(child, Ready)));
      StatusOf(r, Ready) == StatusOf(child, Ready)
  {
    IntegrationCondSetShape();
    MarkSoleDependent(IntegrationCondSet, cs, Mirrored(ContainerSourceReady, Lookup(child, Ready)));
  }

  /** Writing SinkProvided, whatever its status, leaves the top-level condition as it was. */
  lemma SinkProvidedDoesNotGateReadiness(cs: seq<Condition>, c: Condition)
    requires c.condType == SinkProvided
    ensures Lookup(Marked(IntegrationCondSet, cs, c), Ready) == Lookup(cs, Ready)
    ensures Lookup(Marked(IntegrationCondSet, cs, c), SinkProvided) == Some(c)
  {
    IntegrationCondSetShape();
  }

  class IntegrationSourceStatus {
    /** The embedded duck-typed status: conditions, observed generation and annotations. */
    const status: Status
    var sinkURI: Option<URL>
    var ceAttributes: seq<CloudEventAttributes>
    var auth: Option<AuthStatus>

    constructor ()
      ensures fresh(status) && status.conditions == [] && status.observedGeneration == 0
      ensures status.annotations == map[] && sinkURI == None && ceAttributes == [] && auth == None
    {
      status := new Status();
      sinkURI := None;
      ceAttributes := [];
      auth := None;
    }

    method GetCondition(t: ConditionType) returns (c: Option<Condition>)
      ensures c == Lookup(status.conditions, t)
    {
      c := status.GetCondition(t);
    }

    method GetTopLevelCondition() returns (c: Option<Condition>)
      ensures c == Lookup(status.conditions, Ready)
    {
      c := status.GetTopLevelCondition(IntegrationCondSet);
    }

    method IsReady() returns (ready: bool)
      ensures ready <==> StatusOf(status.conditions, Ready) == True
    {
      ready := status.IsHappy(IntegrationCondSet);
    }

    method InitializeConditions()
      modifies status`conditions
      ensures status.conditions == InitializeAll(IntegrationCondSet.Types(), old(status.conditions))
    {
      status.InitializeConditions(IntegrationCondSet);
    }

    /**
     * Records the sink; a URL that prints non-empty marks SinkProvided True,
     * otherwise it is marked False with reason "SinkEmpty".  Readiness is
     * untouched either way.
     */
    method MarkSink(uri: Option<URL>)
      modifies this`sinkURI, status`conditions
      ensures sinkURI == uri
      ensures status.conditions ==
        if URLString(uri) != "" then Marked(IntegrationCondSet, old(status.conditions), Blank(SinkProvided, True))
        else Marked(IntegrationCondSet, old(status.conditions),
               Condition(SinkProvided, False, "SinkEmpty", "Sink has resolved to empty."))
      ensures Lookup(status.conditions, Ready) == old(Lookup(status.conditions, Ready))
    {
      sinkURI := uri;
      IntegrationCondSetShape();
      if |URLString(uri)| > 0 {
        status.MarkTrue(IntegrationCondSet, SinkProvided);
      } else {
        status.MarkFalse(IntegrationCondSet, SinkProvided, "SinkEmpty", "Sink has resolved to empty.");
      }
    }

    /** Marks SinkProvided False with the caller's reason and message; readiness is untouched. */
    method MarkNoSink(reason: string, message: string)
      modifies status`conditions
      ensures status.conditions == Marked(IntegrationCondSet, old(status.conditions), Condition(SinkProvided, False, reason, message))
      ensures Lookup(status.conditions, Ready) == old(Lookup(status.conditions, Ready))
    {
      IntegrationCondSetShape();
      status.MarkFalse(IntegrationCondSet, SinkProvided, reason, message);
    }

    /**
     * Copies the child's source status over this one except for the
     * conditions and the observed generation, records the child's Ready as
     * ContainerSourceReady, and takes over the child's auth status.
     */
    method PropagateContainerSourcueStatus(child: ContainerSourceStatus)
      modifies status`conditions, status`observedGeneration, status`annotations
      modifies this`sinkURI, this`ceAttributes, this`auth
      ensures status.observedGeneration == old(status.observedGeneration)
      ensures status.annotations == child.sourceStatus.annotations
      ensures sinkURI == child.sourceStatus.sinkURI
      ensures ceAttributes == child.sourceStatus.ceAttributes
      ensures auth == child.auth
      ensures status.conditions ==
        Marked(IntegrationCondSet, old(status.conditions),
               Mirrored(ContainerSourceReady, Lookup(child.sourceStatus.conditions, Ready)))
      ensures StatusOf(status.conditions, Ready) == StatusOf(child.sourceStatus.conditions, Ready)
    {
      CopySourceStatus(child.sourceStatus);
      RecordChildReadiness(Lookup(child.sourceStatus.conditions, Ready));
      auth := child.auth;
    }

    /** The copy of the child's source status, with this status's conditions and observed generation put back. */
    method CopySourceStatus(source: SourceStatus)
      modifies status`conditions, status`observedGeneration, status`annotations
      modifies this`sinkURI, this`ceAttributes
      ensures status.conditions == old(status.conditions)
      ensures status.observedGeneration == old(status.observedGeneration)
      ensures status.annotations == source.annotations
      ensures sinkURI == source.sinkURI
      ensures ceAttributes == source.ceAttributes
    {
      var conditions := status.conditions;
      var observedGeneration := status.observedGeneration;
      status.conditions := source.conditions;
      status.observedGeneration := source.observedGeneration;
      status.annotations := source.annotations;
      sinkURI := source.sinkURI;
      ceAttributes := source.ceAttributes;
      status.conditions := conditions;
      status.observedGeneration := observedGeneration;
    }

    /**
     * The switch on the child's Ready condition `cond`: each arm is one
     * manager mark of ContainerSourceReady, the condition Mirrored
     * names, and leaves Ready with the child's status.
     */
    method RecordChildReadiness(cond: Option<Condition>)
      modifies status`conditions
      ensures status.conditions == Marked(IntegrationCondSet, old(status.conditions), Mirrored(ContainerSourceReady, cond))
      ensures StatusOf(status.conditions, Ready) == (if cond.Some? then cond.value.status else Unknown)
    {
      IntegrationCondSetShape();
      status.Mark(IntegrationCondSet, Mirrored(ContainerSourceReady, cond));
      MarkSoleDependent(IntegrationCondSet, old(status.conditions), Mirrored(ContainerSourceReady, cond));
    }
  }
}
