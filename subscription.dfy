/**
 * Validation of a Subscription: the spec validator, which accumulates one
 * error list from independent checks, and the immutability check, which
 * compares an update against the original while ignoring the two mutable
 * fields, subscriber and reply.
 *
 * Field errors are a list of (message, paths, details) records; "no error"
 * is the empty list.  The validators of the referenced objects and the diff
 * of two specs are defined outside this component, so they are parameters.
 */
module Subscription {
  import opened Wrappers

  datatype FieldError = FieldError(message: string, paths: seq<string>, details: string)

  /** A path written under the field `name`: `name` itself for an empty path, `name.p` otherwise. */
  function Under(name: string, p: string): (r: string)
    ensures |r| >= |name| && r[..|name|] == name
    ensures p != "" ==> r == name + "." + p
  {
    if p == "" then name else name + "." + p
  }

  /** ViaField: every path of every error moves under the field `name`. */
  function ViaField(errs: seq<FieldError>, name: string): (r: seq<FieldError>)
    ensures |r| == |errs|
    ensures forall i :: 0 <= i < |errs| ==>
      r[i].message == errs[i].message && r[i].details == errs[i].details &&
      |r[i].paths| == |errs[i].paths| &&
      forall j :: 0 <= j < |errs[i].paths| ==> r[i].paths[j] == Under(name, errs[i].paths[j])
  {
    if |errs| == 0 then []
    else
      var e := errs[0];
      [FieldError(e.message, seq(|e.paths|, j requires 0 <= j < |e.paths| => Under(name, e.paths[j])), e.details)]
        + ViaField(errs[1..], name)
  }

  /** Every path of every error lies under the field `name`. */
  predicate AllUnder(errs: seq<FieldError>, name: string)
  {
    forall i, j :: 0 <= i < |errs| && 0 <= j < |errs[i].paths| ==>
      |errs[i].paths[j]| >= |name| && errs[i].paths[j][..|name|] == name
  }

  lemma ViaFieldIsUnder(errs: seq<FieldError>, name: string)
    ensures AllUnder(ViaField(errs, name), name)
  {
    var r := ViaField(errs, name);
    forall i, j | 0 <= i < |r| && 0 <= j < |r[i].paths|
      ensures |r[i].paths[j]| >= |name| && r[i].paths[j][..|name|] == name
    {
      assert r[i].paths[j] == Under(name, errs[i].paths[j]);
    }
  }

  /** A reference to an object by kind, namespace and name, as a channel is given. */
  datatype KReference = KReference(kind: string, namespace: string, name: string, apiVersion: string)

  /** Where events go: an object reference, a URI, or both. */
  datatype Destination = Destination(ref: Option<KReference>, uri: Option<string>)

  /** The Destination with every field at its zero value. */
  const EmptyDestination := Destination(None, None)

  /** Delivery options; their content plays no part here beyond being compared. */
  datatype DeliverySpec = DeliverySpec(deadLetterSink: Option<Destination>, retry: Option<int>)

  datatype SubscriptionSpec = SubscriptionSpec(
    channel: Option<KReference>,
    subscriber: Option<Destination>,
    reply: Option<Destination>,
    delivery: Option<DeliverySpec>)

  datatype Subscription = Subscription(name: string, namespace: string, spec: SubscriptionSpec)

  /** isDestinationNilOrEmpty: absent, or present and equal to the zero Destination. */
  predicate NilOrEmpty(d: Option<Destination>)
  {
    d == None || d == Some(EmptyDestination)
  }

  const MissingFieldMessage := "missing field(s)"
  const MissingDestinationDetails := "the Subscription must reference at least one of (reply or a subscriber)"

  /** The error raised when neither a subscriber nor a reply is given. */
  const MissingDestination := FieldError(MissingFieldMessage, ["reply", "subscriber"], MissingDestinationDetails)

  /** The channel's errors under `channel`; a nil channel contributes none. */
  function ChannelErrors(spec: SubscriptionSpec, checkRef: KReference -> seq<FieldError>): seq<FieldError>
  {
    if spec.channel.Some? then ViaField(checkRef(spec.channel.value), "channel") else []
  }

  /** The missing-destination error, raised only when both subscriber and reply are nil or empty. */
  function MissingErrors(spec: SubscriptionSpec): seq<FieldError>
  {
    if NilOrEmpty(spec.subscriber) && NilOrEmpty(spec.reply) then [MissingDestination] else []
  }

  /** The errors of a destination that is present and non-empty, under `name`. */
  function DestinationErrors(d: Option<Destination>, name: string, checkDest: Destination -> seq<FieldError>): seq<FieldError>
  {
    if !NilOrEmpty(d) then ViaField(checkDest(d.value), name) else []
  }

  /**
   * SubscriptionSpec.Validate: the checks run one after the other and each
   * appends its errors; none stops the others.  `checkRef` and `checkDest`
   * are the reference and destination validators.
   */
  function ValidateSpec(spec: SubscriptionSpec, checkRef: KReference -> seq<FieldError>,
                        checkDest: Destination -> seq<FieldError>): (r: seq<FieldError>)
    ensures spec.channel.None? ==> forall e :: e in r ==> e in MissingErrors(spec) + DestinationErrors(spec.subscriber, "subscriber", checkDest) + DestinationErrors(spec.reply, "reply", checkDest)
    ensures NilOrEmpty(spec.subscriber) && NilOrEmpty(spec.reply) ==> MissingDestination in r
  {
    ChannelErrors(spec, checkRef) + MissingErrors(spec)
      + DestinationErrors(spec.subscriber, "subscriber", checkDest)
      + DestinationErrors(spec.reply, "reply", checkDest)
  }

  /** Subscription.Validate: the spec's errors, each moved under `spec`. */
  function Validate(s: Subscription, checkRef: KReference -> seq<FieldError>,
                    checkDest: Destination -> seq<FieldError>): (r: seq<FieldError>)
    ensures AllUnder(r, "spec")
    ensures var e := ValidateSpec(s.spec, checkRef, checkDest);
      && |r| == |e|
      && forall i :: 0 <= i < |e| ==>
           && r[i].message == e[i].message && r[i].details == e[i].details
           && |r[i].paths| == |e[i].paths|
           && forall j :: 0 <= j < |e[i].paths| ==> r[i].paths[j] == Under("spec", e[i].paths[j])
  {
    ViaFieldIsUnder(ValidateSpec(s.spec, checkRef, checkDest), "spec");
    ViaField(ValidateSpec(s.spec, checkRef, checkDest), "spec")
  }

  /**
   * A spec is valid exactly when its channel, if any, is valid, at least one
   * of subscriber and reply is given, and each one given is valid.
   */
  lemma ValidSpecIff(spec: SubscriptionSpec, checkRef: KReference -> seq<FieldError>,
                     checkDest: Destination -> seq<FieldError>)
    ensures ValidateSpec(spec, checkRef, checkDest) == [] <==>
      && (spec.channel.Some? ==> checkRef(spec.channel.value) == [])
      && !(NilOrEmpty(spec.subscriber) && NilOrEmpty(spec.reply))
      && (!NilOrEmpty(spec.subscriber) ==> checkDest(spec.subscriber.value) == [])
      && (!NilOrEmpty(spec.reply) ==> checkDest(spec.reply.value) == [])
  {
  }

  /**
   * Accumulation: every check's errors appear in the result, under their
   * own field, whatever the other checks found.
   */
  lemma ValidateSpecAccumulates(spec: SubscriptionSpec, checkRef: KReference -> seq<FieldError>,
                                checkDest: Destination -> seq<FieldError>)
    ensures var r := ValidateSpec(spec, checkRef, checkDest);
      && (forall e :: e in ChannelErrors(spec, checkRef) ==> e in r)
      && (forall e :: e in MissingErrors(spec) ==> e in r)
      && (forall e :: e in DestinationErrors(spec.subscriber, "subscriber", checkDest) ==> e in r)
      && (forall e :: e in DestinationErrors(spec.reply, "reply", checkDest) ==> e in r)
      && |r| == |ChannelErrors(spec, checkRef)| + |MissingErrors(spec)|
                + |DestinationErrors(spec.subscriber, "subscriber", checkDest)|
                + |DestinationErrors(spec.reply, "reply", checkDest)|
  {
  }

  /** The parts are where their fields say: the channel's under `channel`, the destinations' under their names. */
  lemma ValidateSpecPaths(spec: SubscriptionSpec, checkRef: KReference -> seq<FieldError>,
                          checkDest: Destination -> seq<FieldError>)
    ensures AllUnder(ChannelErrors(spec, checkRef), "channel")
    ensures AllUnder(DestinationErrors(spec.subscriber, "subscriber", checkDest), "subscriber")
    ensures AllUnder(DestinationErrors(spec.reply, "reply", checkDest), "reply")
  {
    if spec.channel.Some? {
      ViaFieldIsUnder(checkRef(spec.channel.value), "channel");
    }
    if !NilOrEmpty(spec.subscriber) {
      ViaFieldIsUnder(checkDest(spec.subscriber.value), "subscriber");
    }
    if !NilOrEmpty(spec.reply) {
      ViaFieldIsUnder(checkDest(spec.reply.value), "reply");
    }
  }

  /** An empty destination is never handed to the destination validator. */
  lemma EmptyDestinationNotValidated(spec: SubscriptionSpec, checkRef: KReference -> seq<FieldError>,
                                     checkDest: Destination -> seq<FieldError>)
    requires spec.subscriber == Some(EmptyDestination) && spec.reply == None
    ensures ValidateSpec(spec, checkRef, checkDest) == ChannelErrors(spec, checkRef) + [MissingDestination]
  {
  }

  // ---------------------------------------------------------------------
  // Immutability
  // ---------------------------------------------------------------------

  /** What the diff of two specs gives: a failure with its error text, or the difference (empty when none). */
  datatype DiffOutcome = DiffFailed(error: string) | Diff(text: string)

  /** The spec with its mutable fields, subscriber and reply, blanked out. */
  function ImmutablePart(spec: SubscriptionSpec): (r: SubscriptionSpec)
    ensures r.channel == spec.channel && r.delivery == spec.delivery
    ensures r.subscriber == None && r.reply == None
  {
    spec.(subscriber := None, reply := None)
  }

  /** The diff of `a` and `b` ignores subscriber and reply: it is empty exactly when the rest agrees. */
  predicate DiffIgnoresMutable(shortDiff: (SubscriptionSpec, SubscriptionSpec) -> DiffOutcome,
                               a: SubscriptionSpec, b: SubscriptionSpec)
  {
    shortDiff(a, b).Diff? && (shortDiff(a, b).text == "" <==> ImmutablePart(a) == ImmutablePart(b))
  }

  const DiffFailedMessage := "Failed to diff Subscription"
  const ImmutableChangedMessage := "Immutable fields changed (-old +new)"

  /**
   * CheckImmutableFields: no original, or no difference outside the mutable
   * fields, is no error; otherwise one error at `spec` whose details are the
   * diff (or the diff's failure).
   */
  function CheckImmutableFields(s: Subscription, original: Option<Subscription>,
                                shortDiff: (SubscriptionSpec, SubscriptionSpec) -> DiffOutcome): (r: Option<FieldError>)
    ensures original.None? ==> r.None?
    ensures r.Some? ==> r.value.paths == ["spec"]
    ensures original.Some? && shortDiff(original.value.spec, s.spec).DiffFailed? ==>
      r == Some(FieldError(DiffFailedMessage, ["spec"], shortDiff(original.value.spec, s.spec).error))
    ensures original.Some? && shortDiff(original.value.spec, s.spec).Diff? ==>
      (r.None? <==> shortDiff(original.value.spec, s.spec).text == "")
    ensures original.Some? && shortDiff(original.value.spec, s.spec).Diff? && shortDiff(original.value.spec, s.spec).text != "" ==>
      r == Some(FieldError(ImmutableChangedMessage, ["spec"], shortDiff(original.value.spec, s.spec).text))
  {
    if original.None? then None
    else match shortDiff(original.value.spec, s.spec)
      case DiffFailed(err) => Some(FieldError(DiffFailedMessage, ["spec"], err))
      case Diff(d) =>
        if d != "" then Some(FieldError(ImmutableChangedMessage, ["spec"], d)) else None
  }

  /** An update that changes only subscriber and reply passes the immutability check. */
  lemma MutableFieldsMayChange(s: Subscription, original: Subscription,
                               shortDiff: (SubscriptionSpec, SubscriptionSpec) -> DiffOutcome)
    requires DiffIgnoresMutable(shortDiff, original.spec, s.spec)
    requires s.spec.channel == original.spec.channel && s.spec.delivery == original.spec.delivery
    ensures CheckImmutableFields(s, Some(original), shortDiff) == None
  {
    assert ImmutablePart(original.spec) == ImmutablePart(s.spec);
  }

  /** An update that changes anything else is refused, with the diff as details. */
  lemma ImmutableFieldsMayNotChange(s: Subscription, original: Subscription,
                                    shortDiff: (SubscriptionSpec, SubscriptionSpec) -> DiffOutcome)
    requires DiffIgnoresMutable(shortDiff, original.spec, s.spec)
    requires s.spec.channel != original.spec.channel || s.spec.delivery != original.spec.delivery
    ensures CheckImmutableFields(s, Some(original), shortDiff) ==
      Some(FieldError(ImmutableChangedMessage, ["spec"], shortDiff(original.spec, s.spec).text))
  {
    var a := ImmutablePart(original.spec);
    var b := ImmutablePart(s.spec);
    assert a != b by {
      if s.spec.channel != original.spec.channel {
        assert a.channel != b.channel;
      } else {
        assert a.delivery != b.delivery;
      }
    }
  }
}
