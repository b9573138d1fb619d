/**
 * The event-type registry's receiver: a CloudEvent carrying a Group of
 * event definitions becomes one EventType record per definition, each
 * handed to the cluster's Create call.  Decoding the event data, parsing a
 * URL and the Create call itself are defined elsewhere, so they are
 * parameters here.
 */
module Registry {
  import opened Wrappers

  // ---------------------------------------------------------------------
  // The decoded payload
  // ---------------------------------------------------------------------

  /** A JSON attribute value: a string, or anything else (number, object, ...). */
  datatype Value = Str(s: string) | NonString

  /** One metadata attribute; `value` is None when the JSON value is null or omitted. */
  datatype Attribute = Attribute(required: bool, value: Option<Value>)

  datatype Definition = Definition(
    id: string, version: int, description: string, schemaURL: string, format: string,
    attributes: map<string, Attribute>)

  datatype Group = Group(id: string, version: int, definitions: seq<Definition>)

  /** A Go map read: a missing key gives the zero Attribute, whose value is nil. */
  function AttributeAt(m: map<string, Attribute>, key: string): (r: Attribute)
    ensures key !in m ==> r == Attribute(false, None)
    ensures key in m ==> r == m[key]
  {
    if key in m then m[key] else Attribute(false, None)
  }

  // ---------------------------------------------------------------------
  // EventType records
  // ---------------------------------------------------------------------

  /** A parsed URL, as its text. */
  datatype URL = URL(text: string)

  datatype EventTypeSpec = EventTypeSpec(
    eventType: string, source: Option<URL>, schema: Option<URL>, broker: string, description: string)

  datatype EventType = EventType(name: string, namespace: string, spec: EventTypeSpec)

  /** The namespace every EventType is created in. */
  const SystemNamespace := "knative-eventing"

  predicate IsUpper(c: char) { 'A' <= c <= 'Z' }

  /** Lower-casing, letter by letter, on the ASCII letters. */
  function Lower(s: string): (r: string)
    ensures |r| == |s|
    ensures forall i :: 0 <= i < |s| ==> r[i] == if IsUpper(s[i]) then (s[i] - 'A' + 'a') as char else s[i]
  {
    if |s| == 0 then "" else
      [if IsUpper(s[0]) then (s[0] - 'A' + 'a') as char else s[0]] + Lower(s[1..])
  }

  /** No upper-case letter in `s`. */
  predicate LowerCase(s: string)
  {
    forall i :: 0 <= i < |s| ==> !IsUpper(s[i])
  }

  lemma LowerIsLowerCase(s: string)
    ensures LowerCase(Lower(s))
    ensures Lower(Lower(s)) == Lower(s)
  {
  }

  /** The name of the EventType for definition `defId` of group `groupId`. */
  function EventTypeName(groupId: string, defId: string): (r: string)
    ensures |r| == |groupId| + 1 + |defId|
    ensures r[..|groupId|] == Lower(groupId) && r[|groupId|] == '-' && r[|groupId| + 1..] == Lower(defId)
  {
    var r := Lower(groupId) + "-" + Lower(defId);
    assert r[|groupId| + 1..] == Lower(defId);
    r
  }

  lemma LowerCaseConcat(a: string, b: string)
    requires LowerCase(a) && LowerCase(b)
    ensures LowerCase(a + b)
  {
    forall i | 0 <= i < |a + b| ensures !IsUpper((a + b)[i]) {
      if i >= |a| {
        assert (a + b)[i] == b[i - |a|];
      }
    }
  }

  /** EventType names are lower case, as cluster object names must be. */
  lemma EventTypeNameIsLowerCase(groupId: string, defId: string)
    ensures LowerCase(EventTypeName(groupId, defId))
  {
    LowerIsLowerCase(groupId);
    LowerIsLowerCase(defId);
    LowerCaseConcat(Lower(groupId), "-");
    LowerCaseConcat(Lower(groupId) + "-", Lower(defId));
  }

  /**
   * Within one group, two definitions get the same EventType name exactly
   * when their identifiers agree once lower-cased: identifiers that differ
   * only in case collide.
   */
  lemma EventTypeNamesCollideIff(groupId: string, a: string, b: string)
    ensures EventTypeName(groupId, a) == EventTypeName(groupId, b) <==> Lower(a) == Lower(b)
  {
    var ra := EventTypeName(groupId, a);
    var rb := EventTypeName(groupId, b);
    if ra == rb {
      assert Lower(a) == ra[|groupId| + 1..] == rb[|groupId| + 1..] == Lower(b);
    }
  }

  /** The outcome of reading a URL attribute: the URL (None when it does not parse), or a panic. */
  datatype URLRead = Read(url: Option<URL>) | Panicked

  /** The attribute holds a string, so the type assertion on it succeeds. */
  predicate StringValued(attr: Attribute)
  {
    attr.value.Some? && attr.value.value.Str?
  }

  /**
   * readURLValue: the attribute's value must be a string, or the type
   * assertion panics; a string is handed to the URL parser, and a parse
   * failure reads as no URL.
   */
  function ReadURLValue(attr: Attribute, parse: string -> Option<URL>): (r: URLRead)
    ensures r.Panicked? <==> !StringValued(attr)
    ensures r.Read? ==> r.url == parse(attr.value.value.s)
  {
    if StringValued(attr) then Read(parse(attr.value.value.s)) else Panicked
  }

  /** A definition whose `source` or `dataschema` attribute is missing or not a string stops the receiver. */
  predicate Panics(def: Definition)
  {
    !StringValued(AttributeAt(def.attributes, "source")) || !StringValued(AttributeAt(def.attributes, "dataschema"))
  }

  /** The EventType built for one definition of group `groupId`; None when building it panics. */
  function MakeEventType(groupId: string, def: Definition, parse: string -> Option<URL>): (r: Option<EventType>)
    ensures r.None? <==> Panics(def)
    ensures r.Some? ==> r.value.name == EventTypeName(groupId, def.id) && r.value.namespace == SystemNamespace
    ensures r.Some? ==> r.value.spec.eventType == def.id && r.value.spec.broker == ""
                        && r.value.spec.description == def.description
    ensures r.Some? ==> Read(r.value.spec.source) == ReadURLValue(AttributeAt(def.attributes, "source"), parse)
                        && Read(r.value.spec.schema) == ReadURLValue(AttributeAt(def.attributes, "dataschema"), parse)
  {
    var source := ReadURLValue(AttributeAt(def.attributes, "source"), parse);
    var schema := ReadURLValue(AttributeAt(def.attributes, "dataschema"), parse);
    if source.Panicked? || schema.Panicked? then None
    else Some(EventType(EventTypeName(groupId, def.id), SystemNamespace,
                        EventTypeSpec(def.id, source.url, schema.url, "", def.description)))
  }

  /** The index of the first definition that panics, or the number of definitions when none does. */
  function FirstPanic(defs: seq<Definition>): (k: nat)
    ensures k <= |defs|
    ensures forall i :: 0 <= i < k ==> !Panics(defs[i])
    ensures k < |defs| ==> Panics(defs[k])
  {
    if |defs| == 0 then 0
    else if Panics(defs[0]) then 0
    else 1 + FirstPanic(defs[1..])
  }

  // ---------------------------------------------------------------------
  // The receiver
  // ---------------------------------------------------------------------

  /** The event data: a decoded Group, or the decoder's error. */
  datatype Decoded = Decoded(group: Group) | Undecodable(error: string)

  /** What the receiver answers: nothing (no reply event, no error), a 400 result, or a panic. */
  datatype Outcome = NoReply | BadRequest(code: int, message: string) | Panic

  /** The line logged when the event data cannot be decoded. */
  function DecodeFailureLine(err: string): string
  {
    "Got error while unmarshalling data: " + err
  }

  /** The number of creates of `ets` that fail. */
  function Failures(ets: seq<EventType>, create: EventType -> Option<string>): nat
  {
    if |ets| == 0 then 0
    else Failures(ets[..|ets| - 1], create) + if create(ets[|ets| - 1]).Some? then 1 else 0
  }

  /** The log lines for the creates of `ets` that failed, in order. */
  function FailureLog(ets: seq<EventType>, create: EventType -> Option<string>): (r: seq<string>)
    ensures |r| == Failures(ets, create) <= |ets|
    ensures (forall i :: 0 <= i < |ets| ==> create(ets[i]).None?) ==> r == []
  {
    if |ets| == 0 then []
    else FailureLog(ets[..|ets| - 1], create) + LogLine(create(ets[|ets| - 1]))
  }

  /** Each failed create with error e leaves the line "Got error: " + e in the log. */
  lemma {:induction false} FailureLogHasEveryFailure(ets: seq<EventType>, create: EventType -> Option<string>)
    ensures forall i :: 0 <= i < |ets| && create(ets[i]).Some? ==>
      "Got error: " + create(ets[i]).value in FailureLog(ets, create)
  {
    if |ets| > 0 {
      var last := |ets| - 1;
      var prefix := ets[..last];
      FailureLogHasEveryFailure(prefix, create);
      var prev := FailureLog(prefix, create);
      var line := LogLine(create(ets[last]));
      assert FailureLog(ets, create) == prev + line;
      forall i | 0 <= i < |ets| && create(ets[i]).Some? ensures "Got error: " + create(ets[i]).value in prev + line {
        if i < last {
          assert prefix[i] == ets[i];
        } else {
          assert (prev + line)[|prev|] == line[0];
        }
      }
    }
  }

  /** Every line of the log is "Got error: " + e for some create that failed with error e. */
  lemma {:induction false} FailureLogOnlyFailures(ets: seq<EventType>, create: EventType -> Option<string>)
    ensures forall k :: 0 <= k < |FailureLog(ets, create)| ==>
      exists i :: 0 <= i < |ets| && create(ets[i]).Some? && FailureLog(ets, create)[k] == "Got error: " + create(ets[i]).value
  {
    if |ets| > 0 {
      var last := |ets| - 1;
      var prefix := ets[..last];
      FailureLogOnlyFailures(prefix, create);
      var prev := FailureLog(prefix, create);
      var line := LogLine(create(ets[last]));
      var r := FailureLog(ets, create);
      assert r == prev + line;
      forall k | 0 <= k < |r|
        ensures exists i :: 0 <= i < |ets| && create(ets[i]).Some? && r[k] == "Got error: " + create(ets[i]).value
      {
        if k < |prev| {
          assert prev[k] == FailureLog(prefix, create)[k];
          var i :| 0 <= i < |prefix| && create(prefix[i]).Some? && prev[k] == "Got error: " + create(prefix[i]).value;
          assert prefix[i] == ets[i] && r[k] == prev[k];
        } else {
          assert r[k] == line[0] && create(ets[last]).Some?;
        }
      }
    } else {
      assert FailureLog(ets, create) == [];
    }
  }

  /** The log line for one create: one line for an error, none for success. */
  function LogLine(err: Option<string>): (r: seq<string>)
    ensures |r| == if err.Some? then 1 else 0
    ensures err.Some? ==> r[0] == "Got error: " + err.value
  {
    match err
    case Some(e) => ["Got error: " + e]
    case None => []
  }

  lemma FailureLogSnoc(ets: seq<EventType>, et: EventType, create: EventType -> Option<string>)
    ensures FailureLog(ets + [et], create) == FailureLog(ets, create) + LogLine(create(et))
  {
    assert (ets + [et])[..|ets|] == ets;
  }

  /** `ets` are the EventTypes built for the first |ets| definitions of `defs`, in order. */
  predicate BuiltFrom(groupId: string, defs: seq<Definition>, parse: string -> Option<URL>, ets: seq<EventType>)
  {
    |ets| <= |defs| && forall j :: 0 <= j < |ets| ==> Some(ets[j]) == MakeEventType(groupId, defs[j], parse)
  }

  lemma BuiltFromSnoc(groupId: string, defs: seq<Definition>, parse: string -> Option<URL>,
                      ets: seq<EventType>, et: EventType)
    requires BuiltFrom(groupId, defs, parse, ets) && |ets| < |defs|
    requires Some(et) == MakeEventType(groupId, defs[|ets|], parse)
    ensures BuiltFrom(groupId, defs, parse, ets + [et])
  {
    var next := ets + [et];
    forall j | 0 <= j < |next| ensures Some(next[j]) == MakeEventType(groupId, defs[j], parse) {
      if j < |ets| {
        assert next[j] == ets[j];
      }
    }
  }

  /**
   * receive: an undecodable event is a 400; otherwise one EventType per
   * definition, in order, is handed to `create`, which answers with an error
   * or None.  A failed create is logged and the loop goes on; the reply is
   * always empty, unless building a record panics, which ends the loop.
   */
  method Receive(data: Decoded, parse: string -> Option<URL>, create: EventType -> Option<string>)
    returns (outcome: Outcome, attempted: seq<EventType>, logged: seq<string>)
    ensures data.Undecodable? ==>
      && outcome == BadRequest(400, "got error while unmarshalling data: " + data.error)
      && attempted == []
      && logged == [DecodeFailureLine(data.error)]
    ensures data.Decoded? ==>
      var defs := data.group.definitions;
      var k := FirstPanic(defs);
      && (outcome == Panic <==> k < |defs|)
      && (outcome != Panic ==> outcome == NoReply)
      && |attempted| == k
      && (forall i :: 0 <= i < k ==> Some(attempted[i]) == MakeEventType(data.group.id, defs[i], parse))
    ensures data.Decoded? ==> logged == FailureLog(attempted, create)
  {
    match data {
      case Undecodable(err) =>
        return BadRequest(400, "got error while unmarshalling data: " + err), [], [DecodeFailureLine(err)];
      case Decoded(group) =>
        attempted := [];
        logged := [];
        var defs := group.definitions;
        for i := 0 to |defs|
          invariant i <= FirstPanic(defs)
          invariant |attempted| == i
          invariant BuiltFrom(group.id, defs, parse, attempted)
          invariant logged == FailureLog(attempted, create)
        {
          var et := MakeEventType(group.id, defs[i], parse);
          if et.None? {
            return Panic, attempted, logged;
          }
          assert i < FirstPanic(defs) by {
            assert !Panics(defs[i]);
          }
          FailureLogSnoc(attempted, et.value, create);
          BuiltFromSnoc(group.id, defs, parse, attempted, et.value);
          attempted := attempted + [et.value];
          var err := create(et.value);
          if err.Some? {
            logged := logged + ["Got error: " + err.value];
          }
        }
        outcome := NoReply;
    }
  }
}
