/** The two ARMS serializers: metric event groups become measure batches,
    span event groups become one OpenTelemetry `TracesData`. The protobuf
    messages are datatypes; their wire encoding is not modelled. */
module ArmsSerializer {
  import opened Wrappers
  import opened OrderedMaps

  /** A double, carried as its IEEE-754 bit pattern and never computed with. */
  type Double = bv64

  /** The value a metric event holds; only the untyped single value is
      copied into a measure. */
  datatype MetricValue = UntypedSingleValue(value: Double) | OtherMetricValue

  /** A pipeline event. Timestamps, span kinds and nanosecond times are
      passed through unchanged. */
  datatype Event =
    | MetricEvent(timestamp: int, name: string, value: MetricValue)
    | SpanEvent(timestamp: int, traceId: string, spanId: string, parentSpanId: string,
                kind: int, startTimeNs: int, endTimeNs: int, name: string)
    | LogEvent(timestamp: int)

  /** Events of one group together with the group's tags. */
  datatype BatchedEvents = BatchedEvents(tags: OrderedMap, events: seq<Event>)

  /** The outcome of `Serialize`: the message it encodes and its result. */
  datatype Serialized<T> = Serialized(message: T, ok: bool)

  // ---------------------------------------------------------------------
  // Metrics
  // ---------------------------------------------------------------------

  datatype Unit = Count

  /** A measure; `value` is absent when the event's value is not an
      untyped single value (the protobuf field stays unset). */
  datatype Measure = Measure(name: string, valueType: string, value: Option<Double>, unit: Unit)

  datatype Measures = Measures(labels: map<string, string>, measures: seq<Measure>)

  datatype MeasureBatch = MeasureBatch(batchType: string, ip: string, time: int, version: string,
                                       pid: string, measures: seq<Measures>)

  /** The fallback for a missing tag, in the source's spelling. */
  const Unknown := "unkown"
  const SourceIpTag := "source_ip"
  const AppIdTag := "appId"

  /** The value of tag `key`, or "unkown" when the group has no such tag. */
  function TagOrUnknown(tags: OrderedMap, key: string): (v: string)
    ensures (exists i :: 0 <= i < |tags| && tags[i] == (key, v))
            || (v == Unknown && forall i :: 0 <= i < |tags| ==> tags[i].0 != key)
  {
    match Lookup(tags, key)
    case Some(v) => v
    case None => Unknown
  }

  /** `GetIpFromTags`. */
  function IpFromTags(tags: OrderedMap): (ip: string)
    ensures (exists i :: 0 <= i < |tags| && tags[i] == (SourceIpTag, ip))
            || (ip == Unknown && forall i :: 0 <= i < |tags| ==> tags[i].0 != SourceIpTag)
  {
    TagOrUnknown(tags, SourceIpTag)
  }

  /** `GetAppIdFromTags`. */
  function AppIdFromTags(tags: OrderedMap): (pid: string)
    ensures (exists i :: 0 <= i < |tags| && tags[i] == (AppIdTag, pid))
            || (pid == Unknown && forall i :: 0 <= i < |tags| ==> tags[i].0 != AppIdTag)
  {
    TagOrUnknown(tags, AppIdTag)
  }

  /** The tag lookups agree with the labels map built from the same tags. */
  lemma TagLookupAgreesWithLabels(tags: OrderedMap, key: string)
    ensures key in ToMap(tags) ==> TagOrUnknown(tags, key) == ToMap(tags)[key]
    ensures key !in ToMap(tags) ==> TagOrUnknown(tags, key) == Unknown
  {
    var v := TagOrUnknown(tags, key);
    if i :| 0 <= i < |tags| && tags[i] == (key, v) {
      ToMapAt(tags, i);
    }
  }

  /** `GetMeasureTimestamp`: the first event's timestamp, or the clock
      (`nowMillis`) when the group is empty. */
  function MeasureTimestamp(b: BatchedEvents, nowMillis: int): (t: int)
    ensures |b.events| > 0 ==> t == b.events[0].timestamp
    ensures |b.events| == 0 ==> t == nowMillis
  {
    if |b.events| > 0 then b.events[0].timestamp else nowMillis
  }

  predicate AllMetric(events: seq<Event>) {
    forall i :: 0 <= i < |events| ==> events[i].MetricEvent?
  }

  /** One event of `ConvertEventsToMeasure`; the event is cast to a metric. */
  function ConvertEvent(e: Event): (m: Measure)
    requires e.MetricEvent?
    ensures m.name == e.name && m.valueType == "" && m.unit == Count
    ensures m.value.Some? <==> e.value.UntypedSingleValue?
    ensures m.value.Some? ==> m.value.value == e.value.value
  {
    Measure(e.name, "", if e.value.UntypedSingleValue? then Some(e.value.value) else None, Count)
  }

  /** `ConvertEventsToMeasure`: one measure per event, in order. */
  function ConvertEvents(events: seq<Event>): (ms: seq<Measure>)
    requires AllMetric(events)
    ensures |ms| == |events|
    ensures forall i :: 0 <= i < |events| ==> ms[i] == ConvertEvent(events[i])
  {
    if |events| == 0 then []
    else [ConvertEvent(events[0])] + ConvertEvents(events[1..])
  }

  /** One group of `ConvertBatchedEventsListToMeasureBatch` together with
      `ConvertBatchedEventsToMeasures`. */
  function ConvertBatch(b: BatchedEvents, nowMillis: int): (mb: MeasureBatch)
    requires AllMetric(b.events)
    ensures mb.batchType == "app" && mb.version == "v1"
    ensures mb.ip == IpFromTags(b.tags) && mb.pid == AppIdFromTags(b.tags)
    ensures mb.time == MeasureTimestamp(b, nowMillis)
    ensures |mb.measures| == 1
    ensures mb.measures[0].labels == ToMap(b.tags)
    ensures |mb.measures[0].measures| == |b.events|
    ensures forall i :: 0 <= i < |b.events| ==> mb.measures[0].measures[i] == ConvertEvent(b.events[i])
  {
    MeasureBatch("app", IpFromTags(b.tags), MeasureTimestamp(b, nowMillis), "v1", AppIdFromTags(b.tags),
                 [Measures(ToMap(b.tags), ConvertEvents(b.events))])
  }

  /** All groups of all lists, in the order the serializers visit them. */
  function Flatten(v: seq<seq<BatchedEvents>>): (bs: seq<BatchedEvents>)
    ensures |bs| == TotalGroups(v)
  {
    if |v| == 0 then [] else v[0] + Flatten(v[1..])
  }

  function TotalGroups(v: seq<seq<BatchedEvents>>): nat {
    if |v| == 0 then 0 else |v[0]| + TotalGroups(v[1..])
  }

  lemma {:induction false} FlattenAppend(v: seq<seq<BatchedEvents>>, w: seq<seq<BatchedEvents>>)
    ensures Flatten(v + w) == Flatten(v) + Flatten(w)
    decreases |v|
  {
    if |v| > 0 {
      assert (v + w)[0] == v[0];
      assert (v + w)[1..] == v[1..] + w;
      FlattenAppend(v[1..], w);
    } else {
      assert v + w == w;
    }
  }

  predicate AllMetricGroups(bs: seq<BatchedEvents>) {
    forall i :: 0 <= i < |bs| ==> AllMetric(bs[i].events)
  }

  predicate AllMetricLists(v: seq<seq<BatchedEvents>>) {
    forall i :: 0 <= i < |v| ==> AllMetricGroups(v[i])
  }

  /** `ConvertBatchedEventsListToMeasureBatch`: one batch per group. */
  function ConvertList(bs: seq<BatchedEvents>, nowMillis: int): (mbs: seq<MeasureBatch>)
    requires AllMetricGroups(bs)
    ensures |mbs| == |bs|
    ensures forall i :: 0 <= i < |bs| ==> mbs[i] == ConvertBatch(bs[i], nowMillis)
  {
    if |bs| == 0 then []
    else [ConvertBatch(bs[0], nowMillis)] + ConvertList(bs[1..], nowMillis)
  }

  lemma {:induction false} FlattenAllMetric(v: seq<seq<BatchedEvents>>)
    requires AllMetricLists(v)
    ensures AllMetricGroups(Flatten(v))
    decreases |v|
  {
    if |v| > 0 {
      FlattenAllMetric(v[1..]);
      assert Flatten(v) == v[0] + Flatten(v[1..]);
      assert AllMetricGroups(v[0]);
    }
  }

  /** Converting two runs of groups at once gives the two outputs one
      after the other. */
  lemma ConvertListAppend(a: seq<BatchedEvents>, b: seq<BatchedEvents>, nowMillis: int)
    requires AllMetricGroups(a) && AllMetricGroups(b)
    ensures AllMetricGroups(a + b)
    ensures ConvertList(a + b, nowMillis) == ConvertList(a, nowMillis) + ConvertList(b, nowMillis)
  {
    assert forall i :: 0 <= i < |a + b| ==> (a + b)[i] == if i < |a| then a[i] else b[i - |a|];
  }

  /** The two nested loops convert the groups of all lists in order. */
  function ConvertLists(v: seq<seq<BatchedEvents>>, nowMillis: int): (mbs: seq<MeasureBatch>)
    requires AllMetricLists(v)
    ensures AllMetricGroups(Flatten(v))
    ensures mbs == ConvertList(Flatten(v), nowMillis)
  {
    FlattenAllMetric(v);
    if |v| == 0 then []
    else
      var head := ConvertList(v[0], nowMillis);
      var rest := ConvertLists(v[1..], nowMillis);
      assert Flatten(v) == v[0] + Flatten(v[1..]);
      ConvertListAppend(v[0], Flatten(v[1..]), nowMillis);
      head + rest
  }

  /** `ArmsMetricsEventGroupListSerializer::Serialize`: one measure batch
      per group across all lists, in input order; it always succeeds.
      Every event is cast to a metric event, so all events must be metrics. */
  function SerializeMetrics(v: seq<seq<BatchedEvents>>, nowMillis: int): (r: Serialized<seq<MeasureBatch>>)
    requires AllMetricLists(v)
    ensures r.ok
    ensures |r.message| == TotalGroups(v)
    ensures forall i :: 0 <= i < |r.message| ==>
              AllMetric(Flatten(v)[i].events) && r.message[i] == ConvertBatch(Flatten(v)[i], nowMillis)
  {
    Serialized(ConvertLists(v, nowMillis), true)
  }

  /** Serializing two runs of lists at once gives the two outputs one
      after the other. */
  lemma SerializeMetricsAppend(v: seq<seq<BatchedEvents>>, w: seq<seq<BatchedEvents>>, nowMillis: int)
    requires AllMetricLists(v) && AllMetricLists(w)
    ensures AllMetricLists(v + w)
    ensures SerializeMetrics(v + w, nowMillis).message
            == SerializeMetrics(v, nowMillis).message + SerializeMetrics(w, nowMillis).message
  {
    assert forall i :: 0 <= i < |v + w| ==> (v + w)[i] == if i < |v| then v[i] else w[i - |v|];
    FlattenAppend(v, w);
    var a := SerializeMetrics(v + w, nowMillis).message;
    var b := SerializeMetrics(v, nowMillis).message + SerializeMetrics(w, nowMillis).message;
    assert |a| == |b|;
    forall i | 0 <= i < |a| ensures a[i] == b[i] {
      if i < |Flatten(v)| {
        assert Flatten(v + w)[i] == Flatten(v)[i];
      } else {
        assert Flatten(v + w)[i] == Flatten(w)[i - |Flatten(v)|];
      }
    }
  }

  // ---------------------------------------------------------------------
  // Spans
  // ---------------------------------------------------------------------

  datatype AnyValue = StringValue(s: string)
  datatype KeyValue = KeyValue(key: string, value: AnyValue)
  datatype Resource = Resource(attributes: seq<KeyValue>)
  datatype Scope = Scope(name: string)
  datatype Span = Span(traceId: string, spanId: string, parentSpanId: string, kind: int,
                       startTimeUnixNano: int, endTimeUnixNano: int, name: string,
                       attributes: seq<KeyValue>)
  datatype ScopeSpans = ScopeSpans(scope: Scope, spans: seq<Span>)
  datatype ResourceSpans = ResourceSpans(resource: Resource, scopeSpans: seq<ScopeSpans>)
  datatype TracesData = TracesData(resourceSpans: seq<ResourceSpans>)

  /** The span serializer and the resource attributes it was built with. */
  datatype SpanSerializer = SpanSerializer(commonResources: OrderedMap)

  /** The constructor: the seven entries of its initializer list, kept
      sorted by key as `std::map` keeps them. */
  function NewSpanSerializer(hostName: string, hostIp: string): (ser: SpanSerializer)
    ensures |ser.commonResources| == 7
    ensures Lookup(ser.commonResources, "service.name") == Some("cmonitor")
    ensures Lookup(ser.commonResources, "host.name") == Some(hostName)
    ensures Lookup(ser.commonResources, "host.ip") == Some(hostIp)
    ensures Lookup(ser.commonResources, "app.type") == Some("ebpf")
    ensures Lookup(ser.commonResources, "cluster.id") == Some("@qianlu.kk TODO")
    ensures Lookup(ser.commonResources, "telemetry.sdk.name") == Some("oneagent")
    ensures Lookup(ser.commonResources, "telemetry.sdk.version") == Some("ebpf")
  {
    var m := [("app.type", "ebpf"), ("cluster.id", "@qianlu.kk TODO"), ("host.ip", hostIp),
              ("host.name", hostName), ("service.name", "cmonitor"),
              ("telemetry.sdk.name", "oneagent"), ("telemetry.sdk.version", "ebpf")];
    SortedResourceKeys(m);
    LookupAt(m, 0); LookupAt(m, 1); LookupAt(m, 2); LookupAt(m, 3);
    LookupAt(m, 4); LookupAt(m, 5); LookupAt(m, 6);
    SpanSerializer(m)
  }

  /** The keys of the common resource table, in `std::map` order. */
  const ResourceKeys: seq<string> := ["app.type", "cluster.id", "host.ip", "host.name",
                                      "service.name", "telemetry.sdk.name", "telemetry.sdk.version"]

  lemma SortedResourceKeys(m: seq<(string, string)>)
    requires |m| == |ResourceKeys|
    requires forall i :: 0 <= i < |m| ==> m[i].0 == ResourceKeys[i]
    ensures StrictlySorted(m)
  {
    forall i | 0 <= i < |m| - 1 ensures StringLess(m[i].0, m[i + 1].0) {
      ResourceKeyBeforeNext(i);
    }
    SortedFromNeighbours(m);
  }

  /** Each resource key comes before the next one. */
  lemma ResourceKeyBeforeNext(i: nat)
    requires i < |ResourceKeys| - 1
    ensures StringLess(ResourceKeys[i], ResourceKeys[i + 1])
  {
    var a, b := ResourceKeys[i], ResourceKeys[i + 1];
    var k := if i == 2 then 5 else if i == 5 then 14 else 0;
    if i == 2 {
      assert a == "host.ip" && b == "host.name";
    } else if i == 5 {
      assert a == "telemetry.sdk.name" && b == "telemetry.sdk.version";
    }
    StringLessAt(a, b, k);
  }

  /** The tags of a map as attributes, in key order. */
  function Attributes(m: seq<(string, string)>): (attrs: seq<KeyValue>)
    ensures |attrs| == |m|
    ensures forall i :: 0 <= i < |m| ==> attrs[i] == KeyValue(m[i].0, StringValue(m[i].1))
  {
    if |m| == 0 then [] else [KeyValue(m[0].0, StringValue(m[0].1))] + Attributes(m[1..])
  }

  /** The span a span event becomes under its group's tags. */
  function SpanOf(tags: OrderedMap, e: Event): (sp: Span)
    requires e.SpanEvent?
    ensures sp.traceId == e.traceId && sp.spanId == e.spanId && sp.parentSpanId == e.parentSpanId
    ensures sp.kind == e.kind && sp.startTimeUnixNano == e.startTimeNs && sp.endTimeUnixNano == e.endTimeNs
    ensures sp.name == e.name
    ensures sp.attributes == Attributes(tags)
  {
    Span(e.traceId, e.spanId, e.parentSpanId, e.kind, e.startTimeNs, e.endTimeNs, e.name, Attributes(tags))
  }

  /** The number of span events. */
  function CountSpans(events: seq<Event>): nat {
    if |events| == 0 then 0
    else CountSpans(events[..|events| - 1]) + (if events[|events| - 1].SpanEvent? then 1 else 0)
  }

  /** The spans of one group: its span events in order, others skipped. */
  function SpansOfEvents(tags: OrderedMap, events: seq<Event>): (spans: seq<Span>)
    ensures |spans| == CountSpans(events)
    decreases |events|
  {
    if |events| == 0 then []
    else
      var n := |events| - 1;
      SpansOfEvents(tags, events[..n]) + (if events[n].SpanEvent? then [SpanOf(tags, events[n])] else [])
  }

  /** Each span event's span sits at the number of span events before it. */
  lemma {:induction false} SpanPosition(tags: OrderedMap, events: seq<Event>, j: nat)
    requires j < |events| && events[j].SpanEvent?
    ensures CountSpans(events[..j]) < |SpansOfEvents(tags, events)|
    ensures SpansOfEvents(tags, events)[CountSpans(events[..j])] == SpanOf(tags, events[j])
    decreases |events|
  {
    var n := |events| - 1;
    if j < n {
      SpanPosition(tags, events[..n], j);
      assert events[..n][..j] == events[..j];
    } else {
      assert events[..n] == events[..j];
    }
  }

  /** Span events of two runs of events, one after the other. */
  lemma {:induction false} SpansOfEventsAppend(tags: OrderedMap, a: seq<Event>, b: seq<Event>)
    ensures SpansOfEvents(tags, a + b) == SpansOfEvents(tags, a) + SpansOfEvents(tags, b)
    decreases |b|
  {
    if |b| == 0 {
      assert a + b == a;
    } else {
      var n := |b| - 1;
      assert (a + b)[..|a + b| - 1] == a + b[..n];
      assert (a + b)[|a + b| - 1] == b[n];
      SpansOfEventsAppend(tags, a, b[..n]);
    }
  }

  /** Events that are not spans contribute nothing: dropping one leaves
      the spans unchanged. */
  lemma NonSpanEventSkipped(tags: OrderedMap, a: seq<Event>, e: Event, b: seq<Event>)
    requires !e.SpanEvent?
    ensures SpansOfEvents(tags, a + [e] + b) == SpansOfEvents(tags, a + b)
  {
    assert [e][..0] == [];
    assert SpansOfEvents(tags, [e]) == [];
    SpansOfEventsAppend(tags, a + [e], b);
    SpansOfEventsAppend(tags, a, [e]);
    SpansOfEventsAppend(tags, a, b);
  }

  /** All spans of a run of groups. */
  function SpansOfGroups(bs: seq<BatchedEvents>): (spans: seq<Span>)
    ensures |spans| == GroupSpanCount(bs)
  {
    if |bs| == 0 then [] else SpansOfEvents(bs[0].tags, bs[0].events) + SpansOfGroups(bs[1..])
  }

  function GroupSpanCount(bs: seq<BatchedEvents>): nat {
    if |bs| == 0 then 0 else CountSpans(bs[0].events) + GroupSpanCount(bs[1..])
  }

  lemma {:induction false} SpansOfGroupsAppend(a: seq<BatchedEvents>, b: seq<BatchedEvents>)
    ensures SpansOfGroups(a + b) == SpansOfGroups(a) + SpansOfGroups(b)
    decreases |a|
  {
    if |a| > 0 {
      assert (a + b)[0] == a[0];
      assert (a + b)[1..] == a[1..] + b;
      SpansOfGroupsAppend(a[1..], b);
    } else {
      assert a + b == b;
    }
  }

  /** The loops of `Serialize`, list by list and group by group. */
  function SpansOfLists(v: seq<seq<BatchedEvents>>): (spans: seq<Span>)
    ensures spans == SpansOfGroups(Flatten(v))
  {
    if |v| == 0 then []
    else
      var spans := SpansOfGroups(v[0]) + SpansOfLists(v[1..]);
      SpansOfGroupsAppend(v[0], Flatten(v[1..]));
      spans
  }

  /** `ArmsSpanEventGroupListSerializer::Serialize`: one resource carrying
      the serializer's resource table, one unnamed scope, and one span per
      span event across all groups, in input order; it always succeeds. */
  function SerializeSpans(ser: SpanSerializer, v: seq<seq<BatchedEvents>>): (r: Serialized<TracesData>)
    ensures r.ok
    ensures |r.message.resourceSpans| == 1
    ensures r.message.resourceSpans[0].resource.attributes == Attributes(ser.commonResources)
    ensures |r.message.resourceSpans[0].scopeSpans| == 1
    ensures r.message.resourceSpans[0].scopeSpans[0].scope.name == ""
    ensures r.message.resourceSpans[0].scopeSpans[0].spans == SpansOfGroups(Flatten(v))
    ensures |r.message.resourceSpans[0].scopeSpans[0].spans| == GroupSpanCount(Flatten(v))
  {
    var scope := ScopeSpans(Scope(""), SpansOfLists(v));
    Serialized(TracesData([ResourceSpans(Resource(Attributes(ser.commonResources)), [scope])]), true)
  }

  /** Every span event of a group shows up in the traces at the offset
      of its group plus the number of span events before it. */
  lemma SpanOfEveryEvent(ser: SpanSerializer, v: seq<seq<BatchedEvents>>, g: nat, j: nat)
    requires g < |Flatten(v)| && j < |Flatten(v)[g].events|
    requires Flatten(v)[g].events[j].SpanEvent?
    ensures var bs := Flatten(v);
            var spans := SerializeSpans(ser, v).message.resourceSpans[0].scopeSpans[0].spans;
            var at := GroupSpanCount(bs[..g]) + CountSpans(bs[g].events[..j]);
            at < |spans| && spans[at] == SpanOf(bs[g].tags, bs[g].events[j])
  {
    var bs := Flatten(v);
    assert SerializeSpans(ser, v).message.resourceSpans[0].scopeSpans[0].spans == SpansOfGroups(bs);
    SpanInGroups(bs, g, j);
  }

  /** The position of a span event's span among the spans of all groups. */
  lemma {:induction false} SpanInGroups(bs: seq<BatchedEvents>, g: nat, j: nat)
    requires g < |bs| && j < |bs[g].events| && bs[g].events[j].SpanEvent?
    ensures var at := GroupSpanCount(bs[..g]) + CountSpans(bs[g].events[..j]);
            at < |SpansOfGroups(bs)| && SpansOfGroups(bs)[at] == SpanOf(bs[g].tags, bs[g].events[j])
  {
    var first := SpansOfEvents(bs[0].tags, bs[0].events);
    assert SpansOfGroups(bs) == first + SpansOfGroups(bs[1..]);
    if g == 0 {
      assert bs[..g] == [];
      SpanPosition(bs[0].tags, bs[0].events, j);
    } else {
      SpanInGroups(bs[1..], g - 1, j);
      assert bs[..g][1..] == bs[1..][..g - 1];
      assert GroupSpanCount(bs[..g]) == |first| + GroupSpanCount(bs[1..][..g - 1]);
    }
  }
}
