/**
 * `MetricsDriver`: a queue driver decorator that passes every operation to
 * the wrapped driver and reports what happened to CloudWatch.
 *
 * The wrapped driver, the CloudWatch client, the logger and the clock are
 * collaborators: each method receives what the wrapped driver did
 * (`wrapped`), whether `putMetricData` fails (`sinkFails`) and the current
 * time in milliseconds (`now`). The calls to `putMetricData` and to the
 * logger are recorded in ghost fields.
 */
module Driver {
  import opened Wrappers
  import opened PhpArrays
  import opened Metrics

  const DEFAULT_NAMESPACE := "PMG/Queue"
  const NO_MSG_NAME := "__none__"

  /** A queue message; only its name matters here. */
  datatype Message = Message(name: string)

  /** An envelope's object identity. */
  type EnvelopeId = nat

  /** An in-flight message handle, identified by `id`. */
  datatype Envelope = Envelope(id: EnvelopeId, message: Message)

  /** What a wrapped-driver call did: returned `value`, or threw a `DriverError` of class `errorClass`. */
  datatype Outcome<+T> = Ok(value: T) | Err(errorClass: string)

  /** One `putMetricData` call, and whether it threw an `AwsException`. */
  datatype PutRequest = PutRequest(namespace: string, metricData: seq<Datum>, failed: bool)

  /** PHP's truthiness for the optional namespace argument: `null`, `""` and `"0"` are false. */
  predicate Falsy(arg: Option<string>) {
    arg.None? || arg.value == "" || arg.value == "0"
  }

  /** `$metricsNamespace ?: self::DEFAULT_NAMESPACE`. */
  function NamespaceFor(arg: Option<string>): (ns: string)
    ensures ns != ""
    ensures Falsy(arg) ==> ns == DEFAULT_NAMESPACE
    ensures !Falsy(arg) ==> ns == arg.value
  {
    if Falsy(arg) then DEFAULT_NAMESPACE else arg.value
  }

  /** `dimensionsFor`: the ambient dimensions of every dimensioned record. */
  function DimensionsFor(queueName: string, msg: Option<Message>): (d: StringMap)
    ensures Keys(d) == ["QueueName", "MessageName"]
    ensures Get(d, "QueueName") == Some(queueName)
    ensures Get(d, "MessageName") == Some(if msg.Some? then msg.value.name else NO_MSG_NAME)
  {
    [("QueueName", queueName), ("MessageName", if msg.Some? then msg.value.name else NO_MSG_NAME)]
  }

  /** `$m->toClientArray()` with its `Dimensions` key unset. */
  function Undimensioned(m: Metric): (d: Datum)
    ensures d.metricName == m.name && d.value == m.value && d.unit == m.unit
    ensures d.dimensions == None
  {
    ToClientArray(m, []).(dimensions := None)
  }

  /** The closure passed to `array_map`: the metric without, then with, dimensions. */
  function Twin(m: Metric, ambient: StringMap): (pair: seq<Datum>)
    ensures |pair| == 2
  {
    [Undimensioned(m), ToClientArray(m, ambient)]
  }

  /**
   * The `MetricData` of `trackMetrics`: `array_merge` of the twins of every
   * metric, in order.
   */
  function MetricData(metrics: seq<Metric>, ambient: StringMap): seq<Datum>
  {
    ArrayMerge(seq(|metrics|, i requires 0 <= i < |metrics| => Twin(metrics[i], ambient)))
  }

  /**
   * `MetricData` has two records per metric: record `2i` is metric `i`
   * without dimensions, record `2i + 1` is metric `i` with the ambient and
   * its own dimensions.
   */
  lemma MetricDataShape(metrics: seq<Metric>, ambient: StringMap)
    ensures |MetricData(metrics, ambient)| == 2 * |metrics|
    ensures forall i :: 0 <= i < |metrics| ==>
      && MetricData(metrics, ambient)[2 * i] == Undimensioned(metrics[i])
      && MetricData(metrics, ambient)[2 * i + 1] == ToClientArray(metrics[i], ambient)
  {
    ArrayMergePairs(seq(|metrics|, i requires 0 <= i < |metrics| => Twin(metrics[i], ambient)));
  }

  /** Two records describe the same measurement, dimensions aside. */
  predicate SameMeasurement(a: Datum, b: Datum) {
    a.metricName == b.metricName && a.value == b.value && a.unit == b.unit
  }

  /**
   * The shape of every submitted `MetricData`: records come in pairs of the
   * same measurement, the first without and the second with dimensions.
   */
  predicate Paired(data: seq<Datum>) {
    |data| % 2 == 0 && forall i :: 0 <= i < |data| / 2 ==> PairAt(data, i)
  }

  /** Records `2i` and `2i + 1` are one measurement, first without, then with, dimensions. */
  predicate PairAt(data: seq<Datum>, i: nat)
    requires 2 * i + 1 < |data|
  {
    && data[2 * i].dimensions.None? && data[2 * i + 1].dimensions.Some?
    && SameMeasurement(data[2 * i], data[2 * i + 1])
  }

  lemma MetricDataPaired(metrics: seq<Metric>, ambient: StringMap)
    ensures Paired(MetricData(metrics, ambient))
  {
    var data := MetricData(metrics, ambient);
    MetricDataShape(metrics, ambient);
    forall i | 0 <= i < |data| / 2
      ensures PairAt(data, i)
    {
      assert data[2 * i] == Undimensioned(metrics[i]);
    }
  }

  /** The metric of `trackDriverError`. */
  function DriverErrorMetrics(errorClass: string): seq<Metric> {
    [Count("DriverError", 1, [("ErrorClass", errorClass)])]
  }

  /** The metrics of `trackMessageFinished`, given the envelope's start time if one is recorded. */
  function FinishedMetrics(kind: string, start: Option<int>, now: int): seq<Metric> {
    [Count("Message" + kind, 1, [])]
    + if start.Some? then [Millis("MessageTime", now - start.value, [("MessageStatus", kind)])] else []
  }

  /** The start time `startTimes` holds for `id`, if any. */
  function StartOf(startTimes: map<EnvelopeId, int>, id: EnvelopeId): (r: Option<int>)
    ensures r.Some? <==> id in startTimes
    ensures r.Some? ==> r.value == startTimes[id]
  {
    if id in startTimes then Some(startTimes[id]) else None
  }

  /** How many of the requests failed. */
  function Failures(requests: seq<PutRequest>): nat {
    if requests == [] then 0
    else Failures(requests[..|requests| - 1]) + if requests[|requests| - 1].failed then 1 else 0
  }

  /** The logger is called once per failed request. */
  function Logged(sinkFails: bool): nat {
    if sinkFails then 1 else 0
  }

  /** The rendered ambient dimensions. */
  function AmbientDimensions(queueName: string, msg: Option<Message>): seq<Dimension> {
    [ Dimension("QueueName", LimitString(queueName)),
      Dimension("MessageName", LimitString(if msg.Some? then msg.value.name else NO_MSG_NAME)) ]
  }

  // ---------------------------------------------------------------------
  // The batches the decorator submits.
  // ---------------------------------------------------------------------

  /** A metric rendered with ambient dimensions it shares no key with. */
  lemma RenderedAfterAmbient(m: Metric, queueName: string, msg: Option<Message>)
    requires "QueueName" !in KeySet(m.dimensions) && "MessageName" !in KeySet(m.dimensions)
    ensures ToClientArray(m, DimensionsFor(queueName, msg)).dimensions
         == Some(AmbientDimensions(queueName, msg) + ClientDimensions(m.dimensions))
  {
    var amb := DimensionsFor(queueName, msg);
    AmbientKeySet(queueName, msg);
    ArrayReplaceDisjoint(amb, m.dimensions);
    ClientDimensionsConcat(amb, m.dimensions);
    assert ClientDimensions(amb) == AmbientDimensions(queueName, msg);
  }

  lemma AmbientKeySet(queueName: string, msg: Option<Message>)
    ensures KeySet(DimensionsFor(queueName, msg)) == {"QueueName", "MessageName"}
  {
    var amb := DimensionsFor(queueName, msg);
    assert amb[0].0 == "QueueName" && amb[1].0 == "MessageName";
  }

  /**
   * A driver error is reported as one `DriverError` count, twice: once bare
   * and once with the queue, the message name and the error class.
   */
  lemma DriverErrorData(queueName: string, msg: Option<Message>, errorClass: string)
    ensures var data := MetricData(DriverErrorMetrics(errorClass), DimensionsFor(queueName, msg));
      && |data| == 2
      && data[0] == Datum("DriverError", 1, COUNT, None)
      && data[1] == Datum("DriverError", 1, COUNT, Some(AmbientDimensions(queueName, msg)
                                                     + [Dimension("ErrorClass", LimitString(errorClass))]))
  {
    var m := DriverErrorMetrics(errorClass)[0];
    assert KeySet(m.dimensions) == {"ErrorClass"} by { assert m.dimensions[0].0 == "ErrorClass"; }
    RenderedAfterAmbient(m, queueName, msg);
    assert ClientDimensions(m.dimensions) == [Dimension("ErrorClass", LimitString(errorClass))];
    MetricDataShape(DriverErrorMetrics(errorClass), DimensionsFor(queueName, msg));
  }

  /**
   * A message event without timing (`MessageEnqueue`, `MessageDequeue`, or a
   * finish with no recorded start) is one count, bare and with the queue and
   * message name.
   */
  lemma CountData(name: string, queueName: string, msg: Option<Message>)
    ensures var data := MetricData([Count(name, 1, [])], DimensionsFor(queueName, msg));
      && |data| == 2
      && data[0] == Datum(name, 1, COUNT, None)
      && data[1] == Datum(name, 1, COUNT, Some(AmbientDimensions(queueName, msg)))
  {
    var m := Count(name, 1, []);
    assert KeySet(m.dimensions) == {};
    RenderedAfterAmbient(m, queueName, msg);
    assert ClientDimensions(m.dimensions) == [];
    assert AmbientDimensions(queueName, msg) + [] == AmbientDimensions(queueName, msg);
    MetricDataShape([m], DimensionsFor(queueName, msg));
  }

  /**
   * A finish on an envelope with a recorded start: `Message<kind>` and a
   * `MessageTime` of `now - start` tagged `MessageStatus = kind`, each twice.
   */
  lemma FinishedTimedData(kind: string, start: int, now: int, queueName: string, msg: Message)
    ensures var data := MetricData(FinishedMetrics(kind, Some(start), now), DimensionsFor(queueName, Some(msg)));
      && |data| == 4
      && data[0] == Datum("Message" + kind, 1, COUNT, None)
      && data[1] == Datum("Message" + kind, 1, COUNT, Some(AmbientDimensions(queueName, Some(msg))))
      && data[2] == Datum("MessageTime", now - start, MILLISECONDS, None)
      && data[3] == Datum("MessageTime", now - start, MILLISECONDS,
                          Some(AmbientDimensions(queueName, Some(msg)) + [Dimension("MessageStatus", LimitString(kind))]))
  {
    var ms := FinishedMetrics(kind, Some(start), now);
    assert KeySet(ms[0].dimensions) == {};
    assert KeySet(ms[1].dimensions) == {"MessageStatus"} by { assert ms[1].dimensions[0].0 == "MessageStatus"; }
    RenderedAfterAmbient(ms[0], queueName, Some(msg));
    RenderedAfterAmbient(ms[1], queueName, Some(msg));
    assert ClientDimensions(ms[0].dimensions) == [];
    assert AmbientDimensions(queueName, Some(msg)) + [] == AmbientDimensions(queueName, Some(msg));
    assert ClientDimensions(ms[1].dimensions) == [Dimension("MessageStatus", LimitString(kind))];
    MetricDataShape(ms, DimensionsFor(queueName, Some(msg)));
  }

  /** A finish on an envelope with no recorded start reports no `MessageTime`. */
  lemma FinishedUntimedData(kind: string, now: int, queueName: string, msg: Message)
    ensures var data := MetricData(FinishedMetrics(kind, None, now), DimensionsFor(queueName, Some(msg)));
      && |data| == 2
      && forall i :: 0 <= i < |data| ==> data[i].metricName == "Message" + kind
  {
    assert FinishedMetrics(kind, None, now) == [Count("Message" + kind, 1, [])];
    CountData("Message" + kind, queueName, Some(msg));
  }

  /**
   * The decorator. `startTimes` maps each dequeued, not yet finished envelope
   * to its dequeue time; `requests` are the `putMetricData` calls made so far
   * and `errorsLogged` the calls to the logger.
   */
  class MetricsDriver {
    const metricsNamespace: string
    var startTimes: map<EnvelopeId, int>
    ghost var requests: seq<PutRequest>
    ghost var errorsLogged: nat

    ghost predicate Valid()
      reads this
    {
      && metricsNamespace != ""
      && errorsLogged == Failures(requests)
      && forall i :: 0 <= i < |requests| ==>
           requests[i].namespace == metricsNamespace && Paired(requests[i].metricData)
    }

    /** The request `trackMetrics` makes. */
    function Request(queueName: string, metrics: seq<Metric>, msg: Option<Message>, sinkFails: bool): PutRequest {
      PutRequest(metricsNamespace, MetricData(metrics, DimensionsFor(queueName, msg)), sinkFails)
    }

    constructor (namespace: Option<string>)
      ensures Valid()
      ensures metricsNamespace == NamespaceFor(namespace)
      ensures startTimes == map[] && requests == [] && errorsLogged == 0
    {
      metricsNamespace := NamespaceFor(namespace);
      startTimes := map[];
      requests := [];
      errorsLogged := 0;
    }

    method Enqueue(queueName: string, message: Message, wrapped: Outcome<Envelope>, sinkFails: bool)
      returns (out: Outcome<Envelope>)
      requires Valid()
      modifies this
      ensures Valid()
      ensures out == wrapped
      ensures startTimes == old(startTimes)
      ensures requests == old(requests) + [Request(queueName,
        if wrapped.Ok? then [Count("MessageEnqueue", 1, [])] else DriverErrorMetrics(wrapped.errorClass),
        Some(message), sinkFails)]
      ensures errorsLogged == old(errorsLogged) + Logged(sinkFails)
    {
      if wrapped.Err? {
        TrackDriverError(queueName, wrapped.errorClass, Some(message), sinkFails);
        return wrapped;
      }
      TrackMetrics(queueName, [Count("MessageEnqueue", 1, [])], Some(message), sinkFails);
      out := wrapped;
    }

    method Dequeue(queueName: string, wrapped: Outcome<Option<Envelope>>, now: int, sinkFails: bool)
      returns (out: Outcome<Option<Envelope>>)
      requires Valid()
      modifies this
      ensures Valid()
      ensures out == wrapped
      ensures wrapped == Ok(None) ==>
        requests == old(requests) && startTimes == old(startTimes) && errorsLogged == old(errorsLogged)
      ensures wrapped.Ok? && wrapped.value.Some? ==>
        var env := wrapped.value.value;
        && requests == old(requests) + [Request(queueName, [Count("MessageDequeue", 1, [])], Some(env.message), sinkFails)]
        && startTimes == old(startTimes)[env.id := now]
        && errorsLogged == old(errorsLogged) + Logged(sinkFails)
      ensures wrapped.Err? ==>
        && requests == old(requests) + [Request(queueName, DriverErrorMetrics(wrapped.errorClass), None, sinkFails)]
        && startTimes == old(startTimes)
        && errorsLogged == old(errorsLogged) + Logged(sinkFails)
    {
      if wrapped.Err? {
        TrackDriverError(queueName, wrapped.errorClass, None, sinkFails);
        return wrapped;
      }
      if wrapped.value.None? {
        return wrapped;
      }
      var env := wrapped.value.value;
      TrackMetrics(queueName, [Count("MessageDequeue", 1, [])], Some(env.message), sinkFails);
      startTimes := startTimes[env.id := now];
      out := wrapped;
    }

    method Ack<T>(queueName: string, envelope: Envelope, wrapped: Outcome<T>, now: int, sinkFails: bool)
      returns (out: Outcome<T>)
      requires Valid()
      modifies this
      ensures Valid()
      ensures out == wrapped
      ensures wrapped.Ok? ==>
        && requests == old(requests) + [Request(queueName,
             FinishedMetrics("Success", StartOf(old(startTimes), envelope.id), now), Some(envelope.message), sinkFails)]
        && startTimes == old(startTimes) - {envelope.id}
      ensures wrapped.Err? ==>
        && requests == old(requests) + [Request(queueName, DriverErrorMetrics(wrapped.errorClass), Some(envelope.message), sinkFails)]
        && startTimes == old(startTimes)
      ensures errorsLogged == old(errorsLogged) + Logged(sinkFails)
    {
      if wrapped.Err? {
        TrackDriverError(queueName, wrapped.errorClass, Some(envelope.message), sinkFails);
        return wrapped;
      }
      TrackMessageFinished("Success", queueName, envelope, now, sinkFails);
      out := wrapped;
    }

    method Retry(queueName: string, envelope: Envelope, wrapped: Outcome<Envelope>, now: int, sinkFails: bool)
      returns (out: Outcome<Envelope>)
      requires Valid()
      modifies this
      ensures Valid()
      ensures out == wrapped
      ensures wrapped.Ok? ==>
        && requests == old(requests) + [Request(queueName,
             FinishedMetrics("Retry", StartOf(old(startTimes), envelope.id), now), Some(envelope.message), sinkFails)]
        && startTimes == old(startTimes) - {envelope.id}
      ensures wrapped.Err? ==>
        && requests == old(requests) + [Request(queueName, DriverErrorMetrics(wrapped.errorClass), Some(envelope.message), sinkFails)]
        && startTimes == old(startTimes)
      ensures errorsLogged == old(errorsLogged) + Logged(sinkFails)
    {
      if wrapped.Err? {
        TrackDriverError(queueName, wrapped.errorClass, Some(envelope.message), sinkFails);
        return wrapped;
      }
      TrackMessageFinished("Retry", queueName, envelope, now, sinkFails);
      out := wrapped;
    }

    method Fail<T>(queueName: string, envelope: Envelope, wrapped: Outcome<T>, now: int, sinkFails: bool)
      returns (out: Outcome<T>)
      requires Valid()
      modifies this
      ensures Valid()
      ensures out == wrapped
      ensures wrapped.Ok? ==>
        && requests == old(requests) + [Request(queueName,
             FinishedMetrics("Failure", StartOf(old(startTimes), envelope.id), now), Some(envelope.message), sinkFails)]
        && startTimes == old(startTimes) - {envelope.id}
      ensures wrapped.Err? ==>
        && requests == old(requests) + [Request(queueName, DriverErrorMetrics(wrapped.errorClass), Some(envelope.message), sinkFails)]
        && startTimes == old(startTimes)
      ensures errorsLogged == old(errorsLogged) + Logged(sinkFails)
    {
      if wrapped.Err? {
        TrackDriverError(queueName, wrapped.errorClass, Some(envelope.message), sinkFails);
        return wrapped;
      }
      TrackMessageFinished("Failure", queueName, envelope, now, sinkFails);
      out := wrapped;
    }

    method TrackDriverError(queueName: string, errorClass: string, msg: Option<Message>, sinkFails: bool)
      requires Valid()
      modifies this
      ensures Valid()
      ensures requests == old(requests) + [Request(queueName, DriverErrorMetrics(errorClass), msg, sinkFails)]
      ensures startTimes == old(startTimes)
      ensures errorsLogged == old(errorsLogged) + Logged(sinkFails)
    {
      TrackMetrics(queueName, DriverErrorMetrics(errorClass), msg, sinkFails);
    }

    method TrackMessageFinished(kind: string, queueName: string, envelope: Envelope, now: int, sinkFails: bool)
      requires Valid()
      modifies this
      ensures Valid()
      ensures requests == old(requests) + [Request(queueName,
        FinishedMetrics(kind, StartOf(old(startTimes), envelope.id), now), Some(envelope.message), sinkFails)]
      ensures startTimes == old(startTimes) - {envelope.id}
      ensures errorsLogged == old(errorsLogged) + Logged(sinkFails)
    {
      ghost var start := StartOf(startTimes, envelope.id);
      var metrics := [Count("Message" + kind, 1, [])];
      if envelope.id in startTimes {
        var time := now - startTimes[envelope.id];
        metrics := metrics + [Millis("MessageTime", time, [("MessageStatus", kind)])];
        startTimes := startTimes - {envelope.id};
      }
      assert metrics == FinishedMetrics(kind, start, now);
      assert startTimes == old(startTimes) - {envelope.id};
      TrackMetrics(queueName, metrics, Some(envelope.message), sinkFails);
    }

    /**
     * `trackMetrics`: one `putMetricData` call carrying every metric twice;
     * if it throws, the logger is called once and nothing propagates.
     */
    method TrackMetrics(queueName: string, metrics: seq<Metric>, msg: Option<Message>, sinkFails: bool)
      requires Valid()
      modifies this
      ensures Valid()
      ensures requests == old(requests) + [Request(queueName, metrics, msg, sinkFails)]
      ensures startTimes == old(startTimes)
      ensures errorsLogged == old(errorsLogged) + Logged(sinkFails)
    {
      var dimensions := DimensionsFor(queueName, msg);
      var data := MetricData(metrics, dimensions);
      MetricDataPaired(metrics, dimensions);
      requests := requests + [PutRequest(metricsNamespace, data, sinkFails)];
      assert requests[..|requests| - 1] == old(requests);
      if sinkFails {
        errorsLogged := errorsLogged + 1;
      }
    }
  }

  /**
   * A client of the decorator, after the finish-flow tests: an empty poll
   * submits nothing, and a dequeue submits `MessageDequeue` and records the time.
   */
  method DequeueScenario(queueName: string, env: Envelope, t0: int)
  {
    var d := new MetricsDriver(Some(""));
    assert d.metricsNamespace == DEFAULT_NAMESPACE;
    var none := d.Dequeue(queueName, Ok(None), t0, false);
    assert none == Ok(None) && d.requests == [] && d.startTimes == map[];
    var got := d.Dequeue(queueName, Ok(Some(env)), t0, false);
    assert got == Ok(Some(env)) && d.startTimes == map[env.id := t0];
    CountData("MessageDequeue", queueName, Some(env.message));
    assert |d.requests[0].metricData| == 2;
  }

  /**
   * Two acks of a dequeued envelope: the first reports `MessageTime`, the
   * second, finding no entry, does not.
   */
  method FinishTwiceScenario(d: MetricsDriver, queueName: string, env: Envelope, t0: int, t1: int, t2: int)
    requires d.Valid() && d.startTimes == map[env.id := t0]
    modifies d
  {
    ghost var n := |d.requests|;
    var first := d.Ack(queueName, env, Ok(env), t1, false);
    assert first == Ok(env);
    ghost var timed := d.requests[n].metricData;
    assert StartOf(map[env.id := t0], env.id) == Some(t0);
    FinishedTimedData("Success", t0, t1, queueName, env.message);
    assert |timed| == 4 && timed[3].value == t1 - t0;
    assert d.startTimes == map[];

    var second := d.Ack(queueName, env, Ok(env), t2, false);
    ghost var untimed := d.requests[n + 1].metricData;
    FinishedUntimedData("Success", t2, queueName, env.message);
    assert |untimed| == 2 && untimed[0].metricName == untimed[1].metricName == "MessageSuccess";
  }

  /** After the sink-failure test: the enqueue still returns the driver's envelope and one error is logged. */
  method SinkFailureScenario(queueName: string, msg: Message, env: Envelope)
  {
    var d := new MetricsDriver(Some("PMG/Queue/MetricsTest"));
    var queued := d.Enqueue(queueName, msg, Ok(env), true);
    assert queued == Ok(env) && d.errorsLogged == 1 && |d.requests| == 1;
  }
}
