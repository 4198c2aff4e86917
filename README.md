# pmg/queue-cloudwatch in Dafny

This project models `pmg/queue-cloudwatch`. The library is a decorator over a
`pmg/queue` driver, and it reports queue activity to Amazon CloudWatch.
`MetricsDriver` passes every operation (`enqueue`, `dequeue`, `ack`, `retry`,
`fail`) to the driver it wraps. It then submits metrics about the result in one
`putMetricData` call, except for a `dequeue` that finds no message, which
submits nothing (src/MetricsDriver.php:103-105). It also remembers when each envelope was dequeued, so that
finishing the envelope can report its time in flight. `Metric` is the immutable
measurement it sends, and `Metric::toClientArray` renders it as a CloudWatch
`MetricData` entry.

Files:

- `wrappers.dfy` (module `Wrappers`): `Option`, which stands for PHP's `null`.
- `php_arrays.dfy` (module `PhpArrays`): string-keyed PHP arrays as ordered
  lists of entries with unique keys (`StringMap`), and the built-in
  `array_replace`. The model defines it the way PHP runs it: one assignment per
  entry of the second array (`ArrayReplace`). It is proved equal to a
  declarative description: the entries of the first array stay in place, each
  takes the second array's value when that array has the key, and the keys only
  the second array has are appended in its order (`Overlay` + `Appended`).
  The module also models `array_merge` over lists (`ArrayMerge`).
- `metric.dfy` (module `Metrics`): the `Metric` datatype, the `count` and
  `millis` factories, the 255-character cap on dimension values, the
  `toClientDimensions` loop and `toClientArray`.
- `metrics_driver.dfy` (module `Driver`): the `MetricsDriver` class and the
  pure functions that describe the batches it submits.

How collaborators are modelled:

- The wrapped driver is a method input `wrapped: Outcome<T>`. It is either
  `Ok(value)` or `Err(errorClass)`, where `Err` stands for a thrown
  `DriverError` and `errorClass` for `get_class($e)`. Every operation returns an
  `Outcome`, and returning `Err` stands for re-throwing.
- Whether `putMetricData` throws an `AwsException` is the input `sinkFails`.
- The clock is the input `now`, in milliseconds.
- Envelopes are values `Envelope(id, message)`. `id` stands for object
  identity, which is the key of `SplObjectStorage`.
- The class has ghost fields. `requests` holds every `putMetricData` call:
  its namespace, its `MetricData`, and whether it failed. `errorsLogged` counts
  the calls to the logger.

The class invariant `Valid()` says four things:

- the namespace is never empty;
- every submitted request carries the driver's namespace;
- the logger has been called exactly once for each failed request;
- every submitted `MetricData` is `Paired`: records come in twos, with the same
  name, value and unit. The first has no `Dimensions` key and the second has
  one.

Each public method states its return value, which is the wrapped driver's
outcome unchanged. It also states the new `startTimes`, the request it appends
and the new logger count. The lemmas of the `Driver` module give the
record-by-record content of each kind of batch. Three methods are verified
clients of the class. `DequeueScenario` polls an empty queue, which submits
nothing, then dequeues a message. `FinishTwiceScenario` acks the same envelope
twice, and the first ack returns the envelope the wrapped driver returned. The
first ack sends 4 records with `MessageTime = t1 - t0`, and the
second sends 2 with no `MessageTime`. `SinkFailureScenario` enqueues with a
failing submission, which returns the driver's envelope and logs one error.

Three facts about the code that the model follows:

- The cap on dimension values is 255 characters (src/Metric.php:66-74).
- The decorator has no `release` method.
- `MessageName` is `'__none__'` when no message is known, as on a dequeue
  error (src/MetricsDriver.php:229-235). The dimension is not omitted.

## Model

| member | source | states |
|---|---|---|
| `PhpArrays.Put` | src/Metric.php:46-49 | One assignment `$a[$k] = $v` inside `array_replace`: a key already present keeps its position and takes the new value; a new key is added last. |
| `PhpArrays.ArrayReplace` | src/Metric.php:46-49 | `array_replace($base, $over)` as PHP evaluates it: the entries of `$over` are assigned into `$base` one after another, in `$over`'s order. |
| `PhpArrays.ArrayMerge` | src/MetricsDriver.php:214 | `array_merge(...$lists)` over lists: the elements of every list, list after list, in order. |
| `PhpArrays.ArrayReplaceIsOverlayAppended` | src/Metric.php:46-49 | `array_replace(ambient, own)` keeps every ambient entry in place, with the metric's own value when it has that key. It then appends the own-only entries in their own order. |
| `PhpArrays.ArrayReplaceGet` | src/Metric.php:46-49 | After the merge, a key of the metric's own dimensions has its own value. An ambient-only key keeps its ambient value. Any other key is absent. |
| `PhpArrays.ArrayReplaceKeys` | src/Metric.php:46-49 | The merged keys are exactly the union of ambient and own keys, and each appears once. |
| `PhpArrays.ArrayReplaceOrder` | src/Metric.php:46-49 | Merged key order: ambient keys in their original order, then the own-only keys in their own order. |
| `PhpArrays.ArrayReplaceDisjoint` | src/Metric.php:46-49 | When no key is shared, the concatenation of ambient and own dimensions is a PHP array, and the merge equals it. |
| `PhpArrays.ArrayMergePairs` | src/MetricsDriver.php:214-219 | `array_merge` of lists of two elements has twice as many elements. Elements 2i and 2i+1 are the two elements of list i. |
| `Metrics.Metric` | src/Metric.php:22-28 | The constructor stores name, value, unit and dimensions unchanged; the object is never modified afterwards, so it is a value. |
| `Metrics.Count` | src/Metric.php:30-33 | `count` builds a metric with unit `Count`. Name, value and dimensions are stored unchanged. |
| `Metrics.Millis` | src/Metric.php:35-38 | `millis` builds a metric with unit `Milliseconds`. Name, value and dimensions are stored unchanged. |
| `Metrics.LimitString` | src/Metric.php:66-74 | The result is a prefix of the input and at most 255 long. An input of at most 255 is unchanged, and a longer one becomes exactly its first 255 characters. |
| `Metrics.ClientDimensions` | src/Metric.php:53-64 | The rendered dimensions as a value: entry i of the array becomes `{Name: key i, Value: limitString(value i)}`. |
| `Metrics.ToClientDimensions` | src/Metric.php:53-64 | The `foreach` loop yields one `{Name, Value}` per entry, in order. Each `Name` is its key and each `Value` is the capped value. |
| `Metrics.ToClientArray` | src/Metric.php:40-51 | `MetricName`, `Value` and `Unit` are the metric's own, whatever the ambient dimensions. `Dimensions` is present. |
| `Metrics.ToClientArrayDimensions` | src/Metric.php:40-62 | There is one rendered dimension per distinct merged key. Names are in merge order (ambient first, then own-only). Every value is at most 255 characters. |
| `Metrics.ToClientArrayValue` | src/Metric.php:46-60 | Each rendered dimension's name is a merged key. Its value is the capped own value when the metric has the key, otherwise the capped ambient value. |
| `Driver.Falsy` | src/MetricsDriver.php:65 | The PHP truth test `?:` applies to a string or `null`: `null`, `""` and `"0"` are false. |
| `Driver.NamespaceFor` | src/MetricsDriver.php:65 | The namespace is the argument unless the argument is PHP-falsy (`null`, `""`, `"0"`). Then it is `'PMG/Queue'`. It is never empty. |
| `Driver.DimensionsFor` | src/MetricsDriver.php:229-235 | The ambient dimensions are exactly `QueueName` then `MessageName`. `MessageName` is the message's name, or `'__none__'` with no message. |
| `Driver.Undimensioned` | src/MetricsDriver.php:215-216 | The twin without dimensions carries the metric's name, value and unit and no `Dimensions` key. This drops the metric's own dimensions too. |
| `Driver.Twin` | src/MetricsDriver.php:214-218 | The closure passed to `array_map`: the metric's `toClientArray()` with `Dimensions` unset, then its `toClientArray($dimensions)`. |
| `Driver.MetricData` | src/MetricsDriver.php:214-219 | The `MetricData` value: `array_merge` of `Twin` applied to every metric, in order. |
| `Driver.MetricDataShape` | src/MetricsDriver.php:207-220 | `MetricData` has exactly 2 × (number of metrics) records. Record 2i is metric i without dimensions, and record 2i+1 is metric i rendered with the ambient dimensions. |
| `Driver.MetricDataPaired` | src/MetricsDriver.php:214-219 | Every `MetricData` is `Paired`: the undimensioned record comes first, then the dimensioned one, for the same measurement. |
| `Driver.RenderedAfterAmbient` | src/MetricsDriver.php:209-218 | A metric whose own keys are not `QueueName`/`MessageName` renders its dimensions as `QueueName`, then `MessageName`, then its own. |
| `Driver.DriverErrorMetrics` | src/MetricsDriver.php:169-171 | The one metric of a driver error: `Count('DriverError', 1)` with dimension `ErrorClass` = the error's class. |
| `Driver.FinishedMetrics` | src/MetricsDriver.php:176-185 | `Count("Message{Type}", 1)`, followed, when a start time is recorded, by `Millis('MessageTime', now - start)` with dimension `MessageStatus` = Type. |
| `Driver.DriverErrorData` | src/MetricsDriver.php:167-172 | A driver error sends exactly 2 records, both `DriverError` Count 1. One has no dimensions. The other has `QueueName`, `MessageName` and `ErrorClass` = the error class. |
| `Driver.CountData` | src/MetricsDriver.php:82-84 | An enqueue, a dequeue or an untimed finish sends exactly 2 records of its Count-1 metric. One has no dimensions, and one has `QueueName` and `MessageName`. |
| `Driver.FinishedTimedData` | src/MetricsDriver.php:174-187 | A finish with a recorded start sends 4 records: `Message{Type}` twice, then `MessageTime` = now − start (Milliseconds) twice. The dimensioned `MessageTime` carries `MessageStatus` = Type. |
| `Driver.FinishedUntimedData` | src/MetricsDriver.php:174-187 | A finish with no recorded start sends only `Message{Type}`, twice: no `MessageTime`. |
| `Driver.MetricsDriver.constructor` | src/MetricsDriver.php:57-68 | The namespace is the argument or the default. `startTimes` starts empty, with no requests and no log calls, and the invariant holds. |
| `Driver.MetricsDriver.Enqueue` | src/MetricsDriver.php:73-87 | Appends one request: `MessageEnqueue` on success, `DriverError` on error. Returns the driver's outcome unchanged and leaves `startTimes` alone. |
| `Driver.MetricsDriver.Dequeue` | src/MetricsDriver.php:92-114 | A `null` result changes nothing and submits nothing. A message submits `MessageDequeue` and sets `startTimes[id] = now`. An error submits `DriverError` with `'__none__'` and leaves `startTimes` alone. The driver's outcome is returned unchanged. |
| `Driver.MetricsDriver.Ack` | src/MetricsDriver.php:119-131 | On success it submits the finished metrics for `Success` and removes the entry. On error it submits `DriverError` and leaves `startTimes` alone. It returns the wrapped driver's outcome unchanged, whatever its value type. |
| `Driver.MetricsDriver.Retry` | src/MetricsDriver.php:136-148 | This is Ack with Type `Retry`. It returns the wrapped driver's envelope unchanged. |
| `Driver.MetricsDriver.Fail` | src/MetricsDriver.php:153-165 | This is Ack with Type `Failure`. It returns the wrapped driver's outcome unchanged, whatever its value type. |
| `Driver.MetricsDriver.TrackDriverError` | src/MetricsDriver.php:167-172 | Submits the one-metric `DriverError` batch, which has `ErrorClass`. |
| `Driver.MetricsDriver.TrackMessageFinished` | src/MetricsDriver.php:174-188 | Submits `Message{Type}`, plus `MessageTime` when an entry exists. Afterwards the envelope has no entry, and with no entry the map is unchanged. |
| `Driver.MetricsDriver.TrackMetrics` | src/MetricsDriver.php:207-227 | Appends one request with the namespace and the paired `MetricData`. On a sink failure the logger is called exactly once. Nothing propagates, and the invariant is kept. |

## Left out

- `release`: the decorator in `src/MetricsDriver.php` has no such method, so the model has none.
- CloudWatch transport: the `CloudWatchClient`, `putMetricData` and `AwsException` are foreign code. A submission is a recorded request that succeeds or fails.
- Other exceptions: only `AwsException` is caught at src/MetricsDriver.php:221. Other exceptions thrown by the client would propagate, and the model does not represent them.
- Non-`DriverError` exceptions from the wrapped driver: these skip the metric and propagate. `Outcome.Err` models only `DriverError`.
- Logger: the template and context at src/MetricsDriver.php:222-225 are left out. Only the number of logger calls is modelled.
- `Driver.FinishedTimedData`: `MessageTime` is `round(microtime(true) * 1000 - start, 1)` in floating point. The model uses an integer clock, so the value is exactly `now - start`.
- `Metrics.Metric`: metric values are integers here. PHP accepts any number.
- `Metrics.LimitString`: PHP's `substr` counts bytes, and the model counts characters. The two agree on single-byte text.
- `Metrics.LimitString`: before PHP 7.0, `substr("", 0, 255)` returns `false`, not `""`. The model returns the empty string, as PHP 7.0 and later do.
- `PhpArrays.ArrayReplace`: PHP turns integer-like string keys such as `"42"` into integer keys. The model keeps every key a string.
- Envelopes and messages: `$envelope->unwrap()` and `$msg->getName()` belong to `pmg/queue`. An envelope carries its message, and a message carries its name.
- Concurrency on `startTimes`: the decorator is single-threaded by design.
- The PHPUnit tests: `DequeueScenario`, `FinishTwiceScenario` and `SinkFailureScenario` restate flows of the tests as verified clients, but the mocks and their setup are not modelled.
