/**
 * `Metric`: one named, valued, unit-tagged and dimensioned measurement, and
 * its rendering as a CloudWatch `MetricData` entry.
 */
module Metrics {
  import opened Wrappers
  import opened PhpArrays

  /** CloudWatch accepts at most this many characters in a dimension value. */
  const MAX_DIMENSION_LENGTH := 255

  const COUNT := "Count"
  const MILLISECONDS := "Milliseconds"

  /** An immutable metric; its dimensions may be empty. */
  datatype Metric = Metric(name: string, value: int, unit: string, dimensions: StringMap)

  /** One `{Name, Value}` entry of a rendered metric's `Dimensions`. */
  datatype Dimension = Dimension(name: string, value: string)

  /**
   * A rendered metric. `dimensions` is `None` when the `Dimensions` key is
   * absent from the record.
   */
  datatype Datum = Datum(metricName: string, value: int, unit: string, dimensions: Option<seq<Dimension>>)

  /** `Metric::count`: a metric whose unit is `Count`. */
  function Count(name: string, value: int, dimensions: StringMap): (m: Metric)
    ensures m.unit == COUNT
    ensures m.name == name && m.value == value && m.dimensions == dimensions
  {
    Metric(name, value, COUNT, dimensions)
  }

  /** `Metric::millis`: a metric whose unit is `Milliseconds`. */
  function Millis(name: string, value: int, dimensions: StringMap): (m: Metric)
    ensures m.unit == MILLISECONDS
    ensures m.name == name && m.value == value && m.dimensions == dimensions
  {
    Metric(name, value, MILLISECONDS, dimensions)
  }

  /** `substr($in, 0, 255)`: the longest prefix of `s` within the cap. */
  function LimitString(s: string): (r: string)
    ensures |r| <= MAX_DIMENSION_LENGTH
    ensures r <= s
    ensures |s| <= MAX_DIMENSION_LENGTH ==> r == s
    ensures |s| > MAX_DIMENSION_LENGTH ==> |r| == MAX_DIMENSION_LENGTH
  {
    if |s| <= MAX_DIMENSION_LENGTH then s else s[..MAX_DIMENSION_LENGTH]
  }

  /** `toClientDimensions`: one `{Name, Value}` per entry, values capped. */
  function ClientDimensions(kvs: StringMap): seq<Dimension>
  {
    seq(|kvs|, i requires 0 <= i < |kvs| => Dimension(kvs[i].0, LimitString(kvs[i].1)))
  }

  /** The `foreach` loop of `toClientDimensions`, appending one pair per entry. */
  method ToClientDimensions(kvs: StringMap) returns (out: seq<Dimension>)
    ensures |out| == |kvs|
    ensures forall i :: 0 <= i < |kvs| ==>
      out[i].name == kvs[i].0 && out[i].value == LimitString(kvs[i].1)
    ensures out == ClientDimensions(kvs)
  {
    out := [];
    for i := 0 to |kvs|
      invariant |out| == i
      invariant forall j :: 0 <= j < i ==> out[j] == Dimension(kvs[j].0, LimitString(kvs[j].1))
    {
      out := out + [Dimension(kvs[i].0, LimitString(kvs[i].1))];
    }
  }

  /** Rendering distributes over concatenated dimension lists. */
  lemma ClientDimensionsConcat(a: StringMap, b: StringMap)
    requires UniqueKeys(a + b)
    ensures ClientDimensions(a + b) == ClientDimensions(a) + ClientDimensions(b)
  {
    var ab: StringMap := a + b;
    forall i | |a| <= i < |ab| ensures ClientDimensions(ab)[i] == ClientDimensions(b)[i - |a|] {
      assert ab[i] == b[i - |a|];
    }
  }

  /** The names of rendered dimensions, in order. */
  function Names(ds: seq<Dimension>): (ns: seq<string>)
    ensures |ns| == |ds|
  {
    seq(|ds|, i requires 0 <= i < |ds| => ds[i].name)
  }

  /**
   * `toClientArray($ambient)`: the metric's own dimensions replace the
   * ambient ones (`array_replace`) and the result is rendered.
   */
  function ToClientArray(m: Metric, ambient: StringMap): (d: Datum)
    ensures d.metricName == m.name && d.value == m.value && d.unit == m.unit
    ensures d.dimensions.Some?
  {
    Datum(m.name, m.value, m.unit, Some(ClientDimensions(ArrayReplace(ambient, m.dimensions))))
  }

  /**
   * The rendered dimensions: one per distinct key of the ambient and own
   * dimensions; ambient keys first in their order, then the keys only the
   * metric has, in its order; each value a capped prefix of the source value.
   */
  lemma ToClientArrayDimensions(m: Metric, ambient: StringMap)
    ensures var ds := ToClientArray(m, ambient).dimensions.value;
      && |ds| == |KeySet(ambient) + KeySet(m.dimensions)|
      && Names(ds) == Keys(ambient) + Keys(Appended(m.dimensions, KeySet(ambient)))
      && (forall i :: 0 <= i < |ds| ==> |ds[i].value| <= MAX_DIMENSION_LENGTH)
  {
    var merged := ArrayReplace(ambient, m.dimensions);
    ArrayReplaceKeys(ambient, m.dimensions);
    ArrayReplaceOrder(ambient, m.dimensions);
    assert Names(ClientDimensions(merged)) == Keys(merged);
  }

  /**
   * The rendered value of each dimension: the metric's own value wins a key
   * both have, an ambient-only key keeps its ambient value, both capped.
   */
  lemma ToClientArrayValue(m: Metric, ambient: StringMap, i: nat)
    requires i < |ToClientArray(m, ambient).dimensions.value|
    ensures var dim := ToClientArray(m, ambient).dimensions.value[i];
      && dim.name in KeySet(ambient) + KeySet(m.dimensions)
      && dim.value == LimitString(
           if dim.name in KeySet(m.dimensions) then Get(m.dimensions, dim.name).value
           else Get(ambient, dim.name).value)
  {
    var merged := ArrayReplace(ambient, m.dimensions);
    var k := merged[i].0;
    ArrayReplaceGet(ambient, m.dimensions, k);
    assert Get(merged, k) == Some(merged[i].1);
  }
}
