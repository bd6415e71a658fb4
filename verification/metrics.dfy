/**
 The custom request counter: a meter named "MyApp.Custom" (version "1.0.0")
 owning one counter instrument, "myapp.custom.request_count". Every request
 adds 1 to the series labelled `endpoint=<request path>`.

 The counter's aggregate state is a map from label lists to totals; a label
 list that was never recorded has total 0.
 */
module Metrics {

  /** A key/value annotation on a sample or on a request measurement. */
  datatype Tag = Tag(key: string, value: string)

  /** The meter the counter belongs to. */
  datatype Meter = Meter(name: string, version: string)

  /** A counter instrument and the totals it has aggregated per label list. */
  datatype Counter = Counter(meter: Meter, name: string, totals: map<seq<Tag>, nat>)

  const MeterName: string := "MyApp.Custom"
  const MeterVersion: string := "1.0.0"
  const InstrumentName: string := "myapp.custom.request_count"
  const EndpointKey: string := "endpoint"

  /** The counter carries the names fixed when the metrics service is built. */
  predicate Configured(c: Counter) {
    c.meter == Meter(MeterName, MeterVersion) && c.name == InstrumentName
  }

  /** The aggregated total of one series; 0 for a series never recorded. */
  function Total(c: Counter, labels: seq<Tag>): nat {
    if labels in c.totals then c.totals[labels] else 0
  }

  /** The label list of a request sample: the single label `endpoint=path`. */
  function EndpointLabels(path: string): (labels: seq<Tag>)
    ensures |labels| == 1
    ensures labels[0].key == EndpointKey && labels[0].value == path
  {
    [Tag(EndpointKey, path)]
  }

  /** The number of requests recorded for one endpoint path. */
  function Count(c: Counter, path: string): nat {
    Total(c, EndpointLabels(path))
  }

  /** The counter the metrics service creates: the fixed names, nothing recorded. */
  function Create(): (c: Counter)
    ensures Configured(c)
    ensures forall labels :: Total(c, labels) == 0
  {
    Counter(Meter(MeterName, MeterVersion), InstrumentName, map[])
  }

  /** Recording a sample of `delta` with the given labels. */
  function Add(c: Counter, delta: nat, labels: seq<Tag>): (c': Counter)
    ensures c'.meter == c.meter && c'.name == c.name
    ensures Total(c', labels) == Total(c, labels) + delta
    ensures forall other :: other != labels ==> Total(c', other) == Total(c, other)
  {
    c.(totals := c.totals[labels := Total(c, labels) + delta])
  }

  /** `RegisterRequest(path)`: adds 1 with the label `endpoint=path`. */
  function RegisterRequest(c: Counter, path: string): (c': Counter)
    ensures c'.meter == c.meter && c'.name == c.name
    ensures Count(c', path) == Count(c, path) + 1
    ensures forall labels :: labels != EndpointLabels(path) ==> Total(c', labels) == Total(c, labels)
    ensures forall p :: p != path ==> Count(c', p) == Count(c, p)
    ensures forall labels :: Total(c, labels) <= Total(c', labels)
  {
    Add(c, 1, EndpointLabels(path))
  }

  /**
   The only series a request changes carries exactly one label, `endpoint`,
   whose value is the request path.
   */
  lemma SampleLabels(c: Counter, path: string, labels: seq<Tag>)
    requires Total(RegisterRequest(c, path), labels) != Total(c, labels)
    ensures |labels| == 1 && labels[0] == Tag(EndpointKey, path)
  {
  }

  /** `n` requests in a row to the same path. */
  function RegisterMany(c: Counter, path: string, n: nat): Counter
    decreases n
  {
    if n == 0 then c else RegisterRequest(RegisterMany(c, path, n - 1), path)
  }

  /** `n` successive requests to a path raise its count by exactly `n` and no other. */
  lemma {:induction false} RegisterManyCount(c: Counter, path: string, n: nat)
    ensures Count(RegisterMany(c, path, n), path) == Count(c, path) + n
    ensures forall labels :: labels != EndpointLabels(path) ==> Total(RegisterMany(c, path, n), labels) == Total(c, labels)
    decreases n
  {
    if n > 0 {
      RegisterManyCount(c, path, n - 1);
    }
  }

  /** The requests of a run, in arrival order, recorded one after another. */
  function Replay(c: Counter, paths: seq<string>): Counter
    decreases |paths|
  {
    if |paths| == 0 then c
    else RegisterRequest(Replay(c, paths[..|paths| - 1]), paths[|paths| - 1])
  }

  /**
   After a run of requests the count of every path has grown by exactly the
   number of requests to that path: no increment is lost or duplicated.
   */
  lemma {:induction false} ReplayCount(c: Counter, paths: seq<string>, path: string)
    ensures Count(Replay(c, paths), path) == Count(c, path) + multiset(paths)[path]
    decreases |paths|
  {
    if |paths| > 0 {
      var prefix, last := paths[..|paths| - 1], paths[|paths| - 1];
      assert paths == prefix + [last];
      ReplayCount(c, prefix, path);
    }
  }

  /**
   Totals never decrease and the names never change, over any run of
   requests: the only operation adds a positive constant.
   */
  lemma {:induction false} ReplayMonotone(c: Counter, paths: seq<string>)
    ensures forall labels :: Total(c, labels) <= Total(Replay(c, paths), labels)
    ensures Configured(c) ==> Configured(Replay(c, paths))
    decreases |paths|
  {
    if |paths| > 0 {
      ReplayMonotone(c, paths[..|paths| - 1]);
    }
  }
}
