/**
 The static telemetry configuration: which meters the exporter listens to,
 and the bucket boundaries (in seconds) of the request-duration histogram.
 */
module TelemetryConfig {
  import Metrics

  /** The meters whose instruments are exported, in registration order. */
  const ExportedMeters: seq<string> :=
    ["Microsoft.AspNetCore.Hosting", "Microsoft.AspNetCore.Server.Kestrel", "MyApp.Custom"]

  /** Every element is strictly larger than the one before it. */
  predicate StrictlyIncreasing(s: seq<real>) {
    forall i :: 0 < i < |s| ==> s[i - 1] < s[i]
  }

  /** The explicit bucket boundaries of the request-duration histogram. */
  function Boundaries(): (b: seq<real>)
    ensures |b| == 15
    ensures b[0] == 0.0 && b[14] == 10.0
    ensures StrictlyIncreasing(b)
  {
    [0.0, 0.005, 0.01, 0.025, 0.05, 0.075, 0.1, 0.25, 0.5, 0.75, 1.0, 2.5, 5.0, 7.5, 10.0]
  }

  /** A histogram view: the instrument it applies to and its explicit bucket boundaries. */
  datatype HistogramView = HistogramView(instrument: string, boundaries: seq<real>)

  /** The view registered for the request-duration histogram. */
  const DurationView: HistogramView := HistogramView("http.server.request.duration", Boundaries())

  /** Increasing step by step means increasing between any two positions. */
  lemma {:induction false} IncreasingPairwise(s: seq<real>, i: nat, j: nat)
    requires StrictlyIncreasing(s)
    requires i < j < |s|
    ensures s[i] < s[j]
    decreases j - i
  {
    if i + 1 < j {
      IncreasingPairwise(s, i + 1, j);
    }
  }

  /** Any two boundaries are ordered as their positions are, so none repeats. */
  lemma BoundariesOrdered(i: nat, j: nat)
    requires i < j < |DurationView.boundaries|
    ensures DurationView.boundaries[i] < DurationView.boundaries[j]
  {
    IncreasingPairwise(DurationView.boundaries, i, j);
  }

  /** The custom counter's meter is one of the meters the exporter listens to. */
  lemma CustomMeterExported()
    ensures Metrics.Create().meter.name in ExportedMeters
  {
  }
}
