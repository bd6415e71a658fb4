# WebMetric — a functional model of the request metrics middleware

WebMetric is a minimal ASP.NET web application. It has one greeting endpoint
and exposes request metrics for scraping. Its own logic is small:

- a middleware step that runs for every request. It classifies the
  `utm_medium` query parameter into one of five marketing-medium categories
  and attaches the category as the `mkt_medium` tag on the request-duration
  histogram, when the hosting layer offers per-request tags. It then records
  the request on a custom counter under its path and hands the request on;
- the custom counter service `LawHunterMetrics`. Its meter is
  `MyApp.Custom` 1.0.0, and it owns one counter, `myapp.custom.request_count`.
  Each request adds 1 to the series labelled `endpoint=<path>`;
- a greeting body made of a fixed text and the last three characters of the
  current tick count;
- static configuration: the meters the exporter listens to and the 15
  bucket boundaries of the `http.server.request.duration` histogram.

The model is pure. A counter is an immutable value: a map from label lists to
natural-number totals. The middleware step is a list of effects (`Plan`), and
`Run` performs those effects one after another on the counter and the request.

| module | file | models |
|---|---|---|
| `Classifier` | `classifier.dfy` | the `utm_medium` switch and the tag values |
| `Metrics` | `metrics.dfy` | `LawHunterMetrics`: meter and instrument names, `RegisterRequest` |
| `Middleware` | `middleware.dfy` | the per-request step: tag, register, forward |
| `Greeting` | `greeting.dfy` | the body of `GET /` |
| `TelemetryConfig` | `telemetry_config.dfy` | exported meters, histogram boundaries |

Three points about the code are easy to miss:

- `RegisterRequest` records only the `endpoint` label. The `mkt_medium` tag
  goes on the built-in duration histogram through the tags feature, not on
  the custom counter.
- The body takes the last three characters of the tick count with `[^3..]`.
  That range throws on a string shorter than three characters, so a tick
  count below 100 gives an error rather than a body. `Greeting.TicksBody`
  states both cases. The clock's real tick counts are far above 100.
- The switch runs only inside the branch where the tags feature is present.
  Without the feature, the query value is never read.

One consequence of the switch is worth noting: the query value `none` is
tagged `other`. Only the empty value is tagged `none` (`Classifier.ClassifyLabel`).

## Model

| member | source | states |
|---|---|---|
| Classifier.Classify | WebMetric/Program.cs:36-43 | each of the four named values, and nothing else, gives its own category; every other string gives Other |
| Classifier.Label | WebMetric/Program.cs:38-42 | every category is written as one of the five labels none, social, email, organic, other |
| Classifier.TagValue | WebMetric/Program.cs:36-43 | the tag value is always one of the five labels; empty gives "none", social/email/organic give themselves, anything else gives "other" |
| Classifier.Lookup | WebMetric/Program.cs:36-43 | a first-match lookup in the table of named values, falling back to Other, agrees with the switch on every string |
| Classifier.LabelInjective | WebMetric/Program.cs:38-42 | two categories have the same label exactly when they are equal |
| Classifier.ClassifyLabel | WebMetric/Program.cs:36-43 | classifying a label gives back its category, except "none", which is classified Other |
| Metrics.Create | WebMetric/Metrics.cs:7-11 | a new counter carries meter MyApp.Custom 1.0.0 and instrument myapp.custom.request_count, and every series is 0 |
| Metrics.EndpointLabels | WebMetric/Metrics.cs:15 | a request sample carries exactly one label, with key endpoint and the path as value |
| Metrics.Add | WebMetric/Metrics.cs:15 | recording a sample raises its own series by the delta, changes no other series, and keeps the names |
| Metrics.RegisterRequest | WebMetric/Metrics.cs:13-16 | the path's count rises by exactly 1; no other series or path count changes; no total decreases; the names are kept |
| Metrics.SampleLabels | WebMetric/Metrics.cs:15 | any series a request changes has exactly one label, endpoint=path |
| Metrics.RegisterManyCount | WebMetric/Metrics.cs:13-16 | n successive requests to a path raise its count by exactly n and leave every other series unchanged |
| Metrics.ReplayCount | WebMetric/Metrics.cs:13-16 | after any run of requests, each path's count has grown by the number of requests to that path |
| Metrics.ReplayMonotone | WebMetric/Metrics.cs:5-16 | over any run of requests no total decreases, and the meter and instrument names never change |
| Middleware.QueryText | WebMetric/Program.cs:36 | the parameter's text is empty exactly when it has no non-empty value under any case of its key; one non-empty value reads as itself; several read as text containing a comma |
| Middleware.MediumTag | WebMetric/Program.cs:36-44 | the added tag has key mkt_medium and one of the five labels as value: none when utm_medium has no non-empty value, the classification of the value when it has one, other when it has several |
| Middleware.EmptyValueSkipped | WebMetric/Program.cs:36-44 | a query with an empty utm_medium and a UTM_MEDIUM=social entry is tagged social |
| Middleware.Plan | WebMetric/Program.cs:31-52 | the step is three effects when tags are supported and two otherwise: the tag first, then registering the request path, then forwarding |
| Middleware.PlanOrder | WebMetric/Program.cs:33-51 | forwarding happens once and last; registration happens once and right before it; a tag is added once and first, and only when the feature is present |
| Middleware.Handle | WebMetric/Program.cs:31-52 | after the step the request is forwarded; with the feature, exactly one mkt_medium tag is appended to its tags; without it, the feature stays absent; the counter has recorded the path once |
| Middleware.ServeRecordsPaths | WebMetric/Program.cs:48-51 | serving a run of requests leaves the counter as if the request paths were registered in arrival order, whatever their tags feature |
| Middleware.ServeCount | WebMetric/Program.cs:48-49 | after serving any run of requests, each path's count has grown by exactly the number of requests to that path |
| Greeting.Decimal | WebMetric/Program.cs:29 | the rendered tick count is a non-empty string of decimal digits |
| Greeting.Body | WebMetric/Program.cs:29 | a string shorter than three characters gives a range error; otherwise the body is the greeting followed by three characters that end the tick string |
| Greeting.DecimalLength | WebMetric/Program.cs:29 | the tick count has at least three digits exactly when it is at least 100 |
| Greeting.LastThree | WebMetric/Program.cs:29 | the last three characters of a count of at least 100 are its hundreds, tens and units digits |
| Greeting.TicksBody | WebMetric/Program.cs:29 | the body is the greeting followed by the last three digits of the tick count, and a count below 100 gives a range error |
| TelemetryConfig.Boundaries | WebMetric/Program.cs:17-22 | the duration histogram has 15 boundaries, starting at 0 and ending at 10 seconds, each larger than the one before |
| TelemetryConfig.BoundariesOrdered | WebMetric/Program.cs:17-21 | any two boundaries of the http.server.request.duration view are ordered as their positions are, so no boundary repeats |
| TelemetryConfig.CustomMeterExported | WebMetric/Program.cs:13-15 | the custom counter's meter is one of the meters the exporter listens to |

## Left out

- The Prometheus exporter, the scrape endpoint and the exposition format. They are library code.
- The ASP.NET pipeline, the lookup of `LawHunterMetrics` through dependency injection, and `IHttpMetricsTagsFeature` beyond its tag list. The feature is a value that is either absent or a list of tags.
- The next pipeline stage and the `async`/`await` around it. Forwarding only marks the request as handed on, and the model does not follow what the next stage does.
- Atomicity of concurrent counter increments. This belongs to the metrics library. The counter is a sequential value, so the count property is stated for requests served one after another.
- Histogram recording and latency measurement. Only the histogram's configuration is modelled.
- The boundaries as IEEE doubles. They are exact decimal `real` values, and their ordering is the same.
- `DateTime.Now`: the tick count is a parameter. Its rendering is plain decimal for a non-negative count. The culture-dependent formatting of `long.ToString` is not modelled.
- Metrics.RegisterRequest: totals are unbounded natural numbers. The exported sum of the increments is assumed never to overflow.
- Middleware.QueryText: the query collection is framework code. The model follows its rendering: keys match regardless of case, empty values are skipped, and the remaining values are joined with commas. Case folding covers ASCII letters only. Other case mappings of the framework's case-insensitive key comparison are not modelled.
- Middleware.Handle: the request path is a string. The `PathString` to `string` conversion of the framework is not modelled.
- Metrics.Add: a tag's value is a string, while the source uses an object-typed value. Only strings are ever passed.
