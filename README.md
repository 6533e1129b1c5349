# otel-collector-mcp diagnostic engine, modelled in Dafny

This project models the diagnostic core of otel-collector-mcp, an MCP server
that inspects OpenTelemetry Collector deployments in a Kubernetes cluster, and
proves properties of the model. It covers:

- **Configuration model and rule catalog** (`pkg/collector/config.go`,
  `pkg/analysis`). The parsed collector configuration is a datatype whose
  component bodies are a tagged tree (`ConfigTree`, `Collector`). Each of the
  eleven configuration rules and the log rule is a loop over Go maps, modelled
  as a method that visits the keys in an arbitrary order. Each one is proved to
  return, as a multiset, exactly the findings of a specification fold over the
  map (`Bags`). Lemmas about that fold then state the rule's promises: which
  inputs are reported, how often, with which severity and category, and how
  many findings there are. `Catalog` lists the rules in the source's order.
- **Log classification** (`pkg/collector/logs.go`, the two log tools). There
  are two ordered substring taxonomies over the lower-cased line, where the
  first match wins. The tools then map each category to a severity.
- **Deployment-mode resolver and collector listing**
  (`pkg/collector/detect.go`). The resolver is an ordered probe chain over the
  set of lookups that succeed. The listing deduplicates by `namespace/name`,
  and the first candidate wins.
- **Feature discovery** (`pkg/discovery/discovery.go`). A `Features` class
  holds the two flags, readiness and the calls made to the change callback. A
  specification state machine proves that readiness is never withdrawn, that
  the flags are those of the last successful listing, and that over any run of
  re-checks the callback fires exactly once per change of the pair, with the
  new pair.
- **Triage and configuration check** (`pkg/tools/tool_triage.go`,
  `pkg/tools/tool_check_config.go`). Every rule runs behind a fault boundary,
  and a faulting rule contributes one placeholder finding. The collected
  findings are sorted in place by severity rank with an insertion sort. The
  proof shows the sorted findings are a permutation of the input, ordered by
  rank. No order among equal ranks is promised.
- **Tool and skill registries, the two skills and the server's request
  handling** (`pkg/tools/registry.go`, `pkg/skills`, `pkg/mcp/server.go`).
  The registries are classes over a map. The architecture recommender and the
  OTTL generator are decision tables plus text assembly; the transform
  configuration text is proved to list every statement, in order. For the
  server, the model covers routing, the reply to a tool call, readiness,
  truncation and the `_meta` carrier.

Kubernetes calls, the YAML decoder, the regular-expression compiler,
`json.Marshal` and a tool's `Run` are inputs: either the outcome of the call,
or an abstract function passed in. A rule fault is an input too, given as the
set of rules that fault on this run.

The collector log taxonomy tries OTTL, then exporter, then OOM, then
receiver, then processor, in that order (`pkg/collector/logs.go:89-105`).
`sortFindings` uses `sort.Slice`, which is not stable
(`pkg/tools/tool_triage.go:141`), so the model proves only that the sorted
findings are a permutation of the input, ordered by severity.

## Model

| member | source | states |
|---|---|---|
| MissingBatch.AnalyzeMissingBatch | pkg/analysis/analyzer_missing_batch.go:11-38 | no configuration gives no findings; otherwise the findings, as a multiset, are exactly one per pipeline without a batch processor |
| MissingBatch.CheckPipeline | pkg/analysis/analyzer_missing_batch.go:17-35 | one pipeline contributes its finding exactly when no processor is `batch` or `batch/…` |
| MissingBatch.JoinProcessors | pkg/analysis/analyzer_missing_batch.go:40-49 | the processor names separated by `, `; the empty text for no processors |
| MissingBatch.BatchFindingInjective | pkg/analysis/analyzer_missing_batch.go:22 | findings for two pipelines are equal only when the pipelines are the same |
| MissingBatch.RemediationNamesPipeline | pkg/analysis/analyzer_missing_batch.go:25-33 | the remediation snippet is non-empty and names the pipeline |
| MissingBatch.FindingsAreWarnings | pkg/analysis/analyzer_missing_batch.go:19-24 | every finding is a performance warning whose summary names a declared pipeline |
| MissingBatch.OneFindingPerUnbatchedPipeline | pkg/analysis/analyzer_missing_batch.go:17-18 | a pipeline gets exactly one finding when it lacks batch and none when it has it |
| MissingBatch.CountIsUnbatchedPipelines | pkg/analysis/analyzer_missing_batch.go:17-37 | the number of findings equals the number of pipelines without batch |
| MissingBatch.TwoPipelinesOneFinding | pkg/analysis/analyzer_missing_batch.go:17-37 | with `traces` batched and `metrics` not, there is exactly one finding |
| MissingMemoryLimiter.AnalyzeMissingMemoryLimiter | pkg/analysis/analyzer_missing_memory_limiter.go:11-39 | no configuration gives no findings; otherwise exactly one finding per pipeline without a memory limiter |
| MissingMemoryLimiter.CheckPipeline | pkg/analysis/analyzer_missing_memory_limiter.go:17-36 | one pipeline contributes its finding exactly when no processor is `memory_limiter` or `memory_limiter/…` |
| MissingMemoryLimiter.LimiterFindingInjective | pkg/analysis/analyzer_missing_memory_limiter.go:22 | findings for two pipelines are equal only when the pipelines are the same |
| MissingMemoryLimiter.FindingsAreCritical | pkg/analysis/analyzer_missing_memory_limiter.go:19-24 | every finding is a critical performance finding whose summary names a declared pipeline |
| MissingMemoryLimiter.OneFindingPerUnlimitedPipeline | pkg/analysis/analyzer_missing_memory_limiter.go:17-18 | a pipeline gets exactly one finding when it lacks a memory limiter and none otherwise |
| MissingMemoryLimiter.CountIsUnlimitedPipelines | pkg/analysis/analyzer_missing_memory_limiter.go:17-38 | the number of findings equals the number of pipelines without a memory limiter |
| MissingMemoryLimiter.AddingLimiterRemovesFinding | pkg/analysis/analyzer_missing_memory_limiter.go:18 | adding `memory_limiter` or `memory_limiter/<name>` to a pipeline removes its finding |
| MissingRetryQueue.AnalyzeMissingRetryQueue | pkg/analysis/analyzer_missing_retry_queue.go:11-60 | no configuration gives no findings; otherwise the findings are those of every map-valued exporter, as a multiset |
| MissingRetryQueue.CheckExporter | pkg/analysis/analyzer_missing_retry_queue.go:18-57 | one exporter: a non-map body is skipped, otherwise a retry warning without `retry_on_failure` and a queue warning without `sending_queue` |
| MissingRetryQueue.FindingsDistinct | pkg/analysis/analyzer_missing_retry_queue.go:30-47 | a retry warning never equals a queue warning, and each determines its exporter |
| MissingRetryQueue.FindingsMeanMissingKeys | pkg/analysis/analyzer_missing_retry_queue.go:26-57 | every finding is a performance warning about a map-valued exporter lacking the key it names |
| MissingRetryQueue.RetryFindingCount | pkg/analysis/analyzer_missing_retry_queue.go:23-41 | an exporter gets exactly one retry warning when it lacks `retry_on_failure`, none otherwise |
| MissingRetryQueue.QueueFindingCount | pkg/analysis/analyzer_missing_retry_queue.go:24-57 | an exporter gets exactly one queue warning when it lacks `sending_queue`, none otherwise |
| MissingRetryQueue.OnlyKeyPresenceMatters | pkg/analysis/analyzer_missing_retry_queue.go:23-24 | two bodies with the same two keys present give the same findings, whatever they hold |
| MissingRetryQueue.PerExporterBound | pkg/analysis/analyzer_missing_retry_queue.go:26-57 | an exporter yields at most two findings, and none when it has both keys |
| MissingRetryQueue.AtMostTwoPerExporter | pkg/analysis/analyzer_missing_retry_queue.go:17-58 | the rule yields at most twice as many findings as there are exporters |
| ConnectorMisconfig.AnalyzeConnectorMisconfig | pkg/analysis/analyzer_connector_misconfig.go:11-70 | no configuration or no connectors gives no findings; otherwise the findings are those of every declared connector, as a multiset |
| ConnectorMisconfig.CheckConnector | pkg/analysis/analyzer_connector_misconfig.go:25-66 | one connector contributes the finding its two usage flags select, or none |
| ConnectorMisconfig.UsageFlags | pkg/analysis/analyzer_connector_misconfig.go:26-40 | the flags hold exactly when some pipeline exports to, respectively receives from, the connector |
| ConnectorMisconfig.ScanPipeline | pkg/analysis/analyzer_connector_misconfig.go:30-39 | one pipeline sets a flag exactly when the connector is among its exporters, respectively receivers |
| ConnectorMisconfig.MisuseFindingInjective | pkg/analysis/analyzer_connector_misconfig.go:46-62 | a finding determines its connector and which of the three misuses it reports |
| ConnectorMisconfig.FindingsAreMisusedConnectors | pkg/analysis/analyzer_connector_misconfig.go:42-66 | every finding is a configuration warning about a declared connector misused in the way it names |
| ConnectorMisconfig.CountOfMisuse | pkg/analysis/analyzer_connector_misconfig.go:25-67 | a finding about a connector occurs once when that connector is misused that way, and never otherwise |
| ConnectorMisconfig.FindingForConnector | pkg/analysis/analyzer_connector_misconfig.go:42-66 | "not used in any pipeline" iff used in neither role; "not used as an exporter" iff only a receiver; "not used as a receiver" iff only an exporter |
| ConnectorMisconfig.AtMostOnePerConnector | pkg/analysis/analyzer_connector_misconfig.go:25-67 | there are never more findings than declared connectors |
| ConnectorMisconfig.BothRolesInOnePipeline | pkg/analysis/analyzer_connector_misconfig.go:29-40 | a connector that one pipeline both receives from and exports to is not reported, although no second pipeline exists |
| CumulativeDelta.SummaryTextNamesBoth | pkg/analysis/analyzer_cumulative_delta.go:25 | the summary mentions both the pipeline and the deployment mode |
| CumulativeDelta.SummaryTextInjective | pkg/analysis/analyzer_cumulative_delta.go:25 | different pipelines get different summaries under the same mode |
| CumulativeDelta.AnalyzeCumulativeDelta | pkg/analysis/analyzer_cumulative_delta.go:12-37 | no configuration gives no findings; otherwise one finding per pipeline with `cumulativetodelta` when the mode is Deployment or DaemonSet |
| CumulativeDelta.CheckPipeline | pkg/analysis/analyzer_cumulative_delta.go:20-33 | one pipeline contributes a finding exactly when it converts to delta under a Deployment or DaemonSet |
| CumulativeDelta.StatefulModesAreQuiet | pkg/analysis/analyzer_cumulative_delta.go:21 | StatefulSet, operator CRD and unknown modes give no findings |
| CumulativeDelta.FindingsNamePipelineAndMode | pkg/analysis/analyzer_cumulative_delta.go:22-31 | every finding is a configuration warning naming a delta-converting pipeline and the mode |
| CumulativeDelta.OneFindingPerDeltaPipeline | pkg/analysis/analyzer_cumulative_delta.go:19-21 | under a Deployment or DaemonSet a pipeline gets one finding iff it converts to delta |
| CumulativeDelta.CountIsDeltaPipelines | pkg/analysis/analyzer_cumulative_delta.go:19-36 | under a Deployment or DaemonSet the count equals the number of delta-converting pipelines |
| ExporterBackpressure.MessagesDistinct | pkg/analysis/analyzer_exporter_backpressure.go:12-23 | no two entries of the pattern table share a message |
| ExporterBackpressure.Hits | pkg/analysis/analyzer_exporter_backpressure.go:34-41 | the number of lines containing a pattern is at most the number of lines |
| ExporterBackpressure.AnalyzeExporterBackpressure | pkg/analysis/analyzer_exporter_backpressure.go:26-69 | no log lines give no findings; otherwise one finding per counted message, as a multiset |
| ExporterBackpressure.CountPatterns | pkg/analysis/analyzer_exporter_backpressure.go:32-41 | the counts map each message to the number of pattern hits over all lower-cased lines |
| ExporterBackpressure.CountLine | pkg/analysis/analyzer_exporter_backpressure.go:35-40 | one line adds, to each message, the number of table patterns of that message it contains; every stored count is positive |
| ExporterBackpressure.ReportCounts | pkg/analysis/analyzer_exporter_backpressure.go:43-66 | one finding per entry of the counts |
| ExporterBackpressure.MessageHitsNeedMessage | pkg/analysis/analyzer_exporter_backpressure.go:36-39 | only messages of the table are ever counted |
| ExporterBackpressure.CountIsPatternHits | pkg/analysis/analyzer_exporter_backpressure.go:34-41 | a message's count is the number of lines containing its pattern, at most the number of lines |
| ExporterBackpressure.FindingsArePatternsSeen | pkg/analysis/analyzer_exporter_backpressure.go:43-66 | every finding is a runtime finding whose summary is the message of a pattern seen in the logs, with that pattern's line count |
| ExporterBackpressure.CountsEntry | pkg/analysis/analyzer_exporter_backpressure.go:32-41 | each entry of the counts belongs to a table pattern and counts the lines containing it, a positive number |
| ExporterBackpressure.SeverityThreshold | pkg/analysis/analyzer_exporter_backpressure.go:44-47 | critical exactly above ten occurrences, a warning up to ten |
| ExporterBackpressure.CountsHasPattern | pkg/analysis/analyzer_exporter_backpressure.go:37-38 | a pattern some line contains has its message counted with its number of lines |
| ExporterBackpressure.SeenPatternReportedOnce | pkg/analysis/analyzer_exporter_backpressure.go:43-66 | a pattern seen in the logs gives exactly one finding |
| ExporterBackpressure.UnseenPatternSilent | pkg/analysis/analyzer_exporter_backpressure.go:37-38 | a pattern no line contains gives no finding with its message |
| ExporterBackpressure.OverlapCountsQueueFull | pkg/analysis/analyzer_exporter_backpressure.go:16-40 | the line "sending queue is full" counts once for the plain queue-full pattern |
| ExporterBackpressure.OverlapCountsSendingQueueFull | pkg/analysis/analyzer_exporter_backpressure.go:16-40 | the same line counts once for the sending-queue pattern too, so overlapping patterns are both counted |
| HardcodedTokens.AnyPatternInMeaning | pkg/analysis/analyzer_hardcoded_tokens.go:70-75 | the pattern search succeeds exactly when some pattern occurs in the lowered key |
| HardcodedTokens.IsTokenFieldMeaning | pkg/analysis/analyzer_hardcoded_tokens.go:68-76 | a key is a credential field exactly when its lower-cased form contains one of the thirteen patterns |
| HardcodedTokens.ScanMapForTokens | pkg/analysis/analyzer_hardcoded_tokens.go:35-66 | the findings are, as a multiset, those of the credential leaves of the map, nested maps entered with the dotted path |
| HardcodedTokens.ScanEntry | pkg/analysis/analyzer_hardcoded_tokens.go:39-63 | one entry: a hardcoded string under a credential key gives one finding, a map recurses, anything else gives none |
| HardcodedTokens.AnalyzeHardcodedTokens | pkg/analysis/analyzer_hardcoded_tokens.go:19-33 | no configuration gives no findings; otherwise the scans of every map-valued exporter |
| HardcodedTokens.FindingsAreHardcodedCredentials | pkg/analysis/analyzer_hardcoded_tokens.go:25-63 | a finding occurs iff a hardcoded string lies under a credential key reached from a map exporter through maps only |
| HardcodedTokens.FindingsAreCriticalSecurity | pkg/analysis/analyzer_hardcoded_tokens.go:47-59 | every finding is critical and about security, built from an exporter name and a path, never from the value |
| HardcodedTokens.HardcodedExamples | pkg/analysis/analyzer_hardcoded_tokens.go:78-88 | a `${…}` reference and the empty value are not hardcoded, a literal secret is |
| HardcodedTokens.EndpointIsNotTokenField | pkg/analysis/analyzer_hardcoded_tokens.go:12-16 | `endpoint` matches none of the credential patterns |
| HardcodedTokens.ApiKeyIsTokenField | pkg/analysis/analyzer_hardcoded_tokens.go:12-16 | `api_key` is a credential field |
| HardcodedTokens.EnvReferenceGivesNoFinding | pkg/analysis/analyzer_hardcoded_tokens.go:46-82 | an exporter whose credential is an `${env:…}` reference gives no finding |
| HardcodedTokens.LiteralKeyGivesOneCritical | pkg/analysis/analyzer_hardcoded_tokens.go:46-59 | an exporter with a literal `api_key` gives exactly one critical finding, naming the field |
| HighCardinality.ControlledMeaning | pkg/analysis/analyzer_high_cardinality.go:34-40 | a pipeline is controlled exactly when some processor starts with `filter`, `attributes` or `metricstransform` |
| HighCardinality.AnalyzeHighCardinality | pkg/analysis/analyzer_high_cardinality.go:20-67 | no configuration gives no findings; otherwise one finding per uncontrolled metrics pipeline with receivers |
| HighCardinality.CheckPipeline | pkg/analysis/analyzer_high_cardinality.go:29-63 | a pipeline whose name does not start with `metrics` is skipped; otherwise a finding exactly when it has receivers and no control processor |
| HighCardinality.HasControl | pkg/analysis/analyzer_high_cardinality.go:34-40 | the search stops at the first control processor and reports exactly whether one exists |
| HighCardinality.CardinalityFindingInjective | pkg/analysis/analyzer_high_cardinality.go:46 | findings for two pipelines are equal only when the pipelines are the same |
| HighCardinality.FindingsAreUncontrolledMetrics | pkg/analysis/analyzer_high_cardinality.go:42-62 | every finding is an info performance finding naming a declared pipeline |
| HighCardinality.OneFindingPerUncontrolledPipeline | pkg/analysis/analyzer_high_cardinality.go:28-42 | a pipeline gets exactly one finding when it is an uncontrolled metrics pipeline with receivers, none otherwise |
| HighCardinality.CountIsUncontrolledPipelines | pkg/analysis/analyzer_high_cardinality.go:28-66 | the count equals the number of such pipelines |
| HighCardinality.AtMostOnePerPipeline | pkg/analysis/analyzer_high_cardinality.go:28-66 | never more findings than pipelines |
| InvalidRegex.ScanForRegexPatterns | pkg/analysis/analyzer_invalid_regex.go:32-61 | the findings are, as a multiset, those of the rejected patterns below the map, nested maps entered with the dotted path |
| InvalidRegex.ScanEntry | pkg/analysis/analyzer_invalid_regex.go:36-57 | one entry: a rejected string under a regex key gives one finding, a map recurses, anything else gives none |
| InvalidRegex.AnalyzeInvalidRegex | pkg/analysis/analyzer_invalid_regex.go:12-30 | no configuration gives no findings; otherwise the scans of every map-valued processor |
| InvalidRegex.FindingsAreRejectedPatterns | pkg/analysis/analyzer_invalid_regex.go:19-57 | a finding occurs iff a string under a regex key, reached from a map processor through maps, fails to compile |
| InvalidRegex.ProcessorMember | pkg/analysis/analyzer_invalid_regex.go:32-61 | the same characterisation for one processor body |
| InvalidRegex.DetailEmbedsPatternAndError | pkg/analysis/analyzer_invalid_regex.go:46-52 | every finding is a configuration warning whose detail contains the pattern and the compiler's error |
| InvalidRegex.RegexFieldExamples | pkg/analysis/analyzer_invalid_regex.go:63-65 | key matching is exact and case-sensitive: `regex` and `match_type` match, `Regex`, `regex_list` and the empty key do not |
| ReceiverBindings.LookupRecord | pkg/analysis/analyzer_receiver_bindings.go:27-38 | appending a claimant files it under its endpoint only, and no endpoint is left with an empty list |
| ReceiverBindings.AnalyzeReceiverBindings | pkg/analysis/analyzer_receiver_bindings.go:11-58 | no configuration gives no findings; otherwise the endpoint table matches the receivers' claims and the findings are one per shared endpoint |
| ReceiverBindings.CollectEndpoints | pkg/analysis/analyzer_receiver_bindings.go:19-42 | the table lists, per endpoint, exactly the claims of all map-valued receivers |
| ReceiverBindings.AddReceiver | pkg/analysis/analyzer_receiver_bindings.go:20-41 | one receiver adds its top-level string endpoint and its protocols' endpoints, nothing else |
| ReceiverBindings.AddProtocols | pkg/analysis/analyzer_receiver_bindings.go:31-41 | the protocols loop adds one `<name>/<proto>` claim per protocol with a string endpoint |
| ReceiverBindings.AddProtocol | pkg/analysis/analyzer_receiver_bindings.go:33-39 | a protocol adds a claim only when its body is a map with a string endpoint |
| ReceiverBindings.ReportConflicts | pkg/analysis/analyzer_receiver_bindings.go:45-55 | one finding per table entry with more than one claimant |
| ReceiverBindings.CheckEndpoint | pkg/analysis/analyzer_receiver_bindings.go:46-54 | one endpoint gives its conflict finding exactly when more than one receiver claims it |
| ReceiverBindings.FindingsAreConflicts | pkg/analysis/analyzer_receiver_bindings.go:47-53 | every finding is critical and about configuration, for a table endpoint, listing exactly its claimants |
| ReceiverBindings.ConflictFindingInjective | pkg/analysis/analyzer_receiver_bindings.go:50 | findings for two endpoints are equal only when the endpoints are the same |
| ReceiverBindings.OneFindingPerSharedEndpoint | pkg/analysis/analyzer_receiver_bindings.go:45-55 | an endpoint is reported, exactly once, iff more than one receiver claims it |
| ReceiverBindings.CountIsSharedEndpoints | pkg/analysis/analyzer_receiver_bindings.go:45-55 | the count equals the number of endpoints with several claimants |
| ReceiverBindings.SameEndpointTwice | pkg/analysis/analyzer_receiver_bindings.go:26-39 | a receiver whose top-level and protocol endpoints coincide claims that endpoint twice, and so conflicts with itself |
| ReceiverBindings.NonStringEndpointIgnored | pkg/analysis/analyzer_receiver_bindings.go:26 | an endpoint that is not a string makes no claim |
| ResourceDetectorConflicts.DetectorsMeaning | pkg/analysis/analyzer_resource_detector_conflicts.go:22-26 | the detectors are exactly the pipeline's processors named `resourcedetection…` or `resource`, and never more than the processors |
| ResourceDetectorConflicts.DetectorsAppend | pkg/analysis/analyzer_resource_detector_conflicts.go:22-26 | collecting detectors keeps the pipeline's order (it distributes over concatenation) |
| ResourceDetectorConflicts.DetectorExamples | pkg/analysis/analyzer_resource_detector_conflicts.go:23 | `resource/x` is not a detector; `resource` and any `resourcedetection` prefix are |
| ResourceDetectorConflicts.AnalyzeResourceDetectorConflicts | pkg/analysis/analyzer_resource_detector_conflicts.go:13-46 | no configuration gives no findings; otherwise the findings are, as a multiset, one warning per pipeline with more than one detector |
| ResourceDetectorConflicts.CheckPipeline | pkg/analysis/analyzer_resource_detector_conflicts.go:21-42 | one pipeline contributes its warning exactly when it has more than one detector |
| ResourceDetectorConflicts.CollectDetectors | pkg/analysis/analyzer_resource_detector_conflicts.go:21-26 | the inner loop collects exactly the detectors, in order |
| ResourceDetectorConflicts.SummaryListsDetectors | pkg/analysis/analyzer_resource_detector_conflicts.go:32 | the summary names every detector found |
| ResourceDetectorConflicts.FindingsAreConflicts | pkg/analysis/analyzer_resource_detector_conflicts.go:28-41 | every finding is a configuration warning about a declared pipeline with more than one detector |
| ResourceDetectorConflicts.ConflictingPipelineIsReported | pkg/analysis/analyzer_resource_detector_conflicts.go:28-42 | a pipeline with more than one detector is reported |
| ResourceDetectorConflicts.CountIsConflictingPipelines | pkg/analysis/analyzer_resource_detector_conflicts.go:20-45 | the number of findings is the number of pipelines with more than one detector |
| TailSamplingDaemonSet.AnalyzeTailSamplingDaemonSet | pkg/analysis/analyzer_tail_sampling_daemonset.go:11-35 | no configuration, or a mode other than DaemonSet, gives no findings; otherwise, as a multiset, one critical finding per pipeline with a `tail_sampling` processor |
| TailSamplingDaemonSet.CheckPipeline | pkg/analysis/analyzer_tail_sampling_daemonset.go:18-32 | one pipeline contributes its finding exactly when it tail-samples |
| TailSamplingDaemonSet.FindingsAreCritical | pkg/analysis/analyzer_tail_sampling_daemonset.go:12-31 | every finding is critical, about configuration, for a DaemonSet, and names a declared pipeline |
| TailSamplingDaemonSet.OneFindingPerSamplingPipeline | pkg/analysis/analyzer_tail_sampling_daemonset.go:17-33 | under DaemonSet a pipeline is reported exactly once when it tail-samples, and not otherwise |
| TailSamplingDaemonSet.CountIsSamplingPipelines | pkg/analysis/analyzer_tail_sampling_daemonset.go:17-34 | under DaemonSet the number of findings is the number of tail-sampling pipelines |
| Catalog.AllAnalyzers | pkg/analysis/analyzer.go:24-38 | eleven distinct rules, batch first and memory limiter second, holding every configuration rule and not the log rule |
| Catalog.AllAnalyzersIncludingLogs | pkg/analysis/analyzer.go:41-45 | the configuration rules in the same order, then the exporter backpressure rule: every rule exactly once |
| Catalog.RunAnalyzer | pkg/analysis/analyzer.go:12 | running an entry gives exactly the findings its rule's specification allows; a configuration rule with no configuration gives none |
| Catalog.IgnoresOperatorLogsAndPod | pkg/analysis/analyzer.go:15-21 | no rule's outcome depends on the operator logs or the pod |
| Catalog.ConfigRulesIgnoreLogs | pkg/analysis/analyzer.go:23-38 | a configuration rule's outcome does not depend on the collector logs |
| Catalog.LogRuleIgnoresConfig | pkg/analysis/analyzer.go:40-44 | the log rule's outcome does not depend on the configuration or the deployment mode |
| Helpers.MatchesProcessorMeaning | pkg/analysis/helpers.go:8 | the length test and slice mean exactly "equal to the base, or prefixed by `base/`" |
| Helpers.PipelineHasProcessor | pkg/analysis/helpers.go:6-13 | true iff some processor of the pipeline is the base or `base/<qualifier>` |
| Helpers.HasProcessor | pkg/analysis/helpers.go:6-13 | the early-return scan answers exactly whether some processor is the base or `base/<qualifier>` |
| Helpers.HasProcessorAt | pkg/analysis/helpers.go:7-10 | one matching processor anywhere in the pipeline is enough |
| Helpers.ProcessorMatchExamples | pkg/analysis/helpers.go:8 | `batch/custom` matches `batch`, `batchx` does not, and an empty pipeline matches nothing |
| Helpers.GetNestedMap | pkg/analysis/helpers.go:25-32 | a result exactly when the key is present with a map value, and then that map |
| Helpers.GetNestedString | pkg/analysis/helpers.go:35-42 | a result exactly when the key is present with a string value, and then that string |
| Helpers.GetMapKeys | pkg/analysis/helpers.go:16-22 | every key of the map exactly once, as many keys as entries, through the range loop of `Maps.Keys` |
| Logs.CollectorLabel | pkg/collector/logs.go:89-113 | a collector line is dropped exactly when it mentions none of error, warn and fatal, and is never given an operator category |
| Logs.OperatorLabel | pkg/collector/logs.go:135-149 | an operator line is dropped exactly when it mentions none of error, warn and rejected, and gets only an operator category or other |
| Logs.Classify | pkg/collector/logs.go:83-120 | never more entries than input lines |
| Logs.ClassifyCollectorLogs | pkg/collector/logs.go:80-123 | the loop yields the collector taxonomy's classification, in input order |
| Logs.ClassifyOperatorLogs | pkg/collector/logs.go:126-160 | the loop yields the operator taxonomy's classification, in input order |
| Logs.ClassifyAppend | pkg/collector/logs.go:83-120 | classifying two batches one after the other is classifying them together |
| Logs.ClassifyMeaning | pkg/collector/logs.go:115-119 | each entry holds a kept input line unchanged, with that line's category and message, and every kept line has its entry |
| Logs.CaseInsensitive | pkg/collector/logs.go:84-130 | a line and its lower-cased copy get the same category and message |
| Logs.OttlTakesPrecedence | pkg/collector/logs.go:90-92 | a line naming OTTL with error or parse is an OTTL error whatever else it mentions |
| Logs.ExporterBeforeOom | pkg/collector/logs.go:93-98 | an exporter failure that also mentions memory is an exporter failure, not an OOM event |
| Logs.FatalKeptOnlyByCollector | pkg/collector/logs.go:107-143 | a line whose only keyword is fatal is kept by the collector taxonomy and dropped by the operator one |
| Logs.FirstPresent | pkg/collector/logs.go:170-174 | none exactly when no preferred key is present, otherwise a present key that no earlier preferred key precedes |
| Logs.GetCollectorConfig | pkg/collector/logs.go:163-182 | a failed fetch is reported with namespace and name; the first preferred key present wins; otherwise some value; an empty ConfigMap is the no-data error |
| LogTools.CollectorSeverity | pkg/tools/tool_parse_logs.go:72-82 | OOM and exporter failures are critical; OTTL, receiver and processor errors warnings; every other category info |
| LogTools.OperatorSeverity | pkg/tools/tool_parse_operator_logs.go:74-77 | CRD rejections are critical, every other category a warning |
| LogTools.ParseCollectorLogs | pkg/tools/tool_parse_logs.go:44-100 | a failed fetch gives exactly its warning; otherwise one finding per classified line, in order, with the line and classified counts as metadata |
| LogTools.CollectorFindingsNameThePod | pkg/tools/tool_parse_logs.go:84-90 | every finding names the requested pod, and carries its line as detail and the category's message as summary |
| LogTools.OperatorNamespace | pkg/tools/tool_parse_operator_logs.go:37-40 | the namespace argument when it is a non-empty string, otherwise the operator's default namespace; never empty |
| LogTools.LineFindings | pkg/tools/tool_parse_operator_logs.go:72-86 | one finding per classified line of a pod, in order |
| LogTools.ParseOperatorLogs | pkg/tools/tool_parse_operator_logs.go:36-92 | a failed or empty pod listing gives exactly the pods-not-found warning; otherwise the findings of every pod, in pod order |
| LogTools.OperatorPodFindings | pkg/tools/tool_parse_operator_logs.go:60-86 | one pod contributes its fetch failure, or one finding per classified line of its logs |
| LogTools.OperatorFindingsNameTheirPod | pkg/tools/tool_parse_operator_logs.go:58-87 | every finding is an operator finding naming one of the listed pods |
| LogTools.AllPodFindingsAppend | pkg/tools/tool_parse_operator_logs.go:59-87 | the findings of a pod list are those of its pods in order, so a failed pod does not stop the others |
| LogTools.FailedPodGivesOneWarning | pkg/tools/tool_parse_operator_logs.go:61-70 | a pod whose logs cannot be fetched contributes exactly one warning |
| Detect.DetectDeploymentMode | pkg/collector/detect.go:38-58 | DaemonSet, then Deployment, then StatefulSet: the first probe found decides; success iff one is found; otherwise Unknown with the no-workload error naming namespace/name; never OperatorCRD |
| Detect.DetectDeploymentModeWithCRD | pkg/collector/detect.go:61-89 | a found workload decides as before; otherwise OperatorCRD iff the operator is installed and the v1beta1 or v1alpha1 resource is found; Unknown exactly on error, with the no-workload-or-CRD message |
| Detect.WithoutOperatorAgrees | pkg/collector/detect.go:63-69 | without the operator both detectors give the same mode |
| Detect.CollectorLabelExamples | pkg/collector/detect.go:200-225 | no label map is never a collector; one known label is enough; the part-of label needs a managed-by label of any value |
| Detect.Version | pkg/collector/detect.go:227-236 | the empty string when no image has a ':', and never a text holding ':' |
| Detect.VersionOfFirstTagged | pkg/collector/detect.go:228-233 | the version is the text after the last ':' of the first image holding one, whatever later images hold |
| Detect.ExtractVersion | pkg/collector/detect.go:227-236 | the loop returns exactly that version |
| Detect.CollectorWorkloads | pkg/collector/detect.go:107-122 | the instances built from one list call carry that call's mode |
| Detect.CrdCandidates | pkg/collector/detect.go:178-194 | the operator resources all carry OperatorCRD; a failed call contributes none |
| Detect.ListCollectors | pkg/collector/detect.go:92-198 | the listing admits, in the order DaemonSets, Deployments, StatefulSets, CRDs, every candidate of the successful calls whose namespace/name is new, and never fails |
| Detect.AdmitBySeen | pkg/collector/detect.go:109-111 | the seen set decides admission exactly as the keys already listed do |
| Detect.AddWorkloads | pkg/collector/detect.go:107-122 | one workload loop admits its collector-labelled items whose key is new, and the seen set stays the listed keys |
| Detect.AddCrds | pkg/collector/detect.go:182-193 | the CRD loop admits every resource whose key is new, and the seen set stays the listed keys |
| Detect.AdmitAllAppend | pkg/collector/detect.go:103-195 | listing one batch then another is listing them together |
| Detect.AdmitAllDistinct | pkg/collector/detect.go:109-111 | the listing never holds two instances with the same namespace/name |
| Detect.AdmitAllKeys | pkg/collector/detect.go:109-112 | exactly the candidates' keys are listed |
| Detect.FirstCandidateWins | pkg/collector/detect.go:110-112 | the instance listed for a key is the first candidate with that key, so an earlier kind wins |
| Discovery.RefreshKeepsLog | pkg/discovery/discovery.go:86-127 | with a callback set, a refresh keeps the log consistent: no call without a change, no two consecutive calls with the same pair, and the last call carries the current pair |
| Discovery.TicksNotifyChanges | pkg/discovery/discovery.go:72-127 | over any run of re-checks the flags are the pair of the last successful listing; with a callback set the calls are exactly the pairs of the successful listings that differ from the pair before them, in order; without one there are no calls |
| Discovery.FailedRefreshKeepsState | pkg/discovery/discovery.go:92-96 | a failed resource listing changes nothing and calls nobody |
| Discovery.TicksKeepReady | pkg/discovery/discovery.go:75-83 | the periodic re-checks never withdraw readiness, and make at most one call each |
| Discovery.TicksKeepLog | pkg/discovery/discovery.go:75-83 | any number of re-checks keeps the log consistent |
| Discovery.StartIsReady | pkg/discovery/discovery.go:59-65 | from a fresh record, the start is ready with a consistent log, even when discovery failed |
| Discovery.Features.constructor | pkg/discovery/discovery.go:43-51 | a new record has both flags false, is not ready and has called nobody |
| Discovery.Features.IsReady | pkg/discovery/discovery.go:22-26 | the readiness flag |
| Discovery.Features.Get | pkg/discovery/discovery.go:29-33 | the current (operator, target allocator) pair |
| Discovery.Features.Discover | pkg/discovery/discovery.go:86-127 | the new fields are one refresh of the old ones: unchanged on error, else both flags replaced and the callback notified on a change |
| Discovery.Features.Start | pkg/discovery/discovery.go:59-65 | the initial discovery, then ready, whatever the discovery's outcome |
| Discovery.ScanKinds | pkg/discovery/discovery.go:98-110 | the loops find the operator and the target allocator exactly when some non-nil list holds that kind |
| Discovery.HasKindSnoc | pkg/discovery/discovery.go:98-110 | a kind occurs in the lists exactly when it occurs in the earlier lists or the last one |
| Triage.RunRules | pkg/tools/tool_triage.go:100-118 | every rule runs, in order; each contributes either the findings its specification allows or, when it faults, exactly the placeholder finding; the result is their concatenation |
| Triage.PartIncluded | pkg/tools/tool_triage.go:115-116 | every rule's findings are among the collected ones, as often as the rule produced them |
| Triage.FlattenSize | pkg/tools/tool_triage.go:116 | the collected findings are exactly as many as the rules produced |
| Triage.FaultIsIsolated | pkg/tools/tool_triage.go:103-117 | a faulting rule leaves its placeholder among the findings, and every other rule's findings are its specified outcome |
| Triage.RankValues | pkg/tools/tool_triage.go:134-143 | critical, warning, info and ok rank 0 to 3; an unknown severity ranks 0, with critical |
| Triage.SortFindings | pkg/tools/tool_triage.go:133-144 | the array ends sorted by rank and is a permutation of what it held; no order among equal ranks is promised |
| Triage.Insert | pkg/tools/tool_triage.go:141-143 | one insertion step sorts one more prefix and permutes the array |
| Triage.InsertStart | pkg/tools/tool_triage.go:141-143 | a sorted prefix with one more finding after it is an insertion's starting point |
| Triage.InsertStep | pkg/tools/tool_triage.go:141-143 | exchanging the moving finding with a higher-ranked predecessor keeps the insertion invariant |
| Triage.InsertDone | pkg/tools/tool_triage.go:141-143 | once the predecessor ranks no higher, the prefix is sorted |
| Triage.Swap | pkg/tools/tool_triage.go:141 | exchanges two neighbours and permutes the array |
| Triage.SortedCopy | pkg/tools/tool_triage.go:121 | the sorted findings are ordered by rank and a permutation of the input |
| Triage.ScanMode | pkg/tools/tool_triage.go:64-68 | `Unknown` on a detection error, which is also the detector's own mode then |
| Triage.ScanConfig | pkg/tools/tool_triage.go:71-80 | a configuration exactly when it is retrieved and parses, and then the parsed one |
| Triage.TriageInput | pkg/tools/tool_triage.go:83-96 | logs only when a pod is named; never operator logs or a pod |
| Triage.TriageScan | pkg/tools/tool_triage.go:50-130 | the rule input is built from the detection, the configuration and the logs; all twelve rules run behind the fault boundary; the findings are their permutation sorted by rank; metadata holds the mode and the ConfigMap name |
| CheckConfig.CheckInput | pkg/tools/tool_check_config.go:89-92 | the rule input holds the parsed configuration and the mode, and no logs |
| CheckConfig.CheckConfig | pkg/tools/tool_check_config.go:45-123 | a retrieval or parse failure gives exactly its warning and no metadata; otherwise the eleven configuration rules run behind the fault boundary and the findings are their permutation sorted by rank, with the mode as metadata |
| CheckConfig.NoLogRule | pkg/tools/tool_check_config.go:94 | a check never runs the log rule, and every rule that does not fault gives its specified outcome |
| Maps.EnumerationSize | pkg/analysis/helpers.go:17-21 | a list naming every key of a map exactly once is as long as the map is large |
| Maps.Keys | pkg/analysis/helpers.go:16-22 | ranging over a map's keys lists every key exactly once, in some order |
| Maps.Values | pkg/tools/registry.go:59-62 | ranging over a map's values lists one value per key, in some key order |
| ToolRegistry.Registry.constructor | pkg/tools/registry.go:15-19 | a new registry holds no tool |
| ToolRegistry.Registry.Register | pkg/tools/registry.go:22-27 | the tool is filed under its name, replacing any tool of that name; every other name is unchanged |
| ToolRegistry.Registry.Deregister | pkg/tools/registry.go:30-35 | the name is gone, whether or not it was there; every other name is unchanged |
| ToolRegistry.Registry.Get | pkg/tools/registry.go:38-42 | nothing exactly when the name is not registered, otherwise the tool filed under it, which carries that name |
| ToolRegistry.Registry.List | pkg/tools/registry.go:45-53 | every registered name exactly once |
| ToolRegistry.Registry.All | pkg/tools/registry.go:56-64 | one registered tool per name, and nothing else |
| SkillRegistry.RegisteredMeaning | pkg/skills/registry.go:30-34 | registering a sequence of skills files exactly their names, each under the last skill registered with that name |
| SkillRegistry.RegisteredSize | pkg/skills/registry.go:30-34 | the registry holds as many skills as there were distinct names |
| SkillRegistry.Registry.constructor | pkg/skills/registry.go:23-27 | a new registry holds no skill |
| SkillRegistry.Registry.Register | pkg/skills/registry.go:30-34 | the skill is filed under its definition's name, overwriting any skill of that name; every other name is unchanged |
| SkillRegistry.Registry.Get | pkg/skills/registry.go:37-41 | nothing exactly when the name is not registered, otherwise a registered skill |
| SkillRegistry.Registry.All | pkg/skills/registry.go:44-52 | every registered name occurs exactly once, carried by the skill currently filed under it, and no other name occurs |
| Architecture.Definition | pkg/skills/skill_architecture.go:17-49 | the skill is registered as `design_architecture` |
| Architecture.StringItems | pkg/skills/skill_architecture.go:184-190 | never more items than the array holds |
| Architecture.StringItemsAppend | pkg/skills/skill_architecture.go:185-189 | filtering distributes over concatenation, so the strings keep their relative order |
| Architecture.StringItemsSingle | pkg/skills/skill_architecture.go:186-188 | a string item is kept and any other item dropped |
| Architecture.StringItemsMeaning | pkg/skills/skill_architecture.go:185-189 | exactly the strings of the array are kept |
| Architecture.ExtractStringSlice | pkg/skills/skill_architecture.go:175-191 | a missing or non-array argument gives no items, an array its string items in order |
| Architecture.ContainsItem | pkg/skills/skill_architecture.go:193-200 | the search succeeds exactly when the item is in the slice |
| Architecture.ChooseTopology | pkg/skills/skill_architecture.go:87-99 | hybrid exactly when logs come with traces or metrics and a gateway is needed; DaemonSet only exactly for logs alone; gateway exactly when needed without logs; per-node agents otherwise |
| Architecture.Describe | pkg/skills/skill_architecture.go:102-139 | log agents and agents are DaemonSets under their names; the gateway is a StatefulSet exactly when Prometheus scraping is needed, a Deployment otherwise |
| Architecture.DescribeAll | pkg/skills/skill_architecture.go:102-139 | one record per component, in order |
| Architecture.PlanComponents | pkg/skills/skill_architecture.go:101-139 | at most two components; the log agent first exactly when logs are collected; a gateway exactly when one is needed for traces or metrics; the plain agent exactly for traces or metrics without logs or gateway; never both gateway and agent; none exactly when no known signal is asked for |
| Architecture.ReasonTexts | pkg/skills/skill_architecture.go:89-123 | one text per reason, in order |
| Architecture.PlanRationale | pkg/skills/skill_architecture.go:87-124 | one to three reasons, the topology's first; the Prometheus reason exactly when a gateway is added and scraping is needed; the sampling reason exactly when a gateway is added and sampling is needed |
| Architecture.BuildRecommendation | pkg/skills/skill_architecture.go:78-144 | the topology, components, rationale and skeleton follow from which of logs, traces and metrics are asked for and whether a gateway is needed (sampling, large scale or several backends) |
| Architecture.PlanSteps | pkg/skills/skill_architecture.go:101-139 | the appends build exactly the planned components and reasons |
| Architecture.Execute | pkg/skills/skill_architecture.go:51-62 | the string arrays are read with their string items (none when absent or not an array), `scale` as a string and the flags as booleans (empty or false when absent); the topology, components, rationale and skeleton are those the recommendation's definitions give for these values |
| Architecture.ExporterList | pkg/skills/skill_architecture.go:163-166 | no backends name `otlp`; one non-empty backend names itself; several are joined with `, ` |
| Architecture.LayoutContents | pkg/skills/skill_architecture.go:146-173 | every exporter block, the middle text and every pipeline block occur in a text laid out in that order |
| Architecture.SkeletonContents | pkg/skills/skill_architecture.go:154-170 | the skeleton declares one exporter per backend, the `otlp` exporter when there are none, and one pipeline per signal naming the exporter list |
| Architecture.GenerateSkeletonConfig | pkg/skills/skill_architecture.go:146-173 | writing block by block yields exactly the skeleton text |
| Ottl.Definition | pkg/skills/skill_ottl.go:17-37 | the skill is registered as `generate_ottl` |
| Ottl.SignalContext | pkg/skills/skill_ottl.go:55-65 | logs run in `log`, traces in `span`, metrics in `datapoint`; the context is empty exactly for any other signal |
| Ottl.FirstMatchTaken | pkg/skills/skill_ottl.go:84-96 | a case of a keyword switch is taken when it matches and no earlier case does |
| Ottl.FirstMatchFallback | pkg/skills/skill_ottl.go:93-95 | with no matching case the default is taken |
| Ottl.FirstMatchOfThree | pkg/skills/skill_ottl.go:84-96 | a switch of three cases and a default is the first matching case, else the default |
| Ottl.MatchesAnyCase | pkg/skills/skill_ottl.go:53 | a keyword occurring in any letter case matches once the operation is lowered |
| Ottl.LogStatementsTable | pkg/skills/skill_ottl.go:81-99 | the log switch is the ordered table JSON parsing, severity, extraction, then the custom default echoing the operation |
| Ottl.RuleOfTwo | pkg/skills/skill_ottl.go:85 | a two-keyword case matches exactly when either keyword occurs |
| Ottl.TraceStatementsTable | pkg/skills/skill_ottl.go:101-118 | the span switch is the ordered table add or set an attribute, delete or remove, rename, then the custom default |
| Ottl.RuleOfOne | pkg/skills/skill_ottl.go:109 | a one-keyword case matches exactly when its keyword occurs |
| Ottl.MetricStatementsTable | pkg/skills/skill_ottl.go:120-137 | the metric switch is the ordered table rename or label, drop or delete, aggregate or sum, then the custom default |
| Ottl.Statements | pkg/skills/skill_ottl.go:55-65 | a known signal gets one or two statements, any other signal none |
| Ottl.StatementsTable | pkg/skills/skill_ottl.go:55-65 | every signal's statements are its ordered keyword table over the lowered operation |
| Ottl.DefaultEchoesOperation | pkg/skills/skill_ottl.go:93-95 | an operation that no keyword of its signal recognises gets two statements, the first naming the lowered operation |
| Ottl.ParseJsonAnyCase | pkg/skills/skill_ottl.go:53-87 | "parse json" or "json parse" in any letter case selects the two JSON statements for logs |
| Ottl.TransformConfigShape | pkg/skills/skill_ottl.go:139-153 | the configuration starts by declaring `transform/<signal>_transform` in the signal's context, lists every statement on its own quoted line, and names that processor in the signal's pipeline |
| Ottl.StatementLinesInOrder | pkg/skills/skill_ottl.go:146-148 | the statement lines follow the order of the statements, each written whole before the next |
| Ottl.BuildTransformConfig | pkg/skills/skill_ottl.go:139-153 | writing line by line yields exactly the transform configuration text |
| Ottl.GenerateOttl | pkg/skills/skill_ottl.go:49-79 | the signal and the original operation are reported; the context is the signal's; the statements are chosen on the lowered operation; the snippet is their configuration; no context exactly when no statements |
| Ottl.Execute | pkg/skills/skill_ottl.go:39-47 | both arguments are read as strings, empty when absent or not strings; the result names the skill, reports both arguments, and carries the signal's context, the statements for the lowered operation and the transform configuration built from them |
| Server.TruncateString | pkg/mcp/server.go:380-386 | a short text is kept; a long one keeps its first `max` characters followed by `...`; never longer than `max + 3` |
| Server.TruncateIdempotent | pkg/mcp/server.go:380-386 | truncating a truncated text changes nothing |
| Server.SanitizeArgs | pkg/mcp/server.go:368-378 | no arguments or arguments that cannot be encoded give `{}`, otherwise the encoding truncated to 1024 characters |
| Server.ResultAttribute | pkg/mcp/server.go:232-243 | the result attribute is at most 1027 characters, and a short encoding is kept whole |
| Server.ExtractMetaCarrier | pkg/mcp/server.go:357-366 | exactly the string-valued entries of `_meta` are kept, with their values, and never more entries than `_meta` has |
| Server.Readyz | pkg/mcp/server.go:78-86 | 503 `not ready` exactly when a readiness function is set and says not ready, 200 otherwise |
| Server.Route | pkg/mcp/server.go:113-146 | GET and `tools/list` list the tools; another HTTP method is a plain 405; a body that does not decode is a 400 error reply (`writeJSONError`, lines 349-355); an unsupported method is a 400 error reply naming it; an unknown tool is a 404 error reply naming it; a known tool is invoked with the request |
| Server.CallReply | pkg/mcp/server.go:197-244 | a tool error is a 200 error reply carrying the error; a result that cannot be encoded is a 500; otherwise a 200 with the encoded result |
| Server.HandleToolList | pkg/mcp/server.go:299-317 | the listing holds every registered tool once, and nothing else |
| Server.HandleMcp | pkg/mcp/server.go:113-244 | the response is the listing, the rejection or the reply to the call, as routing decides |

## Left out

- Kubernetes API calls are not modelled. This covers the workload and CRD
  lookups, the list calls, `FetchPodLogs`, `FindPodsByLabel`, the ConfigMap
  fetch and `ServerGroupsAndResources`. Each is replaced by its outcome (a
  `Result`, a set of successful probes, or a function from pod to lines). The
  client bootstrap in `pkg/k8s` is not part of this model.
- Concurrency is not modelled: the read-write locks of `Features` and of both
  registries, the watcher goroutine, its ticker and context loop, and the
  server's `ListenAndServe` and shutdown. The ticker loop is the function
  `Ticks`, one refresh per tick.
- YAML decoding (`ParseConfig`) and JSON decoding and encoding are inputs. JSON
  numbers carry no value, since no modelled code reads one.
- Logging, tracing and metrics are left out: `slog` lines, spans and their
  names, and the finding and collector-count metrics. The span attributes
  appear only through `SanitizeArgs` and `ResultAttribute`.
- HTTP transport code is left out: headers, content types, status-line
  writing and the `jsonrpc` version default. A handler's answer is a
  `Response` value.
- `Server.Healthz` (`pkg/mcp/server.go:73-76`), `Server.JsonError`
  (lines 349-355), `Detect.LabelValue` (`pkg/collector/detect.go:206-220`),
  `JsonArgs.StringArg` and `JsonArgs.BoolArg` (the `args[key].(string)` and
  `args[key].(bool)` assertions of the two skills) are plain definitions with
  no contract of their own: they hold no decision beyond their body, and the
  contracts of `Server.Route`, `Detect.CollectorLabelExamples`,
  `Architecture.Execute` and `Ottl.Execute` state what follows from them.
- `Server.Readyz` is modelled by the readiness function's answer (`None` when
  no function is set), not by the function itself.
- The `tail_lines` argument of the collector log tool is a floating-point
  number that is only passed to the log fetch. It is left out together with
  the fetch.
- `Text.ToLower` lower-cases ASCII letters only, while Go's `strings.ToLower`
  also folds other Unicode letters.
- Text is modelled as characters, not bytes. `Server.TruncateString` therefore
  counts characters, while Go counts bytes and may cut a multi-byte character.
- The `%q` and `%v` verbs of `fmt` are modelled as plain quoting and
  bracketing, without Go's escaping.
- The outcome of `regexp.Compile` comes from a regex-engine oracle: a map from
  each rejected pattern to its error text.
- Go's iteration order over a map is unspecified, so no order within one rule
  is proved.
- `Logs.GetCollectorConfig` does not say which value it returns when no
  preferred key is present. Go returns the value of some key, so the model
  only promises one of the ConfigMap's values.
- `Detect.ListCollectors` keys instances by `namespace + "/" + name`, as the
  source does. Two different pairs can give the same key when a name holds a
  `/`, and the model keeps that behaviour.
- A nil slice and an empty slice are the same value in the model.
- Tool and skill input schemas, skill parameters, `ClusterMetadata` and
  `NewStandardResponse` are not modelled. Tools and skills are reduced to
  their name, description and the values their `Run` or `Execute` compute.
- `Architecture.GenerateSkeletonConfig` accepts the components parameter but
  never reads it, as in the source.
- The tools `detect_deployment`, `get_config` and `list_collectors` are thin
  wrappers around the modelled resolver, configuration lookup and listing, and
  are not modelled separately.
