/** The missing-retry-and-queue rule (pkg/analysis/analyzer_missing_retry_queue.go). */
module MissingRetryQueue {
  import opened Wrappers
  import opened Text
  import opened Bags
  import opened Findings
  import opened Collector
  import opened Input

  const RetryDetail := "Without retry configuration, transient export failures will cause permanent data loss. The retry_on_failure setting enables automatic retries with exponential backoff."
  const QueueDetail := "Without a sending queue, the exporter processes data synchronously. If the backend is slow, this causes backpressure that propagates to receivers. A sending queue buffers data and decouples the exporter from the pipeline."

  const RemediationHead := "exporters:\n  "
  const RetryTail := ":\n    retry_on_failure:\n      enabled: true\n      initial_interval: 5s\n      max_interval: 30s\n      max_elapsed_time: 300s"
  const QueueTail := ":\n    sending_queue:\n      enabled: true\n      num_consumers: 10\n      queue_size: 5000"

  const SummaryHead := "Exporter "
  const RetrySummaryTail := " is missing retry_on_failure configuration"
  const QueueSummaryTail := " is missing sending_queue configuration"
  const RetrySuggestion := "Add retry_on_failure to this exporter"
  const QueueSuggestion := "Add sending_queue to this exporter"

  function RetrySummary(name: string): string {
    SummaryHead + Quote(name) + RetrySummaryTail
  }

  function QueueSummary(name: string): string {
    SummaryHead + Quote(name) + QueueSummaryTail
  }

  /** The warning for an exporter without `retry_on_failure`. */
  function RetryFinding(name: string): Finding {
    Finding(SeverityWarning, CategoryPerformance, None, RetrySummary(name), RetryDetail,
            RetrySuggestion,
            RemediationHead + name + RetryTail)
  }

  /** The warning for an exporter without `sending_queue`. */
  function QueueFinding(name: string): Finding {
    Finding(SeverityWarning, CategoryPerformance, None, QueueSummary(name), QueueDetail,
            QueueSuggestion,
            RemediationHead + name + QueueTail)
  }

  /** What one exporter contributes: nothing unless its body is a map, then one finding per missing key. */
  function Contribution(name: string, body: Value): multiset<Finding> {
    if !body.Map? then multiset{}
    else
      (if "retry_on_failure" in body.entries then multiset{} else multiset{RetryFinding(name)})
      + (if "sending_queue" in body.entries then multiset{} else multiset{QueueFinding(name)})
  }

  /** The findings the rule produces, in no particular order. */
  ghost function Expected(input: AnalysisInput): multiset<Finding> {
    match input.config
    case None => multiset{}
    case Some(cfg) => SumOver(cfg.exporters, Contribution)
  }

  /** `AnalyzeMissingRetryQueue`: up to two warnings per map-valued exporter. */
  method AnalyzeMissingRetryQueue(input: AnalysisInput) returns (findings: seq<Finding>)
    ensures input.config.None? ==> findings == []
    ensures multiset(findings) == Expected(input)
  {
    findings := [];
    if input.config.None? {
      return;
    }
    var exporters := input.config.value.exporters;
    var rest := exporters.Keys;
    while rest != {}
      invariant rest <= exporters.Keys
      invariant multiset(findings) + Fold(exporters, rest, Contribution) == SumOver(exporters, Contribution)
      decreases |rest|
    {
      var name :| name in rest;
      var part := CheckExporter(name, exporters[name]);
      FoldStep(exporters, rest, Contribution, name, findings, part);
      findings := findings + part;
      rest := rest - {name};
    }
  }

  /** One iteration of the loop of `AnalyzeMissingRetryQueue`: the findings for one exporter. */
  method CheckExporter(name: string, body: Value) returns (findings: seq<Finding>)
    ensures multiset(findings) == Contribution(name, body)
  {
    findings := [];
    if !body.Map? {
      return;
    }
    var hasRetry := "retry_on_failure" in body.entries;
    var hasQueue := "sending_queue" in body.entries;
    if !hasRetry {
      findings := findings + [RetryFinding(name)];
    }
    if !hasQueue {
      findings := findings + [QueueFinding(name)];
    }
  }

  /** The two kinds of finding never coincide, and each determines its exporter. */
  lemma FindingsDistinct(n1: string, n2: string)
    ensures RetryFinding(n1) != QueueFinding(n2)
    ensures RetryFinding(n1) == RetryFinding(n2) ==> n1 == n2
    ensures QueueFinding(n1) == QueueFinding(n2) ==> n1 == n2
  {
    assert RetrySuggestion[4] != QueueSuggestion[4];
    if RetryFinding(n1) == RetryFinding(n2) {
      QuoteInjective(SummaryHead, n1, n2, RetrySummaryTail);
    }
    if QueueFinding(n1) == QueueFinding(n2) {
      QuoteInjective(SummaryHead, n1, n2, QueueSummaryTail);
    }
  }

  /**
   * Every finding is a performance warning about a map-valued exporter that lacks
   * the key the finding names.
   */
  lemma {:induction false} FindingsMeanMissingKeys(input: AnalysisInput, f: Finding)
    requires f in Expected(input)
    ensures input.config.Some?
    ensures f.severity == SeverityWarning && f.category == CategoryPerformance
    ensures exists name :: name in input.config.value.exporters && input.config.value.exporters[name].Map?
              && ((f == RetryFinding(name) && "retry_on_failure" !in input.config.value.exporters[name].entries)
                  || (f == QueueFinding(name) && "sending_queue" !in input.config.value.exporters[name].entries))
  {
    var exporters := input.config.value.exporters;
    FoldMember(exporters, exporters.Keys, Contribution, f);
    var name :| name in exporters && f in Contribution(name, exporters[name]);
  }

  /** An exporter lacking `retry_on_failure` gets exactly one retry warning; one that has it gets none. */
  lemma {:induction false} RetryFindingCount(input: AnalysisInput, name: string)
    requires input.config.Some? && name in input.config.value.exporters
    ensures var body := input.config.value.exporters[name];
            Expected(input)[RetryFinding(name)] == if body.Map? && "retry_on_failure" !in body.entries then 1 else 0
  {
    var exporters := input.config.value.exporters;
    var x := RetryFinding(name);
    forall k | k in exporters && k != name ensures x !in Contribution(k, exporters[k]) {
      FindingsDistinct(name, k);
      FindingsDistinct(k, name);
    }
    FindingsDistinct(name, name);
    FoldCountUnique(exporters, exporters.Keys, Contribution, name, x);
  }

  /** An exporter lacking `sending_queue` gets exactly one queue warning, independently of the retry key. */
  lemma {:induction false} QueueFindingCount(input: AnalysisInput, name: string)
    requires input.config.Some? && name in input.config.value.exporters
    ensures var body := input.config.value.exporters[name];
            Expected(input)[QueueFinding(name)] == if body.Map? && "sending_queue" !in body.entries then 1 else 0
  {
    var exporters := input.config.value.exporters;
    var x := QueueFinding(name);
    forall k | k in exporters && k != name ensures x !in Contribution(k, exporters[k]) {
      FindingsDistinct(name, k);
      FindingsDistinct(k, name);
    }
    FindingsDistinct(name, name);
    FoldCountUnique(exporters, exporters.Keys, Contribution, name, x);
  }

  /** Only the presence of the two keys matters, not what they hold. */
  lemma OnlyKeyPresenceMatters(name: string, e1: map<string, Value>, e2: map<string, Value>)
    requires ("retry_on_failure" in e1 <==> "retry_on_failure" in e2)
    requires ("sending_queue" in e1 <==> "sending_queue" in e2)
    ensures Contribution(name, Map(e1)) == Contribution(name, Map(e2))
  {
  }

  /** An exporter yields at most two findings, and none once both keys are present. */
  lemma PerExporterBound(name: string, body: Value)
    ensures |Contribution(name, body)| <= 2
    ensures body.Map? && "retry_on_failure" in body.entries && "sending_queue" in body.entries
            ==> Contribution(name, body) == multiset{}
  {
  }

  /** The whole rule yields at most two findings per exporter. */
  lemma {:induction false} AtMostTwoPerExporter(input: AnalysisInput)
    requires input.config.Some?
    ensures |Expected(input)| <= 2 * |input.config.value.exporters|
  {
    var exporters := input.config.value.exporters;
    forall k | k in exporters.Keys ensures |Contribution(k, exporters[k])| <= 2 {
      PerExporterBound(k, exporters[k]);
    }
    FoldAtMost(exporters, exporters.Keys, Contribution, 2);
    assert |exporters.Keys| == |exporters|;
  }
}
