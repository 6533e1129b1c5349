/**
 * The rule catalog (pkg/analysis/analyzer.go): the eleven configuration rules in
 * their fixed order, the log rule appended after them, and the dispatch from a
 * catalog entry to the rule it names.
 */
module Catalog {
  import opened Wrappers
  import opened Findings
  import opened Collector
  import opened Input
  import MissingBatch
  import MissingMemoryLimiter
  import HardcodedTokens
  import MissingRetryQueue
  import ReceiverBindings
  import TailSamplingDaemonSet
  import InvalidRegex
  import ConnectorMisconfig
  import ResourceDetectorConflicts
  import CumulativeDelta
  import HighCardinality
  import ExporterBackpressure

  /** One entry of the catalog: the name of a detection rule. */
  datatype AnalyzerId =
    | MissingBatchRule
    | MissingMemoryLimiterRule
    | HardcodedTokensRule
    | MissingRetryQueueRule
    | ReceiverBindingsRule
    | TailSamplingDaemonSetRule
    | InvalidRegexRule
    | ConnectorMisconfigRule
    | ResourceDetectorConflictsRule
    | CumulativeDeltaRule
    | HighCardinalityRule
    | ExporterBackpressureRule

  /** Whether a rule inspects the configuration rather than the logs. */
  predicate IsConfigRule(a: AnalyzerId) {
    !a.ExporterBackpressureRule?
  }

  /** Whether no entry occurs twice. */
  predicate Distinct(xs: seq<AnalyzerId>) {
    forall i, j :: 0 <= i < j < |xs| ==> xs[i] != xs[j]
  }

  /** `AllAnalyzers`: every configuration rule exactly once, the log rule not at all. */
  function AllAnalyzers(): (r: seq<AnalyzerId>)
    ensures |r| == 11 && Distinct(r)
    ensures r[0] == MissingBatchRule && r[1] == MissingMemoryLimiterRule
    ensures forall a :: a in r <==> IsConfigRule(a)
  {
    [MissingBatchRule, MissingMemoryLimiterRule, HardcodedTokensRule, MissingRetryQueueRule,
     ReceiverBindingsRule, TailSamplingDaemonSetRule, InvalidRegexRule, ConnectorMisconfigRule,
     ResourceDetectorConflictsRule, CumulativeDeltaRule, HighCardinalityRule]
  }

  /** `AllAnalyzersIncludingLogs`: the configuration rules, then the log rule; every rule exactly once. */
  function AllAnalyzersIncludingLogs(): (r: seq<AnalyzerId>)
    ensures |r| == 12 && Distinct(r)
    ensures r[..11] == AllAnalyzers() && r[11] == ExporterBackpressureRule
    ensures forall a :: a in r
  {
    AllAnalyzers() + [ExporterBackpressureRule]
  }

  /** What rule `a` produces for `input`, in no particular order. */
  ghost predicate Outcome(a: AnalyzerId, input: AnalysisInput, engine: RegexEngine, findings: multiset<Finding>) {
    match a
    case MissingBatchRule => findings == MissingBatch.Expected(input)
    case MissingMemoryLimiterRule => findings == MissingMemoryLimiter.Expected(input)
    case HardcodedTokensRule => findings == HardcodedTokens.Expected(input)
    case MissingRetryQueueRule => findings == MissingRetryQueue.Expected(input)
    case ReceiverBindingsRule => ReceiverBindings.Produces(input, findings)
    case TailSamplingDaemonSetRule => findings == TailSamplingDaemonSet.Expected(input)
    case InvalidRegexRule => findings == InvalidRegex.Expected(input, engine)
    case ConnectorMisconfigRule => findings == ConnectorMisconfig.Expected(input)
    case ResourceDetectorConflictsRule => findings == ResourceDetectorConflicts.Expected(input)
    case CumulativeDeltaRule => findings == CumulativeDelta.Expected(input)
    case HighCardinalityRule => findings == HighCardinality.Expected(input)
    case ExporterBackpressureRule => findings == ExporterBackpressure.Expected(input)
  }

  /** Calling the rule a catalog entry names. */
  method RunAnalyzer(a: AnalyzerId, input: AnalysisInput, engine: RegexEngine) returns (findings: seq<Finding>)
    ensures Outcome(a, input, engine, multiset(findings))
    ensures input.config.None? && IsConfigRule(a) ==> findings == []
  {
    match a
    case MissingBatchRule => findings := MissingBatch.AnalyzeMissingBatch(input);
    case MissingMemoryLimiterRule => findings := MissingMemoryLimiter.AnalyzeMissingMemoryLimiter(input);
    case HardcodedTokensRule => findings := HardcodedTokens.AnalyzeHardcodedTokens(input);
    case MissingRetryQueueRule => findings := MissingRetryQueue.AnalyzeMissingRetryQueue(input);
    case ReceiverBindingsRule => findings := ReceiverBindings.AnalyzeReceiverBindings(input);
    case TailSamplingDaemonSetRule => findings := TailSamplingDaemonSet.AnalyzeTailSamplingDaemonSet(input);
    case InvalidRegexRule => findings := InvalidRegex.AnalyzeInvalidRegex(input, engine);
    case ConnectorMisconfigRule => findings := ConnectorMisconfig.AnalyzeConnectorMisconfig(input);
    case ResourceDetectorConflictsRule =>
      findings := ResourceDetectorConflicts.AnalyzeResourceDetectorConflicts(input);
    case CumulativeDeltaRule => findings := CumulativeDelta.AnalyzeCumulativeDelta(input);
    case HighCardinalityRule => findings := HighCardinality.AnalyzeHighCardinality(input);
    case ExporterBackpressureRule => findings := ExporterBackpressure.AnalyzeExporterBackpressure(input);
  }

  /** No rule reads the operator logs or the pod. */
  lemma IgnoresOperatorLogsAndPod(a: AnalyzerId, input: AnalysisInput, engine: RegexEngine,
                                  operatorLogs: seq<string>, podInfo: Option<Pod>, findings: multiset<Finding>)
    ensures Outcome(a, input, engine, findings)
            <==> Outcome(a, input.(operatorLogs := operatorLogs, podInfo := podInfo), engine, findings)
  {
    var other := input.(operatorLogs := operatorLogs, podInfo := podInfo);
    assert other.config == input.config && other.deployMode == input.deployMode && other.logs == input.logs;
  }

  /** The configuration rules do not read the logs. */
  lemma ConfigRulesIgnoreLogs(a: AnalyzerId, input: AnalysisInput, engine: RegexEngine,
                              logs: seq<string>, findings: multiset<Finding>)
    requires IsConfigRule(a)
    ensures Outcome(a, input, engine, findings) <==> Outcome(a, input.(logs := logs), engine, findings)
  {
    var other := input.(logs := logs);
    assert other.config == input.config && other.deployMode == input.deployMode;
  }

  /** The log rule does not read the configuration or the deployment mode. */
  lemma LogRuleIgnoresConfig(input: AnalysisInput, engine: RegexEngine, config: Option<CollectorConfig>,
                             mode: DeploymentMode, findings: multiset<Finding>)
    ensures Outcome(ExporterBackpressureRule, input, engine, findings)
            <==> Outcome(ExporterBackpressureRule, input.(config := config, deployMode := mode), engine, findings)
  {
  }
}
