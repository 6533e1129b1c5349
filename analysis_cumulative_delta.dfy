/** The cumulative-to-delta-on-stateless-workload rule (pkg/analysis/analyzer_cumulative_delta.go). */
module CumulativeDelta {
  import opened Wrappers
  import opened Text
  import opened Bags
  import opened Findings
  import opened Collector
  import opened Helpers
  import opened Input

  const SummaryHead := "cumulativetodelta processor in pipeline "
  const SummaryMiddle := " on non-stateful deployment ("
  const Detail := "The cumulativetodelta processor maintains state to track metric starting points. On Deployments or DaemonSets, pod restarts lose this state, causing counter resets and incorrect delta values. A StatefulSet with persistent storage preserves state across restarts."
  const Suggestion := "Use a StatefulSet with persistent storage, or accept potential counter resets on pod restarts"
  const Remediation := "# Option 1: Use a StatefulSet for stateful processing\n# Option 2: Accept counter resets and configure your backend to handle them\n# Option 3: Use the metrics_transform processor for simpler conversions"

  function Summary(name: string, mode: DeploymentMode): string {
    SummaryText(name, ModeName(mode))
  }

  /** The summary with the mode already printed. */
  function SummaryText(name: string, modeText: string): string {
    SummaryHead + Quote(name) + SummaryMiddle + modeText + ")"
  }

  /** The summary mentions both the pipeline and the mode. */
  lemma SummaryTextNamesBoth(name: string, modeText: string)
    ensures Contains(SummaryText(name, modeText), name) && Contains(SummaryText(name, modeText), modeText)
  {
    ContainsQuoted(SummaryHead, name, SummaryMiddle + modeText + ")");
    assert SummaryHead + Quote(name) + (SummaryMiddle + modeText + ")") == SummaryText(name, modeText);
    ContainsMiddle(SummaryHead + Quote(name) + SummaryMiddle, modeText, ")");
  }

  /** Different pipelines get different summaries. */
  lemma SummaryTextInjective(n1: string, n2: string, modeText: string)
    requires SummaryText(n1, modeText) == SummaryText(n2, modeText)
    ensures n1 == n2
  {
    assert SummaryText(n1, modeText) == SummaryHead + Quote(n1) + (SummaryMiddle + modeText + ")");
    assert SummaryText(n2, modeText) == SummaryHead + Quote(n2) + (SummaryMiddle + modeText + ")");
    QuoteInjective(SummaryHead, n1, n2, SummaryMiddle + modeText + ")");
  }

  /** The warning for pipeline `name` of a workload deployed as `mode`. */
  function DeltaFinding(name: string, mode: DeploymentMode): Finding {
    Finding(SeverityWarning, CategoryConfig, None, Summary(name, mode), Detail, Suggestion, Remediation)
  }

  /** The modes whose pods lose the processor's state on restart. */
  predicate Stateless(mode: DeploymentMode) {
    mode == Deployment || mode == DaemonSet
  }

  /** Whether a pipeline has a `cumulativetodelta`-based processor. */
  predicate ConvertsToDelta(name: string, pipeline: PipelineConfig) {
    PipelineHasProcessor(pipeline, "cumulativetodelta")
  }

  /** What one pipeline contributes under `mode`. */
  function Contribution(mode: DeploymentMode): (string, PipelineConfig) -> multiset<Finding> {
    (name: string, pipeline: PipelineConfig) =>
      if PipelineHasProcessor(pipeline, "cumulativetodelta") && Stateless(mode) then multiset{DeltaFinding(name, mode)}
      else multiset{}
  }

  /** The findings the rule produces, in no particular order. */
  ghost function Expected(input: AnalysisInput): multiset<Finding> {
    match input.config
    case None => multiset{}
    case Some(cfg) => SumOver(cfg.service.pipelines, Contribution(input.deployMode))
  }

  /** `AnalyzeCumulativeDelta`: one warning per delta-converting pipeline of a Deployment or DaemonSet. */
  method AnalyzeCumulativeDelta(input: AnalysisInput) returns (findings: seq<Finding>)
    ensures input.config.None? ==> findings == []
    ensures multiset(findings) == Expected(input)
  {
    findings := [];
    if input.config.None? {
      return;
    }
    var pipelines := input.config.value.service.pipelines;
    var mode := input.deployMode;
    var rest := pipelines.Keys;
    while rest != {}
      invariant rest <= pipelines.Keys
      invariant multiset(findings) + Fold(pipelines, rest, Contribution(mode)) == SumOver(pipelines, Contribution(mode))
      decreases |rest|
    {
      var name :| name in rest;
      var part := CheckPipeline(name, pipelines[name], mode);
      FoldStep(pipelines, rest, Contribution(mode), name, findings, part);
      findings := findings + part;
      rest := rest - {name};
    }
  }

  /** One iteration of the loop of `AnalyzeCumulativeDelta`: the finding for one pipeline, if any. */
  method CheckPipeline(name: string, pipeline: PipelineConfig, mode: DeploymentMode) returns (findings: seq<Finding>)
    ensures multiset(findings) == Contribution(mode)(name, pipeline)
  {
    findings := [];
    var hasDelta := HasProcessor(pipeline, "cumulativetodelta");
    if hasDelta {
      if mode == Deployment || mode == DaemonSet {
        findings := [DeltaFinding(name, mode)];
      }
    }
  }

  /** StatefulSet, OperatorCRD and Unknown workloads get no findings. */
  lemma {:induction false} StatefulModesAreQuiet(input: AnalysisInput)
    requires !Stateless(input.deployMode)
    ensures Expected(input) == multiset{}
  {
    if input.config.Some? {
      var pipelines := input.config.value.service.pipelines;
      forall f ensures f !in Expected(input) {
        FoldMember(pipelines, pipelines.Keys, Contribution(input.deployMode), f);
      }
    }
  }

  /**
   * Every finding is a configuration warning whose summary names a delta-converting
   * pipeline and the workload's mode.
   */
  lemma {:induction false} FindingsNamePipelineAndMode(input: AnalysisInput, f: Finding)
    requires f in Expected(input)
    ensures input.config.Some? && Stateless(input.deployMode)
    ensures f.severity == SeverityWarning && f.category == CategoryConfig
    ensures exists name :: name in input.config.value.service.pipelines
                           && PipelineHasProcessor(input.config.value.service.pipelines[name], "cumulativetodelta")
                           && f == DeltaFinding(name, input.deployMode)
                           && Contains(f.summary, name) && Contains(f.summary, ModeName(input.deployMode))
  {
    var pipelines := input.config.value.service.pipelines;
    var mode := input.deployMode;
    FoldMember(pipelines, pipelines.Keys, Contribution(mode), f);
    var name :| name in pipelines && f in Contribution(mode)(name, pipelines[name]);
    SummaryTextNamesBoth(name, ModeName(mode));
  }

  /** Under a Deployment or DaemonSet a pipeline gets exactly one finding when it converts to delta, and none otherwise. */
  lemma {:induction false} OneFindingPerDeltaPipeline(input: AnalysisInput, name: string)
    requires input.config.Some? && Stateless(input.deployMode) && name in input.config.value.service.pipelines
    ensures var p := input.config.value.service.pipelines[name];
            Expected(input)[DeltaFinding(name, input.deployMode)] == if PipelineHasProcessor(p, "cumulativetodelta") then 1 else 0
  {
    var pipelines := input.config.value.service.pipelines;
    var mode := input.deployMode;
    var x := DeltaFinding(name, mode);
    forall k | k in pipelines && k != name ensures x !in Contribution(mode)(k, pipelines[k]) {
      if x in Contribution(mode)(k, pipelines[k]) {
        SummaryTextInjective(name, k, ModeName(mode));
      }
    }
    FoldCountUnique(pipelines, pipelines.Keys, Contribution(mode), name, x);
  }

  /** Under a Deployment or DaemonSet the number of findings is the number of delta-converting pipelines. */
  lemma {:induction false} CountIsDeltaPipelines(input: AnalysisInput)
    requires input.config.Some? && Stateless(input.deployMode)
    ensures var pipelines := input.config.value.service.pipelines;
            |Expected(input)| == |KeysWhere(pipelines, pipelines.Keys, ConvertsToDelta)|
  {
    var pipelines := input.config.value.service.pipelines;
    forall k | k in pipelines.Keys
      ensures |Contribution(input.deployMode)(k, pipelines[k])| == if ConvertsToDelta(k, pipelines[k]) then 1 else 0
    {
    }
    FoldSize(pipelines, pipelines.Keys, Contribution(input.deployMode), ConvertsToDelta);
  }
}
