/** The tail-sampling-on-DaemonSet rule (pkg/analysis/analyzer_tail_sampling_daemonset.go). */
module TailSamplingDaemonSet {
  import opened Wrappers
  import opened Text
  import opened Bags
  import opened Findings
  import opened Collector
  import opened Helpers
  import opened Input

  const SummaryHead := "Tail sampling configured on a DaemonSet collector in pipeline "
  const Detail := "Tail sampling requires all spans for a trace to reach the same collector instance. In a DaemonSet deployment, spans from different pods land on different collector nodes, making tail sampling decisions incorrect. This leads to incomplete traces and sampling bias."
  const Suggestion := "Move tail sampling to a gateway collector running as a Deployment or StatefulSet"
  const Remediation := "# Tail sampling must run on a centralized gateway, not per-node agents.\n# Architecture pattern:\n#   DaemonSet (agent) -> Deployment/StatefulSet (gateway with tail_sampling)\n#\n# Remove tail_sampling from the DaemonSet pipeline and configure it\n# on a centralized gateway collector instead."

  /** The critical finding for pipeline `name`, which tail-samples on a DaemonSet. */
  function SamplingFinding(name: string): Finding {
    Finding(SeverityCritical, CategoryConfig, None, SummaryHead + name, Detail, Suggestion, Remediation)
  }

  /** Whether a pipeline has a `tail_sampling`-based processor. */
  predicate TailSamples(name: string, pipeline: PipelineConfig) {
    PipelineHasProcessor(pipeline, "tail_sampling")
  }

  /** What one pipeline contributes once the mode is DaemonSet. */
  function Contribution(name: string, pipeline: PipelineConfig): multiset<Finding> {
    if PipelineHasProcessor(pipeline, "tail_sampling") then multiset{SamplingFinding(name)} else multiset{}
  }

  /** The findings the rule produces, in no particular order: none unless the mode is DaemonSet. */
  ghost function Expected(input: AnalysisInput): multiset<Finding> {
    match input.config
    case None => multiset{}
    case Some(cfg) => if input.deployMode == DaemonSet then SumOver(cfg.service.pipelines, Contribution) else multiset{}
  }

  /** `AnalyzeTailSamplingDaemonSet`: one critical finding per tail-sampling pipeline of a DaemonSet. */
  method AnalyzeTailSamplingDaemonSet(input: AnalysisInput) returns (findings: seq<Finding>)
    ensures input.config.None? || input.deployMode != DaemonSet ==> findings == []
    ensures multiset(findings) == Expected(input)
  {
    findings := [];
    if input.config.None? || input.deployMode != DaemonSet {
      return;
    }
    var pipelines := input.config.value.service.pipelines;
    var rest := pipelines.Keys;
    while rest != {}
      invariant rest <= pipelines.Keys
      invariant multiset(findings) + Fold(pipelines, rest, Contribution) == SumOver(pipelines, Contribution)
      decreases |rest|
    {
      var name :| name in rest;
      var part := CheckPipeline(name, pipelines[name]);
      FoldStep(pipelines, rest, Contribution, name, findings, part);
      findings := findings + part;
      rest := rest - {name};
    }
  }

  /** One iteration of the loop of `AnalyzeTailSamplingDaemonSet`: the finding for one pipeline, if any. */
  method CheckPipeline(name: string, pipeline: PipelineConfig) returns (findings: seq<Finding>)
    ensures multiset(findings) == Contribution(name, pipeline)
  {
    findings := [];
    var hasSampling := HasProcessor(pipeline, "tail_sampling");
    if hasSampling {
      findings := [SamplingFinding(name)];
    }
  }

  /** Every finding is a critical configuration finding about a tail-sampling pipeline of a DaemonSet. */
  lemma {:induction false} FindingsAreCritical(input: AnalysisInput, f: Finding)
    requires f in Expected(input)
    ensures input.config.Some? && input.deployMode == DaemonSet
    ensures f.severity == SeverityCritical && f.category == CategoryConfig
    ensures exists name :: name in input.config.value.service.pipelines && f == SamplingFinding(name)
                           && PipelineHasProcessor(input.config.value.service.pipelines[name], "tail_sampling")
  {
    var pipelines := input.config.value.service.pipelines;
    FoldMember(pipelines, pipelines.Keys, Contribution, f);
  }

  /** Under DaemonSet a pipeline gets exactly one finding when it tail-samples, and none otherwise. */
  lemma {:induction false} OneFindingPerSamplingPipeline(input: AnalysisInput, name: string)
    requires input.config.Some? && input.deployMode == DaemonSet && name in input.config.value.service.pipelines
    ensures var p := input.config.value.service.pipelines[name];
            Expected(input)[SamplingFinding(name)] == if PipelineHasProcessor(p, "tail_sampling") then 1 else 0
  {
    var pipelines := input.config.value.service.pipelines;
    var x := SamplingFinding(name);
    forall k | k in pipelines && k != name ensures x !in Contribution(k, pipelines[k]) {
      if x in Contribution(k, pipelines[k]) {
        AppendInjective(SummaryHead, name, k);
      }
    }
    FoldCountUnique(pipelines, pipelines.Keys, Contribution, name, x);
  }

  /** Under DaemonSet the number of findings is the number of tail-sampling pipelines. */
  lemma {:induction false} CountIsSamplingPipelines(input: AnalysisInput)
    requires input.config.Some? && input.deployMode == DaemonSet
    ensures var pipelines := input.config.value.service.pipelines;
            |Expected(input)| == |KeysWhere(pipelines, pipelines.Keys, TailSamples)|
  {
    var pipelines := input.config.value.service.pipelines;
    forall k | k in pipelines.Keys
      ensures |Contribution(k, pipelines[k])| == if TailSamples(k, pipelines[k]) then 1 else 0
    {
    }
    FoldSize(pipelines, pipelines.Keys, Contribution, TailSamples);
  }
}
