/** The missing-batch rule (pkg/analysis/analyzer_missing_batch.go). */
module MissingBatch {
  import opened Wrappers
  import opened Text
  import opened Bags
  import opened Findings
  import opened Collector
  import opened Helpers
  import opened Input

  const Detail := "The batch processor groups data before sending to exporters, reducing network overhead and improving throughput. Without it, each piece of telemetry is sent individually."
  const Suggestion := "Add the batch processor to this pipeline"

  const SummaryHead := "Pipeline "
  const SummaryTail := " is missing the batch processor"

  function Summary(name: string): string {
    SummaryHead + Quote(name) + SummaryTail
  }

  const RemediationHead := "processors:\n  batch:\n    send_batch_size: 8192\n    timeout: 200ms\n\nservice:\n  pipelines:\n    "

  const RemediationMiddle := ":\n      processors: [batch, "

  function Remediation(name: string, joined: string): string {
    RemediationHead + name + RemediationMiddle + joined + "]"
  }

  /** The warning about pipeline `name`, given its processors already joined. */
  function MakeFinding(name: string, joined: string): Finding {
    Finding(SeverityWarning, CategoryPerformance, None, Summary(name), Detail, Suggestion, Remediation(name, joined))
  }

  /** The finding for pipeline `name`, which lacks a batch processor. */
  function BatchFinding(name: string, pipeline: PipelineConfig): Finding {
    MakeFinding(name, Join(pipeline.processors, ", "))
  }

  /** What one pipeline contributes: its finding when it has no `batch`-based processor. */
  function Contribution(name: string, pipeline: PipelineConfig): multiset<Finding> {
    if PipelineHasProcessor(pipeline, "batch") then multiset{} else multiset{BatchFinding(name, pipeline)}
  }

  /** Whether a pipeline lacks a batch processor. */
  predicate Unbatched(name: string, pipeline: PipelineConfig) {
    !PipelineHasProcessor(pipeline, "batch")
  }

  /** The findings the rule produces, in no particular order. */
  ghost function Expected(input: AnalysisInput): multiset<Finding> {
    match input.config
    case None => multiset{}
    case Some(cfg) => SumOver(cfg.service.pipelines, Contribution)
  }

  /** `joinProcessors`: the names separated by ", ". */
  method JoinProcessors(processors: seq<string>) returns (result: string)
    ensures result == Join(processors, ", ")
    ensures processors == [] ==> result == ""
  {
    result := "";
    for i := 0 to |processors|
      invariant result == Join(processors[..i], ", ")
    {
      if i > 0 {
        result := result + ", ";
      }
      result := result + processors[i];
      assert processors[..i + 1][..i] == processors[..i];
    }
    assert processors[..|processors|] == processors;
  }

  /** `AnalyzeMissingBatch`: one finding per pipeline without a batch processor. */
  method AnalyzeMissingBatch(input: AnalysisInput) returns (findings: seq<Finding>)
    ensures input.config.None? ==> findings == []
    ensures multiset(findings) == Expected(input)
  {
    findings := [];
    if input.config.None? {
      return;
    }
    var pipelines := input.config.value.service.pipelines;
    var rest := pipelines.Keys;
    while rest != {}
      invariant rest <= pipelines.Keys
      invariant multiset(findings) + Fold(pipelines, rest, Contribution) == SumOver(pipelines, Contribution)
      decreases |rest|
    {
      var name :| name in rest;
      var part := CheckPipeline(name, pipelines[name]);
      FoldStep(pipelines, rest, Contribution, name, findings, part);
      findings := findings + part;
      rest := rest - {name};
    }
  }

  /** One iteration of the loop of `AnalyzeMissingBatch`: the finding for one pipeline, if any. */
  method CheckPipeline(name: string, pipeline: PipelineConfig) returns (findings: seq<Finding>)
    ensures multiset(findings) == Contribution(name, pipeline)
  {
    findings := [];
    var hasBatch := HasProcessor(pipeline, "batch");
    if !hasBatch {
      var joined := JoinProcessors(pipeline.processors);
      findings := [MakeFinding(name, joined)];
    }
  }

  /** Findings for different pipelines differ, since each summary names its pipeline. */
  lemma BatchFindingInjective(n1: string, p1: PipelineConfig, n2: string, p2: PipelineConfig)
    requires BatchFinding(n1, p1) == BatchFinding(n2, p2)
    ensures n1 == n2
  {
    QuoteInjective(SummaryHead, n1, n2, SummaryTail);
  }

  /** The remediation snippet quotes the pipeline's name. */
  lemma RemediationNamesPipeline(name: string, joined: string)
    ensures Remediation(name, joined) != "" && Contains(Remediation(name, joined), name)
  {
    ContainsMiddle(RemediationHead, name, RemediationMiddle + joined + "]");
    assert RemediationHead + name + (RemediationMiddle + joined + "]") == Remediation(name, joined);
  }

  /**
   * Every finding is a performance warning about one declared pipeline that has no
   * batch processor, with a remediation naming it.
   */
  lemma {:induction false} FindingsAreWarnings(input: AnalysisInput, f: Finding)
    requires f in Expected(input)
    ensures input.config.Some?
    ensures f.severity == SeverityWarning && f.category == CategoryPerformance
    ensures exists name :: name in input.config.value.service.pipelines && f.summary == Summary(name)
                           && !PipelineHasProcessor(input.config.value.service.pipelines[name], "batch")
                           && f.remediation != "" && Contains(f.remediation, name)
  {
    var pipelines := input.config.value.service.pipelines;
    FoldMember(pipelines, pipelines.Keys, Contribution, f);
    var name :| name in pipelines && f in Contribution(name, pipelines[name]);
    RemediationNamesPipeline(name, Join(pipelines[name].processors, ", "));
  }

  /** A pipeline gets exactly one finding when it lacks batch, and none when it has one. */
  lemma {:induction false} OneFindingPerUnbatchedPipeline(input: AnalysisInput, name: string)
    requires input.config.Some? && name in input.config.value.service.pipelines
    ensures var p := input.config.value.service.pipelines[name];
            Expected(input)[BatchFinding(name, p)] == if PipelineHasProcessor(p, "batch") then 0 else 1
  {
    var pipelines := input.config.value.service.pipelines;
    var x := BatchFinding(name, pipelines[name]);
    forall k | k in pipelines && k != name ensures x !in Contribution(k, pipelines[k]) {
      if x in Contribution(k, pipelines[k]) {
        BatchFindingInjective(name, pipelines[name], k, pipelines[k]);
      }
    }
    FoldCountUnique(pipelines, pipelines.Keys, Contribution, name, x);
  }

  /** The number of findings is the number of pipelines without a batch processor. */
  lemma {:induction false} CountIsUnbatchedPipelines(input: AnalysisInput)
    requires input.config.Some?
    ensures var pipelines := input.config.value.service.pipelines;
            |Expected(input)| == |KeysWhere(pipelines, pipelines.Keys, Unbatched)|
  {
    var pipelines := input.config.value.service.pipelines;
    forall k | k in pipelines.Keys
      ensures |Contribution(k, pipelines[k])| == if Unbatched(k, pipelines[k]) then 1 else 0
    {
      assert |multiset{BatchFinding(k, pipelines[k])}| == 1;
    }
    FoldSize(pipelines, pipelines.Keys, Contribution, Unbatched);
  }

  /** Two pipelines of which only `metrics` lacks batch give exactly one finding. */
  lemma TwoPipelinesOneFinding(input: AnalysisInput)
    requires input.config.Some?
    requires input.config.value.service.pipelines == map[
      "traces" := PipelineConfig(["otlp"], ["batch"], ["otlp"]),
      "metrics" := PipelineConfig(["otlp"], [], ["otlp"])]
    ensures |Expected(input)| == 1
  {
    var pipelines := input.config.value.service.pipelines;
    CountIsUnbatchedPipelines(input);
    HasProcessorAt(pipelines["traces"], "batch", 0);
    assert pipelines["metrics"].processors == [];
    assert KeysWhere(pipelines, pipelines.Keys, Unbatched) == {"metrics"};
  }
}
