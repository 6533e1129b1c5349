/** The missing-memory-limiter rule (pkg/analysis/analyzer_missing_memory_limiter.go). */
module MissingMemoryLimiter {
  import opened Wrappers
  import opened Text
  import opened Bags
  import opened Findings
  import opened Collector
  import opened Helpers
  import opened Input
  import MissingBatch

  const Detail := "Without memory_limiter, the collector can consume unbounded memory and be OOM-killed. The memory_limiter processor should be the first processor in every pipeline to prevent this."
  const Suggestion := "Add memory_limiter as the first processor in this pipeline"

  const SummaryHead := "Pipeline "
  const SummaryTail := " is missing the memory_limiter processor"

  function Summary(name: string): string {
    SummaryHead + Quote(name) + SummaryTail
  }

  const RemediationHead := "processors:\n  memory_limiter:\n    check_interval: 1s\n    limit_mib: 512\n    spike_limit_mib: 128\n\nservice:\n  pipelines:\n    "

  const RemediationMiddle := ":\n      processors: [memory_limiter, "

  function Remediation(name: string, joined: string): string {
    RemediationHead + name + RemediationMiddle + joined + "]"
  }

  /** The critical finding about pipeline `name`, given its processors already joined. */
  function MakeFinding(name: string, joined: string): Finding {
    Finding(SeverityCritical, CategoryPerformance, None, Summary(name), Detail, Suggestion, Remediation(name, joined))
  }

  /** The finding for pipeline `name`, which lacks a memory limiter. */
  function LimiterFinding(name: string, pipeline: PipelineConfig): Finding {
    MakeFinding(name, Join(pipeline.processors, ", "))
  }

  /** Whether a pipeline lacks a `memory_limiter`-based processor. */
  predicate Unlimited(name: string, pipeline: PipelineConfig) {
    !PipelineHasProcessor(pipeline, "memory_limiter")
  }

  /** What one pipeline contributes: its finding when it has no memory limiter. */
  function Contribution(name: string, pipeline: PipelineConfig): multiset<Finding> {
    if PipelineHasProcessor(pipeline, "memory_limiter") then multiset{} else multiset{LimiterFinding(name, pipeline)}
  }

  /** The findings the rule produces, in no particular order. */
  ghost function Expected(input: AnalysisInput): multiset<Finding> {
    match input.config
    case None => multiset{}
    case Some(cfg) => SumOver(cfg.service.pipelines, Contribution)
  }

  /** `AnalyzeMissingMemoryLimiter`: one critical finding per pipeline without a memory limiter. */
  method AnalyzeMissingMemoryLimiter(input: AnalysisInput) returns (findings: seq<Finding>)
    ensures input.config.None? ==> findings == []
    ensures multiset(findings) == Expected(input)
  {
    findings := [];
    if input.config.None? {
      return;
    }
    var pipelines := input.config.value.service.pipelines;
    var rest := pipelines.Keys;
    while rest != {}
      invariant rest <= pipelines.Keys
      invariant multiset(findings) + Fold(pipelines, rest, Contribution) == SumOver(pipelines, Contribution)
      decreases |rest|
    {
      var name :| name in rest;
      var part := CheckPipeline(name, pipelines[name]);
      FoldStep(pipelines, rest, Contribution, name, findings, part);
      findings := findings + part;
      rest := rest - {name};
    }
  }

  /** One iteration of the loop of `AnalyzeMissingMemoryLimiter`: the finding for one pipeline, if any. */
  method CheckPipeline(name: string, pipeline: PipelineConfig) returns (findings: seq<Finding>)
    ensures multiset(findings) == Contribution(name, pipeline)
  {
    findings := [];
    var hasLimiter := HasProcessor(pipeline, "memory_limiter");
    if !hasLimiter {
      var joined := MissingBatch.JoinProcessors(pipeline.processors);
      findings := [MakeFinding(name, joined)];
    }
  }

  /** Findings for different pipelines differ, since each summary names its pipeline. */
  lemma LimiterFindingInjective(n1: string, p1: PipelineConfig, n2: string, p2: PipelineConfig)
    requires LimiterFinding(n1, p1) == LimiterFinding(n2, p2)
    ensures n1 == n2
  {
    QuoteInjective(SummaryHead, n1, n2, SummaryTail);
  }

  /** Every finding is a critical performance finding whose summary names a pipeline lacking a memory limiter. */
  lemma {:induction false} FindingsAreCritical(input: AnalysisInput, f: Finding)
    requires f in Expected(input)
    ensures input.config.Some?
    ensures f.severity == SeverityCritical && f.category == CategoryPerformance
    ensures exists name :: name in input.config.value.service.pipelines && f.summary == Summary(name)
                           && Contains(f.summary, name)
                           && !PipelineHasProcessor(input.config.value.service.pipelines[name], "memory_limiter")
  {
    var pipelines := input.config.value.service.pipelines;
    FoldMember(pipelines, pipelines.Keys, Contribution, f);
    var name :| name in pipelines && f in Contribution(name, pipelines[name]);
    ContainsQuoted(SummaryHead, name, SummaryTail);
  }

  /** A pipeline gets exactly one finding when it lacks a memory limiter, and none otherwise. */
  lemma {:induction false} OneFindingPerUnlimitedPipeline(input: AnalysisInput, name: string)
    requires input.config.Some? && name in input.config.value.service.pipelines
    ensures var p := input.config.value.service.pipelines[name];
            Expected(input)[LimiterFinding(name, p)] == if PipelineHasProcessor(p, "memory_limiter") then 0 else 1
  {
    var pipelines := input.config.value.service.pipelines;
    var x := LimiterFinding(name, pipelines[name]);
    forall k | k in pipelines && k != name ensures x !in Contribution(k, pipelines[k]) {
      if x in Contribution(k, pipelines[k]) {
        LimiterFindingInjective(name, pipelines[name], k, pipelines[k]);
      }
    }
    FoldCountUnique(pipelines, pipelines.Keys, Contribution, name, x);
  }

  /** The number of findings is the number of pipelines without a memory limiter. */
  lemma {:induction false} CountIsUnlimitedPipelines(input: AnalysisInput)
    requires input.config.Some?
    ensures var pipelines := input.config.value.service.pipelines;
            |Expected(input)| == |KeysWhere(pipelines, pipelines.Keys, Unlimited)|
  {
    var pipelines := input.config.value.service.pipelines;
    forall k | k in pipelines.Keys
      ensures |Contribution(k, pipelines[k])| == if Unlimited(k, pipelines[k]) then 1 else 0
    {
      assert |multiset{LimiterFinding(k, pipelines[k])}| == 1;
    }
    FoldSize(pipelines, pipelines.Keys, Contribution, Unlimited);
  }

  /** Putting `memory_limiter` or `memory_limiter/<name>` into a pipeline silences it. */
  lemma AddingLimiterRemovesFinding(name: string, pipeline: PipelineConfig, qualifier: string)
    ensures Contribution(name, PipelineConfig(pipeline.receivers, ["memory_limiter"] + pipeline.processors, pipeline.exporters)) == multiset{}
    ensures Contribution(name, PipelineConfig(pipeline.receivers, ["memory_limiter/" + qualifier] + pipeline.processors, pipeline.exporters)) == multiset{}
  {
    var p1 := PipelineConfig(pipeline.receivers, ["memory_limiter"] + pipeline.processors, pipeline.exporters);
    HasProcessorAt(p1, "memory_limiter", 0);
    var q := "memory_limiter/" + qualifier;
    var p2 := PipelineConfig(pipeline.receivers, [q] + pipeline.processors, pipeline.exporters);
    assert q[..|"memory_limiter/"|] == "memory_limiter/";
    HasProcessorAt(p2, "memory_limiter", 0);
  }
}
