/** The metrics-cardinality rule (pkg/analysis/analyzer_high_cardinality.go). */
module HighCardinality {
  import opened Wrappers
  import opened Text
  import opened Bags
  import opened Findings
  import opened Collector
  import opened Input

  /** A processor that can control label cardinality: plain prefix `filter`, `attributes` or `metricstransform`. */
  predicate IsControl(p: string) {
    HasPrefix(p, "filter") || HasPrefix(p, "attributes") || HasPrefix(p, "metricstransform")
  }

  /** Some processor of the list controls cardinality. */
  predicate Controlled(processors: seq<string>)
    decreases |processors|
  {
    |processors| > 0 && (IsControl(processors[0]) || Controlled(processors[1..]))
  }

  /** `Controlled` is the search the rule's loop performs. */
  lemma {:induction false} ControlledMeaning(processors: seq<string>)
    ensures Controlled(processors) <==> exists p :: p in processors && IsControl(p)
    decreases |processors|
  {
    if |processors| > 0 {
      ControlledMeaning(processors[1..]);
      assert forall p :: p in processors <==> p == processors[0] || p in processors[1..];
    }
  }

  /** Only pipelines whose name starts with `metrics` are examined. */
  predicate IsMetricsPipeline(name: string) {
    HasPrefix(name, "metrics")
  }

  const SummaryHead := "Metrics pipeline "
  const SummaryTail := " has no cardinality control processor"
  const Detail := "Without filter, attributes, or metricstransform processors, all metric labels are passed through unmodified. High-cardinality labels (like URLs, user IDs, or IP addresses) can cause metric explosion in your backend."
  const Suggestion := "Consider adding a filter or attributes processor to control metric cardinality"
  const RemediationHead := "# Add an attributes processor to drop high-cardinality labels:\nprocessors:\n  attributes/drop-high-card:\n    actions:\n      - key: http.url\n        action: delete\n      - key: url.full\n        action: delete\n\nservice:\n  pipelines:\n    "
  const RemediationMiddle := ":\n      processors: [attributes/drop-high-card, "

  function Summary(name: string): string {
    SummaryHead + Quote(name) + SummaryTail
  }

  /** The info finding for metrics pipeline `name`, given its processors already joined. */
  function MakeFinding(name: string, joined: string): Finding {
    Finding(SeverityInfo, CategoryPerformance, None, Summary(name), Detail, Suggestion,
            RemediationHead + name + RemediationMiddle + joined + "]")
  }

  function CardinalityFinding(name: string, pipeline: PipelineConfig): Finding {
    MakeFinding(name, Join(pipeline.processors, ", "))
  }

  /** Whether a pipeline is reported: a metrics pipeline with receivers and no control processor. */
  predicate Uncontrolled(name: string, pipeline: PipelineConfig) {
    IsMetricsPipeline(name) && !Controlled(pipeline.processors) && |pipeline.receivers| > 0
  }

  /** What one pipeline contributes. */
  function Contribution(name: string, pipeline: PipelineConfig): multiset<Finding> {
    if Uncontrolled(name, pipeline) then multiset{CardinalityFinding(name, pipeline)} else multiset{}
  }

  /** The findings the rule produces, in no particular order. */
  ghost function Expected(input: AnalysisInput): multiset<Finding> {
    match input.config
    case None => multiset{}
    case Some(cfg) => SumOver(cfg.service.pipelines, Contribution)
  }

  /** `AnalyzeHighCardinality`: one info finding per uncontrolled metrics pipeline. */
  method AnalyzeHighCardinality(input: AnalysisInput) returns (findings: seq<Finding>)
    ensures input.config.None? ==> findings == []
    ensures multiset(findings) == Expected(input)
  {
    findings := [];
    if input.config.None? {
      return;
    }
    var pipelines := input.config.value.service.pipelines;
    var rest := pipelines.Keys;
    while rest != {}
      invariant rest <= pipelines.Keys
      invariant multiset(findings) + Fold(pipelines, rest, Contribution) == SumOver(pipelines, Contribution)
      decreases |rest|
    {
      var name :| name in rest;
      var part := CheckPipeline(name, pipelines[name]);
      FoldStep(pipelines, rest, Contribution, name, findings, part);
      findings := findings + part;
      rest := rest - {name};
    }
  }

  /** One iteration of the loop of `AnalyzeHighCardinality`: `continue` for other pipelines. */
  method CheckPipeline(name: string, pipeline: PipelineConfig) returns (findings: seq<Finding>)
    ensures multiset(findings) == Contribution(name, pipeline)
  {
    findings := [];
    if !HasPrefix(name, "metrics") {
      return;
    }
    var hasFilter := HasControl(pipeline.processors);
    if !hasFilter && |pipeline.receivers| > 0 {
      var joined := Join(pipeline.processors, ", ");
      findings := [MakeFinding(name, joined)];
    }
  }

  /** The search loop for a control processor, which stops at the first one. */
  method HasControl(processors: seq<string>) returns (hasFilter: bool)
    ensures hasFilter <==> Controlled(processors)
  {
    ControlledMeaning(processors);
    hasFilter := false;
    var i := 0;
    while i < |processors|
      invariant 0 <= i <= |processors|
      invariant !hasFilter
      invariant forall j :: 0 <= j < i ==> !IsControl(processors[j])
    {
      var p := processors[i];
      if HasPrefix(p, "filter") || HasPrefix(p, "attributes") || HasPrefix(p, "metricstransform") {
        hasFilter := true;
        assert processors[i] in processors && IsControl(processors[i]);
        break;
      }
      i := i + 1;
    }
  }

  /** Findings for different pipelines differ, since each summary quotes its pipeline. */
  lemma CardinalityFindingInjective(n1: string, p1: PipelineConfig, n2: string, p2: PipelineConfig)
    requires CardinalityFinding(n1, p1) == CardinalityFinding(n2, p2)
    ensures n1 == n2
  {
    QuoteInjective(SummaryHead, n1, n2, SummaryTail);
  }

  /**
   * Every finding is an info performance finding about a declared metrics pipeline
   * that has receivers and no cardinality control processor.
   */
  lemma {:induction false} FindingsAreUncontrolledMetrics(input: AnalysisInput, f: Finding)
    requires f in Expected(input)
    ensures input.config.Some? && f.severity == SeverityInfo && f.category == CategoryPerformance
    ensures exists name :: name in input.config.value.service.pipelines && f.summary == Summary(name)
                           && HasPrefix(name, "metrics")
                           && |input.config.value.service.pipelines[name].receivers| > 0
                           && forall p :: p in input.config.value.service.pipelines[name].processors ==> !IsControl(p)
  {
    var pipelines := input.config.value.service.pipelines;
    FoldMember(pipelines, pipelines.Keys, Contribution, f);
    var name :| name in pipelines && f in Contribution(name, pipelines[name]);
    ControlledMeaning(pipelines[name].processors);
  }

  /** Each pipeline gets exactly one finding when it is uncontrolled, and none otherwise. */
  lemma {:induction false} OneFindingPerUncontrolledPipeline(input: AnalysisInput, name: string)
    requires input.config.Some? && name in input.config.value.service.pipelines
    ensures var p := input.config.value.service.pipelines[name];
            Expected(input)[CardinalityFinding(name, p)] == if Uncontrolled(name, p) then 1 else 0
  {
    var pipelines := input.config.value.service.pipelines;
    var x := CardinalityFinding(name, pipelines[name]);
    forall k | k in pipelines && k != name ensures x !in Contribution(k, pipelines[k]) {
      if x in Contribution(k, pipelines[k]) {
        CardinalityFindingInjective(name, pipelines[name], k, pipelines[k]);
      }
    }
    FoldCountUnique(pipelines, pipelines.Keys, Contribution, name, x);
  }

  /** The number of findings is the number of uncontrolled metrics pipelines, so at most one each. */
  lemma {:induction false} CountIsUncontrolledPipelines(input: AnalysisInput)
    requires input.config.Some?
    ensures var pipelines := input.config.value.service.pipelines;
            |Expected(input)| == |KeysWhere(pipelines, pipelines.Keys, Uncontrolled)|
  {
    var pipelines := input.config.value.service.pipelines;
    forall k | k in pipelines.Keys
      ensures |Contribution(k, pipelines[k])| == if Uncontrolled(k, pipelines[k]) then 1 else 0
    {
    }
    FoldSize(pipelines, pipelines.Keys, Contribution, Uncontrolled);
  }

  /** Each pipeline gets at most one finding. */
  lemma {:induction false} AtMostOnePerPipeline(input: AnalysisInput)
    requires input.config.Some?
    ensures |Expected(input)| <= |input.config.value.service.pipelines|
  {
    var pipelines := input.config.value.service.pipelines;
    FoldAtMost(pipelines, pipelines.Keys, Contribution, 1);
    assert |pipelines.Keys| == |pipelines|;
  }
}
