/** The multiple-resource-detector rule (pkg/analysis/analyzer_resource_detector_conflicts.go). */
module ResourceDetectorConflicts {
  import opened Wrappers
  import opened Text
  import opened Bags
  import opened Findings
  import opened Collector
  import opened Input

  /** A resource-detecting processor: any name with the plain prefix `resourcedetection`, or exactly `resource`. */
  predicate IsDetector(p: string) {
    HasPrefix(p, "resourcedetection") || p == "resource"
  }

  /** The detectors among `processors`, in pipeline order. */
  function Detectors(processors: seq<string>): seq<string>
    decreases |processors|
  {
    if |processors| == 0 then []
    else
      var last := processors[|processors| - 1];
      Detectors(processors[..|processors| - 1]) + (if IsDetector(last) then [last] else [])
  }

  /** The detectors are exactly the processors that detect, and never more than the processors. */
  lemma {:induction false} DetectorsMeaning(processors: seq<string>)
    ensures forall p :: p in Detectors(processors) <==> p in processors && IsDetector(p)
    ensures |Detectors(processors)| <= |processors|
    decreases |processors|
  {
    if |processors| > 0 {
      var init := processors[..|processors| - 1];
      DetectorsMeaning(init);
      assert processors == init + [processors[|processors| - 1]];
    }
  }

  /** Collecting distributes over concatenation, so the order of the pipeline is kept. */
  lemma {:induction false} DetectorsAppend(a: seq<string>, b: seq<string>)
    ensures Detectors(a + b) == Detectors(a) + Detectors(b)
    decreases |b|
  {
    if |b| == 0 {
      assert a + b == a;
    } else {
      var init := b[..|b| - 1];
      DetectorsAppend(a, init);
      assert (a + b)[..|a + b| - 1] == a + init;
    }
  }

  /** `resource/x` is not a detector, while `resourcedetectionx` and `resource` are. */
  lemma DetectorExamples()
    ensures IsDetector("resourcedetectionx") && IsDetector("resource") && !IsDetector("resource/x")
  {
    assert "resourcedetectionx"[..17] == "resourcedetection";
    assert "resource/x"[8] != "resourcedetection"[8];
  }

  const SummaryHead := "Pipeline "
  const SummaryMiddle := " has multiple resource detection processors: "
  const Detail := "Multiple resource detection processors in the same pipeline may overwrite each other's attributes. The later processor's attributes take precedence, potentially losing information from earlier detectors."
  const Suggestion := "Merge resource detection processors into a single instance with multiple detectors, or ensure the override order is intentional"
  const Remediation := "# Merge multiple resource detection processors into one:\nprocessors:\n  resourcedetection:\n    detectors: [env, system, gcp, eks, azure]\n    timeout: 5s\n    override: false  # Set to false to preserve existing attributes"

  function Summary(name: string, detectors: seq<string>): string {
    SummaryHead + Quote(name) + SummaryMiddle + FormatList(detectors)
  }

  /** The warning for pipeline `name`, which has the given detectors. */
  function DetectorFinding(name: string, detectors: seq<string>): Finding {
    Finding(SeverityWarning, CategoryConfig, None, Summary(name, detectors), Detail, Suggestion, Remediation)
  }

  /** Whether a pipeline has more than one detector. */
  predicate Conflicting(name: string, pipeline: PipelineConfig) {
    |Detectors(pipeline.processors)| > 1
  }

  /** What one pipeline contributes: a finding when it has more than one detector. */
  function Contribution(name: string, pipeline: PipelineConfig): multiset<Finding> {
    var detectors := Detectors(pipeline.processors);
    if |detectors| > 1 then multiset{DetectorFinding(name, detectors)} else multiset{}
  }

  /** The findings the rule produces, in no particular order. */
  ghost function Expected(input: AnalysisInput): multiset<Finding> {
    match input.config
    case None => multiset{}
    case Some(cfg) => SumOver(cfg.service.pipelines, Contribution)
  }

  /** `AnalyzeResourceDetectorConflicts`: one warning per pipeline with several detectors. */
  method AnalyzeResourceDetectorConflicts(input: AnalysisInput) returns (findings: seq<Finding>)
    ensures input.config.None? ==> findings == []
    ensures multiset(findings) == Expected(input)
  {
    findings := [];
    if input.config.None? {
      return;
    }
    var pipelines := input.config.value.service.pipelines;
    var rest := pipelines.Keys;
    while rest != {}
      invariant rest <= pipelines.Keys
      invariant multiset(findings) + Fold(pipelines, rest, Contribution) == SumOver(pipelines, Contribution)
      decreases |rest|
    {
      var name :| name in rest;
      var part := CheckPipeline(name, pipelines[name]);
      FoldStep(pipelines, rest, Contribution, name, findings, part);
      findings := findings + part;
      rest := rest - {name};
    }
  }

  /** One iteration of the loop of `AnalyzeResourceDetectorConflicts`. */
  method CheckPipeline(name: string, pipeline: PipelineConfig) returns (findings: seq<Finding>)
    ensures multiset(findings) == Contribution(name, pipeline)
  {
    var detectors := CollectDetectors(pipeline.processors);
    if |detectors| > 1 {
      findings := [DetectorFinding(name, detectors)];
    } else {
      findings := [];
    }
  }

  /** The inner loop that builds `resourceDetectors`. */
  method CollectDetectors(processors: seq<string>) returns (detectors: seq<string>)
    ensures detectors == Detectors(processors)
  {
    detectors := [];
    for i := 0 to |processors|
      invariant detectors == Detectors(processors[..i])
    {
      if HasPrefix(processors[i], "resourcedetection") || processors[i] == "resource" {
        detectors := detectors + [processors[i]];
      }
      assert processors[..i + 1][..i] == processors[..i];
    }
    assert processors[..|processors|] == processors;
  }

  /** The summary names every detector found. */
  lemma SummaryListsDetectors(name: string, detectors: seq<string>, k: nat)
    requires k < |detectors|
    ensures Contains(Summary(name, detectors), detectors[k])
  {
    JoinContains(detectors, " ", k);
    ContainsExtend(Join(detectors, " "), detectors[k], SummaryHead + Quote(name) + SummaryMiddle + "[", "]");
    assert SummaryHead + Quote(name) + SummaryMiddle + "[" + Join(detectors, " ") + "]" == Summary(name, detectors);
  }

  /**
   * Every finding is a configuration warning about a declared pipeline with more than
   * one detector, whose summary lists those detectors.
   */
  lemma {:induction false} FindingsAreConflicts(input: AnalysisInput, f: Finding)
    requires f in Expected(input)
    ensures input.config.Some? && f.severity == SeverityWarning && f.category == CategoryConfig
    ensures exists name :: name in input.config.value.service.pipelines
                           && |Detectors(input.config.value.service.pipelines[name].processors)| > 1
                           && f == DetectorFinding(name, Detectors(input.config.value.service.pipelines[name].processors))
  {
    var pipelines := input.config.value.service.pipelines;
    FoldMember(pipelines, pipelines.Keys, Contribution, f);
  }

  /** A pipeline with more than one detector is reported. */
  lemma {:induction false} ConflictingPipelineIsReported(input: AnalysisInput, name: string)
    requires input.config.Some? && name in input.config.value.service.pipelines
    requires |Detectors(input.config.value.service.pipelines[name].processors)| > 1
    ensures DetectorFinding(name, Detectors(input.config.value.service.pipelines[name].processors)) in Expected(input)
  {
    var pipelines := input.config.value.service.pipelines;
    FoldMember(pipelines, pipelines.Keys, Contribution, DetectorFinding(name, Detectors(pipelines[name].processors)));
  }

  /** The number of findings is the number of pipelines with more than one detector. */
  lemma {:induction false} CountIsConflictingPipelines(input: AnalysisInput)
    requires input.config.Some?
    ensures var pipelines := input.config.value.service.pipelines;
            |Expected(input)| == |KeysWhere(pipelines, pipelines.Keys, Conflicting)|
  {
    var pipelines := input.config.value.service.pipelines;
    forall k | k in pipelines.Keys
      ensures |Contribution(k, pipelines[k])| == if Conflicting(k, pipelines[k]) then 1 else 0
    {
    }
    FoldSize(pipelines, pipelines.Keys, Contribution, Conflicting);
  }
}
