/** Lookup helpers shared by the configuration rules (pkg/analysis/helpers.go). */
module Helpers {
  import opened Wrappers
  import opened Text
  import opened Collector
  import Maps

  /** The "base/qualifier" naming convention: `p` is `base` itself or `base/<qualifier>`. */
  predicate MatchesProcessor(p: string, base: string) {
    p == base || (|p| > |base| && p[..|base| + 1] == base + "/")
  }

  /** The length test and slice of the source say exactly "equal, or prefixed by `base/`". */
  lemma MatchesProcessorMeaning(p: string, base: string)
    ensures MatchesProcessor(p, base) <==> p == base || HasPrefix(p, base + "/")
  {
  }

  /** `pipelineHasProcessor`: some processor of the pipeline is `base` or `base/<qualifier>`. */
  function PipelineHasProcessor(pipeline: PipelineConfig, base: string): (r: bool)
    ensures r <==> exists p :: p in pipeline.processors && (p == base || HasPrefix(p, base + "/"))
  {
    forall p | p in pipeline.processors ensures MatchesProcessor(p, base) <==> p == base || HasPrefix(p, base + "/") {
      MatchesProcessorMeaning(p, base);
    }
    exists p | p in pipeline.processors :: MatchesProcessor(p, base)
  }

  /**
   * The loop of `pipelineHasProcessor`: scans the processors in order and
   * stops at the first match.
   */
  method HasProcessor(pipeline: PipelineConfig, base: string) returns (found: bool)
    ensures found == PipelineHasProcessor(pipeline, base)
  {
    var ps := pipeline.processors;
    for i := 0 to |ps|
      invariant forall j :: 0 <= j < i ==> !MatchesProcessor(ps[j], base)
    {
      if ps[i] == base || (|ps[i]| > |base| && ps[i][..|base| + 1] == base + "/") {
        HasProcessorAt(pipeline, base, i);
        return true;
      }
    }
    found := false;
    forall p | p in ps ensures !(p == base || HasPrefix(p, base + "/")) {
      MatchesProcessorMeaning(p, base);
    }
  }

  /** One matching processor is enough. */
  lemma HasProcessorAt(pipeline: PipelineConfig, base: string, i: nat)
    requires i < |pipeline.processors|
    requires pipeline.processors[i] == base || HasPrefix(pipeline.processors[i], base + "/")
    ensures PipelineHasProcessor(pipeline, base)
  {
    assert pipeline.processors[i] in pipeline.processors;
  }

  /** A qualified name matches its base, a longer plain name does not, and no processor means no match. */
  lemma ProcessorMatchExamples(receivers: seq<string>, exporters: seq<string>, base: string)
    ensures PipelineHasProcessor(PipelineConfig(receivers, ["batch/custom"], exporters), "batch")
    ensures !PipelineHasProcessor(PipelineConfig(receivers, ["batchx"], exporters), "batch")
    ensures !PipelineHasProcessor(PipelineConfig(receivers, [], exporters), base)
  {
    assert MatchesProcessor("batch/custom", "batch") by {
      assert "batch/custom"[..6] == "batch/";
    }
    assert !MatchesProcessor("batchx", "batch") by {
      assert "batchx"[5] != "batch/"[5];
    }
  }

  /** `getNestedMap`: the entry under `key` when it is present and itself a map. */
  function GetNestedMap(m: map<string, Value>, key: string): (r: Option<map<string, Value>>)
    ensures r.Some? <==> key in m && m[key].Map?
    ensures r.Some? ==> r.value == m[key].entries
  {
    if key in m && m[key].Map? then Some(m[key].entries) else None
  }

  /** `getNestedString`: the entry under `key` when it is present and a string. */
  function GetNestedString(m: map<string, Value>, key: string): (r: Option<string>)
    ensures r.Some? <==> key in m && m[key].Str?
    ensures r.Some? ==> r.value == m[key].s
  {
    if key in m && m[key].Str? then Some(m[key].s) else None
  }

  /** `getMapKeys`: every key of the map exactly once, in some order. */
  method GetMapKeys(m: map<string, Value>) returns (keys: seq<string>)
    ensures |keys| == |m|
    ensures forall k :: k in keys <==> k in m
    ensures forall i, j :: 0 <= i < j < |keys| ==> keys[i] != keys[j]
  {
    keys := Maps.Keys(m);
  }
}
