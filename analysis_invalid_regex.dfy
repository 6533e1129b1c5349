/** The invalid-regular-expression rule (pkg/analysis/analyzer_invalid_regex.go). */
module InvalidRegex {
  import opened Wrappers
  import opened Text
  import opened Bags
  import opened Findings
  import opened Collector
  import opened ConfigTree
  import opened Input

  const SummaryHead := "Invalid regex pattern in processor "
  const SummaryMiddle := " at "
  const DetailHead := "The regex pattern "
  const DetailMiddle := " is invalid: "
  const Suggestion := "Fix the regex pattern syntax"

  /** What the scan carries down the tree: the compiler and the processor's name. */
  datatype Context = Context(engine: RegexEngine, processor: string)

  /** `isRegexField`: one of four exact key names. */
  predicate IsRegexField(key: string) {
    key == "regexp" || key == "regex" || key == "match_type" || key == "pattern"
  }

  /** The warning for the pattern `value` at `fullPath`, which the compiler rejects with `error`. */
  function RegexFinding(processor: string, fullPath: string, value: string, error: string): Finding {
    Finding(SeverityWarning, CategoryConfig, None,
            SummaryHead + Quote(processor) + SummaryMiddle + Quote(fullPath),
            DetailHead + Quote(value) + DetailMiddle + error, Suggestion, "")
  }

  /** What one string leaf contributes: a warning when its key is a regex field and it does not compile. */
  function RegexLeaf(ctx: Context, key: string, value: string, fullPath: string): multiset<Finding> {
    if IsRegexField(key) then
      match CompileError(ctx.engine, value)
      case Some(error) => multiset{RegexFinding(ctx.processor, fullPath, value, error)}
      case None => multiset{}
    else multiset{}
  }

  /** What one processor contributes under the compiler `engine`. */
  ghost function Contribution(engine: RegexEngine): (string, Value) -> multiset<Finding> {
    (name: string, body: Value) => if body.Map? then Scan(body.entries, Context(engine, name), "", RegexLeaf) else multiset{}
  }

  /** The findings the rule produces, in no particular order. */
  ghost function Expected(input: AnalysisInput, engine: RegexEngine): multiset<Finding> {
    match input.config
    case None => multiset{}
    case Some(cfg) => SumOver(cfg.processors, Contribution(engine))
  }

  /** `scanForRegexPatterns`: the findings for the invalid patterns below `m`, recursing into nested maps. */
  method ScanForRegexPatterns(m: map<string, Value>, ctx: Context, path: string) returns (findings: seq<Finding>)
    ensures multiset(findings) == Scan(m, ctx, path, RegexLeaf)
    decreases Map(m), 1
  {
    findings := [];
    var rest := m.Keys;
    while rest != {}
      invariant rest <= m.Keys
      invariant multiset(findings) + Walk(m, rest, ctx, path, RegexLeaf) == Scan(m, ctx, path, RegexLeaf)
      decreases |rest|
    {
      var key :| key in rest;
      WalkPick(m, rest, ctx, path, RegexLeaf, key);
      assert rest - {key} <= m.Keys;
      rest := rest - {key};
      var part := ScanEntry(m, key, ctx, path);
      findings := findings + part;
    }
  }

  /** One iteration of the loop of `scanForRegexPatterns`: the entry under `key`. */
  method ScanEntry(m: map<string, Value>, key: string, ctx: Context, path: string) returns (findings: seq<Finding>)
    requires key in m
    ensures multiset(findings) == Entry(m, key, ctx, path, RegexLeaf)
    decreases Map(m), 0
  {
    findings := [];
    var fullPath := key;
    if path != "" {
      fullPath := path + "." + key;
    }
    match m[key]
    case Str(v) =>
      if IsRegexField(key) {
        var err := CompileError(ctx.engine, v);
        if err.Some? {
          findings := [RegexFinding(ctx.processor, fullPath, v, err.value)];
        }
      }
    case Map(sub) =>
      assert m[key] in m.Values;
      findings := ScanForRegexPatterns(sub, ctx, fullPath);
    case _ =>
  }

  /** `AnalyzeInvalidRegex`: the scan of every map-valued processor, compiling with `engine`. */
  method AnalyzeInvalidRegex(input: AnalysisInput, engine: RegexEngine) returns (findings: seq<Finding>)
    ensures input.config.None? ==> findings == []
    ensures multiset(findings) == Expected(input, engine)
  {
    findings := [];
    if input.config.None? {
      return;
    }
    var processors := input.config.value.processors;
    var rest := processors.Keys;
    while rest != {}
      invariant rest <= processors.Keys
      invariant multiset(findings) + Fold(processors, rest, Contribution(engine)) == SumOver(processors, Contribution(engine))
      decreases |rest|
    {
      var name :| name in rest;
      FoldPick(processors, rest, Contribution(engine), name);
      assert rest - {name} <= processors.Keys;
      rest := rest - {name};
      var body := processors[name];
      if !body.Map? {
        continue;
      }
      var scanned := ScanForRegexPatterns(body.entries, Context(engine, name), "");
      findings := findings + scanned;
    }
  }

  /**
   * A finding is produced exactly for a string under a regex key, reached from a
   * map-valued processor through nested maps, that the compiler rejects.
   */
  lemma {:induction false} FindingsAreRejectedPatterns(input: AnalysisInput, engine: RegexEngine, f: Finding)
    requires input.config.Some?
    ensures f in Expected(input, engine) <==>
      exists name, key, value, full ::
        name in input.config.value.processors && input.config.value.processors[name].Map?
        && LeafIn(input.config.value.processors[name].entries, input.config.value.processors[name].entries.Keys, "", key, value, full)
        && IsRegexField(key) && CompileError(engine, value).Some?
        && f == RegexFinding(name, full, value, CompileError(engine, value).value)
  {
    var processors := input.config.value.processors;
    FoldMember(processors, processors.Keys, Contribution(engine), f);
    forall name | name in processors && processors[name].Map? {
      ProcessorMember(engine, name, processors[name].entries, f);
    }
  }

  /** The membership characterisation for one processor's body. */
  lemma ProcessorMember(engine: RegexEngine, name: string, body: map<string, Value>, f: Finding)
    ensures f in Contribution(engine)(name, Map(body)) <==>
      exists key, value, full :: LeafIn(body, body.Keys, "", key, value, full)
                                 && IsRegexField(key) && CompileError(engine, value).Some?
                                 && f == RegexFinding(name, full, value, CompileError(engine, value).value)
  {
    WalkMember(body, body.Keys, Context(engine, name), "", RegexLeaf, f);
  }

  /** Every finding is a configuration warning whose detail quotes the pattern and carries the compiler's error. */
  lemma {:induction false} DetailEmbedsPatternAndError(input: AnalysisInput, engine: RegexEngine, f: Finding)
    requires f in Expected(input, engine)
    ensures f.severity == SeverityWarning && f.category == CategoryConfig
    ensures exists value :: value in engine.rejects && Contains(f.detail, value) && Contains(f.detail, engine.rejects[value])
  {
    FindingsAreRejectedPatterns(input, engine, f);
    var name, key, value, full :| name in input.config.value.processors && input.config.value.processors[name].Map?
        && LeafIn(input.config.value.processors[name].entries, input.config.value.processors[name].entries.Keys, "", key, value, full)
        && IsRegexField(key) && CompileError(engine, value).Some?
        && f == RegexFinding(name, full, value, CompileError(engine, value).value);
    var error := engine.rejects[value];
    ContainsQuoted(DetailHead, value, DetailMiddle + error);
    assert DetailHead + Quote(value) + (DetailMiddle + error) == f.detail;
    ContainsMiddle(DetailHead + Quote(value) + DetailMiddle, error, "");
    assert DetailHead + Quote(value) + DetailMiddle + error + "" == f.detail;
  }

  /** Matching of the key names is exact and case-sensitive. */
  lemma RegexFieldExamples()
    ensures IsRegexField("regex") && IsRegexField("match_type")
    ensures !IsRegexField("Regex") && !IsRegexField("regex_list") && !IsRegexField("")
  {
    assert "Regex"[0] != "regex"[0];
  }
}
