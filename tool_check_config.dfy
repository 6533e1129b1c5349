/**
 * The configuration check (pkg/tools/tool_check_config.go): it stops with one
 * warning when the configuration cannot be retrieved or parsed, and otherwise
 * runs only the configuration rules, without logs, and sorts their findings.
 */
module CheckConfig {
  import opened Wrappers
  import opened Findings
  import opened Collector
  import opened Input
  import opened Catalog
  import opened Triage
  import Detect

  const RetrieveFailedSummary := "Failed to retrieve collector configuration"
  const ParseFailedSummary := "Failed to parse collector configuration"

  /** The single warning that ends a check early, with the error as its detail. */
  function EarlyFailure(summary: string, err: string): Finding {
    Finding(SeverityWarning, CategoryConfig, None, summary, err, "", "")
  }

  /** The rule input of a check: the parsed configuration, no logs. */
  function CheckInput(cfg: CollectorConfig, mode: DeploymentMode): (r: AnalysisInput)
    ensures r.config == Some(cfg) && r.deployMode == mode && r.logs == []
  {
    AnalysisInput(Some(cfg), mode, [], [], None)
  }

  /**
   * `CheckConfigTool.Run`. `rawConfig` is the outcome of looking up the
   * configuration text and `parse` the YAML decoder.
   */
  method CheckConfig(namespace: string, name: string, hasOperator: bool, found: set<Detect.Probe>,
                     rawConfig: Result<string>, parse: string -> Result<CollectorConfig>,
                     engine: RegexEngine, faults: set<AnalyzerId>)
    returns (findings: seq<Finding>, metadata: map<string, string>, ghost parts: seq<seq<Finding>>)
    ensures rawConfig.Err? ==> findings == [EarlyFailure(RetrieveFailedSummary, rawConfig.error)] && metadata == map[]
    ensures rawConfig.Ok? && parse(rawConfig.value).Err? ==>
              findings == [EarlyFailure(ParseFailedSummary, parse(rawConfig.value).error)] && metadata == map[]
    ensures rawConfig.Ok? && parse(rawConfig.value).Ok? ==>
              var mode := ScanMode(found, namespace, name, hasOperator);
              && RanAll(AllAnalyzers(), CheckInput(parse(rawConfig.value).value, mode), engine, faults, parts)
              && SortedByRank(findings) && multiset(findings) == multiset(Flatten(parts))
              && metadata == map["deploymentMode" := ModeName(mode)]
  {
    var detection := Detect.DetectDeploymentModeWithCRD(found, namespace, name, hasOperator);
    var mode := detection.mode;
    if detection.error.Some? {
      mode := Unknown;
    }
    if rawConfig.Err? {
      return [EarlyFailure(RetrieveFailedSummary, rawConfig.error)], map[], [];
    }
    var parsed := parse(rawConfig.value);
    if parsed.Err? {
      return [EarlyFailure(ParseFailedSummary, parsed.error)], map[], [];
    }
    var input := CheckInput(parsed.value, mode);
    var all;
    all, parts := RunRules(AllAnalyzers(), input, engine, faults);
    findings := SortedCopy(all);
    metadata := map["deploymentMode" := ModeName(mode)];
  }

  /** A check never runs the log rule, whatever faults. */
  lemma NoLogRule(input: AnalysisInput, engine: RegexEngine, faults: set<AnalyzerId>, parts: seq<seq<Finding>>, k: nat)
    requires RanAll(AllAnalyzers(), input, engine, faults, parts) && k < |parts|
    ensures AllAnalyzers()[k] != ExporterBackpressureRule
    ensures AllAnalyzers()[k] !in faults ==> Outcome(AllAnalyzers()[k], input, engine, multiset(parts[k]))
  {
    var rules := AllAnalyzers();
    assert rules[k] in rules;
    assert RuleResult(rules[k], input, engine, faults, parts[k]);
  }
}
