/**
 * The triage scan (pkg/tools/tool_triage.go): it gathers the deployment mode,
 * the parsed configuration and the pod's logs, runs every rule of the catalog
 * behind a fault boundary, and sorts the findings by severity.
 *
 * The cluster and the YAML decoder are inputs: the set of probes that succeed,
 * the outcome of the ConfigMap lookup, a parse function, the fetched log lines
 * and the set of rules that fault on this run.
 */
module Triage {
  import opened Wrappers
  import opened Findings
  import opened Collector
  import opened Input
  import opened Catalog
  import Detect

  const FaultSummary := "An analyzer failed to execute"
  const FaultDetail := "One of the detection rules encountered an unexpected error. Other rules were not affected."

  /** The placeholder a faulting rule contributes instead of its findings. */
  function FaultFinding(): Finding {
    Finding(SeverityInfo, CategoryConfig, None, FaultSummary, FaultDetail, "", "")
  }

  /** What one rule contributes behind the fault boundary. */
  ghost predicate RuleResult(a: AnalyzerId, input: AnalysisInput, engine: RegexEngine, faults: set<AnalyzerId>,
                             part: seq<Finding>) {
    if a in faults then part == [FaultFinding()] else Outcome(a, input, engine, multiset(part))
  }

  /** The parts, concatenated in order. */
  function Flatten(parts: seq<seq<Finding>>): seq<Finding>
    decreases |parts|
  {
    if |parts| == 0 then [] else Flatten(parts[..|parts| - 1]) + parts[|parts| - 1]
  }

  /** Whether `parts` holds one result per rule, each within its fault boundary. */
  ghost predicate RanAll(rules: seq<AnalyzerId>, input: AnalysisInput, engine: RegexEngine, faults: set<AnalyzerId>,
                         parts: seq<seq<Finding>>) {
    |parts| == |rules| && forall k :: 0 <= k < |rules| ==> RuleResult(rules[k], input, engine, faults, parts[k])
  }

  /** The rule loop: every rule runs, in order; a fault is confined to its own rule. */
  method RunRules(rules: seq<AnalyzerId>, input: AnalysisInput, engine: RegexEngine, faults: set<AnalyzerId>)
    returns (all: seq<Finding>, ghost parts: seq<seq<Finding>>)
    ensures RanAll(rules, input, engine, faults, parts) && all == Flatten(parts)
  {
    all, parts := [], [];
    for i := 0 to |rules|
      invariant RanAll(rules[..i], input, engine, faults, parts) && all == Flatten(parts)
    {
      var part;
      if rules[i] in faults {
        part := [FaultFinding()];
      } else {
        part := RunAnalyzer(rules[i], input, engine);
      }
      all := all + part;
      assert (parts + [part])[..|parts|] == parts;
      parts := parts + [part];
    }
    assert rules[..|rules|] == rules;
  }

  /** Every part's findings are among the concatenation, as often as in the part. */
  lemma {:induction false} PartIncluded(parts: seq<seq<Finding>>, k: nat)
    requires k < |parts|
    ensures multiset(parts[k]) <= multiset(Flatten(parts))
    decreases |parts|
  {
    if k < |parts| - 1 {
      PartIncluded(parts[..|parts| - 1], k);
    }
  }

  /** The concatenation holds exactly the parts' findings. */
  lemma {:induction false} FlattenSize(parts: seq<seq<Finding>>)
    ensures |Flatten(parts)| == SumSizes(parts)
    decreases |parts|
  {
    if |parts| > 0 {
      FlattenSize(parts[..|parts| - 1]);
    }
  }

  /** The total number of findings in the parts. */
  function SumSizes(parts: seq<seq<Finding>>): nat
    decreases |parts|
  {
    if |parts| == 0 then 0 else SumSizes(parts[..|parts| - 1]) + |parts[|parts| - 1]|
  }

  /** A faulting rule leaves its placeholder among the findings, and the other rules' findings stay. */
  lemma FaultIsIsolated(rules: seq<AnalyzerId>, input: AnalysisInput, engine: RegexEngine, faults: set<AnalyzerId>,
                        parts: seq<seq<Finding>>, k: nat)
    requires RanAll(rules, input, engine, faults, parts) && k < |rules|
    ensures rules[k] in faults ==> FaultFinding() in multiset(Flatten(parts))
    ensures rules[k] !in faults ==> Outcome(rules[k], input, engine, multiset(parts[k]))
                                     && multiset(parts[k]) <= multiset(Flatten(parts))
  {
    PartIncluded(parts, k);
    if rules[k] in faults {
      assert FaultFinding() in multiset(parts[k]);
    }
  }

  // ----- sorting -----

  /** `severityOrder`. */
  const SeverityOrder: map<string, nat> := map[SeverityCritical := 0, SeverityWarning := 1, SeverityInfo := 2, SeverityOk := 3]

  /** A severity's rank; a severity outside the table gets the map's zero value. */
  function Rank(severity: string): nat {
    if severity in SeverityOrder then SeverityOrder[severity] else 0
  }

  /** Critical, warning, info and ok rank 0 to 3; anything else ranks with critical. */
  lemma RankValues(other: string)
    requires other !in {SeverityCritical, SeverityWarning, SeverityInfo, SeverityOk}
    ensures Rank(SeverityCritical) == 0 && Rank(SeverityWarning) == 1
    ensures Rank(SeverityInfo) == 2 && Rank(SeverityOk) == 3
    ensures Rank(other) == 0
  {
  }

  /** The rank of a finding's severity. */
  function FindingRank(f: Finding): nat {
    Rank(f.severity)
  }

  /** Whether ranks do not decrease along the sequence. */
  predicate SortedByRank(s: seq<Finding>) {
    forall i, j :: 0 <= i < j < |s| ==> FindingRank(s[i]) <= FindingRank(s[j])
  }

  /** `sortFindings`: sorts in place by rank; findings of equal rank may come in any order. */
  method SortFindings(a: array<Finding>)
    modifies a
    ensures SortedByRank(a[..])
    ensures multiset(a[..]) == multiset(old(a[..]))
  {
    for i := 0 to a.Length
      invariant SortedByRank(a[..i])
      invariant multiset(a[..]) == multiset(old(a[..]))
    {
      Insert(a, i);
    }
    assert a[..a.Length] == a[..];
  }

  /** Moves `a[i]` left past the higher-ranked findings before it, so that `a[..i + 1]` is sorted. */
  method Insert(a: array<Finding>, i: nat)
    modifies a
    requires i < a.Length && SortedByRank(a[..i])
    ensures SortedByRank(a[..i + 1])
    ensures multiset(a[..]) == multiset(old(a[..]))
  {
    InsertStart(a[..], i);
    var j := i;
    while j > 0 && FindingRank(a[j - 1]) > FindingRank(a[j])
      invariant 0 <= j <= i
      invariant Inserting(a[..], i, j)
      invariant multiset(a[..]) == multiset(old(a[..]))
    {
      InsertStep(a[..], i, j);
      Swap(a, j);
      j := j - 1;
    }
    InsertDone(a[..], i, j);
  }

  /**
   * Halfway through an insertion into `s[..i + 1]`: the moving finding sits at
   * `j`, the others are in order, and it ranks no higher than those after it.
   */
  predicate Inserting(s: seq<Finding>, i: nat, j: nat)
    requires j <= i < |s|
  {
    && (forall p, q :: 0 <= p < q <= i && p != j && q != j ==> FindingRank(s[p]) <= FindingRank(s[q]))
    && (forall q :: j < q <= i ==> FindingRank(s[j]) <= FindingRank(s[q]))
  }

  /** A sorted prefix with one finding after it is where an insertion starts. */
  lemma InsertStart(s: seq<Finding>, i: nat)
    requires i < |s| && SortedByRank(s[..i])
    ensures Inserting(s, i, i)
  {
    forall p, q | 0 <= p < q <= i && p != i && q != i ensures FindingRank(s[p]) <= FindingRank(s[q]) {
      assert s[p] == s[..i][p] && s[q] == s[..i][q];
    }
  }

  /** Exchanging the moving finding with a higher-ranked predecessor keeps the insertion going. */
  lemma InsertStep(s: seq<Finding>, i: nat, j: nat)
    requires 0 < j <= i < |s| && Inserting(s, i, j) && FindingRank(s[j - 1]) > FindingRank(s[j])
    ensures Inserting(s[j - 1 := s[j]][j := s[j - 1]], i, j - 1)
  {
  }

  /** Once the predecessor ranks no higher, the prefix is sorted. */
  lemma InsertDone(s: seq<Finding>, i: nat, j: nat)
    requires j <= i < |s| && Inserting(s, i, j)
    requires j == 0 || FindingRank(s[j - 1]) <= FindingRank(s[j])
    ensures SortedByRank(s[..i + 1])
  {
    forall p, q | 0 <= p < q <= i ensures FindingRank(s[p]) <= FindingRank(s[q]) {
      if q == j && p < j - 1 {
        assert FindingRank(s[p]) <= FindingRank(s[j - 1]);
      }
    }
  }

  /** Exchanges `a[j - 1]` and `a[j]`. */
  method Swap(a: array<Finding>, j: nat)
    modifies a
    requires 0 < j < a.Length
    ensures a[..] == old(a[..])[j - 1 := old(a[j])][j := old(a[j - 1])]
    ensures multiset(a[..]) == multiset(old(a[..]))
  {
    a[j - 1], a[j] := a[j], a[j - 1];
  }

  /** Sorting a sequence through a fresh array. */
  method SortedCopy(all: seq<Finding>) returns (sorted: seq<Finding>)
    ensures SortedByRank(sorted) && multiset(sorted) == multiset(all)
  {
    var a := new Finding[|all|](i requires 0 <= i < |all| => all[i]);
    assert a[..] == all;
    SortFindings(a);
    sorted := a[..];
  }

  // ----- the scan -----

  /**
   * The deployment mode a scan works with: the detected one, `Unknown` on a
   * detection error, which is the mode the detector already reports then.
   */
  function ScanMode(found: set<Detect.Probe>, namespace: string, name: string, hasOperator: bool): (r: DeploymentMode)
    ensures Detect.DetectDeploymentModeWithCRD(found, namespace, name, hasOperator).error.Some? ==> r == Unknown
    ensures r == Detect.DetectDeploymentModeWithCRD(found, namespace, name, hasOperator).mode
  {
    var d := Detect.DetectDeploymentModeWithCRD(found, namespace, name, hasOperator);
    if d.error.Some? then Unknown else d.mode
  }

  /** The configuration a scan works with: none when it cannot be retrieved or parsed. */
  function ScanConfig(rawConfig: Result<string>, parse: string -> Result<CollectorConfig>): (r: Option<CollectorConfig>)
    ensures r.Some? <==> rawConfig.Ok? && parse(rawConfig.value).Ok?
    ensures r.Some? ==> r.value == parse(rawConfig.value).value
  {
    if rawConfig.Ok? && parse(rawConfig.value).Ok? then Some(parse(rawConfig.value).value) else None
  }

  /** The rule input of a triage scan: logs only when a pod is named. */
  function TriageInput(namespace: string, name: string, pod: string, hasOperator: bool, found: set<Detect.Probe>,
                       rawConfig: Result<string>, parse: string -> Result<CollectorConfig>,
                       podLines: seq<string>): (r: AnalysisInput)
    ensures pod == "" ==> r.logs == []
    ensures r.operatorLogs == [] && r.podInfo == None
  {
    AnalysisInput(ScanConfig(rawConfig, parse), ScanMode(found, namespace, name, hasOperator),
                  if pod != "" then podLines else [], [], None)
  }

  /**
   * `TriageScanTool.Run`. `rawConfig` is the outcome of looking up the
   * configuration text, `podLines` the lines the log fetch returned.
   */
  method TriageScan(namespace: string, name: string, configmap: string, pod: string, hasOperator: bool,
                    found: set<Detect.Probe>, rawConfig: Result<string>, parse: string -> Result<CollectorConfig>,
                    podLines: seq<string>, engine: RegexEngine, faults: set<AnalyzerId>)
    returns (findings: seq<Finding>, metadata: map<string, string>, input: AnalysisInput, ghost parts: seq<seq<Finding>>)
    ensures input == TriageInput(namespace, name, pod, hasOperator, found, rawConfig, parse, podLines)
    ensures RanAll(AllAnalyzersIncludingLogs(), input, engine, faults, parts)
    ensures SortedByRank(findings) && multiset(findings) == multiset(Flatten(parts))
    ensures metadata == map["deploymentMode" := ModeName(input.deployMode), "configSource" := configmap]
  {
    var detection := Detect.DetectDeploymentModeWithCRD(found, namespace, name, hasOperator);
    var mode := detection.mode;
    if detection.error.Some? {
      mode := Unknown;
    }
    var cfg: Option<CollectorConfig> := None;
    if rawConfig.Ok? {
      var parsed := parse(rawConfig.value);
      if parsed.Ok? {
        cfg := Some(parsed.value);
      }
    }
    var logs: seq<string> := [];
    if pod != "" {
      logs := podLines;
    }
    input := AnalysisInput(cfg, mode, logs, [], None);
    var all;
    all, parts := RunRules(AllAnalyzersIncludingLogs(), input, engine, faults);
    findings := SortedCopy(all);
    metadata := map["deploymentMode" := ModeName(mode), "configSource" := configmap];
  }
}
