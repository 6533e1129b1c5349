/** The hardcoded-credential rule (pkg/analysis/analyzer_hardcoded_tokens.go). */
module HardcodedTokens {
  import opened Wrappers
  import opened Text
  import opened Bags
  import opened Findings
  import opened Collector
  import opened ConfigTree
  import opened Input

  /** Substrings of a lower-cased field name that mark it as holding a credential. */
  const TokenPatterns: seq<string> := [
    "api_key", "apikey", "api_token", "token", "secret",
    "password", "auth", "bearer", "authorization",
    "access_key", "secret_key", "api-key", "api-token"]

  const SummaryHead := "Hardcoded credential detected in exporter "
  const SummaryMiddle := " at "
  const Detail := "Hardcoded credentials in collector configuration are a security risk. They can be exposed in version control, logs, and ConfigMaps."
  const Suggestion := "Use environment variable references or Kubernetes secrets instead"
  const RemediationHead := "# Replace the hardcoded value with an environment variable reference:\nexporters:\n  "
  const RemediationMiddle := ":\n    "
  const RemediationTail := ": ${env:YOUR_SECRET_ENV_VAR}\n\n# Or mount a Kubernetes secret as an environment variable in the collector pod"

  /** The loop of `isTokenField`: the patterns tried in order, stopping at the first that occurs in `lower`. */
  function AnyPatternIn(lower: string, patterns: seq<string>): bool
    decreases |patterns|
  {
    if |patterns| == 0 then false
    else Contains(lower, patterns[0]) || AnyPatternIn(lower, patterns[1..])
  }

  /** The search succeeds exactly when some pattern occurs. */
  lemma {:induction false} AnyPatternInMeaning(lower: string, patterns: seq<string>)
    ensures AnyPatternIn(lower, patterns) <==> exists i :: 0 <= i < |patterns| && Contains(lower, patterns[i])
    decreases |patterns|
  {
    if |patterns| > 0 {
      AnyPatternInMeaning(lower, patterns[1..]);
      if AnyPatternIn(lower, patterns[1..]) {
        var i :| 0 <= i < |patterns[1..]| && Contains(lower, patterns[1..][i]);
        assert patterns[1..][i] == patterns[i + 1];
      }
      if exists i :: 0 <= i < |patterns| && Contains(lower, patterns[i]) {
        var i :| 0 <= i < |patterns| && Contains(lower, patterns[i]);
        if i > 0 {
          assert patterns[1..][i - 1] == patterns[i];
        }
      }
    }
  }

  /** `isTokenField`: the lower-cased key contains one of the credential patterns. */
  function IsTokenField(key: string): bool {
    AnyPatternIn(ToLower(key), TokenPatterns)
  }

  /** A key is a credential field exactly when its lower-cased form contains some pattern. */
  lemma IsTokenFieldMeaning(key: string)
    ensures IsTokenField(key) <==> exists i :: 0 <= i < |TokenPatterns| && Contains(ToLower(key), TokenPatterns[i])
  {
    AnyPatternInMeaning(ToLower(key), TokenPatterns);
  }

  /** `isHardcoded`: a non-empty value that is not an `${...}` substitution. */
  function IsHardcoded(value: string): bool {
    if HasPrefix(value, "${") && Contains(value, "}") then false
    else value != ""
  }

  /** The critical finding for the credential at `fullPath` of exporter `exporter`. */
  function TokenFinding(exporter: string, fullPath: string): Finding {
    Finding(SeverityCritical, CategorySecurity, None,
            SummaryHead + Quote(exporter) + SummaryMiddle + Quote(fullPath), Detail, Suggestion,
            RemediationHead + exporter + RemediationMiddle + fullPath + RemediationTail)
  }

  /** What one string leaf contributes. */
  function TokenLeaf(exporter: string, key: string, value: string, fullPath: string): multiset<Finding> {
    if IsTokenField(key) && IsHardcoded(value) then multiset{TokenFinding(exporter, fullPath)} else multiset{}
  }

  /** What one exporter contributes: the scan of its body when that is a map. */
  ghost function Contribution(name: string, body: Value): multiset<Finding> {
    if body.Map? then Scan(body.entries, name, "", TokenLeaf) else multiset{}
  }

  /** The findings the rule produces, in no particular order. */
  ghost function Expected(input: AnalysisInput): multiset<Finding> {
    match input.config
    case None => multiset{}
    case Some(cfg) => SumOver(cfg.exporters, Contribution)
  }

  /** `scanMapForTokens`: the findings for the credential leaves of `m`, recursing into nested maps. */
  method ScanMapForTokens(m: map<string, Value>, exporter: string, path: string) returns (findings: seq<Finding>)
    ensures multiset(findings) == Scan(m, exporter, path, TokenLeaf)
    decreases Map(m), 1
  {
    findings := [];
    var rest := m.Keys;
    while rest != {}
      invariant rest <= m.Keys
      invariant multiset(findings) + Walk(m, rest, exporter, path, TokenLeaf) == Scan(m, exporter, path, TokenLeaf)
      decreases |rest|
    {
      var key :| key in rest;
      WalkPick(m, rest, exporter, path, TokenLeaf, key);
      assert rest - {key} <= m.Keys;
      rest := rest - {key};
      var part := ScanEntry(m, key, exporter, path);
      findings := findings + part;
    }
  }

  /** One iteration of the loop of `scanMapForTokens`: the entry under `key`. */
  method ScanEntry(m: map<string, Value>, key: string, exporter: string, path: string) returns (findings: seq<Finding>)
    requires key in m
    ensures multiset(findings) == Entry(m, key, exporter, path, TokenLeaf)
    decreases Map(m), 0
  {
    findings := [];
    var fullPath := key;
    if path != "" {
      fullPath := path + "." + key;
    }
    match m[key]
    case Str(v) =>
      if IsTokenField(key) && IsHardcoded(v) {
        findings := [TokenFinding(exporter, fullPath)];
      }
    case Map(sub) =>
      assert m[key] in m.Values;
      findings := ScanMapForTokens(sub, exporter, fullPath);
    case _ =>
  }

  /** `AnalyzeHardcodedTokens`: the scan of every map-valued exporter. */
  method AnalyzeHardcodedTokens(input: AnalysisInput) returns (findings: seq<Finding>)
    ensures input.config.None? ==> findings == []
    ensures multiset(findings) == Expected(input)
  {
    findings := [];
    if input.config.None? {
      return;
    }
    var exporters := input.config.value.exporters;
    var rest := exporters.Keys;
    while rest != {}
      invariant rest <= exporters.Keys
      invariant multiset(findings) + Fold(exporters, rest, Contribution) == SumOver(exporters, Contribution)
      decreases |rest|
    {
      var name :| name in rest;
      FoldPick(exporters, rest, Contribution, name);
      assert rest - {name} <= exporters.Keys;
      rest := rest - {name};
      var body := exporters[name];
      if !body.Map? {
        continue;
      }
      var scanned := ScanMapForTokens(body.entries, name, "");
      findings := findings + scanned;
    }
  }

  /**
   * A finding is produced exactly for a hardcoded string under a credential-like key,
   * reached from a map-valued exporter through nested maps; lists are never entered.
   */
  lemma {:induction false} FindingsAreHardcodedCredentials(input: AnalysisInput, f: Finding)
    requires input.config.Some?
    ensures f in Expected(input) <==>
      exists name, key, value, full ::
        name in input.config.value.exporters && input.config.value.exporters[name].Map?
        && LeafIn(input.config.value.exporters[name].entries, input.config.value.exporters[name].entries.Keys, "", key, value, full)
        && IsTokenField(key) && IsHardcoded(value) && f == TokenFinding(name, full)
  {
    var exporters := input.config.value.exporters;
    FoldMember(exporters, exporters.Keys, Contribution, f);
    forall name | name in exporters && exporters[name].Map?
      ensures f in Contribution(name, exporters[name]) <==>
        exists key, value, full :: LeafIn(exporters[name].entries, exporters[name].entries.Keys, "", key, value, full)
                                   && IsTokenField(key) && IsHardcoded(value) && f == TokenFinding(name, full)
    {
      var body := exporters[name].entries;
      WalkMember(body, body.Keys, name, "", TokenLeaf, f);
    }
  }

  /**
   * Every finding is a critical security finding whose texts are built from an
   * exporter name and a field path alone, never from the credential value.
   */
  lemma {:induction false} FindingsAreCriticalSecurity(input: AnalysisInput, f: Finding)
    requires f in Expected(input)
    ensures f.severity == SeverityCritical && f.category == CategorySecurity
    ensures exists name, full :: f == TokenFinding(name, full)
  {
    FindingsAreHardcodedCredentials(input, f);
  }

  /** A `${...}` reference or an empty value is not hardcoded; anything else is. */
  lemma HardcodedExamples()
    ensures !IsHardcoded("${env:API_KEY}")
    ensures IsHardcoded("abc123secret")
    ensures !IsHardcoded("")
  {
    var v := "${env:API_KEY}";
    assert v[..2] == "${";
    assert v[13..][..1] == "}";
    ContainsAt(v, "}", 13);
    assert "abc123secret"[0] != "${"[0];
  }

  /** `endpoint` holds no credential pattern. */
  lemma EndpointIsNotTokenField()
    ensures !IsTokenField("endpoint")
  {
    ToLowerIdentity("endpoint");
    NotContainsFirst("endpoint", "api_key");
    NotContainsFirst("endpoint", "apikey");
    NotContainsFirst("endpoint", "api_token");
    NotContainsFirst("endpoint", "token");
    NotContainsFirst("endpoint", "secret");
    NotContainsFirst("endpoint", "password");
    NotContainsFirst("endpoint", "auth");
    NotContainsFirst("endpoint", "bearer");
    NotContainsFirst("endpoint", "authorization");
    NotContainsFirst("endpoint", "access_key");
    NotContainsFirst("endpoint", "secret_key");
    NotContainsFirst("endpoint", "api-key");
    NotContainsFirst("endpoint", "api-token");
  }

  /** `api_key` is the first credential pattern itself. */
  lemma ApiKeyIsTokenField()
    ensures IsTokenField("api_key")
  {
    ToLowerIdentity("api_key");
    IsTokenFieldMeaning("api_key");
    ContainsAt("api_key", TokenPatterns[0], 0);
  }

  /** An exporter whose only credential is an `${env:...}` reference gives no finding. */
  lemma EnvReferenceGivesNoFinding(input: AnalysisInput)
    requires input.config.Some?
    requires input.config.value.exporters == map["otlp" := Map(map[
      "endpoint" := Str("backend:4317"),
      "headers" := Map(map["api_key" := Str("${env:API_KEY}")])])]
    ensures Expected(input) == multiset{}
  {
    var exporters := input.config.value.exporters;
    FoldPick(exporters, exporters.Keys, Contribution, "otlp");
    assert exporters.Keys - {"otlp"} == {};
    var body := exporters["otlp"].entries;
    WalkPick(body, body.Keys, "otlp", "", TokenLeaf, "endpoint");
    WalkPick(body, body.Keys - {"endpoint"}, "otlp", "", TokenLeaf, "headers");
    assert body.Keys - {"endpoint"} - {"headers"} == {};
    var headers := body["headers"].entries;
    WalkPick(headers, headers.Keys, "otlp", "headers", TokenLeaf, "api_key");
    assert headers.Keys - {"api_key"} == {};
    EndpointIsNotTokenField();
    ApiKeyIsTokenField();
    HardcodedExamples();
  }

  /** An exporter with a literal `api_key` gives exactly one critical finding, naming the field but not its value. */
  lemma LiteralKeyGivesOneCritical(input: AnalysisInput)
    requires input.config.Some?
    requires input.config.value.exporters == map["datadog" := Map(map["api_key" := Str("abc123secret")])]
    ensures Expected(input) == multiset{TokenFinding("datadog", "api_key")}
    ensures |Expected(input)| == 1
    ensures TokenFinding("datadog", "api_key").severity == SeverityCritical
  {
    var exporters := input.config.value.exporters;
    FoldPick(exporters, exporters.Keys, Contribution, "datadog");
    assert exporters.Keys - {"datadog"} == {};
    var body := exporters["datadog"].entries;
    WalkPick(body, body.Keys, "datadog", "", TokenLeaf, "api_key");
    assert body.Keys - {"api_key"} == {};
    EndpointIsNotTokenField();
    ApiKeyIsTokenField();
    HardcodedExamples();
  }
}
