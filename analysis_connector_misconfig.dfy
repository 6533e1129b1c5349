/** The connector-usage rule (pkg/analysis/analyzer_connector_misconfig.go). */
module ConnectorMisconfig {
  import opened Wrappers
  import opened Text
  import opened Bags
  import opened Findings
  import opened Collector
  import opened Input

  /** Some pipeline lists connector `conn` among its exporters. */
  ghost predicate UsedAsExporter(pipelines: map<string, PipelineConfig>, conn: string) {
    exists n :: n in pipelines && conn in pipelines[n].exporters
  }

  /** Some pipeline lists connector `conn` among its receivers. */
  ghost predicate UsedAsReceiver(pipelines: map<string, PipelineConfig>, conn: string) {
    exists n :: n in pipelines && conn in pipelines[n].receivers
  }

  /** The three ways a connector can be misused. */
  datatype Misuse = Unused | NoSource | NoDestination

  /** The `if / else if` chain: what is wrong with a connector given its two usage flags. */
  function Classify(asExporter: bool, asReceiver: bool): Option<Misuse> {
    if !asExporter && !asReceiver then Some(Unused)
    else if !asExporter then Some(NoSource)
    else if !asReceiver then Some(NoDestination)
    else None
  }

  const SummaryHead := "Connector "
  const UnusedTail := " is defined but not used in any pipeline"
  const NoSourceTail := " is not used as an exporter in any pipeline"
  const NoDestinationTail := " is not used as a receiver in any pipeline"
  const UnusedDetail := "This connector is configured but does not appear as an exporter or receiver in any pipeline. It will have no effect."
  const NoSourceDetail := "A connector must appear as an exporter in one pipeline (source) and a receiver in another (destination). This connector is missing its source pipeline."
  const NoDestinationDetail := "A connector must appear as an exporter in one pipeline (source) and a receiver in another (destination). This connector is missing its destination pipeline."
  const UnusedSuggestion := "Add the connector to the appropriate pipelines or remove it"
  const NoSourceSuggestion := "Add the connector as an exporter in the source pipeline"
  const NoDestinationSuggestion := "Add the connector as a receiver in the destination pipeline"

  function SummaryTail(m: Misuse): string {
    match m
    case Unused => UnusedTail
    case NoSource => NoSourceTail
    case NoDestination => NoDestinationTail
  }

  function Detail(m: Misuse): string {
    match m
    case Unused => UnusedDetail
    case NoSource => NoSourceDetail
    case NoDestination => NoDestinationDetail
  }

  function Suggestion(m: Misuse): string {
    match m
    case Unused => UnusedSuggestion
    case NoSource => NoSourceSuggestion
    case NoDestination => NoDestinationSuggestion
  }

  /** The warning for connector `conn` misused as `m`. */
  function MisuseFinding(conn: string, m: Misuse): Finding {
    Finding(SeverityWarning, CategoryConfig, None, SummaryHead + Quote(conn) + SummaryTail(m), Detail(m), Suggestion(m), "")
  }

  /** The finding for connector `conn`, if it is misused. */
  ghost function ConnectorFindings(pipelines: map<string, PipelineConfig>, conn: string): multiset<Finding> {
    match Classify(UsedAsExporter(pipelines, conn), UsedAsReceiver(pipelines, conn))
    case None => multiset{}
    case Some(m) => multiset{MisuseFinding(conn, m)}
  }

  /** What one declared connector contributes, given the pipelines. */
  ghost function Contribution(pipelines: map<string, PipelineConfig>): (string, Value) -> multiset<Finding> {
    (conn: string, body: Value) => ConnectorFindings(pipelines, conn)
  }

  /** The findings the rule produces, in no particular order. */
  ghost function Expected(input: AnalysisInput): multiset<Finding> {
    match input.config
    case None => multiset{}
    case Some(cfg) =>
      if |cfg.connectors| == 0 then multiset{} else SumOver(cfg.connectors, Contribution(cfg.service.pipelines))
  }

  /** `AnalyzeConnectorMisconfig`: at most one warning per declared connector. */
  method AnalyzeConnectorMisconfig(input: AnalysisInput) returns (findings: seq<Finding>)
    ensures input.config.None? || |input.config.value.connectors| == 0 ==> findings == []
    ensures multiset(findings) == Expected(input)
  {
    findings := [];
    if input.config.None? || |input.config.value.connectors| == 0 {
      return;
    }
    var connectors := input.config.value.connectors;
    var pipelines := input.config.value.service.pipelines;
    assert Expected(input) == SumOver(connectors, Contribution(pipelines));
    var rest := connectors.Keys;
    while rest != {}
      invariant rest <= connectors.Keys
      invariant multiset(findings) + Fold(connectors, rest, Contribution(pipelines)) == SumOver(connectors, Contribution(pipelines))
      decreases |rest|
    {
      var conn :| conn in rest;
      var part := CheckConnector(pipelines, conn, connectors[conn]);
      FoldStep(connectors, rest, Contribution(pipelines), conn, findings, part);
      findings := findings + part;
      rest := rest - {conn};
    }
  }

  /** One iteration of the outer loop: the finding for one connector, if any. */
  method CheckConnector(pipelines: map<string, PipelineConfig>, conn: string, body: Value) returns (findings: seq<Finding>)
    ensures multiset(findings) == Contribution(pipelines)(conn, body)
  {
    var asExporter, asReceiver := UsageFlags(pipelines, conn);
    var misuse := Classify(asExporter, asReceiver);
    if misuse.Some? {
      findings := [MisuseFinding(conn, misuse.value)];
    } else {
      findings := [];
    }
  }

  /** The loop over all pipelines that sets `usedAsExporter` and `usedAsReceiver`. */
  method UsageFlags(pipelines: map<string, PipelineConfig>, conn: string) returns (asExporter: bool, asReceiver: bool)
    ensures asExporter <==> UsedAsExporter(pipelines, conn)
    ensures asReceiver <==> UsedAsReceiver(pipelines, conn)
  {
    asExporter, asReceiver := false, false;
    var rest := pipelines.Keys;
    while rest != {}
      invariant rest <= pipelines.Keys
      invariant asExporter <==> exists n :: n in pipelines && n !in rest && conn in pipelines[n].exporters
      invariant asReceiver <==> exists n :: n in pipelines && n !in rest && conn in pipelines[n].receivers
      decreases |rest|
    {
      var n :| n in rest;
      asExporter, asReceiver := ScanPipeline(pipelines[n], conn, asExporter, asReceiver);
      rest := rest - {n};
    }
  }

  /** The two inner loops over one pipeline's exporters and receivers. */
  method ScanPipeline(pipeline: PipelineConfig, conn: string, asExporter0: bool, asReceiver0: bool)
    returns (asExporter: bool, asReceiver: bool)
    ensures asExporter == (asExporter0 || conn in pipeline.exporters)
    ensures asReceiver == (asReceiver0 || conn in pipeline.receivers)
  {
    asExporter, asReceiver := asExporter0, asReceiver0;
    for i := 0 to |pipeline.exporters|
      invariant asExporter == (asExporter0 || conn in pipeline.exporters[..i])
    {
      if pipeline.exporters[i] == conn {
        asExporter := true;
      }
      assert pipeline.exporters[..i + 1] == pipeline.exporters[..i] + [pipeline.exporters[i]];
    }
    assert pipeline.exporters[..|pipeline.exporters|] == pipeline.exporters;
    for i := 0 to |pipeline.receivers|
      invariant asReceiver == (asReceiver0 || conn in pipeline.receivers[..i])
    {
      if pipeline.receivers[i] == conn {
        asReceiver := true;
      }
      assert pipeline.receivers[..i + 1] == pipeline.receivers[..i] + [pipeline.receivers[i]];
    }
    assert pipeline.receivers[..|pipeline.receivers|] == pipeline.receivers;
  }

  /** A finding determines its connector and its kind. */
  lemma MisuseFindingInjective(c1: string, m1: Misuse, c2: string, m2: Misuse)
    requires MisuseFinding(c1, m1) == MisuseFinding(c2, m2)
    ensures c1 == c2 && m1 == m2
  {
    assert |Detail(m1)| == |Detail(m2)|;
    assert |UnusedDetail| == 116 && |NoSourceDetail| == 151 && |NoDestinationDetail| == 156;
    QuoteInjective(SummaryHead, c1, c2, SummaryTail(m1));
  }

  /** Every finding is a configuration warning about one declared connector that is misused. */
  lemma {:induction false} FindingsAreMisusedConnectors(input: AnalysisInput, f: Finding)
    requires f in Expected(input)
    ensures input.config.Some? && f.severity == SeverityWarning && f.category == CategoryConfig
    ensures var cfg := input.config.value;
            exists conn, m :: conn in cfg.connectors && f == MisuseFinding(conn, m)
                              && Classify(UsedAsExporter(cfg.service.pipelines, conn), UsedAsReceiver(cfg.service.pipelines, conn)) == Some(m)
  {
    var cfg := input.config.value;
    FoldMember(cfg.connectors, cfg.connectors.Keys, Contribution(cfg.service.pipelines), f);
  }

  /** Only connector `conn` can contribute a finding about it, and it does so once, when misused that way. */
  lemma {:induction false} CountOfMisuse(connectors: map<string, Value>, pipelines: map<string, PipelineConfig>, conn: string, m: Misuse)
    requires conn in connectors
    ensures SumOver(connectors, Contribution(pipelines))[MisuseFinding(conn, m)]
            == if Classify(UsedAsExporter(pipelines, conn), UsedAsReceiver(pipelines, conn)) == Some(m) then 1 else 0
  {
    var f := Contribution(pipelines);
    var x := MisuseFinding(conn, m);
    forall c | c in connectors && c != conn ensures x !in f(c, connectors[c]) {
      var k := Classify(UsedAsExporter(pipelines, c), UsedAsReceiver(pipelines, c));
      if k.Some? && x == MisuseFinding(c, k.value) {
        MisuseFindingInjective(conn, m, c, k.value);
      }
    }
    FoldCountUnique(connectors, connectors.Keys, f, conn, x);
    var k := Classify(UsedAsExporter(pipelines, conn), UsedAsReceiver(pipelines, conn));
    if k.Some? && x == MisuseFinding(conn, k.value) {
      MisuseFindingInjective(conn, m, conn, k.value);
    }
  }

  /**
   * A declared connector gets the "not used in any pipeline" finding iff it is used in
   * neither role, "not used as an exporter" iff it is only a receiver, and "not used as
   * a receiver" iff it is only an exporter; each at most once.
   */
  lemma {:induction false} FindingForConnector(input: AnalysisInput, conn: string)
    requires input.config.Some? && conn in input.config.value.connectors
    ensures var pipelines := input.config.value.service.pipelines;
            var asExporter := UsedAsExporter(pipelines, conn);
            var asReceiver := UsedAsReceiver(pipelines, conn);
            (Expected(input)[MisuseFinding(conn, Unused)] == 1 <==> !asExporter && !asReceiver)
            && (Expected(input)[MisuseFinding(conn, NoSource)] == 1 <==> !asExporter && asReceiver)
            && (Expected(input)[MisuseFinding(conn, NoDestination)] == 1 <==> asExporter && !asReceiver)
            && (asExporter && asReceiver ==> forall m :: Expected(input)[MisuseFinding(conn, m)] == 0)
  {
    var cfg := input.config.value;
    CountOfMisuse(cfg.connectors, cfg.service.pipelines, conn, Unused);
    CountOfMisuse(cfg.connectors, cfg.service.pipelines, conn, NoSource);
    CountOfMisuse(cfg.connectors, cfg.service.pipelines, conn, NoDestination);
    forall m ensures Expected(input)[MisuseFinding(conn, m)] == if Classify(UsedAsExporter(cfg.service.pipelines, conn), UsedAsReceiver(cfg.service.pipelines, conn)) == Some(m) then 1 else 0 {
      CountOfMisuse(cfg.connectors, cfg.service.pipelines, conn, m);
    }
  }

  /** There are never more findings than declared connectors. */
  lemma {:induction false} AtMostOnePerConnector(input: AnalysisInput)
    requires input.config.Some?
    ensures |Expected(input)| <= |input.config.value.connectors|
  {
    var cfg := input.config.value;
    if |cfg.connectors| > 0 {
      FoldAtMost(cfg.connectors, cfg.connectors.Keys, Contribution(cfg.service.pipelines), 1);
      assert |cfg.connectors.Keys| == |cfg.connectors|;
    }
  }

  /** A connector that one pipeline both receives from and exports to is reported in no way. */
  lemma {:induction false} BothRolesInOnePipeline(input: AnalysisInput, conn: string, name: string, m: Misuse)
    requires input.config.Some? && conn in input.config.value.connectors
    requires name in input.config.value.service.pipelines
    requires var p := input.config.value.service.pipelines[name]; conn in p.receivers && conn in p.exporters
    ensures Expected(input)[MisuseFinding(conn, m)] == 0
  {
    var cfg := input.config.value;
    CountOfMisuse(cfg.connectors, cfg.service.pipelines, conn, m);
  }
}
