/** What every rule receives (pkg/analysis/analyzer.go), and the regular-expression compiler it may consult. */
module Input {
  import opened Wrappers
  import opened Collector

  /** The pod a run is about; only its identity is carried. */
  datatype Pod = Pod(namespace: string, name: string)

  /** `AnalysisInput`: an optional parsed configuration, the deployment mode and log lines. */
  datatype AnalysisInput = AnalysisInput(
    config: Option<CollectorConfig>,
    deployMode: DeploymentMode,
    logs: seq<string>,
    operatorLogs: seq<string>,
    podInfo: Option<Pod>)

  /**
   * The regular-expression compiler, which is foreign to this model: the
   * patterns it rejects, each with the error text it reports.
   */
  datatype RegexEngine = RegexEngine(rejects: map<string, string>)

  /** The compile error for `pattern`, if it does not compile. */
  function CompileError(engine: RegexEngine, pattern: string): Option<string> {
    if pattern in engine.rejects then Some(engine.rejects[pattern]) else None
  }
}
