/**
 * The parsed collector configuration (pkg/collector/config.go) and the
 * deployment-mode tag (pkg/collector/detect.go).
 */
module Collector {

  /**
   * A component body as decoded from YAML: a string, a string-keyed map, a list,
   * or anything else (numbers, booleans, null).
   */
  datatype Value = Str(s: string) | Map(entries: map<string, Value>) | List(items: seq<Value>) | Other

  /** One pipeline of the `service` section: ordered component names. */
  datatype PipelineConfig = PipelineConfig(receivers: seq<string>, processors: seq<string>, exporters: seq<string>)

  datatype ServiceConfig = ServiceConfig(pipelines: map<string, PipelineConfig>, extensions: seq<string>)

  /** The whole document; component bodies are keyed by component name. */
  datatype CollectorConfig = CollectorConfig(
    receivers: map<string, Value>,
    processors: map<string, Value>,
    exporters: map<string, Value>,
    connectors: map<string, Value>,
    service: ServiceConfig)

  /** How a collector workload is deployed. */
  datatype DeploymentMode = DaemonSet | Deployment | StatefulSet | OperatorCRD | Unknown

  /** The mode's string form, as the source prints it. */
  function ModeName(m: DeploymentMode): string {
    match m
    case DaemonSet => "DaemonSet"
    case Deployment => "Deployment"
    case StatefulSet => "StatefulSet"
    case OperatorCRD => "OperatorCRD"
    case Unknown => "Unknown"
  }
}
