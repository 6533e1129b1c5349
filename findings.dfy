/** The diagnostic finding record and its severity and category vocabularies (pkg/types/findings.go). */
module Findings {
  import opened Wrappers

  const SeverityCritical := "critical"
  const SeverityWarning := "warning"
  const SeverityInfo := "info"
  const SeverityOk := "ok"

  const CategoryPipeline := "pipeline"
  const CategoryConfig := "config"
  const CategorySecurity := "security"
  const CategoryPerformance := "performance"
  const CategoryOperator := "operator"
  const CategoryRuntime := "runtime"

  /** The cluster object a finding is about, such as a pod. */
  datatype ResourceRef = ResourceRef(kind: string, namespace: string, name: string, apiVersion: string)

  /**
   * One diagnostic. Severity and category are free strings as in the source,
   * which only ever fills them from the constants above; an absent resource is
   * `None` and an absent remediation is the empty string.
   */
  datatype Finding = Finding(
    severity: string,
    category: string,
    resource: Option<ResourceRef>,
    summary: string,
    detail: string,
    suggestion: string,
    remediation: string)

  /** A pod reference, as the log tools attach to their findings. */
  function PodRef(namespace: string, name: string): ResourceRef {
    ResourceRef("Pod", namespace, name, "")
  }
}
