/**
 * The two log tools (pkg/tools/tool_parse_logs.go and
 * pkg/tools/tool_parse_operator_logs.go): they classify fetched pod logs and turn
 * each classified line into a finding about that pod, with a severity chosen
 * from the line's category. Fetching logs and listing pods are inputs.
 */
module LogTools {
  import opened Wrappers
  import opened Text
  import opened Findings
  import opened Logs

  /** The collector tool's severity for a category: memory and exporter trouble are critical. */
  function CollectorSeverity(c: LogCategory): (r: string)
    ensures r == SeverityCritical <==> c in {OOM, ExporterFail}
    ensures r == SeverityWarning <==> c in {OTTLSyntax, ReceiverIssue, ProcessorError}
    ensures r == SeverityInfo <==> c in {OperatorCRD, Reconciliation, Other}
  {
    match c
    case OOM => SeverityCritical
    case ExporterFail => SeverityCritical
    case OTTLSyntax => SeverityWarning
    case ReceiverIssue => SeverityWarning
    case ProcessorError => SeverityWarning
    case _ => SeverityInfo
  }

  /** The operator tool's severity for a category: CRD rejections are critical, the rest warnings. */
  function OperatorSeverity(c: LogCategory): (r: string)
    ensures r == SeverityCritical <==> c == OperatorCRD
    ensures r == SeverityWarning <==> c != OperatorCRD
  {
    if c == OperatorCRD then SeverityCritical else SeverityWarning
  }

  // ----- parse_collector_logs -----

  const CollectorFetchSummary := "Failed to fetch collector logs"
  const RbacSuggestion := "Check RBAC permissions for pods/log access"

  /** The single finding when the collector's logs cannot be fetched. */
  function CollectorFetchFailure(namespace: string, pod: string, err: string): Finding {
    Finding(SeverityWarning, CategoryRuntime, Some(PodRef(namespace, pod)), CollectorFetchSummary, err, RbacSuggestion, "")
  }

  /** The finding for one classified collector line. */
  function CollectorLineFinding(namespace: string, pod: string, cl: ClassifiedLog): Finding {
    Finding(CollectorSeverity(cl.category), CategoryRuntime, Some(PodRef(namespace, pod)), cl.message, cl.line, "", "")
  }

  /** The result of the collector tool: its findings and metadata. */
  datatype ToolOutput = ToolOutput(findings: seq<Finding>, metadata: map<string, string>)

  /**
   * `ParseCollectorLogsTool.Run`, given the outcome of fetching the pod's log
   * lines: one finding per classified line, in classification order.
   */
  method ParseCollectorLogs(namespace: string, pod: string, fetched: Result<seq<string>>) returns (out: ToolOutput)
    ensures fetched.Err? ==> out == ToolOutput([CollectorFetchFailure(namespace, pod, fetched.error)], map[])
    ensures fetched.Ok? ==>
              var classified := Classify(fetched.value, CollectorLabel);
              && |out.findings| == |classified|
              && (forall k :: 0 <= k < |classified| ==> out.findings[k] == CollectorLineFinding(namespace, pod, classified[k]))
              && out.metadata == map["totalLines" := NatToString(|fetched.value|),
                                     "classifiedCount" := NatToString(|out.findings|)]
  {
    if fetched.Err? {
      return ToolOutput([CollectorFetchFailure(namespace, pod, fetched.error)], map[]);
    }
    var lines := fetched.value;
    var classified := ClassifyCollectorLogs(lines);
    var findings := [];
    for i := 0 to |classified|
      invariant |findings| == i
      invariant forall k :: 0 <= k < i ==> findings[k] == CollectorLineFinding(namespace, pod, classified[k])
    {
      findings := findings + [CollectorLineFinding(namespace, pod, classified[i])];
    }
    out := ToolOutput(findings, map["totalLines" := NatToString(|lines|), "classifiedCount" := NatToString(|classified|)]);
  }

  /** Every finding of the collector tool is about the requested pod and reports a line of its logs. */
  lemma CollectorFindingsNameThePod(namespace: string, pod: string, lines: seq<string>, k: nat)
    requires k < |Classify(lines, CollectorLabel)|
    ensures var f := CollectorLineFinding(namespace, pod, Classify(lines, CollectorLabel)[k]);
            f.resource == Some(PodRef(namespace, pod)) && f.detail in lines && f.category == CategoryRuntime
  {
    var e := Classify(lines, CollectorLabel)[k];
    ClassifyMeaning(lines, CollectorLabel, e);
  }

  // ----- parse_operator_logs -----

  const DefaultOperatorNamespace := "opentelemetry-operator-system"
  const PodsNotFoundSummary := "OTel Operator pods not found"
  const PodsNotFoundDetailHead := "No pods found with label app.kubernetes.io/name=opentelemetry-operator in namespace "
  const PodsNotFoundSuggestion := "Verify the Operator is installed and the namespace is correct"
  const OperatorFetchSummary := "Failed to fetch operator logs"

  /** The namespace argument, defaulting when it is absent or empty. */
  function OperatorNamespace(arg: Option<string>): (r: string)
    ensures r != ""
    ensures arg.Some? && arg.value != "" ==> r == arg.value
    ensures arg.None? || arg.value == "" ==> r == DefaultOperatorNamespace
  {
    if arg.Some? && arg.value != "" then arg.value else DefaultOperatorNamespace
  }

  /** The single finding when no operator pod can be found. */
  function PodsNotFound(namespace: string): Finding {
    Finding(SeverityWarning, CategoryOperator, None, PodsNotFoundSummary, PodsNotFoundDetailHead + namespace,
            PodsNotFoundSuggestion, "")
  }

  /** The finding for an operator pod whose logs cannot be fetched. */
  function OperatorFetchFailure(namespace: string, pod: string, err: string): Finding {
    Finding(SeverityWarning, CategoryOperator, Some(PodRef(namespace, pod)), OperatorFetchSummary, err, "", "")
  }

  /** The finding for one classified operator line of pod `pod`. */
  function OperatorLineFinding(namespace: string, pod: string, cl: ClassifiedLog): Finding {
    Finding(OperatorSeverity(cl.category), CategoryOperator, Some(PodRef(namespace, pod)), cl.message, cl.line, "", "")
  }

  /** The findings for the classified lines of one pod, in order. */
  function LineFindings(namespace: string, pod: string, classified: seq<ClassifiedLog>): (r: seq<Finding>)
    ensures |r| == |classified|
    ensures forall k :: 0 <= k < |r| ==> r[k] == OperatorLineFinding(namespace, pod, classified[k])
    decreases |classified|
  {
    if |classified| == 0 then []
    else LineFindings(namespace, pod, classified[..|classified| - 1])
         + [OperatorLineFinding(namespace, pod, classified[|classified| - 1])]
  }

  /** What one pod contributes: a fetch failure, or one finding per classified line. */
  function PodFindings(namespace: string, pod: string, fetched: Result<seq<string>>): seq<Finding> {
    match fetched
    case Err(e) => [OperatorFetchFailure(namespace, pod, e)]
    case Ok(lines) => LineFindings(namespace, pod, Classify(lines, OperatorLabel))
  }

  /** The findings for `pods` in order, each pod's logs fetched with `fetch`. */
  function AllPodFindings(namespace: string, pods: seq<string>, fetch: string -> Result<seq<string>>): seq<Finding>
    decreases |pods|
  {
    if |pods| == 0 then []
    else AllPodFindings(namespace, pods[..|pods| - 1], fetch) + PodFindings(namespace, pods[|pods| - 1], fetch(pods[|pods| - 1]))
  }

  /**
   * `ParseOperatorLogsTool.Run`, given the outcome of listing the operator pods
   * and a function fetching each pod's log lines.
   */
  method ParseOperatorLogs(namespaceArg: Option<string>, listed: Result<seq<string>>, fetch: string -> Result<seq<string>>)
    returns (findings: seq<Finding>)
    ensures var namespace := OperatorNamespace(namespaceArg);
            if listed.Err? || listed.value == [] then findings == [PodsNotFound(namespace)]
            else findings == AllPodFindings(namespace, listed.value, fetch)
  {
    var namespace := OperatorNamespace(namespaceArg);
    if listed.Err? || listed.value == [] {
      return [PodsNotFound(namespace)];
    }
    var pods := listed.value;
    findings := [];
    for i := 0 to |pods|
      invariant findings == AllPodFindings(namespace, pods[..i], fetch)
    {
      assert pods[..i + 1][..i] == pods[..i];
      var part := OperatorPodFindings(namespace, pods[i], fetch(pods[i]));
      findings := findings + part;
    }
    assert pods[..|pods|] == pods;
  }

  /** One iteration of the pod loop of `ParseOperatorLogsTool.Run`. */
  method OperatorPodFindings(namespace: string, pod: string, fetched: Result<seq<string>>) returns (findings: seq<Finding>)
    ensures findings == PodFindings(namespace, pod, fetched)
  {
    if fetched.Err? {
      return [OperatorFetchFailure(namespace, pod, fetched.error)];
    }
    var classified := ClassifyOperatorLogs(fetched.value);
    findings := [];
    for i := 0 to |classified|
      invariant findings == LineFindings(namespace, pod, classified[..i])
    {
      assert classified[..i + 1][..i] == classified[..i];
      findings := findings + [OperatorLineFinding(namespace, pod, classified[i])];
    }
    assert classified[..|classified|] == classified;
  }

  /** Every finding is an operator finding about one of the listed pods; a failed pod does not stop the others. */
  lemma {:induction false} OperatorFindingsNameTheirPod(namespace: string, pods: seq<string>,
                                                        fetch: string -> Result<seq<string>>, f: Finding)
    requires f in AllPodFindings(namespace, pods, fetch)
    ensures f.category == CategoryOperator
    ensures exists p :: p in pods && f.resource == Some(PodRef(namespace, p))
    decreases |pods|
  {
    var last := pods[|pods| - 1];
    var init := pods[..|pods| - 1];
    if f in AllPodFindings(namespace, init, fetch) {
      OperatorFindingsNameTheirPod(namespace, init, fetch, f);
      var p :| p in init && f.resource == Some(PodRef(namespace, p));
      assert p in pods;
    } else {
      assert f in PodFindings(namespace, last, fetch(last));
      assert last in pods;
    }
  }

  /** The findings of a pod list are those of its pods, in pod order. */
  lemma {:induction false} AllPodFindingsAppend(namespace: string, a: seq<string>, b: seq<string>,
                                                fetch: string -> Result<seq<string>>)
    ensures AllPodFindings(namespace, a + b, fetch) == AllPodFindings(namespace, a, fetch) + AllPodFindings(namespace, b, fetch)
    decreases |b|
  {
    if |b| > 0 {
      assert (a + b)[..|a + b| - 1] == a + b[..|b| - 1];
      assert (a + b)[|a + b| - 1] == b[|b| - 1];
      AllPodFindingsAppend(namespace, a, b[..|b| - 1], fetch);
    } else {
      assert a + b == a;
    }
  }

  /** A pod whose logs cannot be fetched contributes exactly its failure finding. */
  lemma FailedPodGivesOneWarning(namespace: string, pod: string, fetch: string -> Result<seq<string>>)
    requires fetch(pod).Err?
    ensures AllPodFindings(namespace, [pod], fetch) == [OperatorFetchFailure(namespace, pod, fetch(pod).error)]
    ensures OperatorFetchFailure(namespace, pod, fetch(pod).error).severity == SeverityWarning
  {
    assert [pod][..0] == [];
  }
}
