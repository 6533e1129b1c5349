/**
 * The architecture skill (pkg/skills/skill_architecture.go): from the signals
 * to collect, the expected scale, the backends and two needs, it recommends a
 * collector topology, the components to deploy, the reasons, and a skeleton
 * collector configuration.
 */
module Architecture {
  import opened Text
  import opened JsonArgs
  import opened SkillRegistry

  const SkillName := "design_architecture"
  const SkillDescription := "Recommend OTel Collector deployment topology based on workload description"

  /** The skill's definition, under which it is registered. */
  function Definition(): (d: SkillDefinition)
    ensures d.name == SkillName
  {
    SkillDefinition(SkillName, SkillDescription)
  }

  // ----- argument extraction -----

  /** The string items of a JSON array, in order, other items skipped. */
  function StringItems(items: seq<Json>): (r: seq<string>)
    ensures |r| <= |items|
    decreases |items|
  {
    if |items| == 0 then []
    else
      var init := StringItems(items[..|items| - 1]);
      var last := items[|items| - 1];
      if last.JString? then init + [last.s] else init
  }

  /** Filtering distributes over concatenation, so the kept items keep their relative order. */
  lemma {:induction false} StringItemsAppend(a: seq<Json>, b: seq<Json>)
    ensures StringItems(a + b) == StringItems(a) + StringItems(b)
    decreases |b|
  {
    if |b| == 0 {
      assert a + b == a;
    } else {
      assert (a + b)[..|a + b| - 1] == a + b[..|b| - 1];
      assert (a + b)[|a + b| - 1] == b[|b| - 1];
      StringItemsAppend(a, b[..|b| - 1]);
    }
  }

  /** A string item is kept, any other item dropped. */
  lemma StringItemsSingle(x: Json)
    ensures x.JString? ==> StringItems([x]) == [x.s]
    ensures !x.JString? ==> StringItems([x]) == []
  {
    assert [x][..0] == [];
  }

  /** Exactly the strings of the array are kept. */
  lemma {:induction false} StringItemsMeaning(items: seq<Json>, s: string)
    ensures s in StringItems(items) <==> JString(s) in items
    decreases |items|
  {
    if |items| > 0 {
      var init := items[..|items| - 1];
      StringItemsMeaning(init, s);
      assert items == init + [items[|items| - 1]];
    }
  }

  /**
   * `extractStringSlice`: the string items of the array argument `key`; a
   * missing or non-array argument gives no items.
   */
  method ExtractStringSlice(args: map<string, Json>, key: string) returns (result: seq<string>)
    ensures !(key in args && args[key].JArray?) ==> result == []
    ensures key in args && args[key].JArray? ==> result == StringItems(args[key].items)
  {
    if key !in args || !args[key].JArray? {
      return [];
    }
    var arr := args[key].items;
    result := [];
    for i := 0 to |arr|
      invariant result == StringItems(arr[..i])
    {
      assert arr[..i + 1][..i] == arr[..i];
      if arr[i].JString? {
        result := result + [arr[i].s];
      }
    }
    assert arr[..|arr|] == arr;
  }

  /** `contains`: a linear search for `item`. */
  method ContainsItem(slice: seq<string>, item: string) returns (found: bool)
    ensures found <==> item in slice
  {
    for i := 0 to |slice|
      invariant item !in slice[..i]
    {
      if slice[i] == item {
        return true;
      }
    }
    assert slice[..|slice|] == slice;
    return false;
  }

  // ----- the recommendation -----

  /** The signal names and the scale the recommendation tests for. */
  const LogsSignal := "logs"
  const TracesSignal := "traces"
  const MetricsSignal := "metrics"
  const LargeScale := "large"

  /** Whether a central gateway is called for: tail sampling, a large scale, or several backends. */
  predicate NeedsGateway(scale: string, backends: seq<string>, needsSampling: bool) {
    needsSampling || scale == LargeScale || |backends| > 1
  }

  datatype Topology = HybridAgentGateway | DaemonSetOnly | GatewayOnly | DaemonSetAgent

  const HybridName := "Hybrid Agent→Gateway"
  const DaemonSetOnlyName := "DaemonSet Only"
  const GatewayOnlyName := "Gateway (Deployment/StatefulSet)"
  const DaemonSetAgentName := "DaemonSet Agent"

  function TopologyName(t: Topology): string {
    match t
    case HybridAgentGateway => HybridName
    case DaemonSetOnly => DaemonSetOnlyName
    case GatewayOnly => GatewayOnlyName
    case DaemonSetAgent => DaemonSetAgentName
  }

  const HybridRationale := "Mixed signal types with gateway requirements call for the hybrid Agent→Gateway pattern"
  const DaemonSetOnlyRationale := "Log collection requires node-level access to /var/log, which requires a DaemonSet"
  const GatewayOnlyRationale := "Centralized processing is needed for tail sampling or multi-backend fan-out"
  const DaemonSetAgentRationale := "Simple signal collection at scale is best served by per-node agents"

  /** The first reason given, one per topology. */
  function TopologyRationale(t: Topology): string {
    match t
    case HybridAgentGateway => HybridRationale
    case DaemonSetOnly => DaemonSetOnlyRationale
    case GatewayOnly => GatewayOnlyRationale
    case DaemonSetAgent => DaemonSetAgentRationale
  }

  /** The topology: hybrid, then logs only, then gateway, then per-node agents, the first that applies. */
  function ChooseTopology(hasLogs: bool, hasTraces: bool, hasMetrics: bool, needsGateway: bool): (t: Topology)
    ensures t == HybridAgentGateway <==> hasLogs && (hasTraces || hasMetrics) && needsGateway
    ensures t == DaemonSetOnly <==> hasLogs && !hasTraces && !hasMetrics
    ensures t == GatewayOnly <==> needsGateway && !hasLogs
    ensures t == DaemonSetAgent <==> !needsGateway && (!hasLogs || hasTraces || hasMetrics)
  {
    if hasLogs && (hasTraces || hasMetrics) && needsGateway then HybridAgentGateway
    else if hasLogs && !hasTraces && !hasMetrics then DaemonSetOnly
    else if needsGateway then GatewayOnly
    else DaemonSetAgent
  }

  /** `componentRec`. */
  datatype Component = Component(name: string, deploymentMode: string, role: string, reason: string)

  /** The three components the skill can recommend; a gateway is a StatefulSet or a Deployment. */
  datatype ComponentKind = LogAgent | Gateway(statefulSet: bool) | Agent

  const LogAgentName := "otel-agent-logs"
  const GatewayName := "otel-gateway"
  const AgentName := "otel-agent"

  const DaemonSetMode := "DaemonSet"
  const DeploymentMode := "Deployment"
  const StatefulSetMode := "StatefulSet"

  const LogAgentRole := "Log collection agent"
  const LogAgentReason := "Logs require node-level /var/log access, which only DaemonSets provide"
  const AgentRole := "Telemetry agent"
  const AgentReason := "Per-node agents for trace/metric collection"
  const GatewayRole := "Centralized gateway"
  const StatefulGatewayReason := "StatefulSet required for Target Allocator to assign scrape targets to specific pods"
  const GatewayReason := "Centralized gateway for trace/metric processing and backend fan-out"

  /** The record written for a component: log agents and agents run as DaemonSets. */
  function Describe(k: ComponentKind): (c: Component)
    ensures k.LogAgent? ==> c.name == LogAgentName && c.deploymentMode == DaemonSetMode
    ensures k.Agent? ==> c.name == AgentName && c.deploymentMode == DaemonSetMode
    ensures k.Gateway? ==> c.name == GatewayName && c.deploymentMode == (if k.statefulSet then StatefulSetMode else DeploymentMode)
  {
    match k
    case LogAgent => Component(LogAgentName, DaemonSetMode, LogAgentRole, LogAgentReason)
    case Agent => Component(AgentName, DaemonSetMode, AgentRole, AgentReason)
    case Gateway(statefulSet) =>
      if statefulSet then Component(GatewayName, StatefulSetMode, GatewayRole, StatefulGatewayReason)
      else Component(GatewayName, DeploymentMode, GatewayRole, GatewayReason)
  }

  /** The records for a list of components, in order. */
  function DescribeAll(ks: seq<ComponentKind>): (cs: seq<Component>)
    ensures |cs| == |ks| && forall i :: 0 <= i < |ks| ==> cs[i] == Describe(ks[i])
  {
    seq(|ks|, i requires 0 <= i < |ks| => Describe(ks[i]))
  }

  /** Whether a gateway joins the components: it is needed and there are traces or metrics to route. */
  predicate AddsGateway(hasTraces: bool, hasMetrics: bool, needsGateway: bool) {
    needsGateway && (hasTraces || hasMetrics)
  }

  predicate HasGateway(ks: seq<ComponentKind>) {
    exists i :: 0 <= i < |ks| && ks[i].Gateway?
  }

  /** The components to deploy. */
  function PlanComponents(hasLogs: bool, hasTraces: bool, hasMetrics: bool, needsGateway: bool, needsPromScraping: bool)
    : (r: seq<ComponentKind>)
    ensures |r| <= 2
    ensures hasLogs <==> |r| > 0 && r[0] == LogAgent
    ensures HasGateway(r) <==> AddsGateway(hasTraces, hasMetrics, needsGateway)
    ensures forall i :: 0 <= i < |r| && r[i].Gateway? ==> r[i] == Gateway(needsPromScraping)
    ensures Agent in r <==> !AddsGateway(hasTraces, hasMetrics, needsGateway) && (hasTraces || hasMetrics) && !hasLogs
    ensures !(HasGateway(r) && Agent in r)
    ensures r == [] <==> !hasLogs && !hasTraces && !hasMetrics
  {
    var logs := if hasLogs then [LogAgent] else [];
    var rest := if AddsGateway(hasTraces, hasMetrics, needsGateway) then [Gateway(needsPromScraping)]
                else if (hasTraces || hasMetrics) && !hasLogs then [Agent]
                else [];
    assert |rest| == 1 ==> (logs + rest)[|logs|] == rest[0];
    logs + rest
  }

  /** A reason the recommendation gives. */
  datatype Reason = TopologyReason(t: Topology) | PromReason | SamplingReason

  const PromRationale := "Prometheus scraping with Target Allocator requires StatefulSet"
  const SamplingRationale := "Tail sampling requires all spans for a trace to reach the same collector, necessitating a centralized gateway"

  function ReasonText(r: Reason): string {
    match r
    case TopologyReason(t) => TopologyRationale(t)
    case PromReason => PromRationale
    case SamplingReason => SamplingRationale
  }

  /** The texts for a list of reasons, in order. */
  function ReasonTexts(rs: seq<Reason>): (texts: seq<string>)
    ensures |texts| == |rs| && forall i :: 0 <= i < |rs| ==> texts[i] == ReasonText(rs[i])
  {
    seq(|rs|, i requires 0 <= i < |rs| => ReasonText(rs[i]))
  }

  /** The reasons: the topology's, then those the gateway brings. */
  function PlanRationale(t: Topology, addsGateway: bool, needsPromScraping: bool, needsSampling: bool): (r: seq<Reason>)
    ensures 1 <= |r| <= 3 && r[0] == TopologyReason(t)
    ensures PromReason in r <==> addsGateway && needsPromScraping
    ensures SamplingReason in r <==> addsGateway && needsSampling
  {
    var prom := if addsGateway && needsPromScraping then [PromReason] else [];
    var sampling := if addsGateway && needsSampling then [SamplingReason] else [];
    [TopologyReason(t)] + prom + sampling
  }

  /** `architectureRecommendation`. */
  datatype Recommendation = Recommendation(topology: string, components: seq<Component>, rationale: seq<string>, config: string)

  /** `buildRecommendation`. */
  method BuildRecommendation(signals: seq<string>, scale: string, backends: seq<string>,
                             needsSampling: bool, needsPromScraping: bool) returns (rec: Recommendation)
    ensures var logs, traces, metrics := LogsSignal in signals, TracesSignal in signals, MetricsSignal in signals;
            var gateway := NeedsGateway(scale, backends, needsSampling);
            var t := ChooseTopology(logs, traces, metrics, gateway);
            && rec.topology == TopologyName(t)
            && rec.components == DescribeAll(PlanComponents(logs, traces, metrics, gateway, needsPromScraping))
            && rec.rationale == ReasonTexts(PlanRationale(t, AddsGateway(traces, metrics, gateway), needsPromScraping, needsSampling))
            && rec.config == SkeletonConfig(signals, backends)
  {
    var hasLogs := ContainsItem(signals, LogsSignal);
    var hasTraces := ContainsItem(signals, TracesSignal);
    var hasMetrics := ContainsItem(signals, MetricsSignal);
    var needsGateway := needsSampling || scale == LargeScale || |backends| > 1;

    var topology := ChooseTopology(hasLogs, hasTraces, hasMetrics, needsGateway);
    var components, rationale := PlanSteps(hasLogs, hasTraces, hasMetrics, needsGateway, needsPromScraping, needsSampling, topology);
    var described := DescribeAll(components);
    var config := GenerateSkeletonConfig(described, signals, backends);
    rec := Recommendation(TopologyName(topology), described, ReasonTexts(rationale), config);
  }

  /** The appends of `buildRecommendation` to the component list and to the reasons, after the topology's reason. */
  method PlanSteps(hasLogs: bool, hasTraces: bool, hasMetrics: bool, needsGateway: bool,
                   needsPromScraping: bool, needsSampling: bool, topology: Topology)
    returns (components: seq<ComponentKind>, rationale: seq<Reason>)
    ensures components == PlanComponents(hasLogs, hasTraces, hasMetrics, needsGateway, needsPromScraping)
    ensures rationale == PlanRationale(topology, AddsGateway(hasTraces, hasMetrics, needsGateway), needsPromScraping, needsSampling)
  {
    rationale := [TopologyReason(topology)];
    components := [];
    if hasLogs {
      components := components + [LogAgent];
    }
    if needsGateway && (hasTraces || hasMetrics) {
      if needsPromScraping {
        rationale := rationale + [PromReason];
      }
      if needsSampling {
        rationale := rationale + [SamplingReason];
      }
      components := components + [Gateway(needsPromScraping)];
    } else if (hasTraces || hasMetrics) && !hasLogs {
      components := components + [Agent];
    }
  }

  /** `ArchitectureSkill.Execute` up to the response: the arguments read with their defaults, then the recommendation. */
  method Execute(args: map<string, Json>) returns (rec: Recommendation)
    ensures var signals := if "signal_types" in args && args["signal_types"].JArray? then StringItems(args["signal_types"].items) else [];
            var backends := if "backends" in args && args["backends"].JArray? then StringItems(args["backends"].items) else [];
            var sampling, prom := BoolArg(args, "needs_sampling"), BoolArg(args, "needs_prometheus_scraping");
            var logs, traces, metrics := LogsSignal in signals, TracesSignal in signals, MetricsSignal in signals;
            var gateway := NeedsGateway(StringArg(args, "scale"), backends, sampling);
            var t := ChooseTopology(logs, traces, metrics, gateway);
            && rec.topology == TopologyName(t)
            && rec.components == DescribeAll(PlanComponents(logs, traces, metrics, gateway, prom))
            && rec.rationale == ReasonTexts(PlanRationale(t, AddsGateway(traces, metrics, gateway), prom, sampling))
            && rec.config == SkeletonConfig(signals, backends)
  {
    var signals := ExtractStringSlice(args, "signal_types");
    var scale := StringArg(args, "scale");
    var backends := ExtractStringSlice(args, "backends");
    rec := BuildRecommendation(signals, scale, backends, BoolArg(args, "needs_sampling"), BoolArg(args, "needs_prometheus_scraping"));
  }

  // ----- the skeleton configuration -----

  /** The fixed opening of the skeleton, line by line: the OTLP receiver, the two processors, the exporters heading. */
  const SkeletonHeadLines := ["# Skeleton collector configuration",
    "receivers:", "  otlp:", "    protocols:", "      grpc:", "        endpoint: \"0.0.0.0:4317\"",
    "      http:", "        endpoint: \"0.0.0.0:4318\"", "",
    "processors:", "  memory_limiter:", "    check_interval: 1s", "    limit_mib: 512", "    spike_limit_mib: 128",
    "  batch:", "    send_batch_size: 8192", "    timeout: 200ms", "",
    "exporters:"]

  /** One line of text with its line break. */
  function Line(l: string): string {
    l + "\n"
  }

  const SkeletonHead := Concat(SkeletonHeadLines, Line)
  const DefaultExporter := "  otlp:\n    endpoint: \"<configure-endpoint>\"\n"
  const ServiceHead := "\nservice:\n  pipelines:\n"

  /** The exporter block for one backend. */
  const Indent := "  "
  const EndpointHead := ":\n    endpoint: \"<configure-"
  const EndpointTail := "-endpoint>\"\n"

  function ExporterBlock(backend: string): string {
    Indent + backend + EndpointHead + backend + EndpointTail
  }

  const DefaultExporterName := "otlp"
  const ExporterSeparator := ", "

  /** The exporters every pipeline names: the backends comma-joined, `otlp` when that is empty. */
  function ExporterList(backends: seq<string>): (r: string)
    ensures backends == [] ==> r == DefaultExporterName
    ensures |backends| == 1 && backends[0] != "" ==> r == backends[0]
    ensures |backends| >= 2 ==> r == Join(backends, ExporterSeparator)
  {
    var joined := Join(backends, ExporterSeparator);
    if joined == "" then DefaultExporterName else joined
  }

  /** The pipeline block for one signal, sending to `exporters`. */
  const PipelineIndent := "    "
  const PipelineBody := ":\n      receivers: [otlp]\n      processors: [memory_limiter, batch]\n      exporters: ["
  const PipelineTail := "]\n"

  function PipelineBlock(exporters: string, signal: string): string {
    PipelineIndent + signal + PipelineBody + exporters + PipelineTail
  }

  /** The writer of pipeline blocks sending to `exporters`. */
  function PipelineWriter(exporters: string): string -> string {
    s => PipelineBlock(exporters, s)
  }

  /** The skeleton: fixed receivers and processors, the exporters, and one pipeline per signal. */
  function SkeletonConfig(signals: seq<string>, backends: seq<string>): string {
    var exporters := ExporterList(backends);
    SkeletonHead + Concat(backends, ExporterBlock) + (if |backends| == 0 then DefaultExporter else "")
      + ServiceHead + Concat(signals, PipelineWriter(exporters))
  }

  /** Blocks written in a layout `head + blocks + mid + service + pipelines` each occur in it. */
  lemma LayoutContents(head: string, backends: seq<string>, mid: string, service: string,
                       signals: seq<string>, pipe: string -> string)
    ensures forall k :: 0 <= k < |backends| ==>
              Contains(head + Concat(backends, ExporterBlock) + mid + service + Concat(signals, pipe), ExporterBlock(backends[k]))
    ensures Contains(head + Concat(backends, ExporterBlock) + mid + service + Concat(signals, pipe), mid)
    ensures forall k :: 0 <= k < |signals| ==>
              Contains(head + Concat(backends, ExporterBlock) + mid + service + Concat(signals, pipe), pipe(signals[k]))
  {
    var blocks := Concat(backends, ExporterBlock);
    var pipes := Concat(signals, pipe);
    forall k | 0 <= k < |backends|
      ensures Contains(head + blocks + mid + service + pipes, ExporterBlock(backends[k]))
    {
      ConcatAt(backends, ExporterBlock, k);
      ContainsAfter(blocks, ExporterBlock(backends[k]), head);
      ContainsBefore(head + blocks, ExporterBlock(backends[k]), mid);
      ContainsBefore(head + blocks + mid, ExporterBlock(backends[k]), service);
      ContainsBefore(head + blocks + mid + service, ExporterBlock(backends[k]), pipes);
    }
    ContainsMiddle(head + blocks, mid, "");
    assert head + blocks + mid + "" == head + blocks + mid;
    ContainsBefore(head + blocks + mid, mid, service);
    ContainsBefore(head + blocks + mid + service, mid, pipes);
    forall k | 0 <= k < |signals|
      ensures Contains(head + blocks + mid + service + pipes, pipe(signals[k]))
    {
      ConcatAt(signals, pipe, k);
      ContainsAfter(pipes, pipe(signals[k]), head + blocks + mid + service);
    }
  }

  /**
   * The skeleton declares one exporter per backend, the `otlp` exporter when
   * there are none, and one pipeline per signal, in the order given.
   */
  lemma SkeletonContents(signals: seq<string>, backends: seq<string>)
    ensures forall k :: 0 <= k < |backends| ==> Contains(SkeletonConfig(signals, backends), ExporterBlock(backends[k]))
    ensures backends == [] ==> Contains(SkeletonConfig(signals, backends), DefaultExporter)
    ensures forall k :: 0 <= k < |signals| ==>
              Contains(SkeletonConfig(signals, backends), PipelineBlock(ExporterList(backends), signals[k]))
  {
    var pipe := PipelineWriter(ExporterList(backends));
    LayoutContents(SkeletonHead, backends, if |backends| == 0 then DefaultExporter else "", ServiceHead, signals, pipe);
  }

  /**
   * `generateSkeletonConfig`, writing block by block. The components are
   * accepted and not consulted, as in the source.
   */
  method GenerateSkeletonConfig(components: seq<Component>, signals: seq<string>, backends: seq<string>) returns (text: string)
    ensures text == SkeletonConfig(signals, backends)
  {
    text := SkeletonHead;
    text := WriteEach(text, backends, ExporterBlock);
    if |backends| == 0 {
      text := text + DefaultExporter;
    }
    text := text + ServiceHead;
    var exporters := Join(backends, ExporterSeparator);
    if exporters == "" {
      exporters := DefaultExporterName;
    }
    text := WriteEach(text, signals, PipelineWriter(exporters));
  }
}
