/**
 * Deployment-mode detection and collector listing (pkg/collector/detect.go).
 *
 * The cluster is an input: the kinds of object under which the named collector
 * can be fetched, and the outcome of each list call.
 */
module Detect {
  import opened Wrappers
  import opened Text
  import opened Collector

  /** The objects the detector probes for, in probe order; the two CRD versions come last. */
  datatype Probe = DaemonSetProbe | DeploymentProbe | StatefulSetProbe | CrdV1beta1Probe | CrdV1alpha1Probe

  /** A detected mode, and the error reported with it. */
  datatype Detection = Detection(mode: DeploymentMode, error: Option<string>)

  /** Whether any standard workload kind was found. */
  predicate FoundWorkload(found: set<Probe>) {
    DaemonSetProbe in found || DeploymentProbe in found || StatefulSetProbe in found
  }

  /**
   * `DetectDeploymentMode`, where `found` is the set of probes whose lookup
   * succeeds: the first of DaemonSet, Deployment, StatefulSet found decides.
   */
  function DetectDeploymentMode(found: set<Probe>, namespace: string, name: string): (r: Detection)
    ensures r.error.None? <==> FoundWorkload(found)
    ensures r.error.Some? ==> r == Detection(Unknown, Some("no workload found for " + namespace + "/" + name))
    ensures r.mode == DaemonSet <==> DaemonSetProbe in found
    ensures r.mode == Deployment <==> DaemonSetProbe !in found && DeploymentProbe in found
    ensures r.mode == StatefulSet <==> DaemonSetProbe !in found && DeploymentProbe !in found && StatefulSetProbe in found
    ensures r.mode != OperatorCRD
  {
    if DaemonSetProbe in found then Detection(DaemonSet, None)
    else if DeploymentProbe in found then Detection(Deployment, None)
    else if StatefulSetProbe in found then Detection(StatefulSet, None)
    else Detection(Unknown, Some("no workload found for " + namespace + "/" + name))
  }

  /**
   * `DetectDeploymentModeWithCRD`: the standard probes first; the CRD, in
   * version v1beta1 then v1alpha1, only when the operator is installed.
   */
  function DetectDeploymentModeWithCRD(found: set<Probe>, namespace: string, name: string, hasOperator: bool): (r: Detection)
    ensures FoundWorkload(found) ==> r == DetectDeploymentMode(found, namespace, name)
    ensures r.mode == OperatorCRD <==>
              !FoundWorkload(found) && hasOperator && (CrdV1beta1Probe in found || CrdV1alpha1Probe in found)
    ensures r.error.None? <==> r.mode != Unknown
    ensures r.error.Some? ==> r.error == Some("no workload or CRD found for " + namespace + "/" + name)
  {
    var standard := DetectDeploymentMode(found, namespace, name);
    if standard.error.None? then standard
    else if hasOperator && CrdV1beta1Probe in found then Detection(OperatorCRD, None)
    else if hasOperator && CrdV1alpha1Probe in found then Detection(OperatorCRD, None)
    else Detection(Unknown, Some("no workload or CRD found for " + namespace + "/" + name))
  }

  /** Without the operator both detectors agree on the mode, and on success entirely. */
  lemma WithoutOperatorAgrees(found: set<Probe>, namespace: string, name: string)
    ensures DetectDeploymentModeWithCRD(found, namespace, name, false).mode == DetectDeploymentMode(found, namespace, name).mode
  {
  }

  // ----- the collector label test -----

  /** A label's value, or "" when the label is absent (Go's zero value). */
  function LabelValue(labels: map<string, string>, key: string): (r: string)
  {
    if key in labels then labels[key] else ""
  }

  /** `isCollector`: a known collector label, or an operator-managed object that is part of OpenTelemetry. */
  predicate IsCollector(labels: Option<map<string, string>>) {
    match labels
    case None => false
    case Some(l) =>
      LabelValue(l, "app.kubernetes.io/component") == "opentelemetry-collector"
      || LabelValue(l, "app.kubernetes.io/name") == "opentelemetry-collector"
      || LabelValue(l, "app") == "opentelemetry-collector"
      || LabelValue(l, "component") == "otel-collector"
      || ("app.kubernetes.io/managed-by" in l && LabelValue(l, "app.kubernetes.io/part-of") == "opentelemetry")
  }

  /**
   * No labels is never a collector; a single known label is enough; the
   * operator's part-of label needs a managed-by label, whatever its value.
   */
  lemma CollectorLabelExamples()
    ensures !IsCollector(None)
    ensures IsCollector(Some(map["app" := "opentelemetry-collector"]))
    ensures !IsCollector(Some(map["app.kubernetes.io/part-of" := "opentelemetry"]))
    ensures IsCollector(Some(map["app.kubernetes.io/part-of" := "opentelemetry", "app.kubernetes.io/managed-by" := ""]))
    ensures !IsCollector(Some(map[]))
  {
    var l := map["app.kubernetes.io/part-of" := "opentelemetry"];
    assert LabelValue(l, "app.kubernetes.io/component") == "";
  }

  // ----- version extraction -----

  /** `extractVersion` as a value: the text after the last ':' of the first image that has one, or "". */
  function Version(images: seq<string>): (r: string)
    ensures (forall i :: 0 <= i < |images| ==> ':' !in images[i]) ==> r == ""
    ensures ':' !in r
    decreases |images|
  {
    if |images| == 0 then ""
    else if LastIndex(images[0], ':') != -1 then
      var tag := images[0][LastIndex(images[0], ':') + 1..];
      assert forall j :: 0 <= j < |tag| ==> tag[j] == images[0][LastIndex(images[0], ':') + 1 + j];
      tag
    else
      assert forall i :: 0 <= i < |images| - 1 ==> images[1..][i] == images[i + 1];
      Version(images[1..])
  }

  /** The version comes from the first image with a ':', whatever the later ones hold. */
  lemma {:induction false} VersionOfFirstTagged(images: seq<string>, i: nat)
    requires i < |images| && ':' in images[i]
    requires forall j :: 0 <= j < i ==> ':' !in images[j]
    ensures Version(images) == images[i][LastIndex(images[i], ':') + 1..]
    decreases i
  {
    if i > 0 {
      assert ':' !in images[0];
      assert images[1..][i - 1] == images[i];
      VersionOfFirstTagged(images[1..], i - 1);
    }
  }

  /** `extractVersion`: the loop over the container images. */
  method ExtractVersion(images: seq<string>) returns (version: string)
    ensures version == Version(images)
  {
    for i := 0 to |images|
      invariant Version(images) == Version(images[i..])
    {
      assert images[i..][0] == images[i] && images[i..][1..] == images[i + 1..];
      var idx := LastIndex(images[i], ':');
      if idx != -1 {
        version := images[i][idx + 1..];
        return;
      }
    }
    version := "";
  }

  // ----- listing -----

  /** A workload as listed: identity, labels, container images and ready count. */
  datatype Workload = Workload(namespace: string, name: string, labels: Option<map<string, string>>,
                               images: seq<string>, ready: int)

  /** An operator-managed collector resource as listed. */
  datatype CrdItem = CrdItem(namespace: string, name: string, labels: Option<map<string, string>>)

  /** `CollectorInstance`. */
  datatype CollectorInstance = CollectorInstance(name: string, namespace: string, mode: DeploymentMode,
                                                 version: string, podCount: int,
                                                 labels: Option<map<string, string>>)

  /** The deduplication key "namespace/name". */
  function Key(c: CollectorInstance): string {
    c.namespace + "/" + c.name
  }

  /** The keys of a list of instances. */
  ghost function KeySet(cs: seq<CollectorInstance>): set<string> {
    set c | c in cs :: Key(c)
  }

  /** Whether no two instances share a key. */
  predicate DistinctKeys(cs: seq<CollectorInstance>) {
    forall i, j :: 0 <= i < j < |cs| ==> Key(cs[i]) != Key(cs[j])
  }

  /** The instance for workload `w` listed as `mode`. */
  function WorkloadInstance(w: Workload, mode: DeploymentMode, version: string): CollectorInstance {
    CollectorInstance(w.name, w.namespace, mode, version, w.ready, w.labels)
  }

  /** The instance for an operator resource: no version and no pod count. */
  function CrdInstance(item: CrdItem): CollectorInstance {
    CollectorInstance(item.name, item.namespace, OperatorCRD, "", 0, item.labels)
  }

  /** The collector workloads of one list call, in list order; a failed call contributes nothing. */
  function WorkloadCandidates(listed: Result<seq<Workload>>, mode: DeploymentMode): seq<CollectorInstance> {
    match listed
    case Err(_) => []
    case Ok(items) => CollectorWorkloads(items, mode)
  }

  /** The instances for the items that carry collector labels. */
  function CollectorWorkloads(items: seq<Workload>, mode: DeploymentMode): (r: seq<CollectorInstance>)
    ensures forall c :: c in r ==> c.mode == mode
    decreases |items|
  {
    if |items| == 0 then []
    else
      var last := items[|items| - 1];
      CollectorWorkloads(items[..|items| - 1], mode)
      + (if IsCollector(last.labels) then [WorkloadInstance(last, mode, Version(last.images))] else [])
  }

  /** The operator resources of the CRD list call; a failed call contributes nothing. */
  function CrdCandidates(listed: Result<seq<CrdItem>>): (r: seq<CollectorInstance>)
    ensures forall c :: c in r ==> c.mode == OperatorCRD
  {
    match listed
    case Err(_) => []
    case Ok(items) => seq(|items|, i requires 0 <= i < |items| => CrdInstance(items[i]))
  }

  /** Every candidate, in the order DaemonSets, Deployments, StatefulSets, then (with the operator) CRDs. */
  function AllCandidates(daemonSets: Result<seq<Workload>>, deployments: Result<seq<Workload>>,
                         statefulSets: Result<seq<Workload>>, crds: Result<seq<CrdItem>>,
                         hasOperator: bool): seq<CollectorInstance> {
    WorkloadCandidates(daemonSets, DaemonSet) + WorkloadCandidates(deployments, Deployment)
    + WorkloadCandidates(statefulSets, StatefulSet) + (if hasOperator then CrdCandidates(crds) else [])
  }

  /** One step of the listing: keep a candidate unless its key was already seen. */
  function Admit(acc: seq<CollectorInstance>, c: CollectorInstance): seq<CollectorInstance> {
    if exists d :: d in acc && Key(d) == Key(c) then acc else acc + [c]
  }

  /** The listing of candidates `xs` after `acc`: the first candidate of each key, in candidate order. */
  function AdmitAll(acc: seq<CollectorInstance>, xs: seq<CollectorInstance>): seq<CollectorInstance>
    decreases |xs|
  {
    if |xs| == 0 then acc else Admit(AdmitAll(acc, xs[..|xs| - 1]), xs[|xs| - 1])
  }

  /**
   * `ListCollectors`, given the outcome of each list call: the collectors of
   * every successful call, deduplicated by namespace/name, and never an error.
   */
  method ListCollectors(daemonSets: Result<seq<Workload>>, deployments: Result<seq<Workload>>,
                        statefulSets: Result<seq<Workload>>, crds: Result<seq<CrdItem>>, hasOperator: bool)
    returns (collectors: seq<CollectorInstance>, err: Option<string>)
    ensures collectors == AdmitAll([], AllCandidates(daemonSets, deployments, statefulSets, crds, hasOperator))
    ensures err == None
  {
    collectors := [];
    var seen: set<string> := {};
    if daemonSets.Ok? {
      collectors, seen := AddWorkloads(collectors, seen, daemonSets.value, DaemonSet);
    }
    if deployments.Ok? {
      collectors, seen := AddWorkloads(collectors, seen, deployments.value, Deployment);
    }
    if statefulSets.Ok? {
      collectors, seen := AddWorkloads(collectors, seen, statefulSets.value, StatefulSet);
    }
    if hasOperator && crds.Ok? {
      collectors, seen := AddCrds(collectors, seen, crds.value);
    }
    var ds := WorkloadCandidates(daemonSets, DaemonSet);
    var dep := WorkloadCandidates(deployments, Deployment);
    var sts := WorkloadCandidates(statefulSets, StatefulSet);
    var crd := if hasOperator then CrdCandidates(crds) else [];
    AdmitAllAppend([], ds, dep);
    AdmitAllAppend([], ds + dep, sts);
    AdmitAllAppend([], ds + dep + sts, crd);
    err := None;
  }

  /** Let the key test of `Admit` be decided by the set of keys seen. */
  lemma AdmitBySeen(acc: seq<CollectorInstance>, seen: set<string>, c: CollectorInstance)
    requires seen == KeySet(acc)
    ensures Admit(acc, c) == if Key(c) in seen then acc else acc + [c]
    ensures KeySet(Admit(acc, c)) == seen + {Key(c)}
  {
    if Key(c) in seen {
      var d :| d in acc && Key(d) == Key(c);
    } else {
      assert KeySet(acc + [c]) == KeySet(acc) + {Key(c)};
    }
  }

  /** One list loop over workloads: the collector-labelled ones whose key is new are added. */
  method AddWorkloads(collectors: seq<CollectorInstance>, seen: set<string>, items: seq<Workload>, mode: DeploymentMode)
    returns (collectors': seq<CollectorInstance>, seen': set<string>)
    requires seen == KeySet(collectors)
    ensures collectors' == AdmitAll(collectors, CollectorWorkloads(items, mode))
    ensures seen' == KeySet(collectors')
  {
    collectors', seen' := collectors, seen;
    for i := 0 to |items|
      invariant collectors' == AdmitAll(collectors, CollectorWorkloads(items[..i], mode))
      invariant seen' == KeySet(collectors')
    {
      assert items[..i + 1][..i] == items[..i] && items[..i + 1][i] == items[i];
      ghost var before := CollectorWorkloads(items[..i], mode);
      var w := items[i];
      if IsCollector(w.labels) {
        var version := ExtractVersion(w.images);
        var c := WorkloadInstance(w, mode, version);
        assert CollectorWorkloads(items[..i + 1], mode) == before + [c];
        assert (before + [c])[..|before|] == before;
        AdmitBySeen(collectors', seen', c);
        if Key(c) !in seen' {
          seen' := seen' + {Key(c)};
          collectors' := collectors' + [c];
        }
      } else {
        assert CollectorWorkloads(items[..i + 1], mode) == before + [];
        assert before + [] == before;
      }
    }
    assert items[..|items|] == items;
  }

  /** The CRD list loop: every resource whose key is new is added. */
  method AddCrds(collectors: seq<CollectorInstance>, seen: set<string>, items: seq<CrdItem>)
    returns (collectors': seq<CollectorInstance>, seen': set<string>)
    requires seen == KeySet(collectors)
    ensures collectors' == AdmitAll(collectors, CrdCandidates(Ok(items)))
    ensures seen' == KeySet(collectors')
  {
    ghost var cands := CrdCandidates(Ok(items));
    collectors', seen' := collectors, seen;
    for i := 0 to |items|
      invariant collectors' == AdmitAll(collectors, cands[..i])
      invariant seen' == KeySet(collectors')
    {
      assert cands[..i + 1][..i] == cands[..i];
      var c := CrdInstance(items[i]);
      assert cands[i] == c;
      AdmitBySeen(collectors', seen', c);
      if Key(c) !in seen' {
        seen' := seen' + {Key(c)};
        collectors' := collectors' + [c];
      }
    }
    assert cands[..|items|] == cands;
  }

  /** Listing `a` then `b` is listing them together. */
  lemma {:induction false} AdmitAllAppend(acc: seq<CollectorInstance>, a: seq<CollectorInstance>, b: seq<CollectorInstance>)
    ensures AdmitAll(acc, a + b) == AdmitAll(AdmitAll(acc, a), b)
    decreases |b|
  {
    if |b| == 0 {
      assert a + b == a;
    } else {
      assert (a + b)[..|a + b| - 1] == a + b[..|b| - 1];
      assert (a + b)[|a + b| - 1] == b[|b| - 1];
      AdmitAllAppend(acc, a, b[..|b| - 1]);
    }
  }

  /** The listing never holds two instances with the same namespace/name. */
  lemma {:induction false} AdmitAllDistinct(acc: seq<CollectorInstance>, xs: seq<CollectorInstance>)
    requires DistinctKeys(acc)
    ensures DistinctKeys(AdmitAll(acc, xs))
    decreases |xs|
  {
    if |xs| > 0 {
      var prev := AdmitAll(acc, xs[..|xs| - 1]);
      AdmitAllDistinct(acc, xs[..|xs| - 1]);
      var c := xs[|xs| - 1];
      if !exists d :: d in prev && Key(d) == Key(c) {
        var r := prev + [c];
        forall i, j | 0 <= i < j < |r| ensures Key(r[i]) != Key(r[j]) {
          if j == |prev| {
            assert r[i] in prev;
          }
        }
      }
    }
  }

  /** Every candidate's key is listed, and only candidates' keys are. */
  lemma {:induction false} AdmitAllKeys(acc: seq<CollectorInstance>, xs: seq<CollectorInstance>)
    ensures KeySet(AdmitAll(acc, xs)) == KeySet(acc) + KeySet(xs)
    decreases |xs|
  {
    if |xs| > 0 {
      var init := xs[..|xs| - 1];
      var c := xs[|xs| - 1];
      AdmitAllKeys(acc, init);
      AdmitBySeen(AdmitAll(acc, init), KeySet(AdmitAll(acc, init)), c);
      assert xs == init + [c];
      assert KeySet(xs) == KeySet(init) + {Key(c)};
    } else {
      assert KeySet(xs) == {};
    }
  }

  /**
   * The instance listed for a key is the first candidate with that key: an
   * earlier kind wins over a later one.
   */
  lemma {:induction false} FirstCandidateWins(xs: seq<CollectorInstance>, c: CollectorInstance)
    requires c in AdmitAll([], xs)
    ensures exists i :: 0 <= i < |xs| && xs[i] == c && forall j :: 0 <= j < i ==> Key(xs[j]) != Key(c)
    decreases |xs|
  {
    var init := xs[..|xs| - 1];
    var prev := AdmitAll([], init);
    var last := xs[|xs| - 1];
    if c in prev {
      FirstCandidateWins(init, c);
      var i :| 0 <= i < |init| && init[i] == c && forall j :: 0 <= j < i ==> Key(init[j]) != Key(c);
      assert xs[i] == c;
    } else {
      assert c == last && !exists d :: d in prev && Key(d) == Key(c);
      AdmitAllKeys([], init);
      assert KeySet([]) == {};
      forall j | 0 <= j < |xs| - 1 ensures Key(xs[j]) != Key(c) {
        assert xs[j] == init[j];
        assert Key(init[j]) in KeySet(init);
      }
    }
  }
}
