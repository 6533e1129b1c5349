/** The receiver port-conflict rule (pkg/analysis/analyzer_receiver_bindings.go). */
module ReceiverBindings {
  import opened Wrappers
  import opened Text
  import opened Bags
  import opened Findings
  import opened Collector
  import opened Helpers
  import opened Input

  /**
   * The endpoint table the rule builds: for every endpoint, the receivers that
   * claim it, in the order they were met. A top-level endpoint is claimed by the
   * receiver's own name, a protocol's endpoint by `<receiver>/<protocol>`.
   */
  type PortUsage = map<string, seq<string>>

  /** The claimants recorded for `endpoint`, none when it has no entry. */
  function Lookup(usage: PortUsage, endpoint: string): multiset<string> {
    if endpoint in usage then multiset(usage[endpoint]) else multiset{}
  }

  /** `portUsage[endpoint] = append(portUsage[endpoint], claimant)`, done only when an endpoint was found. */
  function Record(usage: PortUsage, endpoint: Option<string>, claimant: string): PortUsage {
    match endpoint
    case None => usage
    case Some(ep) => usage[ep := (if ep in usage then usage[ep] else []) + [claimant]]
  }

  /** The claim on `e` that recording `claimant` under `endpoint` makes. */
  function Claim(endpoint: Option<string>, claimant: string, e: string): multiset<string> {
    if endpoint == Some(e) then multiset{claimant} else multiset{}
  }

  /** Recording one claimant adds it under its endpoint and nowhere else, and keeps every entry non-empty. */
  lemma LookupRecord(usage: PortUsage, endpoint: Option<string>, claimant: string)
    requires forall e :: e in usage ==> |usage[e]| > 0
    ensures forall e :: Lookup(Record(usage, endpoint, claimant), e) == Lookup(usage, e) + Claim(endpoint, claimant, e)
    ensures forall e :: e in Record(usage, endpoint, claimant) ==> |Record(usage, endpoint, claimant)[e]| > 0
  {
  }

  /** The endpoint of one protocol body: a string under `endpoint` in a map. */
  function ProtocolEndpoint(body: Value): Option<string> {
    match body
    case Map(pc) => GetNestedString(pc, "endpoint")
    case _ => None
  }

  const Slash := "/"

  /** The claimant name of protocol `proto` of receiver `name`: `fmt.Sprintf("%s/%s", name, proto)`. */
  function Claimant(name: string, proto: string): string {
    name + Slash + proto
  }

  /** The claim `protocols.<proto>.endpoint` of receiver `name` makes on `e`. */
  function ProtocolClaim(e: string, name: string, proto: string, body: Value): multiset<string> {
    Claim(ProtocolEndpoint(body), Claimant(name, proto), e)
  }

  ghost function ProtocolClaimOf(e: string, name: string): (string, Value) -> multiset<string> {
    (proto: string, body: Value) => ProtocolClaim(e, name, proto, body)
  }

  /** The top-level endpoint of a receiver body: a string under `endpoint` in a map. */
  function TopEndpoint(body: Value): Option<string> {
    match body
    case Map(cfg) => GetNestedString(cfg, "endpoint")
    case _ => None
  }

  /** The protocols of a receiver body: the map under `protocols`, none when absent or not a map. */
  function ProtocolsOf(body: Value): map<string, Value> {
    match body
    case Map(cfg) => (match GetNestedMap(cfg, "protocols") case Some(protocols) => protocols case None => map[])
    case _ => map[]
  }

  /**
   * Every claim receiver `name` makes on `e`: its top-level endpoint's and its
   * protocols'. A body that is not a map claims nothing.
   */
  ghost function ReceiverClaims(e: string, name: string, body: Value): multiset<string> {
    Claim(TopEndpoint(body), name, e) + SumOver(ProtocolsOf(body), ProtocolClaimOf(e, name))
  }

  ghost function ReceiverClaimsOf(e: string): (string, Value) -> multiset<string> {
    (name: string, body: Value) => ReceiverClaims(e, name, body)
  }

  /** The claimants of endpoint `e` over all receivers, as the table should record them. */
  ghost function Claimants(receivers: map<string, Value>, e: string): multiset<string> {
    SumOver(receivers, ReceiverClaimsOf(e))
  }

  /** `usage` records exactly the claims of `receivers`, and holds no empty entry. */
  ghost predicate UsageMatches(receivers: map<string, Value>, usage: PortUsage) {
    (forall e :: Lookup(usage, e) == Claimants(receivers, e))
    && (forall e :: e in usage ==> |usage[e]| > 0)
  }

  const SummaryHead := "Port conflict: endpoint "
  const SummaryTail := " is used by multiple receivers"
  const DetailHead := "Receivers "
  const DetailMiddle := " are all configured to listen on "
  const DetailTail := ". Only one receiver can bind to a given endpoint."
  const Suggestion := "Assign unique endpoints to each receiver"

  function Summary(endpoint: string): string {
    SummaryHead + Quote(endpoint) + SummaryTail
  }

  function Detail(endpoint: string, receivers: seq<string>): string {
    DetailHead + FormatList(receivers) + DetailMiddle + endpoint + DetailTail
  }

  /** The critical finding for an endpoint claimed by `receivers`. */
  function ConflictFinding(endpoint: string, receivers: seq<string>): Finding {
    Finding(SeverityCritical, CategoryConfig, None, Summary(endpoint), Detail(endpoint, receivers), Suggestion, "")
  }

  /** What one table entry contributes: a finding when more than one receiver claims the endpoint. */
  function Contribution(endpoint: string, receivers: seq<string>): multiset<Finding> {
    if |receivers| > 1 then multiset{ConflictFinding(endpoint, receivers)} else multiset{}
  }

  /** Whether a table entry is a conflict. */
  predicate Shared(endpoint: string, receivers: seq<string>) {
    |receivers| > 1
  }

  /**
   * The findings the rule may produce, in no particular order: none without a
   * configuration, otherwise one per shared entry of an endpoint table that
   * matches the receivers.
   */
  ghost predicate Produces(input: AnalysisInput, findings: multiset<Finding>) {
    match input.config
    case None => findings == multiset{}
    case Some(cfg) =>
      exists usage :: UsageMatches(cfg.receivers, usage) && findings == SumOver(usage, Contribution)
  }

  /** `AnalyzeReceiverBindings`: build the endpoint table, then report every shared endpoint. */
  method AnalyzeReceiverBindings(input: AnalysisInput) returns (findings: seq<Finding>)
    ensures input.config.None? ==> findings == []
    ensures Produces(input, multiset(findings))
  {
    findings := [];
    if input.config.None? {
      return;
    }
    var usage := CollectEndpoints(input.config.value.receivers);
    findings := ReportConflicts(usage);
  }

  /** The first loop of `AnalyzeReceiverBindings`: record every receiver's endpoints. */
  method CollectEndpoints(receivers: map<string, Value>) returns (usage: PortUsage)
    ensures UsageMatches(receivers, usage)
  {
    usage := map[];
    var rest := receivers.Keys;
    while rest != {}
      invariant rest <= receivers.Keys
      invariant forall e :: Lookup(usage, e) + Fold(receivers, rest, ReceiverClaimsOf(e)) == Claimants(receivers, e)
      invariant forall e :: e in usage ==> |usage[e]| > 0
      decreases |rest|
    {
      var name :| name in rest;
      forall e
        ensures Fold(receivers, rest, ReceiverClaimsOf(e))
                == ReceiverClaims(e, name, receivers[name]) + Fold(receivers, rest - {name}, ReceiverClaimsOf(e))
      {
        FoldPick(receivers, rest, ReceiverClaimsOf(e), name);
      }
      assert rest - {name} <= receivers.Keys;
      usage := AddReceiver(usage, name, receivers[name]);
      rest := rest - {name};
    }
  }

  /** One iteration of `CollectEndpoints`: the claims of one receiver. */
  method AddReceiver(usage0: PortUsage, name: string, body: Value) returns (usage: PortUsage)
    requires forall e :: e in usage0 ==> |usage0[e]| > 0
    ensures forall e :: Lookup(usage, e) == Lookup(usage0, e) + ReceiverClaims(e, name, body)
    ensures forall e :: e in usage ==> |usage[e]| > 0
  {
    if !body.Map? {
      return usage0;
    }
    var top := Record(usage0, TopEndpoint(body), name);
    LookupRecord(usage0, TopEndpoint(body), name);
    usage := AddProtocols(top, name, ProtocolsOf(body));
  }

  /** The loop over `protocols` of one receiver. */
  method AddProtocols(usage0: PortUsage, name: string, protocols: map<string, Value>) returns (usage: PortUsage)
    requires forall e :: e in usage0 ==> |usage0[e]| > 0
    ensures forall e :: Lookup(usage, e) == Lookup(usage0, e) + SumOver(protocols, ProtocolClaimOf(e, name))
    ensures forall e :: e in usage ==> |usage[e]| > 0
  {
    usage := usage0;
    var rest := protocols.Keys;
    while rest != {}
      invariant rest <= protocols.Keys
      invariant forall e :: Lookup(usage, e) + Fold(protocols, rest, ProtocolClaimOf(e, name))
                            == Lookup(usage0, e) + SumOver(protocols, ProtocolClaimOf(e, name))
      invariant forall e :: e in usage ==> |usage[e]| > 0
      decreases |rest|
    {
      var proto :| proto in rest;
      forall e
        ensures Fold(protocols, rest, ProtocolClaimOf(e, name))
                == ProtocolClaim(e, name, proto, protocols[proto]) + Fold(protocols, rest - {proto}, ProtocolClaimOf(e, name))
      {
        FoldPick(protocols, rest, ProtocolClaimOf(e, name), proto);
      }
      assert rest - {proto} <= protocols.Keys;
      usage := AddProtocol(usage, name, proto, protocols[proto]);
      rest := rest - {proto};
    }
  }

  /** One iteration of `AddProtocols`: the claim of one protocol, when its body is a map with a string endpoint. */
  method AddProtocol(usage0: PortUsage, name: string, proto: string, body: Value) returns (usage: PortUsage)
    requires forall e :: e in usage0 ==> |usage0[e]| > 0
    ensures forall e :: Lookup(usage, e) == Lookup(usage0, e) + ProtocolClaim(e, name, proto, body)
    ensures forall e :: e in usage ==> |usage[e]| > 0
  {
    usage := Record(usage0, ProtocolEndpoint(body), Claimant(name, proto));
    LookupRecord(usage0, ProtocolEndpoint(body), Claimant(name, proto));
  }

  /** The second loop of `AnalyzeReceiverBindings`: one finding per shared endpoint. */
  method ReportConflicts(usage: PortUsage) returns (findings: seq<Finding>)
    ensures multiset(findings) == SumOver(usage, Contribution)
  {
    findings := [];
    var rest := usage.Keys;
    while rest != {}
      invariant rest <= usage.Keys
      invariant multiset(findings) + Fold(usage, rest, Contribution) == SumOver(usage, Contribution)
      decreases |rest|
    {
      var endpoint :| endpoint in rest;
      var part := CheckEndpoint(endpoint, usage[endpoint]);
      FoldStep(usage, rest, Contribution, endpoint, findings, part);
      findings := findings + part;
      rest := rest - {endpoint};
    }
  }

  /** One iteration of `ReportConflicts`: the finding for one endpoint, if it is shared. */
  method CheckEndpoint(endpoint: string, receivers: seq<string>) returns (findings: seq<Finding>)
    ensures multiset(findings) == Contribution(endpoint, receivers)
  {
    findings := [];
    if |receivers| > 1 {
      findings := [ConflictFinding(endpoint, receivers)];
    }
  }

  /**
   * Every finding is a critical configuration finding about an endpoint that more
   * than one receiver claims, and lists exactly its claimants.
   */
  lemma {:induction false} FindingsAreConflicts(receivers: map<string, Value>, usage: PortUsage, f: Finding)
    requires UsageMatches(receivers, usage)
    requires f in SumOver(usage, Contribution)
    ensures f.severity == SeverityCritical && f.category == CategoryConfig
    ensures exists e :: e in usage && f == ConflictFinding(e, usage[e])
                        && multiset(usage[e]) == Claimants(receivers, e) && |Claimants(receivers, e)| > 1
  {
    FoldMember(usage, usage.Keys, Contribution, f);
    var e :| e in usage && f in Contribution(e, usage[e]);
    assert Lookup(usage, e) == Claimants(receivers, e);
  }

  /** Conflict findings for different endpoints differ, since each summary quotes its endpoint. */
  lemma ConflictFindingInjective(e1: string, r1: seq<string>, e2: string, r2: seq<string>)
    requires ConflictFinding(e1, r1) == ConflictFinding(e2, r2)
    ensures e1 == e2
  {
    QuoteInjective(SummaryHead, e1, e2, SummaryTail);
  }

  /**
   * An endpoint is reported, exactly once, iff more than one receiver claims it;
   * an endpoint claimed once or never gets no finding.
   */
  lemma {:induction false} OneFindingPerSharedEndpoint(receivers: map<string, Value>, usage: PortUsage, e: string)
    requires UsageMatches(receivers, usage)
    ensures |Claimants(receivers, e)| > 1 ==> e in usage && SumOver(usage, Contribution)[ConflictFinding(e, usage[e])] == 1
    ensures (exists f :: f in SumOver(usage, Contribution) && f.summary == Summary(e)) <==> |Claimants(receivers, e)| > 1
  {
    assert Lookup(usage, e) == Claimants(receivers, e);
    if e in usage {
      var x := ConflictFinding(e, usage[e]);
      forall k | k in usage && k != e ensures x !in Contribution(k, usage[k]) {
        if x in Contribution(k, usage[k]) {
          ConflictFindingInjective(e, usage[e], k, usage[k]);
        }
      }
      FoldCountUnique(usage, usage.Keys, Contribution, e, x);
    }
    if f :| f in SumOver(usage, Contribution) && f.summary == Summary(e) {
      FoldMember(usage, usage.Keys, Contribution, f);
      var k :| k in usage && f in Contribution(k, usage[k]);
      QuoteInjective(SummaryHead, e, k, SummaryTail);
      assert Lookup(usage, k) == Claimants(receivers, k);
    }
  }

  /** The number of findings is the number of endpoints with more than one claimant. */
  lemma {:induction false} CountIsSharedEndpoints(usage: PortUsage)
    ensures |SumOver(usage, Contribution)| == |KeysWhere(usage, usage.Keys, Shared)|
  {
    forall k | k in usage.Keys
      ensures |Contribution(k, usage[k])| == if Shared(k, usage[k]) then 1 else 0
    {
    }
    FoldSize(usage, usage.Keys, Contribution, Shared);
  }

  /** A receiver whose top-level and protocol endpoints coincide claims that endpoint twice. */
  lemma SameEndpointTwice(name: string, proto: string, e: string)
    ensures var body := Map(map["endpoint" := Str(e), "protocols" := Map(map[proto := Map(map["endpoint" := Str(e)])])]);
            Claimants(map[name := body], e) == multiset{name, Claimant(name, proto)}
  {
    var protocols := map[proto := Map(map["endpoint" := Str(e)])];
    var cfg := map["endpoint" := Str(e), "protocols" := Map(protocols)];
    assert ProtocolClaim(e, name, proto, protocols[proto]) == multiset{Claimant(name, proto)};
    FoldSingleton(protocols, proto, ProtocolClaimOf(e, name));
    assert ProtocolsOf(Map(cfg)) == protocols;
    assert TopEndpoint(Map(cfg)) == Some(e);
    FoldSingleton(map[name := Map(cfg)], name, ReceiverClaimsOf(e));
  }

  /** An endpoint that is not a string makes no claim. */
  lemma NonStringEndpointIgnored(name: string, e: string, v: Value)
    requires !v.Str?
    ensures Claimants(map[name := Map(map["endpoint" := v])], e) == multiset{}
  {
    var cfg := map["endpoint" := v];
    assert ProtocolsOf(Map(cfg)) == map[];
    FoldSingleton(map[name := Map(cfg)], name, ReceiverClaimsOf(e));
  }
}
