/**
 * The log classifiers and the configuration lookup of pkg/collector/logs.go.
 *
 * Each classifier walks the lines in order, lower-cases each one, gives it the
 * label of the first rule of its taxonomy that matches, and drops the lines no
 * rule matches. The taxonomies themselves are functions from the lower-cased
 * line to an optional label; the walk is `Classify`.
 */
module Logs {
  import opened Wrappers
  import opened Text

  /** `LogCategory`. */
  datatype LogCategory =
    | OTTLSyntax | ExporterFail | OOM | ReceiverIssue | ProcessorError
    | OperatorCRD | Reconciliation | Other

  /** The category's wire name. */
  function CategoryName(c: LogCategory): string {
    match c
    case OTTLSyntax => "ottl_syntax_error"
    case ExporterFail => "exporter_failure"
    case OOM => "oom_event"
    case ReceiverIssue => "receiver_issue"
    case ProcessorError => "processor_error"
    case OperatorCRD => "operator_crd_rejection"
    case Reconciliation => "reconciliation_failure"
    case Other => "other"
  }

  /** `ClassifiedLog`: the category, the original line and the classifier's message. */
  datatype ClassifiedLog = ClassifiedLog(category: LogCategory, line: string, message: string)

  /** What a taxonomy assigns to a line it keeps. */
  datatype Label = Label(category: LogCategory, message: string)

  const OttlMessage := "OTTL syntax or parse error detected"
  const ExporterMessage := "Exporter failure or data loss"
  const OomMessage := "Out of memory event"
  const ReceiverMessage := "Receiver error"
  const ProcessorMessage := "Processor error"
  const CollectorOtherMessage := "Unclassified error/warning"
  const CrdMessage := "CRD validation or rejection error"
  const ReconcileMessage := "Reconciliation failure"
  const OperatorOtherMessage := "Unclassified operator error/warning"

  /** Whether the line reports an error or a failure. */
  predicate ErrorOrFailed(lower: string) {
    Contains(lower, "error") || Contains(lower, "failed")
  }

  /** The collector taxonomy, first match wins: OTTL, exporter, memory, receiver, processor, other. */
  function CollectorLabel(lower: string): (r: Option<Label>)
    ensures r.Some? ==> r.value.category !in {OperatorCRD, Reconciliation}
    ensures r.None? <==> !Contains(lower, "error") && !Contains(lower, "warn") && !Contains(lower, "fatal")
                         && !Contains(lower, "oom") && !Contains(lower, "out of memory") && !Contains(lower, "memory limit")
                         && !(Contains(lower, "ottl") && Contains(lower, "parse"))
                         && !(Contains(lower, "exporter") && (Contains(lower, "failed") || Contains(lower, "dropping")))
                         && !(Contains(lower, "receiver") && Contains(lower, "failed"))
                         && !(Contains(lower, "processor") && Contains(lower, "failed"))
  {
    if Contains(lower, "ottl") && (Contains(lower, "error") || Contains(lower, "parse")) then
      Some(Label(OTTLSyntax, OttlMessage))
    else if Contains(lower, "exporter") && (ErrorOrFailed(lower) || Contains(lower, "dropping")) then
      Some(Label(ExporterFail, ExporterMessage))
    else if Contains(lower, "oom") || Contains(lower, "out of memory") || Contains(lower, "memory limit") then
      Some(Label(OOM, OomMessage))
    else if Contains(lower, "receiver") && ErrorOrFailed(lower) then
      Some(Label(ReceiverIssue, ReceiverMessage))
    else if Contains(lower, "processor") && ErrorOrFailed(lower) then
      Some(Label(ProcessorError, ProcessorMessage))
    else if Contains(lower, "error") || Contains(lower, "warn") || Contains(lower, "fatal") then
      Some(Label(Other, CollectorOtherMessage))
    else
      None
  }

  /** The operator taxonomy, first match wins: CRD rejection, reconciliation, other. */
  function OperatorLabel(lower: string): (r: Option<Label>)
    ensures r.Some? ==> r.value.category in {OperatorCRD, Reconciliation, Other}
    ensures r.None? <==> !Contains(lower, "error") && !Contains(lower, "warn") && !Contains(lower, "rejected")
                         && !(Contains(lower, "validation") && Contains(lower, "failed"))
                         && !(Contains(lower, "reconcil") && Contains(lower, "failed"))
  {
    if Contains(lower, "rejected") || (Contains(lower, "validation") && Contains(lower, "failed")) then
      Some(Label(OperatorCRD, CrdMessage))
    else if Contains(lower, "reconcil") && ErrorOrFailed(lower) then
      Some(Label(Reconciliation, ReconcileMessage))
    else if Contains(lower, "error") || Contains(lower, "warn") then
      Some(Label(Other, OperatorOtherMessage))
    else
      None
  }

  /** What one line contributes: its entry, labelled from its lower-cased text, or nothing. */
  function Entry(line: string, taxonomy: string -> Option<Label>): seq<ClassifiedLog> {
    match taxonomy(ToLower(line))
    case None => []
    case Some(l) => [ClassifiedLog(l.category, line, l.message)]
  }

  /** The classification of `lines` under a taxonomy: every kept line's entry, in input order. */
  function Classify(lines: seq<string>, taxonomy: string -> Option<Label>): (r: seq<ClassifiedLog>)
    ensures |r| <= |lines|
    decreases |lines|
  {
    if |lines| == 0 then [] else Classify(lines[..|lines| - 1], taxonomy) + Entry(lines[|lines| - 1], taxonomy)
  }

  /** `ClassifyCollectorLogs`. */
  method ClassifyCollectorLogs(lines: seq<string>) returns (classified: seq<ClassifiedLog>)
    ensures classified == Classify(lines, CollectorLabel)
  {
    classified := [];
    for i := 0 to |lines|
      invariant classified == Classify(lines[..i], CollectorLabel)
    {
      assert lines[..i + 1][..i] == lines[..i];
      var lower := ToLower(lines[i]);
      var lab := CollectorLabel(lower);
      if lab.None? {
        continue;
      }
      classified := classified + [ClassifiedLog(lab.value.category, lines[i], lab.value.message)];
    }
    assert lines[..|lines|] == lines;
  }

  /** `ClassifyOperatorLogs`. */
  method ClassifyOperatorLogs(lines: seq<string>) returns (classified: seq<ClassifiedLog>)
    ensures classified == Classify(lines, OperatorLabel)
  {
    classified := [];
    for i := 0 to |lines|
      invariant classified == Classify(lines[..i], OperatorLabel)
    {
      assert lines[..i + 1][..i] == lines[..i];
      var lower := ToLower(lines[i]);
      var lab := OperatorLabel(lower);
      if lab.None? {
        continue;
      }
      classified := classified + [ClassifiedLog(lab.value.category, lines[i], lab.value.message)];
    }
    assert lines[..|lines|] == lines;
  }

  /** Classifying two batches of lines one after the other is classifying them together. */
  lemma {:induction false} ClassifyAppend(a: seq<string>, b: seq<string>, taxonomy: string -> Option<Label>)
    ensures Classify(a + b, taxonomy) == Classify(a, taxonomy) + Classify(b, taxonomy)
    decreases |b|
  {
    if |b| > 0 {
      var init := b[..|b| - 1];
      assert (a + b)[..|a + b| - 1] == a + init;
      assert (a + b)[|a + b| - 1] == b[|b| - 1];
      ClassifyAppend(a, init, taxonomy);
    } else {
      assert a + b == a;
    }
  }

  /**
   * Every entry comes from an input line that the taxonomy keeps, with that line
   * unchanged, and every line the taxonomy keeps has its entry.
   */
  lemma {:induction false} ClassifyMeaning(lines: seq<string>, taxonomy: string -> Option<Label>, e: ClassifiedLog)
    ensures e in Classify(lines, taxonomy) <==>
              exists i :: 0 <= i < |lines| && e.line == lines[i] && taxonomy(ToLower(lines[i])) == Some(Label(e.category, e.message))
    decreases |lines|
  {
    if |lines| > 0 {
      var init := lines[..|lines| - 1];
      ClassifyMeaning(init, taxonomy, e);
      if e in Entry(lines[|lines| - 1], taxonomy) {
        assert e.line == lines[|lines| - 1];
      }
      forall i | 0 <= i < |lines| - 1 ensures lines[i] == init[i] {
      }
    }
  }

  /** Matching is case-insensitive: a line and its lower-cased copy get the same category and message. */
  lemma CaseInsensitive(line: string, taxonomy: string -> Option<Label>)
    ensures Entry(ToLower(line), taxonomy) == [] <==> Entry(line, taxonomy) == []
    ensures Entry(line, taxonomy) != [] ==>
              Entry(ToLower(line), taxonomy)[0].category == Entry(line, taxonomy)[0].category
              && Entry(ToLower(line), taxonomy)[0].message == Entry(line, taxonomy)[0].message
  {
    ToLowerIdempotent(line);
  }

  /** OTTL wins over every later collector rule, whatever else the line mentions. */
  lemma OttlTakesPrecedence(lower: string)
    requires Contains(lower, "ottl") && Contains(lower, "error")
    ensures CollectorLabel(lower) == Some(Label(OTTLSyntax, OttlMessage))
  {
  }

  /** An exporter failure that also mentions memory is an exporter failure, not an OOM event. */
  lemma ExporterBeforeOom(lower: string)
    requires !Contains(lower, "ottl")
    requires Contains(lower, "exporter") && Contains(lower, "dropping") && Contains(lower, "out of memory")
    ensures CollectorLabel(lower) == Some(Label(ExporterFail, ExporterMessage))
  {
  }

  /** A line whose only keyword is "fatal" is kept by the collector taxonomy and dropped by the operator one. */
  lemma FatalKeptOnlyByCollector()
    ensures CollectorLabel("fatal") == Some(Label(Other, CollectorOtherMessage))
    ensures OperatorLabel("fatal") == None
  {
    var s := "fatal";
    ContainsAt(s, "fatal", 0);
    NotContainsFirst(s, "error");
    NotContainsFirst(s, "warn");
    NotContainsFirst(s, "oom");
    NotContainsFirst(s, "out of memory");
    NotContainsFirst(s, "memory limit");
    NotContainsFirst(s, "ottl");
    NotContainsFirst(s, "exporter");
    NotContainsFirst(s, "receiver");
    NotContainsFirst(s, "processor");
    NotContainsFirst(s, "rejected");
    NotContainsFirst(s, "validation");
    NotContainsFirst(s, "reconcil");
  }

  /** The ConfigMap keys tried, in order, before any other key. */
  const PreferredKeys := ["relay", "config.yaml", "collector.yaml", "otel-collector-config"]

  /** The first of `keys` present in `data`, if any. */
  function FirstPresent(keys: seq<string>, data: map<string, string>): (r: Option<string>)
    ensures r.None? <==> forall k :: k in keys ==> k !in data
    ensures r.Some? ==> r.value in data
                        && exists i :: 0 <= i < |keys| && keys[i] == r.value && forall j :: 0 <= j < i ==> keys[j] !in data
    decreases |keys|
  {
    if |keys| == 0 then None
    else if keys[0] in data then Some(keys[0])
    else
      var r := FirstPresent(keys[1..], data);
      assert forall k :: k in keys ==> k == keys[0] || k in keys[1..];
      if r.Some? then
        var i :| 0 <= i < |keys[1..]| && keys[1..][i] == r.value && forall j :: 0 <= j < i ==> keys[1..][j] !in data;
        assert keys[i + 1] == r.value && forall j :: 0 <= j < i + 1 ==> keys[j] !in data;
        r
      else r
  }

  /** The error for a ConfigMap that could not be fetched. */
  function FetchError(namespace: string, name: string, err: string): string {
    "failed to get configmap " + namespace + "/" + name + ": " + err
  }

  /** The error for a ConfigMap without data. */
  function NoDataError(namespace: string, name: string): string {
    "no configuration data found in configmap " + namespace + "/" + name
  }

  /**
   * `GetCollectorConfig`, given the outcome of fetching the ConfigMap's data:
   * the first preferred key present wins, otherwise the value of some key.
   */
  method GetCollectorConfig(namespace: string, name: string, fetched: Result<map<string, string>>)
    returns (r: Result<string>)
    ensures fetched.Err? ==> r == Err(FetchError(namespace, name, fetched.error))
    ensures fetched.Ok? && FirstPresent(PreferredKeys, fetched.value).Some? ==>
              r == Ok(fetched.value[FirstPresent(PreferredKeys, fetched.value).value])
    ensures fetched.Ok? && FirstPresent(PreferredKeys, fetched.value).None? && fetched.value != map[] ==>
              r.Ok? && r.value in fetched.value.Values
    ensures fetched.Ok? && fetched.value == map[] ==> r == Err(NoDataError(namespace, name))
  {
    if fetched.Err? {
      return Err(FetchError(namespace, name, fetched.error));
    }
    var data := fetched.value;
    for i := 0 to |PreferredKeys|
      invariant FirstPresent(PreferredKeys, data) == FirstPresent(PreferredKeys[i..], data)
    {
      if PreferredKeys[i] in data {
        return Ok(data[PreferredKeys[i]]);
      }
      assert PreferredKeys[i..][1..] == PreferredKeys[i + 1..];
    }
    if data != map[] {
      var k :| k in data;
      return Ok(data[k]);
    }
    return Err(NoDataError(namespace, name));
  }
}
