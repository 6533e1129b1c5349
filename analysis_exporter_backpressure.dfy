/** The log-based exporter backpressure rule (pkg/analysis/analyzer_exporter_backpressure.go). */
module ExporterBackpressure {
  import opened Wrappers
  import opened Text
  import opened Bags
  import opened Findings
  import opened Input

  /** One entry of `backpressurePatterns`: the text to look for and the finding's summary. */
  datatype BackpressurePattern = BackpressurePattern(pattern: string, message: string)

  const QueueFull := "queue is full"
  const DroppingData := "dropping data"
  /** "sending queue is full", written so that it visibly contains `QueueFull`. */
  const SendingQueueFull := "sending " + QueueFull
  const FailedToSend := "failed to send"
  const DeadlineExceeded := "context deadline exceeded"
  const ConnectionRefused := "connection refused"
  const RetryLimit := "retry limit reached"

  const QueueFullMessage := "Exporter queue is full — data is being dropped"
  const DroppingDataMessage := "Exporter is dropping data due to backpressure"
  const SendingQueueFullMessage := "Sending queue is full — increase queue_size or add consumers"
  const FailedToSendMessage := "Exporter failed to send data to backend"
  const DeadlineExceededMessage := "Export timed out — backend may be slow or unreachable"
  const ConnectionRefusedMessage := "Backend connection refused — check endpoint and network"
  const RetryLimitMessage := "Exporter retry limit reached — data permanently lost"

  /** `backpressurePatterns`, in source order. */
  const Patterns: seq<BackpressurePattern> := [
    BackpressurePattern(QueueFull, QueueFullMessage),
    BackpressurePattern(DroppingData, DroppingDataMessage),
    BackpressurePattern(SendingQueueFull, SendingQueueFullMessage),
    BackpressurePattern(FailedToSend, FailedToSendMessage),
    BackpressurePattern(DeadlineExceeded, DeadlineExceededMessage),
    BackpressurePattern(ConnectionRefused, ConnectionRefusedMessage),
    BackpressurePattern(RetryLimit, RetryLimitMessage)]

  /** Every message of the table belongs to one pattern only. */
  lemma MessagesDistinct()
    ensures forall i, j :: 0 <= i < |Patterns| && 0 <= j < |Patterns| && i != j ==> Patterns[i].message != Patterns[j].message
  {
    assert |QueueFullMessage| == 46 && |DroppingDataMessage| == 45 && |SendingQueueFullMessage| == 60;
    assert |FailedToSendMessage| == 39 && |DeadlineExceededMessage| == 53;
    assert |ConnectionRefusedMessage| == 55 && |RetryLimitMessage| == 52;
  }

  /** How much one lower-cased line adds to the count of `message`: one per listed pattern it contains. */
  function LineHits(ps: seq<BackpressurePattern>, lower: string, message: string): nat
    decreases |ps|
  {
    if |ps| == 0 then 0
    else
      var p := ps[|ps| - 1];
      LineHits(ps[..|ps| - 1], lower, message) + (if p.message == message && Contains(lower, p.pattern) then 1 else 0)
  }

  /** The count `patternCounts[message]` reaches over `logs`. */
  function MessageHits(logs: seq<string>, message: string): nat
    decreases |logs|
  {
    if |logs| == 0 then 0
    else MessageHits(logs[..|logs| - 1], message) + LineHits(Patterns, ToLower(logs[|logs| - 1]), message)
  }

  /** The number of lines of `logs` whose lower-cased text contains `pattern`. */
  function Hits(logs: seq<string>, pattern: string): (r: nat)
    ensures r <= |logs|
    decreases |logs|
  {
    if |logs| == 0 then 0
    else Hits(logs[..|logs| - 1], pattern) + (if Contains(ToLower(logs[|logs| - 1]), pattern) then 1 else 0)
  }

  /** The count of a map entry, zero when absent, as Go's map read gives. */
  function Get(counts: map<string, nat>, message: string): nat {
    if message in counts then counts[message] else 0
  }

  /** `counts` holds exactly the messages with a positive count, each with its count. */
  ghost function ExpectedCounts(logs: seq<string>): map<string, nat> {
    map i | 0 <= i < |Patterns| && MessageHits(logs, Patterns[i].message) > 0
      :: Patterns[i].message := MessageHits(logs, Patterns[i].message)
  }

  const DetailHead := "Detected "
  const DetailTail := " occurrences in recent logs. This indicates the collector is unable to keep up with the data volume or the backend is too slow."
  const Suggestion := "Increase exporter queue size, add more consumers, or investigate backend performance"
  const Remediation := "exporters:\n  <exporter_name>:\n    sending_queue:\n      enabled: true\n      num_consumers: 10\n      queue_size: 10000\n    retry_on_failure:\n      enabled: true\n      initial_interval: 5s\n      max_interval: 30s"

  /** The finding for `message` seen `count` times: critical above ten occurrences, else a warning. */
  function BackpressureFinding(message: string, count: nat): Finding {
    Finding(if count > 10 then SeverityCritical else SeverityWarning, CategoryRuntime, None, message,
            DetailHead + NatToString(count) + DetailTail, Suggestion, Remediation)
  }

  /** What one entry of `patternCounts` contributes. */
  function Contribution(message: string, count: nat): multiset<Finding> {
    multiset{BackpressureFinding(message, count)}
  }

  /** The findings the rule produces, in no particular order: none without logs. */
  ghost function Expected(input: AnalysisInput): multiset<Finding> {
    if |input.logs| == 0 then multiset{} else SumOver(ExpectedCounts(input.logs), Contribution)
  }

  /** `AnalyzeExporterBackpressure`: count pattern hits over the logs, then one finding per message seen. */
  method AnalyzeExporterBackpressure(input: AnalysisInput) returns (findings: seq<Finding>)
    ensures |input.logs| == 0 ==> findings == []
    ensures multiset(findings) == Expected(input)
  {
    findings := [];
    if |input.logs| == 0 {
      return;
    }
    var counts := CountPatterns(input.logs);
    findings := ReportCounts(counts);
  }

  /** The nested loops that fill `patternCounts`. */
  method CountPatterns(logs: seq<string>) returns (counts: map<string, nat>)
    ensures counts == ExpectedCounts(logs)
  {
    counts := map[];
    for j := 0 to |logs|
      invariant forall m :: Get(counts, m) == MessageHits(logs[..j], m)
      invariant forall m :: m in counts ==> counts[m] > 0
    {
      var lower := ToLower(logs[j]);
      var before := counts;
      counts := CountLine(before, lower);
      forall m ensures MessageHits(logs[..j + 1], m) == MessageHits(logs[..j], m) + LineHits(Patterns, lower, m) {
        assert logs[..j + 1][..j] == logs[..j];
      }
    }
    assert logs[..|logs|] == logs;
    forall m | m in counts ensures m in ExpectedCounts(logs) {
      MessageHitsNeedMessage(logs, m);
    }
  }

  /** The loop over `backpressurePatterns` for one lower-cased line. */
  method CountLine(counts0: map<string, nat>, lower: string) returns (counts: map<string, nat>)
    requires forall m :: m in counts0 ==> counts0[m] > 0
    ensures forall m :: Get(counts, m) == Get(counts0, m) + LineHits(Patterns, lower, m)
    ensures forall m :: m in counts ==> counts[m] > 0
  {
    counts := counts0;
    for k := 0 to |Patterns|
      invariant forall m :: Get(counts, m) == Get(counts0, m) + LineHits(Patterns[..k], lower, m)
      invariant forall m :: m in counts ==> counts[m] > 0
    {
      var bp := Patterns[k];
      if Contains(lower, bp.pattern) {
        counts := counts[bp.message := Get(counts, bp.message) + 1];
      }
      assert Patterns[..k + 1][..k] == Patterns[..k];
    }
    assert Patterns[..|Patterns|] == Patterns;
  }

  /** The second loop: one finding per entry of `patternCounts`. */
  method ReportCounts(counts: map<string, nat>) returns (findings: seq<Finding>)
    ensures multiset(findings) == SumOver(counts, Contribution)
  {
    findings := [];
    var rest := counts.Keys;
    while rest != {}
      invariant rest <= counts.Keys
      invariant multiset(findings) + Fold(counts, rest, Contribution) == SumOver(counts, Contribution)
      decreases |rest|
    {
      var message :| message in rest;
      FoldPick(counts, rest, Contribution, message);
      assert rest - {message} <= counts.Keys;
      findings := findings + [BackpressureFinding(message, counts[message])];
      rest := rest - {message};
    }
  }

  /** A line adds to a message only when the message is in the table. */
  lemma {:induction false} LineHitMessage(ps: seq<BackpressurePattern>, lower: string, m: string)
    requires LineHits(ps, lower, m) > 0
    ensures exists i :: 0 <= i < |ps| && ps[i].message == m
    decreases |ps|
  {
    var init := ps[..|ps| - 1];
    if LineHits(init, lower, m) > 0 {
      LineHitMessage(init, lower, m);
      var i :| 0 <= i < |init| && init[i].message == m;
      assert ps[i] == init[i];
    }
  }

  /** A message with hits is in the table. */
  lemma {:induction false} MessageHitsNeedMessage(logs: seq<string>, m: string)
    requires MessageHits(logs, m) > 0
    ensures exists i :: 0 <= i < |Patterns| && Patterns[i].message == m
    decreases |logs|
  {
    var init := logs[..|logs| - 1];
    if MessageHits(init, m) > 0 {
      MessageHitsNeedMessage(init, m);
    } else {
      LineHitMessage(Patterns, ToLower(logs[|logs| - 1]), m);
    }
  }

  /** Over a prefix of the table, a table message gains one exactly when its own pattern occurs. */
  lemma {:induction false} LineHitsPrefix(lower: string, i: nat, k: nat)
    requires i < |Patterns| && k <= |Patterns|
    ensures LineHits(Patterns[..k], lower, Patterns[i].message)
            == if i < k && Contains(lower, Patterns[i].pattern) then 1 else 0
    decreases k
  {
    if k > 0 {
      MessagesDistinct();
      assert Patterns[..k][..k - 1] == Patterns[..k - 1];
      LineHitsPrefix(lower, i, k - 1);
    }
  }

  /** Over the whole table, a line adds one to a pattern's message exactly when it contains the pattern. */
  lemma LineHitsOne(lower: string, i: nat)
    requires i < |Patterns|
    ensures LineHits(Patterns, lower, Patterns[i].message) == if Contains(lower, Patterns[i].pattern) then 1 else 0
  {
    LineHitsPrefix(lower, i, |Patterns|);
    assert Patterns[..|Patterns|] == Patterns;
  }

  /**
   * Since messages are distinct, the count of a pattern's message is the number of
   * lines containing that pattern, which is at most the number of lines.
   */
  lemma {:induction false} CountIsPatternHits(logs: seq<string>, i: nat)
    requires i < |Patterns|
    ensures MessageHits(logs, Patterns[i].message) == Hits(logs, Patterns[i].pattern) <= |logs|
    decreases |logs|
  {
    if |logs| > 0 {
      CountIsPatternHits(logs[..|logs| - 1], i);
      LineHitsPrefix(ToLower(logs[|logs| - 1]), i, |Patterns|);
      assert Patterns[..|Patterns|] == Patterns;
    }
  }

  /** `f` is the finding for table pattern `i`, which `hits` lines of `logs` contain. */
  ghost predicate ReportsPattern(logs: seq<string>, f: Finding, i: nat, hits: nat) {
    i < |Patterns| && hits == Hits(logs, Patterns[i].pattern) && hits > 0
    && f == BackpressureFinding(Patterns[i].message, hits)
  }

  /**
   * Every finding is a runtime finding whose summary is the message of a pattern
   * seen in the logs, whose count is the number of lines containing it, and which is
   * critical exactly when that count exceeds ten.
   */
  lemma {:induction false} FindingsArePatternsSeen(input: AnalysisInput, f: Finding)
    requires f in Expected(input)
    ensures |input.logs| > 0 && f.category == CategoryRuntime
    ensures exists i: nat, hits: nat :: ReportsPattern(input.logs, f, i, hits)
                                        && (f.severity == SeverityCritical <==> hits > 10)
                                        && (f.severity == SeverityWarning <==> hits <= 10)
  {
    var counts := ExpectedCounts(input.logs);
    FoldMember(counts, counts.Keys, Contribution, f);
    var m :| m in counts && f in Contribution(m, counts[m]);
    var i := CountsEntry(input.logs, m);
    SeverityThreshold(m, counts[m]);
    assert ReportsPattern(input.logs, f, i, counts[m]);
  }

  /** Each entry of the counts belongs to a table pattern and counts the lines containing it. */
  lemma CountsEntry(logs: seq<string>, m: string) returns (i: nat)
    requires m in ExpectedCounts(logs)
    ensures i < |Patterns| && Patterns[i].message == m
    ensures ExpectedCounts(logs)[m] == Hits(logs, Patterns[i].pattern) > 0
  {
    i :| 0 <= i < |Patterns| && MessageHits(logs, Patterns[i].message) > 0 && Patterns[i].message == m;
    CountIsPatternHits(logs, i);
  }

  /** The severity is critical above ten occurrences and a warning up to ten. */
  lemma SeverityThreshold(m: string, count: nat)
    ensures BackpressureFinding(m, count).severity == SeverityCritical <==> count > 10
    ensures BackpressureFinding(m, count).severity == SeverityWarning <==> count <= 10
  {
    assert SeverityCritical[0] != SeverityWarning[0];
  }

  /** A pattern seen in the logs has its message among the counts, with its number of lines. */
  lemma CountsHasPattern(logs: seq<string>, i: nat)
    requires i < |Patterns| && Hits(logs, Patterns[i].pattern) > 0
    ensures Patterns[i].message in ExpectedCounts(logs)
    ensures ExpectedCounts(logs)[Patterns[i].message] == Hits(logs, Patterns[i].pattern)
  {
    CountIsPatternHits(logs, i);
  }

  /** A pattern seen in the logs gives exactly one finding. */
  lemma {:induction false} SeenPatternReportedOnce(input: AnalysisInput, i: nat)
    requires i < |Patterns| && Hits(input.logs, Patterns[i].pattern) > 0
    ensures Expected(input)[BackpressureFinding(Patterns[i].message, Hits(input.logs, Patterns[i].pattern))] == 1
  {
    var counts := ExpectedCounts(input.logs);
    var message := Patterns[i].message;
    var x := BackpressureFinding(message, Hits(input.logs, Patterns[i].pattern));
    assert |input.logs| > 0;
    CountsHasPattern(input.logs, i);
    FoldCountUnique(counts, counts.Keys, Contribution, message, x);
  }

  /** A pattern no line contains gives no finding with its message. */
  lemma {:induction false} UnseenPatternSilent(input: AnalysisInput, i: nat, f: Finding)
    requires i < |Patterns| && Hits(input.logs, Patterns[i].pattern) == 0
    requires f in Expected(input)
    ensures f.summary != Patterns[i].message
  {
    var counts := ExpectedCounts(input.logs);
    CountIsPatternHits(input.logs, i);
    FoldMember(counts, counts.Keys, Contribution, f);
    var m :| m in counts && f in Contribution(m, counts[m]);
    assert MessageHits(input.logs, m) > 0;
  }

  /** A line "sending queue is full" counts for the plain queue pattern, inside the longer one. */
  lemma OverlapCountsQueueFull()
    ensures LineHits(Patterns, ToLower(SendingQueueFull), QueueFullMessage) == 1
  {
    ToLowerIdentity(SendingQueueFull);
    ContainsMiddle("sending ", QueueFull, "");
    assert "sending " + QueueFull + "" == SendingQueueFull;
    LineHitsOne(SendingQueueFull, 0);
  }

  /** The same line counts for the sending-queue pattern as well. */
  lemma OverlapCountsSendingQueueFull()
    ensures LineHits(Patterns, ToLower(SendingQueueFull), SendingQueueFullMessage) == 1
  {
    ToLowerIdentity(SendingQueueFull);
    ContainsAt(SendingQueueFull, SendingQueueFull, 0);
    LineHitsOne(SendingQueueFull, 2);
  }
}
