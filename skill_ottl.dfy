/**
 * The OTTL skill (pkg/skills/skill_ottl.go): from a signal type and a
 * free-text description of a transformation, it picks OTTL statements by
 * keyword and wraps them in a transform processor configuration.
 */
module Ottl {
  import opened Text
  import opened JsonArgs
  import opened SkillRegistry

  const SkillName := "generate_ottl"
  const SkillDescription := "Generate OTTL transform processor statements for log parsing, span manipulation, or metric operations"

  /** The skill's definition, under which it is registered. */
  function Definition(): (d: SkillDefinition)
    ensures d.name == SkillName
  {
    SkillDefinition(SkillName, SkillDescription)
  }

  // ----- signals and their OTTL contexts -----

  const LogsSignal := "logs"
  const TracesSignal := "traces"
  const MetricsSignal := "metrics"

  predicate KnownSignal(signal: string) {
    signal == LogsSignal || signal == TracesSignal || signal == MetricsSignal
  }

  const LogContext := "log"
  const SpanContext := "span"
  const DatapointContext := "datapoint"

  /** The OTTL context a signal's statements run in; empty for any other signal. */
  function SignalContext(signal: string): (c: string)
    ensures signal == LogsSignal ==> c == LogContext
    ensures signal == TracesSignal ==> c == SpanContext
    ensures signal == MetricsSignal ==> c == DatapointContext
    ensures c == "" <==> !KnownSignal(signal)
  {
    if signal == LogsSignal then LogContext
    else if signal == TracesSignal then SpanContext
    else if signal == MetricsSignal then DatapointContext
    else ""
  }

  // ----- keyword tables -----

  /** A case of a generator's switch: any of the keywords selects the statements. */
  datatype Rule = Rule(keywords: seq<string>, statements: seq<string>)

  predicate Matches(op: string, rule: Rule) {
    exists k :: 0 <= k < |rule.keywords| && Contains(op, rule.keywords[k])
  }

  /** A switch over keyword cases: the first case that matches, the fallback when none does. */
  function FirstMatch(rules: seq<Rule>, op: string, fallback: seq<string>): seq<string>
    decreases |rules|
  {
    if |rules| == 0 then fallback
    else if Matches(op, rules[0]) then rules[0].statements
    else FirstMatch(rules[1..], op, fallback)
  }

  /** Precedence: a case is taken exactly when it matches and no earlier case does. */
  lemma {:induction false} FirstMatchTaken(rules: seq<Rule>, op: string, fallback: seq<string>, k: nat)
    requires k < |rules| && Matches(op, rules[k])
    requires forall j :: 0 <= j < k ==> !Matches(op, rules[j])
    ensures FirstMatch(rules, op, fallback) == rules[k].statements
    decreases k
  {
    if k > 0 {
      assert !Matches(op, rules[0]);
      FirstMatchTaken(rules[1..], op, fallback, k - 1);
    }
  }

  /** With no matching case the fallback is taken. */
  lemma {:induction false} FirstMatchFallback(rules: seq<Rule>, op: string, fallback: seq<string>)
    requires forall j :: 0 <= j < |rules| ==> !Matches(op, rules[j])
    ensures FirstMatch(rules, op, fallback) == fallback
    decreases |rules|
  {
    if |rules| > 0 {
      assert !Matches(op, rules[0]);
      FirstMatchFallback(rules[1..], op, fallback);
    }
  }

  /** A switch of three cases, unfolded. */
  lemma FirstMatchOfThree(r0: Rule, r1: Rule, r2: Rule, op: string, fallback: seq<string>)
    ensures FirstMatch([r0, r1, r2], op, fallback)
            == if Matches(op, r0) then r0.statements
               else if Matches(op, r1) then r1.statements
               else if Matches(op, r2) then r2.statements
               else fallback
  {
    assert [r0, r1, r2][1..] == [r1, r2];
    assert [r1, r2][1..] == [r2];
    assert [r2][1..] == [];
    assert FirstMatch([r2], op, fallback) == if Matches(op, r2) then r2.statements else fallback;
    assert FirstMatch([r1, r2], op, fallback)
           == if Matches(op, r1) then r1.statements else FirstMatch([r2], op, fallback);
  }

  /** Keyword matching ignores letter case once the operation is lowered. */
  lemma MatchesAnyCase(op: string, kw: string, rule: Rule)
    requires Contains(op, kw) && ToLower(kw) in rule.keywords
    ensures Matches(ToLower(op), rule)
  {
    ContainsLower(op, kw);
    var k :| 0 <= k < |rule.keywords| && rule.keywords[k] == ToLower(kw);
  }

  // ----- log statements -----

  const KwParseJson := "parse json"
  const KwJsonParse := "json parse"
  const KwSeverity := "severity"
  const KwLogLevel := "log level"
  const KwExtract := "extract"
  const KwRegex := "regex"

  const MergeJson := "merge_maps(cache, ParseJSON(body), \"insert\")"
  const SetParsed := "set(attributes[\"parsed\"], cache)"
  const SetSeverityText := "set(severity_text, attributes[\"level\"]) where attributes[\"level\"] != nil"
  const PatternComment := "# Replace <pattern> with your regex:"
  const MergePatterns := "merge_maps(attributes, ExtractPatterns(body, \"(?P<field>pattern)\"), \"insert\")"
  const CustomLogComment := "# Custom log transform for: "
  const SetCustomField := "set(attributes[\"custom_field\"], \"value\") where body != nil"

  /** `generateLogOTTL`, on the lowered operation. */
  function LogStatements(op: string): seq<string> {
    if Contains(op, KwParseJson) || Contains(op, KwJsonParse) then [MergeJson, SetParsed]
    else if Contains(op, KwSeverity) || Contains(op, KwLogLevel) then [SetSeverityText]
    else if Contains(op, KwExtract) || Contains(op, KwRegex) then [PatternComment, MergePatterns]
    else [CustomLogComment + op, SetCustomField]
  }

  /** The cases of `generateLogOTTL`, in the order they are tried. */
  const LogRules := [Rule([KwParseJson, KwJsonParse], [MergeJson, SetParsed]),
                     Rule([KwSeverity, KwLogLevel], [SetSeverityText]),
                     Rule([KwExtract, KwRegex], [PatternComment, MergePatterns])]

  /** The log generator is the ordered table: JSON parsing, then severity, then extraction, then the custom default. */
  lemma LogStatementsTable(op: string)
    ensures LogStatements(op) == FirstMatch(LogRules, op, [CustomLogComment + op, SetCustomField])
  {
    RuleOfTwo(op, KwParseJson, KwJsonParse, [MergeJson, SetParsed]);
    RuleOfTwo(op, KwSeverity, KwLogLevel, [SetSeverityText]);
    RuleOfTwo(op, KwExtract, KwRegex, [PatternComment, MergePatterns]);
    FirstMatchOfThree(LogRules[0], LogRules[1], LogRules[2], op, [CustomLogComment + op, SetCustomField]);
  }

  /** A two-keyword case matches exactly when either keyword occurs. */
  lemma RuleOfTwo(op: string, a: string, b: string, statements: seq<string>)
    ensures Matches(op, Rule([a, b], statements)) <==> Contains(op, a) || Contains(op, b)
  {
    var ks := [a, b];
    assert ks[0] == a && ks[1] == b;
    if Matches(op, Rule(ks, statements)) {
      var k :| 0 <= k < |ks| && Contains(op, ks[k]);
      assert k == 0 || k == 1;
    }
  }

  // ----- span statements -----

  const KwAddAttribute := "add attribute"
  const KwSetAttribute := "set attribute"
  const KwDelete := "delete"
  const KwRemove := "remove"
  const KwRename := "rename"

  const SetCustomAttribute := "set(attributes[\"custom.attribute\"], \"value\")"
  const DeleteAttribute := "delete_key(attributes, \"attribute.to.remove\")"
  const SetNewName := "set(attributes[\"new.name\"], attributes[\"old.name\"]) where attributes[\"old.name\"] != nil"
  const DeleteOldName := "delete_key(attributes, \"old.name\")"
  const CustomSpanComment := "# Custom span transform for: "
  const SetCustom := "set(attributes[\"custom\"], \"value\")"

  /** `generateTraceOTTL`, on the lowered operation. */
  function TraceStatements(op: string): seq<string> {
    if Contains(op, KwAddAttribute) || Contains(op, KwSetAttribute) then [SetCustomAttribute]
    else if Contains(op, KwDelete) || Contains(op, KwRemove) then [DeleteAttribute]
    else if Contains(op, KwRename) then [SetNewName, DeleteOldName]
    else [CustomSpanComment + op, SetCustom]
  }

  /** The cases of `generateTraceOTTL`, in the order they are tried. */
  const TraceRules := [Rule([KwAddAttribute, KwSetAttribute], [SetCustomAttribute]),
                       Rule([KwDelete, KwRemove], [DeleteAttribute]),
                       Rule([KwRename], [SetNewName, DeleteOldName])]

  /** The span generator is the ordered table: add or set an attribute, then delete, then rename, then the custom default. */
  lemma TraceStatementsTable(op: string)
    ensures TraceStatements(op) == FirstMatch(TraceRules, op, [CustomSpanComment + op, SetCustom])
  {
    RuleOfTwo(op, KwAddAttribute, KwSetAttribute, [SetCustomAttribute]);
    RuleOfTwo(op, KwDelete, KwRemove, [DeleteAttribute]);
    RuleOfOne(op, KwRename, [SetNewName, DeleteOldName]);
    FirstMatchOfThree(TraceRules[0], TraceRules[1], TraceRules[2], op, [CustomSpanComment + op, SetCustom]);
  }

  /** A one-keyword case matches exactly when the keyword occurs. */
  lemma RuleOfOne(op: string, a: string, statements: seq<string>)
    ensures Matches(op, Rule([a], statements)) <==> Contains(op, a)
  {
    var ks := [a];
    assert ks[0] == a;
  }

  // ----- metric statements -----

  const KwLabel := "label"
  const KwDrop := "drop"
  const KwAggregate := "aggregate"
  const KwSum := "sum"

  const SetNewLabel := "set(attributes[\"new_label\"], attributes[\"old_label\"]) where attributes[\"old_label\"] != nil"
  const DeleteOldLabel := "delete_key(attributes, \"old_label\")"
  const DeleteHighCardinality := "delete_key(attributes, \"high_cardinality_label\")"
  const AggregateComment := "# Use metricstransform processor for aggregation instead of OTTL"
  const CustomMetricComment := "# Custom metric transform for: "

  /** `generateMetricOTTL`, on the lowered operation. */
  function MetricStatements(op: string): seq<string> {
    if Contains(op, KwRename) || Contains(op, KwLabel) then [SetNewLabel, DeleteOldLabel]
    else if Contains(op, KwDrop) || Contains(op, KwDelete) then [DeleteHighCardinality]
    else if Contains(op, KwAggregate) || Contains(op, KwSum) then [AggregateComment]
    else [CustomMetricComment + op, SetCustom]
  }

  /** The cases of `generateMetricOTTL`, in the order they are tried. */
  const MetricRules := [Rule([KwRename, KwLabel], [SetNewLabel, DeleteOldLabel]),
                        Rule([KwDrop, KwDelete], [DeleteHighCardinality]),
                        Rule([KwAggregate, KwSum], [AggregateComment])]

  /** The metric generator is the ordered table: rename or label, then drop, then aggregate, then the custom default. */
  lemma MetricStatementsTable(op: string)
    ensures MetricStatements(op) == FirstMatch(MetricRules, op, [CustomMetricComment + op, SetCustom])
  {
    RuleOfTwo(op, KwRename, KwLabel, [SetNewLabel, DeleteOldLabel]);
    RuleOfTwo(op, KwDrop, KwDelete, [DeleteHighCardinality]);
    RuleOfTwo(op, KwAggregate, KwSum, [AggregateComment]);
    FirstMatchOfThree(MetricRules[0], MetricRules[1], MetricRules[2], op, [CustomMetricComment + op, SetCustom]);
  }

  // ----- the generated statements -----

  /** The statements for a signal, from the lowered operation: one or two, none for an unknown signal. */
  function Statements(signal: string, lower: string): (r: seq<string>)
    ensures KnownSignal(signal) <==> |r| >= 1
    ensures |r| <= 2
  {
    if signal == LogsSignal then LogStatements(lower)
    else if signal == TracesSignal then TraceStatements(lower)
    else if signal == MetricsSignal then MetricStatements(lower)
    else []
  }

  /** The keyword cases tried for a signal; none for an unknown signal. */
  function Rules(signal: string): seq<Rule> {
    if signal == LogsSignal then LogRules
    else if signal == TracesSignal then TraceRules
    else if signal == MetricsSignal then MetricRules
    else []
  }

  /** The default statements for a signal, echoing the operation; none for an unknown signal. */
  function Fallback(signal: string, lower: string): seq<string> {
    if signal == LogsSignal then [CustomLogComment + lower, SetCustomField]
    else if signal == TracesSignal then [CustomSpanComment + lower, SetCustom]
    else if signal == MetricsSignal then [CustomMetricComment + lower, SetCustom]
    else []
  }

  /** Every signal's generator is its ordered keyword table over the lowered operation. */
  lemma StatementsTable(signal: string, lower: string)
    ensures Statements(signal, lower) == FirstMatch(Rules(signal), lower, Fallback(signal, lower))
  {
    if signal == LogsSignal {
      LogStatementsTable(lower);
    } else if signal == TracesSignal {
      TraceStatementsTable(lower);
    } else if signal == MetricsSignal {
      MetricStatementsTable(lower);
    }
  }

  /** An operation no keyword of its signal recognises is echoed in the first statement. */
  lemma DefaultEchoesOperation(signal: string, lower: string)
    requires KnownSignal(signal)
    requires forall j :: 0 <= j < |Rules(signal)| ==> !Matches(lower, Rules(signal)[j])
    ensures |Statements(signal, lower)| == 2 && Contains(Statements(signal, lower)[0], lower)
  {
    StatementsTable(signal, lower);
    FirstMatchFallback(Rules(signal), lower, Fallback(signal, lower));
    var comment := if signal == LogsSignal then CustomLogComment
                   else if signal == TracesSignal then CustomSpanComment
                   else CustomMetricComment;
    ContainsMiddle(comment, lower, "");
    assert comment + lower + "" == Fallback(signal, lower)[0];
  }

  /** "Parse JSON" in any letter case selects the JSON statements for logs. */
  lemma ParseJsonAnyCase(operation: string, kw: string)
    requires Contains(operation, kw) && (ToLower(kw) == KwParseJson || ToLower(kw) == KwJsonParse)
    ensures Statements(LogsSignal, ToLower(operation)) == [MergeJson, SetParsed]
  {
    MatchesAnyCase(operation, kw, LogRules[0]);
    LogStatementsTable(ToLower(operation));
    FirstMatchTaken(LogRules, ToLower(operation), [CustomLogComment + ToLower(operation), SetCustomField], 0);
  }

  // ----- the transform processor configuration -----

  const TransformPrefix := "transform/"
  const TransformSuffix := "_transform"

  /** The processor's name for a signal. */
  function TransformName(signal: string): string {
    TransformPrefix + signal + TransformSuffix
  }

  const ProcessorsLine := "processors:\n"
  const EntryIndent := "  "
  const EntryEnd := ":\n"
  const ContextIndent := "    "
  const StatementsKey := "_statements:\n"
  const ContextKey := "      - context: "
  const NewLine := "\n"
  const StatementsLine := "        statements:\n"
  const StatementHead := "          - '"
  const StatementTail := "'\n"
  const ServiceLines := "\nservice:\n  pipelines:\n    "
  const PipelineProcessors := ":\n      processors: ["
  const PipelineEnd := "]\n"

  /** The opening of the processors section, naming the processor. */
  function ProcessorHead(signal: string): string {
    ProcessorsLine + EntryIndent + TransformName(signal) + EntryEnd
  }

  /** Everything before the statements: the processor, its context key and its context. */
  function ConfigHead(signal: string, context: string): string {
    ProcessorHead(signal) + ContextHead(context)
  }

  /** The statements key of the context and the context entry opening the list. */
  function ContextHead(context: string): string {
    ContextIndent + context + StatementsKey + ContextKey + context + NewLine + StatementsLine
  }

  /** One statement as a single-quoted list item. */
  function StatementLine(statement: string): string {
    StatementHead + statement + StatementTail
  }

  /** The pipeline section: the signal's pipeline runs the processor. */
  function ConfigTail(signal: string): string {
    ServiceLines + signal + PipelineProcessors + TransformName(signal) + PipelineEnd
  }

  /** `buildTransformConfig`'s text. */
  function TransformConfig(signal: string, context: string, statements: seq<string>): string {
    ConfigHead(signal, context) + Concat(statements, StatementLine) + ConfigTail(signal)
  }

  /**
   * The configuration starts by declaring processor `transform/<signal>_transform`,
   * lists every statement as its own quoted line, and ends with the signal's
   * pipeline running that processor.
   */
  lemma TransformConfigShape(signal: string, context: string, statements: seq<string>)
    ensures HasPrefix(TransformConfig(signal, context, statements), ProcessorHead(signal))
    ensures forall k :: 0 <= k < |statements| ==>
              Contains(TransformConfig(signal, context, statements), StatementLine(statements[k]))
    ensures Contains(TransformConfig(signal, context, statements), PipelineProcessors + TransformName(signal) + PipelineEnd)
  {
    var head := ConfigHead(signal, context);
    var lines := Concat(statements, StatementLine);
    var tail := ConfigTail(signal);
    assert ProcessorHead(signal)[..|ProcessorHead(signal)|] == ProcessorHead(signal);
    HasPrefixExtend(ProcessorHead(signal), ProcessorHead(signal), ContextHead(context));
    HasPrefixExtend(head, ProcessorHead(signal), lines);
    HasPrefixExtend(head + lines, ProcessorHead(signal), tail);
    forall k | 0 <= k < |statements| ensures Contains(head + lines + tail, StatementLine(statements[k])) {
      ConcatAt(statements, StatementLine, k);
      ContainsAfter(lines, StatementLine(statements[k]), head);
      ContainsBefore(head + lines, StatementLine(statements[k]), tail);
    }
    ContainsMiddle(ServiceLines + signal, PipelineProcessors + TransformName(signal) + PipelineEnd, "");
    assert ServiceLines + signal + (PipelineProcessors + TransformName(signal) + PipelineEnd) + "" == tail;
    ContainsAfter(tail, PipelineProcessors + TransformName(signal) + PipelineEnd, head + lines);
  }

  /** The statement lines follow the order of the statements, each written whole before the next. */
  lemma StatementLinesInOrder(signal: string, context: string, statements: seq<string>, i: nat, j: nat)
    requires i < j < |statements|
    ensures exists p: nat, q: nat :: p + |StatementLine(statements[i])| <= q
                                     && OccursAt(TransformConfig(signal, context, statements), StatementLine(statements[i]), p)
                                     && OccursAt(TransformConfig(signal, context, statements), StatementLine(statements[j]), q)
  {
    var head := ConfigHead(signal, context);
    var lines := Concat(statements, StatementLine);
    var tail := ConfigTail(signal);
    ConcatInOrder(statements, StatementLine, i, j);
    var p := |Concat(statements[..i], StatementLine)|;
    var q := |Concat(statements[..j], StatementLine)|;
    OccursExtend(lines, StatementLine(statements[i]), p, head, tail);
    OccursExtend(lines, StatementLine(statements[j]), q, head, tail);
    var config := TransformConfig(signal, context, statements);
    assert config == head + lines + tail;
    var p', q' := |head| + p, |head| + q;
    assert p' + |StatementLine(statements[i])| <= q'
           && OccursAt(config, StatementLine(statements[i]), p') && OccursAt(config, StatementLine(statements[j]), q');
  }

  /** `buildTransformConfig`, writing line by line. */
  method BuildTransformConfig(signal: string, context: string, statements: seq<string>) returns (text: string)
    ensures text == TransformConfig(signal, context, statements)
  {
    text := ProcessorsLine;
    text := text + EntryIndent + TransformName(signal) + EntryEnd;
    text := text + ContextIndent + context + StatementsKey;
    text := text + ContextKey + context + NewLine;
    text := text + StatementsLine;
    text := WriteEach(text, statements, StatementLine);
    text := text + ConfigTail(signal);
  }

  // ----- the skill -----

  /** `generateOTTL`'s result: the recommendation's fields and the configuration snippet. */
  datatype OttlResult = OttlResult(skill: string, signalType: string, operation: string,
                                   statements: seq<string>, context: string, configSnippet: string)

  /** `generateOTTL`: statements chosen on the lowered operation, the original operation reported. */
  method GenerateOttl(signalType: string, operation: string) returns (result: OttlResult)
    ensures result.skill == SkillName
    ensures result.signalType == signalType && result.operation == operation
    ensures result.context == SignalContext(signalType)
    ensures result.statements == Statements(signalType, ToLower(operation))
    ensures result.configSnippet == TransformConfig(signalType, SignalContext(signalType), result.statements)
    ensures result.context == "" <==> result.statements == []
  {
    var lower := ToLower(operation);
    var statements: seq<string> := [];
    var context := "";
    if signalType == LogsSignal {
      context := LogContext;
      statements := LogStatements(lower);
    } else if signalType == TracesSignal {
      context := SpanContext;
      statements := TraceStatements(lower);
    } else if signalType == MetricsSignal {
      context := DatapointContext;
      statements := MetricStatements(lower);
    }
    var config := BuildTransformConfig(signalType, context, statements);
    result := OttlResult(SkillName, signalType, operation, statements, context, config);
  }

  /** `OTTLSkill.Execute` up to the response: both arguments read as strings, empty when absent. */
  method Execute(args: map<string, Json>) returns (result: OttlResult)
    ensures result.signalType == StringArg(args, "signal_type") && result.operation == StringArg(args, "operation")
    ensures result.statements == Statements(StringArg(args, "signal_type"), ToLower(StringArg(args, "operation")))
    ensures result.skill == SkillName
    ensures result.context == SignalContext(StringArg(args, "signal_type"))
    ensures result.configSnippet == TransformConfig(StringArg(args, "signal_type"), result.context, result.statements)
  {
    result := GenerateOttl(StringArg(args, "signal_type"), StringArg(args, "operation"));
  }
}
