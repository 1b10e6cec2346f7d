/** The one-pass summary of a rollout: counts, token totals and duration. */
module RolloutFlow {
  import opened Seqs
  import opened Wrappers
  import opened Protocol

  datatype FlowSummary = FlowSummary(
    turns: nat,
    modelCalls: nat,
    toolCalls: nat,
    inputTokens: int,
    outputTokens: int,
    durationMs: int,
    usageExact: bool)

  /** A payload and the time of its line; 0 stands for a time that cannot be read. */
  datatype Stamped = Stamped(timestamp: int, payload: Payload)

  // ----- what each item weighs -----

  function Utf8Length(text: string): nat {
    if text == "" then 0
    else (if text[0] < 0x80 as char then 1 else if text[0] < 0x800 as char then 2
          else if text[0] < '\U{10000}' then 3 else 4) + Utf8Length(text[1..])
  }

  function EstimateTokens(text: string): nat {
    (Utf8Length(text) + 3) / 4
  }

  predicate IsUserMessage(p: Payload) {
    p.Item? && p.item.typ.Message? && p.item.role.User?
  }

  predicate IsAssistantMessage(p: Payload) {
    p.Item? && p.item.typ.Message? && p.item.role.Assistant?
  }

  predicate IsCall(p: Payload) {
    p.Item? && p.item.typ.FunctionCall?
  }

  predicate IsOutput(p: Payload) {
    p.Item? && p.item.typ.FunctionCallOutput?
  }

  function InputEstimate(p: Payload): int {
    if IsUserMessage(p) then EstimateTokens(Text(p.item))
    else if IsOutput(p) then EstimateTokens(p.item.output)
    else 0
  }

  function OutputEstimate(p: Payload): int {
    if IsAssistantMessage(p) then EstimateTokens(Text(p.item))
    else if IsCall(p) then EstimateTokens(p.item.arguments)
    else 0
  }

  /** The exact usage a payload reports, if it reports one. */
  function ReportedUsage(p: Payload): Option<Usage> {
    if p.Event? && p.msg.TurnComplete? && p.msg.completion.usage.Some? && p.msg.completion.usage.value.totalTokens > 0
    then p.msg.completion.usage else None
  }

  function Duration(p: Payload): int {
    if p.Event? && p.msg.TurnComplete? then p.msg.completion.durationMs else 0
  }

  // ----- the declarative summary -----

  function Sum(lines: seq<Stamped>, weight: Payload -> int): int {
    if lines == [] then 0
    else Sum(lines[..|lines| - 1], weight) + weight(lines[|lines| - 1].payload)
  }

  function Count(lines: seq<Stamped>, which: Payload -> bool): nat {
    if lines == [] then 0
    else Count(lines[..|lines| - 1], which) + (if which(lines[|lines| - 1].payload) then 1 else 0)
  }

  predicate AnyReported(lines: seq<Stamped>) {
    exists i :: 0 <= i < |lines| && ReportedUsage(lines[i].payload).Some?
  }

  function ExactInput(p: Payload): int {
    if ReportedUsage(p).Some? then ReportedUsage(p).value.inputTokens else 0
  }

  function ExactOutput(p: Payload): int {
    if ReportedUsage(p).Some? then ReportedUsage(p).value.outputTokens else 0
  }

  /** The first and last readable times of item lines; 0 when there are none. */
  function FirstTime(lines: seq<Stamped>): int {
    if lines == [] then 0
    else
      var before := FirstTime(lines[..|lines| - 1]);
      var last := lines[|lines| - 1];
      if before != 0 || !last.payload.Item? then before else last.timestamp
  }

  function LastTime(lines: seq<Stamped>): int {
    if lines == [] then 0
    else
      var last := lines[|lines| - 1];
      if last.payload.Item? && last.timestamp != 0 then last.timestamp else LastTime(lines[..|lines| - 1])
  }

  /** What the summary means: counts of items, exact token sums if any turn reported usage and
      sums of the estimates otherwise, the turns' durations or else the time span. */
  function Meaning(lines: seq<Stamped>): FlowSummary {
    var exact := AnyReported(lines);
    var durations := Sum(lines, Duration);
    var first, last := FirstTime(lines), LastTime(lines);
    FlowSummary(
      Count(lines, IsUserMessage),
      Count(lines, IsAssistantMessage) + Count(lines, IsCall),
      Count(lines, IsCall),
      if exact then Sum(lines, ExactInput) else Sum(lines, InputEstimate),
      if exact then Sum(lines, ExactOutput) else Sum(lines, OutputEstimate),
      if durations == 0 && first != 0 && last != 0 then last - first else durations,
      exact)
  }

  lemma SumStep(lines: seq<Stamped>, i: nat, weight: Payload -> int)
    requires i < |lines|
    ensures Sum(lines[..i + 1], weight) == Sum(lines[..i], weight) + weight(lines[i].payload)
  {
    assert lines[..i + 1][..i] == lines[..i];
  }

  lemma CountStep(lines: seq<Stamped>, i: nat, which: Payload -> bool)
    requires i < |lines|
    ensures Count(lines[..i + 1], which) == Count(lines[..i], which) + (if which(lines[i].payload) then 1 else 0)
  {
    assert lines[..i + 1][..i] == lines[..i];
  }

  lemma ReportedStep(lines: seq<Stamped>, i: nat)
    requires i < |lines|
    ensures AnyReported(lines[..i + 1]) <==> AnyReported(lines[..i]) || ReportedUsage(lines[i].payload).Some?
  {
    var a, b := lines[..i], lines[..i + 1];
    assert b[i] == lines[i];
    assert forall k :: 0 <= k < i ==> a[k] == b[k];
    if AnyReported(a) {
      var k :| 0 <= k < |a| && ReportedUsage(a[k].payload).Some?;
      assert ReportedUsage(b[k].payload).Some?;
    }
    if AnyReported(b) && !ReportedUsage(lines[i].payload).Some? {
      var k :| 0 <= k < |b| && ReportedUsage(b[k].payload).Some?;
      assert ReportedUsage(a[k].payload).Some?;
    }
  }

  lemma TimeStep(lines: seq<Stamped>, i: nat)
    requires i < |lines|
    ensures FirstTime(lines[..i + 1]) ==
      if FirstTime(lines[..i]) != 0 || !lines[i].payload.Item? then FirstTime(lines[..i]) else lines[i].timestamp
    ensures LastTime(lines[..i + 1]) ==
      if lines[i].payload.Item? && lines[i].timestamp != 0 then lines[i].timestamp else LastTime(lines[..i])
  {
    assert lines[..i + 1][..i] == lines[..i];
  }

  /** All totals of one more line at once. */
  lemma AllStep(lines: seq<Stamped>, i: nat)
    requires i < |lines|
    ensures var p := lines[i].payload;
      && Count(lines[..i + 1], IsUserMessage) == Count(lines[..i], IsUserMessage) + (if IsUserMessage(p) then 1 else 0)
      && Count(lines[..i + 1], IsAssistantMessage) == Count(lines[..i], IsAssistantMessage) + (if IsAssistantMessage(p) then 1 else 0)
      && Count(lines[..i + 1], IsCall) == Count(lines[..i], IsCall) + (if IsCall(p) then 1 else 0)
      && Sum(lines[..i + 1], InputEstimate) == Sum(lines[..i], InputEstimate) + InputEstimate(p)
      && Sum(lines[..i + 1], OutputEstimate) == Sum(lines[..i], OutputEstimate) + OutputEstimate(p)
      && Sum(lines[..i + 1], ExactInput) == Sum(lines[..i], ExactInput) + ExactInput(p)
      && Sum(lines[..i + 1], ExactOutput) == Sum(lines[..i], ExactOutput) + ExactOutput(p)
      && Sum(lines[..i + 1], Duration) == Sum(lines[..i], Duration) + Duration(p)
  {
    CountStep(lines, i, IsUserMessage);
    CountStep(lines, i, IsAssistantMessage);
    CountStep(lines, i, IsCall);
    SumStep(lines, i, InputEstimate);
    SumStep(lines, i, OutputEstimate);
    SumStep(lines, i, ExactInput);
    SumStep(lines, i, ExactOutput);
    SumStep(lines, i, Duration);
  }

  lemma {:induction false} NothingReported(lines: seq<Stamped>)
    requires !AnyReported(lines)
    ensures Sum(lines, ExactInput) == 0 && Sum(lines, ExactOutput) == 0
  {
    if lines != [] {
      ReportedStep(lines, |lines| - 1);
      assert lines[..|lines|] == lines;
      NothingReported(lines[..|lines| - 1]);
    }
  }

  method ReadRolloutFlow(lines: seq<Stamped>) returns (summary: FlowSummary)
    ensures summary == Meaning(lines)
  {
    hide Sum, Count, AnyReported, FirstTime, LastTime, EstimateTokens, Text;
    var exactUsage := false;
    var turns, modelCalls, toolCalls := 0, 0, 0;
    var inputTokens, outputTokens, durationMs := 0, 0, 0;
    var firstTime, lastTime := 0, 0;
    EmptyTotals(lines);
    for i := 0 to |lines|
      invariant turns == Count(lines[..i], IsUserMessage)
      invariant modelCalls == Count(lines[..i], IsAssistantMessage) + Count(lines[..i], IsCall)
      invariant toolCalls == Count(lines[..i], IsCall)
      invariant exactUsage == AnyReported(lines[..i])
      invariant inputTokens == if exactUsage then Sum(lines[..i], ExactInput) else Sum(lines[..i], InputEstimate)
      invariant outputTokens == if exactUsage then Sum(lines[..i], ExactOutput) else Sum(lines[..i], OutputEstimate)
      invariant durationMs == Sum(lines[..i], Duration)
      invariant firstTime == FirstTime(lines[..i]) && lastTime == LastTime(lines[..i])
    {
      var p := lines[i].payload;
      AllStep(lines, i);
      ReportedStep(lines, i);
      TimeStep(lines, i);
      if p.Event? && p.msg.TurnComplete? {
        durationMs := durationMs + p.msg.completion.durationMs;
        var usage := p.msg.completion.usage;
        if usage.Some? && usage.value.totalTokens > 0 {
          if !exactUsage {
            NothingReported(lines[..i]);
            inputTokens, outputTokens, exactUsage := 0, 0, true;
          }
          inputTokens := inputTokens + usage.value.inputTokens;
          outputTokens := outputTokens + usage.value.outputTokens;
        }
      }
      if !p.Item? {
        continue;
      }
      var item := p.item;
      if firstTime == 0 && lines[i].timestamp != 0 {
        firstTime := lines[i].timestamp;
      }
      if lines[i].timestamp != 0 {
        lastTime := lines[i].timestamp;
      }
      match item.typ
      case Message =>
        if item.role.User? {
          turns := turns + 1;
          if !exactUsage {
            inputTokens := inputTokens + EstimateTokens(Text(item));
          }
        } else if item.role.Assistant? {
          modelCalls := modelCalls + 1;
          if !exactUsage {
            outputTokens := outputTokens + EstimateTokens(Text(item));
          }
        }
      case FunctionCall =>
        modelCalls := modelCalls + 1;
        toolCalls := toolCalls + 1;
        if !exactUsage {
          outputTokens := outputTokens + EstimateTokens(item.arguments);
        }
      case FunctionCallOutput =>
        if !exactUsage {
          inputTokens := inputTokens + EstimateTokens(item.output);
        }
      case _ =>
    }
    assert lines[..|lines|] == lines;
    if durationMs == 0 && firstTime != 0 && lastTime != 0 {
      durationMs := lastTime - firstTime;
    }
    return FlowSummary(turns, modelCalls, toolCalls, inputTokens, outputTokens, durationMs, exactUsage);
  }

  lemma EmptyTotals(lines: seq<Stamped>)
    ensures lines[..0] == []
    ensures Count([], IsUserMessage) == Count([], IsAssistantMessage) == Count([], IsCall) == 0
    ensures Sum([], InputEstimate) == Sum([], OutputEstimate) == Sum([], ExactInput) == Sum([], ExactOutput) == 0
    ensures Sum([], Duration) == 0 && !AnyReported([]) && FirstTime([]) == 0 && LastTime([]) == 0
  {
  }

  /** A log that continues another one adds its counts and durations to it, and mixes token
      totals only of the same kind. */
  lemma {:induction false} SumAppend(a: seq<Stamped>, b: seq<Stamped>, weight: Payload -> int)
    ensures Sum(a + b, weight) == Sum(a, weight) + Sum(b, weight)
    decreases |b|
  {
    if b == [] {
      EmptyUnit(a);
    } else {
      assert (a + b)[..|a + b| - 1] == a + b[..|b| - 1];
      SumAppend(a, b[..|b| - 1], weight);
    }
  }

  lemma AnyReportedAppend(a: seq<Stamped>, b: seq<Stamped>)
    ensures AnyReported(a + b) <==> AnyReported(a) || AnyReported(b)
  {
    if AnyReported(a) {
      var k :| 0 <= k < |a| && ReportedUsage(a[k].payload).Some?;
      assert (a + b)[k] == a[k];
    }
    if AnyReported(b) {
      var k :| 0 <= k < |b| && ReportedUsage(b[k].payload).Some?;
      assert (a + b)[|a| + k] == b[k];
    }
    if AnyReported(a + b) && !AnyReported(a) {
      var k :| 0 <= k < |a + b| && ReportedUsage((a + b)[k].payload).Some?;
      assert forall i :: 0 <= i < |a| ==> (a + b)[i] == a[i];
      assert b[k - |a|] == (a + b)[k];
    }
  }

  /** Resuming a thread: once either part of the log has exact usage, the totals of the whole
      are the exact sums of both parts, and the estimates of neither. */
  lemma ResumedTotals(a: seq<Stamped>, b: seq<Stamped>)
    requires AnyReported(a) || AnyReported(b)
    ensures Meaning(a + b).inputTokens == Sum(a, ExactInput) + Sum(b, ExactInput)
    ensures Meaning(a + b).outputTokens == Sum(a, ExactOutput) + Sum(b, ExactOutput)
  {
    AnyReportedAppend(a, b);
    SumAppend(a, b, ExactInput);
    SumAppend(a, b, ExactOutput);
  }

  // ----- what the totals stand for -----

  /** Estimates are a quarter of the bytes, rounded up. */
  lemma EstimateIsCeiling(text: string)
    ensures 4 * EstimateTokens(text) - 4 < Utf8Length(text) <= 4 * EstimateTokens(text)
  {
  }

  /** The bytes of a text are those of its characters, one to four each. */
  lemma {:induction false} BytesOfText(a: string, c: char, b: string)
    ensures Utf8Length("") == 0
    ensures Utf8Length(a + [c] + b) == Utf8Length(a) + Utf8Length(b) +
      (var code := c as int; if code <= 0x7F then 1 else if code <= 0x7FF then 2 else if code <= 0xFFFF then 3 else 4)
    decreases |a|
  {
    var text := a + [c] + b;
    if a == "" {
      assert text[1..] == b;
    } else {
      assert text[1..] == a[1..] + [c] + b;
      BytesOfText(a[1..], c, b);
    }
  }

  /** How one more line changes the summary. */
  lemma FlowGrows(lines: seq<Stamped>, line: Stamped)
    ensures var m, n, p := Meaning(lines), Meaning(lines + [line]), line.payload;
      var said := if p.Item? && p.item.typ == Message then p.item.role else NoRole;
      var usage := if p.Event? && p.msg.TurnComplete? then p.msg.completion.usage else None;
      var reports := usage.Some? && usage.value.totalTokens > 0;
      && n.turns == m.turns + (if said == User then 1 else 0)
      && n.toolCalls == m.toolCalls + (if p.Item? && p.item.typ == FunctionCall then 1 else 0)
      && n.modelCalls - n.toolCalls == m.modelCalls - m.toolCalls + (if said == Assistant then 1 else 0)
      && (n.usageExact <==> m.usageExact || reports)
      && (!n.usageExact ==>
          && n.inputTokens == m.inputTokens +
               (if said == User then EstimateTokens(Text(p.item))
                else if p.Item? && p.item.typ == FunctionCallOutput then EstimateTokens(p.item.output) else 0)
          && n.outputTokens == m.outputTokens +
               (if said == Assistant then EstimateTokens(Text(p.item))
                else if p.Item? && p.item.typ == FunctionCall then EstimateTokens(p.item.arguments) else 0))
      && (n.usageExact ==>
          && n.inputTokens == (if m.usageExact then m.inputTokens else 0) + (if reports then usage.value.inputTokens else 0)
          && n.outputTokens == (if m.usageExact then m.outputTokens else 0) + (if reports then usage.value.outputTokens else 0))
  {
    hide Sum, Count, AnyReported, FirstTime, LastTime, EstimateTokens, Text, Duration;
    var more, i := lines + [line], |lines|;
    assert more[..i] == lines && more[..i + 1] == more;
    AllStep(more, i);
    ReportedStep(more, i);
    if !AnyReported(lines) {
      NothingReported(lines);
    }
  }

  /** The duration is the sum of what the completed turns report; if that is nothing, it is the
      time from the first to the last item with a readable time. */
  lemma DurationOfFlow(lines: seq<Stamped>, first: nat, last: nat)
    requires first <= last < |lines|
    requires lines[first].payload.Item? && lines[first].timestamp != 0 && lines[last].payload.Item? && lines[last].timestamp != 0
    requires forall i :: 0 <= i < |lines| && (i < first || last < i) ==> !lines[i].payload.Item? || lines[i].timestamp == 0
    ensures FirstTime(lines) == lines[first].timestamp && LastTime(lines) == lines[last].timestamp
    ensures Sum(lines, Duration) == 0 ==> Meaning(lines).durationMs == lines[last].timestamp - lines[first].timestamp
    ensures Sum(lines, Duration) != 0 ==> Meaning(lines).durationMs == Sum(lines, Duration)
  {
    hide Sum, Count, AnyReported;
    FirstTimeAt(lines, first);
    LastTimeAt(lines, last);
  }

  lemma {:induction false} FirstTimeAt(lines: seq<Stamped>, first: nat)
    requires first < |lines| && lines[first].payload.Item? && lines[first].timestamp != 0
    requires forall i :: 0 <= i < first ==> !lines[i].payload.Item? || lines[i].timestamp == 0
    ensures FirstTime(lines) == lines[first].timestamp
  {
    var n := |lines| - 1;
    if first < n {
      FirstTimeAt(lines[..n], first);
    } else {
      NoTime(lines[..n]);
    }
  }

  lemma {:induction false} NoTime(lines: seq<Stamped>)
    requires forall i :: 0 <= i < |lines| ==> !lines[i].payload.Item? || lines[i].timestamp == 0
    ensures FirstTime(lines) == 0
  {
    if lines != [] {
      NoTime(lines[..|lines| - 1]);
    }
  }

  lemma {:induction false} LastTimeAt(lines: seq<Stamped>, last: nat)
    requires last < |lines| && lines[last].payload.Item? && lines[last].timestamp != 0
    requires forall i :: last < i < |lines| ==> !lines[i].payload.Item? || lines[i].timestamp == 0
    ensures LastTime(lines) == lines[last].timestamp
  {
    if last < |lines| - 1 {
      LastTimeAt(lines[..|lines| - 1], last);
    }
  }

  /** Only completed turns count towards the duration, each with what it reports. */
  lemma DurationReported(lines: seq<Stamped>, line: Stamped)
    ensures Sum(lines + [line], Duration) == Sum(lines, Duration) +
      (if line.payload.Event? && line.payload.msg.TurnComplete? then line.payload.msg.completion.durationMs else 0)
    ensures Sum([], Duration) == 0
  {
    assert (lines + [line])[..|lines|] == lines;
  }
}
