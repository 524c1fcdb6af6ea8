/**
 * The tool loop of agent/src/core/autonomousAgent.ts and its translation to and from Anthropic messages
 * (agent/src/clients/http/anthropicResponsesClient.ts). JSON values are their canonical text.
 */
module Conversation {
  import opened Prelude

  type Json = s: string | s != [] witness "{}"

  // === Items of the conversation ===

  datatype Item =
    | UserInput(content: seq<string>)
    | Message(content: seq<string>)
    | FunctionCall(callId: string, name: string, arguments: string)
    | FunctionCallOutput(callId: string, output: string)

  /** One content block of a model reply; kinds the adapter does not know have no text. */
  datatype ReplyBlock =
    | ReplyText(text: Option<string>)
    | ReplyToolUse(id: Option<string>, name: Option<string>, input: Option<Json>)
    | ReplyOther

  datatype Response = Response(output: seq<Item>, outputText: Option<string>)

  /** `String(value)` of a possibly absent string. */
  function StringOf(s: Option<string>): string { if s.Some? then s.value else "undefined" }

  function OrEmptyObject(j: Option<Json>): Json { if j.Some? then j.value else "{}" }

  function OutputItem(b: ReplyBlock): seq<Item> {
    match b
    case ReplyText(text) => if text.Some? then [Message([text.value])] else []
    case ReplyToolUse(id, name, input) => [FunctionCall(StringOf(id), StringOf(name), OrEmptyObject(input))]
    case ReplyOther => []
  }

  function TextItem(b: ReplyBlock): string { if b.ReplyText? && b.text.Some? then b.text.value else [] }

  function OutputOf(reply: seq<ReplyBlock>): seq<Item> { FlatMap(reply, OutputItem) }

  function TextOfReply(reply: seq<ReplyBlock>): string { FlatMap(reply, TextItem) }

  function ResponseTo(reply: seq<ReplyBlock>): Response {
    Response(OutputOf(reply), if TextOfReply(reply) == [] then None else Some(TextOfReply(reply)))
  }

  method ToOpenAIResponse(reply: seq<ReplyBlock>) returns (response: Response)
    ensures response == ResponseTo(reply)
  {
    var output: seq<Item> := [];
    var text: string := "";
    for i := 0 to |reply|
      invariant output == OutputOf(reply[..i]) && text == TextOfReply(reply[..i])
    {
      assert reply[..i + 1][..i] == reply[..i];
      match reply[i] {
        case ReplyText(t) =>
          if t.Some? {
            text := text + t.value;
            output := output + [Message([t.value])];
          }
        case ReplyToolUse(id, name, input) =>
          output := output + [FunctionCall(StringOf(id), StringOf(name), OrEmptyObject(input))];
        case ReplyOther =>
      }
    }
    assert reply[..|reply|] == reply;
    return Response(output, if text == "" then None else Some(text));
  }

  // === Messages ===

  datatype Role = User | Assistant

  datatype Block =
    | Text(text: string)
    | ToolUse(id: string, name: string, input: Json)
    | ToolResult(toolUseId: string, content: string)

  datatype AnthropicMessage = AnthropicMessage(role: Role, content: seq<Block>)

  /** A block and who says it. */
  datatype Said = Said(role: Role, block: Block)

  function TextOf(content: seq<string>): string {
    if content == [] then [] else content[0] + TextOf(content[1..])
  }

  function SafeParse(s: string): Json { if s == [] then "{}" else s }

  /** What one item contributes: nothing for an assistant message without text. */
  function SaidBy(item: Item): seq<Said> {
    match item
    case FunctionCall(callId, name, arguments) => [Said(Assistant, ToolUse(callId, name, SafeParse(arguments)))]
    case FunctionCallOutput(callId, output) => [Said(User, ToolResult(callId, output))]
    case Message(content) => if TextOf(content) == [] then [] else [Said(Assistant, Text(TextOf(content)))]
    case UserInput(content) => [Said(User, Text(TextOf(content)))]
  }

  function AllSaid(input: seq<Item>): seq<Said> { FlatMap(input, SaidBy) }

  /** The source's `push`: onto the last message when the role is the same, else a new message. */
  function Push(out: seq<AnthropicMessage>, s: Said): (r: seq<AnthropicMessage>)
    ensures r != []
  {
    if out != [] && out[|out| - 1].role == s.role then
      out[|out| - 1 := out[|out| - 1].(content := out[|out| - 1].content + [s.block])]
    else out + [AnthropicMessage(s.role, [s.block])]
  }

  function PushAll(out: seq<AnthropicMessage>, ss: seq<Said>): seq<AnthropicMessage> {
    if ss == [] then out else Push(PushAll(out, ss[..|ss| - 1]), ss[|ss| - 1])
  }

  function Translate(input: seq<Item>): seq<AnthropicMessage> { PushAll([], AllSaid(input)) }

  method ToAnthropicMessages(input: seq<Item>) returns (out: seq<AnthropicMessage>)
    ensures out == Translate(input)
  {
    out := [];
    for i := 0 to |input|
      invariant out == Translate(input[..i])
    {
      var item := input[i];
      assert input[..i + 1][..i] == input[..i];
      PushAllAppend([], AllSaid(input[..i]), SaidBy(item));
      match item {
        case FunctionCall(callId, name, arguments) =>
          out := Push(out, Said(Assistant, ToolUse(callId, name, SafeParse(arguments))));
        case FunctionCallOutput(callId, output) =>
          out := Push(out, Said(User, ToolResult(callId, output)));
        case Message(content) =>
          var text := TextOf(content);
          if text != "" {
            out := Push(out, Said(Assistant, Text(text)));
          }
        case UserInput(content) =>
          out := Push(out, Said(User, Text(TextOf(content))));
      }
    }
    assert input[..|input|] == input;
  }

  lemma {:induction false} PushAllAppend(out: seq<AnthropicMessage>, a: seq<Said>, b: seq<Said>)
    ensures PushAll(out, a + b) == PushAll(PushAll(out, a), b)
    decreases |b|
  {
    if b == [] {
      assert a + b == a;
    } else {
      PushAllAppend(out, a, b[..|b| - 1]);
      assert (a + b)[..|a + b| - 1] == a + b[..|b| - 1];
    }
  }

  lemma AllSaidAppend(a: seq<Item>, b: seq<Item>)
    ensures AllSaid(a + b) == AllSaid(a) + AllSaid(b)
  {
    FlatMapAppend(a, b, SaidBy);
  }

  // === Grouping ===

  /** Neighbours have different roles and no message is empty. */
  predicate Alternates(ms: seq<AnthropicMessage>) {
    && (forall i :: 0 <= i < |ms| ==> ms[i].content != [])
    && forall i :: 0 < i < |ms| ==> ms[i - 1].role != ms[i].role
  }

  function SaidIn(m: AnthropicMessage): (r: seq<Said>)
    ensures |r| == |m.content|
  {
    seq(|m.content|, i requires 0 <= i < |m.content| => Said(m.role, m.content[i]))
  }

  /** The messages read block by block. */
  function Unfold(ms: seq<AnthropicMessage>): seq<Said> {
    if ms == [] then [] else Unfold(ms[..|ms| - 1]) + SaidIn(ms[|ms| - 1])
  }

  lemma PushGroups(out: seq<AnthropicMessage>, s: Said)
    requires Alternates(out)
    ensures Alternates(Push(out, s)) && Unfold(Push(out, s)) == Unfold(out) + [s]
  {
    var r := Push(out, s);
    if out != [] && out[|out| - 1].role == s.role {
      var last := out[|out| - 1];
      assert r[..|r| - 1] == out[..|out| - 1];
      assert SaidIn(r[|r| - 1]) == SaidIn(last) + [s];
    } else {
      assert r[..|r| - 1] == out;
      assert SaidIn(r[|r| - 1]) == [s];
    }
  }

  /** For any input: roles alternate, and block by block nothing is lost, added or moved. */
  lemma {:induction false} PushAllGroups(ss: seq<Said>)
    ensures Alternates(PushAll([], ss)) && Unfold(PushAll([], ss)) == ss
    decreases |ss|
  {
    if ss != [] {
      PushAllGroups(ss[..|ss| - 1]);
      PushGroups(PushAll([], ss[..|ss| - 1]), ss[|ss| - 1]);
    }
  }

  lemma {:induction false} PushSame(out: seq<AnthropicMessage>, role: Role, blocks: seq<Block>)
    requires blocks != [] && (out == [] || out[|out| - 1].role != role)
    ensures PushAll(out, SaidIn(AnthropicMessage(role, blocks))) == out + [AnthropicMessage(role, blocks)]
    decreases |blocks|
  {
    var n := |blocks| - 1;
    var ss := SaidIn(AnthropicMessage(role, blocks));
    if n == 0 {
      assert ss[..0] == [];
      assert PushAll(out, ss[..0]) == out;
      assert blocks == [blocks[0]];
    } else {
      PushSame(out, role, blocks[..n]);
      assert ss[..n] == SaidIn(AnthropicMessage(role, blocks[..n]));
      assert blocks == blocks[..n] + [blocks[n]];
    }
  }

  /** Alternating messages are determined by their blocks: grouping has exactly one answer. */
  lemma {:induction false} GroupingIsUnique(ms: seq<AnthropicMessage>)
    requires Alternates(ms)
    ensures PushAll([], Unfold(ms)) == ms
    decreases |ms|
  {
    if ms != [] {
      var front, last := ms[..|ms| - 1], ms[|ms| - 1];
      GroupingIsUnique(front);
      PushAllAppend([], Unfold(front), SaidIn(last));
      PushSame(front, last.role, last.content);
      assert ms == front + [last];
    }
  }

  /** `Translate` against the reference: the only alternating messages that say what the items say. */
  lemma TranslationIsTheGrouping(input: seq<Item>, ms: seq<AnthropicMessage>)
    ensures ms == Translate(input) <==> Alternates(ms) && Unfold(ms) == AllSaid(input)
  {
    PushAllGroups(AllSaid(input));
    if Alternates(ms) && Unfold(ms) == AllSaid(input) { GroupingIsUnique(ms); }
  }

  // === The tool loop ===

  function CallIn(item: Item): seq<Item> { if item.FunctionCall? then [item] else [] }

  function CallsOf(output: seq<Item>): seq<Item> { FlatMap(output, CallIn) }

  lemma {:induction false} CallsAreCalls(output: seq<Item>)
    ensures forall c :: c in CallsOf(output) ==> c.FunctionCall?
    decreases |output|
  {
    if output != [] { CallsAreCalls(output[..|output| - 1]); }
  }

  /** The model's reply to a conversation in a round, and what the tool call at an index of a round returns. */
  type Model = (nat, seq<Item>) -> seq<ReplyBlock>
  type Tools = (nat, nat, Item) -> string

  function ResultOf(tools: Tools, round: nat, index: nat, call: Item): Item
    requires call.FunctionCall?
  {
    FunctionCallOutput(call.callId, tools(round, index, call))
  }

  function ResultsOf(tools: Tools, round: nat, calls: seq<Item>): (r: seq<Item>)
    requires forall c :: c in calls ==> c.FunctionCall?
    ensures |r| == |calls| && forall i :: 0 <= i < |r| ==> r[i] == ResultOf(tools, round, i, calls[i])
  {
    seq(|calls|, i requires 0 <= i < |calls| => ResultOf(tools, round, i, calls[i]))
  }

  function NextConversation(tools: Tools, round: nat, conversation: seq<Item>, output: seq<Item>): seq<Item> {
    CallsAreCalls(output);
    conversation + output + ResultsOf(tools, round, CallsOf(output))
  }

  /** The conversation sent in the `n`-th round, if the loop gets that far. */
  function Sent(prompt: seq<string>, model: Model, tools: Tools, n: nat): seq<Item>
    decreases n, 0
  {
    if n == 0 then [UserInput(prompt)]
    else NextConversation(tools, n - 1, Sent(prompt, model, tools, n - 1), OutputIn(prompt, model, tools, n - 1))
  }

  function ReplyIn(prompt: seq<string>, model: Model, tools: Tools, n: nat): seq<ReplyBlock>
    decreases n, 1
  {
    model(n, Sent(prompt, model, tools, n))
  }

  function OutputIn(prompt: seq<string>, model: Model, tools: Tools, n: nat): seq<Item>
    decreases n, 2
  {
    OutputOf(ReplyIn(prompt, model, tools, n))
  }

  /** Each of the first `n` replies calls a tool. */
  predicate Continues(prompt: seq<string>, model: Model, tools: Tools, n: nat) {
    n == 0 || (CallsOf(OutputIn(prompt, model, tools, n - 1)) != [] && Continues(prompt, model, tools, n - 1))
  }

  lemma {:induction false} ContinuesAt(prompt: seq<string>, model: Model, tools: Tools, n: nat, k: nat)
    requires Continues(prompt, model, tools, n) && k < n
    ensures Continues(prompt, model, tools, k) && CallsOf(OutputIn(prompt, model, tools, k)) != []
    decreases n
  {
    if k < n - 1 { ContinuesAt(prompt, model, tools, n - 1, k); }
  }

  lemma SentStep(prompt: seq<string>, model: Model, tools: Tools, n: nat, output: seq<Item>)
    requires output == OutputIn(prompt, model, tools, n) && forall c :: c in CallsOf(output) ==> c.FunctionCall?
    ensures Sent(prompt, model, tools, n + 1)
         == Sent(prompt, model, tools, n) + output + ResultsOf(tools, n, CallsOf(output))
  {
  }

  // === What the run reports ===

  function Join(content: seq<string>): string {
    if content == [] then [] else if |content| == 1 then content[0] else content[0] + "\n" + Join(content[1..])
  }

  /** The text of the first message, empty when there is none: never absent. */
  function ExtractOutputText(response: Option<Response>): string {
    if response.None? then []
    else
      var output := response.value.output;
      var k := FindIndex(output, (item: Item) => item.Message?);
      if k == |output| then [] else Join(output[k].content)
  }

  function Report(response: Option<Response>): string {
    if response.Some? && response.value.outputText.Some? then response.value.outputText.value
    else ExtractOutputText(response)
  }

  lemma {:induction false} NoTextNoMessages(reply: seq<ReplyBlock>)
    requires TextOfReply(reply) == []
    ensures forall item :: item in OutputOf(reply) && item.Message? ==> item.content == [[]]
    decreases |reply|
  {
    if reply != [] {
      var front, last := reply[..|reply| - 1], reply[|reply| - 1];
      assert TextOfReply(reply) == TextOfReply(front) + TextItem(last);
      NoTextNoMessages(front);
      assert OutputOf(reply) == OutputOf(front) + OutputItem(last);
    }
  }

  /**
   * The report is the whole text of the last reply, empty if it has none or if there was no round at all; the
   * sentence about the used-up rounds that the source keeps for a missing text is never reported.
   */
  lemma ReportIsTheText(reply: seq<ReplyBlock>)
    ensures Report(Some(ResponseTo(reply))) == TextOfReply(reply) && Report(None) == []
  {
    if TextOfReply(reply) == [] {
      NoTextNoMessages(reply);
      var output := OutputOf(reply);
      var isMessage := (item: Item) => item.Message?;
      var k := FindIndex(output, isMessage);
      if k < |output| { assert isMessage(output[k]) && output[k] in output; }
    }
  }

  /**
   * The loop: it ends at the first reply without a tool call, or when the rounds are used up. `rounds` counts
   * the replies answered with tool results.
   */
  method RunToolLoop(prompt: seq<string>, model: Model, tools: Tools, maxToolRounds: nat)
    returns (rounds: nat, conversation: seq<Item>, finalResponse: Option<Response>, outputText: string)
    ensures rounds <= maxToolRounds && Continues(prompt, model, tools, rounds)
    ensures conversation == Sent(prompt, model, tools, rounds)
    ensures rounds < maxToolRounds ==> CallsOf(OutputIn(prompt, model, tools, rounds)) == []
    ensures finalResponse ==
      if rounds < maxToolRounds then Some(ResponseTo(ReplyIn(prompt, model, tools, rounds)))
      else if rounds == 0 then None
      else Some(ResponseTo(ReplyIn(prompt, model, tools, rounds - 1)))
    ensures outputText == Report(finalResponse)
  {
    conversation := [UserInput(prompt)];
    finalResponse := None;
    for round := 0 to maxToolRounds
      invariant conversation == Sent(prompt, model, tools, round) && Continues(prompt, model, tools, round)
      invariant finalResponse ==
        if round == 0 then None else Some(ResponseTo(ReplyIn(prompt, model, tools, round - 1)))
    {
      var response := ToOpenAIResponse(model(round, conversation));
      finalResponse := Some(response);
      var toolCalls := CallsOf(response.output);
      if toolCalls == [] {
        rounds := round;
        outputText := Report(finalResponse);
        return;
      }
      CallsAreCalls(response.output);
      SentStep(prompt, model, tools, round, response.output);
      conversation := conversation + response.output + ResultsOf(tools, round, toolCalls);
    }
    rounds := maxToolRounds;
    outputText := Report(finalResponse);
  }

  // === The whole conversation, translated ===

  function EchoBlock(b: ReplyBlock): seq<Block> {
    match b
    case ReplyText(text) => if text.None? || text.value == [] then [] else [Text(text.value)]
    case ReplyToolUse(id, name, input) => [ToolUse(StringOf(id), StringOf(name), OrEmptyObject(input))]
    case ReplyOther => []
  }

  /** The blocks of a reply that survive: tool uses and text that is not empty. */
  function Echo(reply: seq<ReplyBlock>): seq<Block> { FlatMap(reply, EchoBlock) }

  function UseIn(b: Block): seq<Block> { if b.ToolUse? then [b] else [] }

  function Uses(blocks: seq<Block>): seq<Block> { FlatMap(blocks, UseIn) }

  /** One tool result for each call, with the call's id. */
  function ResultBlocks(tools: Tools, round: nat, calls: seq<Item>): (r: seq<Block>)
    requires forall c :: c in calls ==> c.FunctionCall?
    ensures |r| == |calls|
    ensures forall i :: 0 <= i < |r| ==> r[i] == ToolResult(calls[i].callId, tools(round, i, calls[i]))
  {
    seq(|calls|, i requires 0 <= i < |calls| => ToolResult(calls[i].callId, tools(round, i, calls[i])))
  }

  lemma SaidInAppend(role: Role, a: seq<Block>, b: seq<Block>)
    ensures SaidIn(AnthropicMessage(role, a + b))
         == SaidIn(AnthropicMessage(role, a)) + SaidIn(AnthropicMessage(role, b))
  {
  }

  lemma EchoBlockSaid(b: ReplyBlock)
    ensures AllSaid(OutputItem(b)) == SaidIn(AnthropicMessage(Assistant, EchoBlock(b)))
  {
    match b
    case ReplyText(text) =>
      if text.Some? { AllSaidOne(Message([text.value])); }
    case ReplyToolUse(id, name, input) =>
      AllSaidOne(FunctionCall(StringOf(id), StringOf(name), OrEmptyObject(input)));
    case ReplyOther =>
  }

  lemma AllSaidOne(item: Item)
    ensures AllSaid([item]) == SaidBy(item)
    ensures item.Message? && |item.content| == 1 ==> TextOf(item.content) == item.content[0]
  {
    FlatMapOne(item, SaidBy);
  }

  lemma {:induction false} EchoSaid(reply: seq<ReplyBlock>)
    ensures AllSaid(OutputOf(reply)) == SaidIn(AnthropicMessage(Assistant, Echo(reply)))
    decreases |reply|
  {
    if reply != [] {
      var front, last := reply[..|reply| - 1], reply[|reply| - 1];
      EchoSaid(front);
      EchoBlockSaid(last);
      AllSaidAppend(OutputOf(front), OutputItem(last));
      SaidInAppend(Assistant, Echo(front), EchoBlock(last));
    }
  }

  lemma {:induction false} ResultsSaid(tools: Tools, round: nat, calls: seq<Item>)
    requires forall c :: c in calls ==> c.FunctionCall?
    ensures AllSaid(ResultsOf(tools, round, calls))
         == SaidIn(AnthropicMessage(User, ResultBlocks(tools, round, calls)))
    decreases |calls|
  {
    if calls != [] {
      var front := calls[..|calls| - 1];
      ResultsSaid(tools, round, front);
      assert ResultsOf(tools, round, calls)[..|calls| - 1] == ResultsOf(tools, round, front);
    }
  }

  /** Tool uses and calls with the same ids in the same order. */
  predicate Paired(uses: seq<Block>, calls: seq<Item>) {
    && |uses| == |calls|
    && forall i :: 0 <= i < |uses| ==>
         uses[i].ToolUse? && calls[i].FunctionCall? && uses[i].id == calls[i].callId
  }

  lemma BlockPaired(b: ReplyBlock)
    ensures Paired(Uses(EchoBlock(b)), CallsOf(OutputItem(b)))
  {
    match b
    case ReplyText(text) =>
      if text.Some? {
        FlatMapOne(Text(text.value), UseIn);
        FlatMapOne(Message([text.value]), CallIn);
      }
    case ReplyToolUse(id, name, input) =>
      FlatMapOne(ToolUse(StringOf(id), StringOf(name), OrEmptyObject(input)), UseIn);
      FlatMapOne(FunctionCall(StringOf(id), StringOf(name), OrEmptyObject(input)), CallIn);
    case ReplyOther =>
  }

  /** The ids of the tool uses of a reply are, in order, the ids of the calls that are executed. */
  lemma {:induction false} UsesAreCalls(reply: seq<ReplyBlock>)
    ensures Paired(Uses(Echo(reply)), CallsOf(OutputOf(reply)))
    decreases |reply|
  {
    if reply != [] {
      var front, last := reply[..|reply| - 1], reply[|reply| - 1];
      UsesAreCalls(front);
      BlockPaired(last);
      FlatMapAppend(Echo(front), EchoBlock(last), UseIn);
      FlatMapAppend(OutputOf(front), OutputItem(last), CallIn);
    }
  }

  /** The two messages a round adds. */
  function RoundMessages(prompt: seq<string>, model: Model, tools: Tools, k: nat): seq<AnthropicMessage> {
    CallsAreCalls(OutputIn(prompt, model, tools, k));
    [ AnthropicMessage(Assistant, Echo(ReplyIn(prompt, model, tools, k))),
      AnthropicMessage(User, ResultBlocks(tools, k, CallsOf(OutputIn(prompt, model, tools, k)))) ]
  }

  function Dialogue(prompt: seq<string>, model: Model, tools: Tools, n: nat): (r: seq<AnthropicMessage>)
    ensures |r| == 2 * n + 1 && r[2 * n].role == User
  {
    if n == 0 then [AnthropicMessage(User, [Text(TextOf(prompt))])]
    else Dialogue(prompt, model, tools, n - 1) + RoundMessages(prompt, model, tools, n - 1)
  }

  /** A reply with a call has a tool use among its blocks. */
  lemma CallingReplyEchoes(reply: seq<ReplyBlock>)
    requires CallsOf(OutputOf(reply)) != []
    ensures Echo(reply) != []
  {
    UsesAreCalls(reply);
  }

  /** Items that all say something in one role add one message, when the last message is of the other role. */
  lemma OneMessage(conversation: seq<Item>, items: seq<Item>, m: AnthropicMessage)
    requires AllSaid(items) == SaidIn(m) && m.content != []
    requires var out := Translate(conversation); out == [] || out[|out| - 1].role != m.role
    ensures Translate(conversation + items) == Translate(conversation) + [m]
  {
    AllSaidAppend(conversation, items);
    PushAllAppend([], AllSaid(conversation), SaidIn(m));
    PushSame(Translate(conversation), m.role, m.content);
  }

  lemma RoundTranslated(conversation: seq<Item>, reply: seq<ReplyBlock>, results: seq<Item>, m: AnthropicMessage)
    requires var out := Translate(conversation); out != [] && out[|out| - 1].role == User
    requires CallsOf(OutputOf(reply)) != []
    requires m.role == User && m.content != [] && AllSaid(results) == SaidIn(m)
    ensures Translate(conversation + OutputOf(reply) + results)
         == Translate(conversation) + [AnthropicMessage(Assistant, Echo(reply)), m]
  {
    EchoSaid(reply);
    CallingReplyEchoes(reply);
    OneMessage(conversation, OutputOf(reply), AnthropicMessage(Assistant, Echo(reply)));
    OneMessage(conversation + OutputOf(reply), results, m);
  }

  predicate TranslatesToDialogue(prompt: seq<string>, model: Model, tools: Tools, n: nat) {
    Translate(Sent(prompt, model, tools, n)) == Dialogue(prompt, model, tools, n)
  }

  /**
   * The conversation sent in round `n`, translated: the prompt, then for each round so far the model's own
   * blocks (empty text aside) and one tool result per tool use.
   */
  lemma {:induction false} WholeConversation(prompt: seq<string>, model: Model, tools: Tools, n: nat)
    requires Continues(prompt, model, tools, n)
    ensures TranslatesToDialogue(prompt, model, tools, n)
    decreases n
  {
    if n == 0 {
      PromptTranslated(prompt);
    } else {
      WholeConversation(prompt, model, tools, n - 1);
      RoundAdds(prompt, model, tools, n - 1);
    }
  }

  lemma PromptTranslated(prompt: seq<string>)
    ensures Translate([UserInput(prompt)]) == [AnthropicMessage(User, [Text(TextOf(prompt))])]
  {
    AllSaidOne(UserInput(prompt));
    FirstMessage(Said(User, Text(TextOf(prompt))));
  }

  lemma FirstMessage(s: Said)
    ensures PushAll([], [s]) == [AnthropicMessage(s.role, [s.block])]
  {
    assert [s][..0] == [];
  }

  lemma RoundAdds(prompt: seq<string>, model: Model, tools: Tools, k: nat)
    requires CallsOf(OutputIn(prompt, model, tools, k)) != []
    requires TranslatesToDialogue(prompt, model, tools, k)
    ensures TranslatesToDialogue(prompt, model, tools, k + 1)
  {
    var output := OutputIn(prompt, model, tools, k);
    CallsAreCalls(output);
    ResultsSaid(tools, k, CallsOf(output));
    RoundTranslated(Sent(prompt, model, tools, k), ReplyIn(prompt, model, tools, k),
                    ResultsOf(tools, k, CallsOf(output)),
                    AnthropicMessage(User, ResultBlocks(tools, k, CallsOf(output))));
  }

  // === What the provider sees ===

  lemma {:induction false} DialogueGrows(prompt: seq<string>, model: Model, tools: Tools, k: nat, n: nat)
    requires k <= n
    ensures Dialogue(prompt, model, tools, k) <= Dialogue(prompt, model, tools, n)
    decreases n
  {
    if k < n { DialogueGrows(prompt, model, tools, k, n - 1); }
  }

  lemma DialogueAt(prompt: seq<string>, model: Model, tools: Tools, n: nat, k: nat)
    requires k < n
    ensures var t, ms := Dialogue(prompt, model, tools, n), RoundMessages(prompt, model, tools, k);
      t[2 * k + 1] == ms[0] && t[2 * k + 2] == ms[1]
  {
    DialogueGrows(prompt, model, tools, k + 1, n);
    var d := Dialogue(prompt, model, tools, k + 1);
    assert d == Dialogue(prompt, model, tools, k) + RoundMessages(prompt, model, tools, k);
    assert d[2 * k + 1] == RoundMessages(prompt, model, tools, k)[0];
    assert d[2 * k + 2] == RoundMessages(prompt, model, tools, k)[1];
  }

  /** The ids of tool uses, in order, and those of the results of the next message. */
  predicate Answered(asked: AnthropicMessage, answer: AnthropicMessage) {
    && asked.role == Assistant && answer.role == User
    && |Uses(asked.content)| == |answer.content| > 0
    && forall i :: 0 <= i < |answer.content| ==>
         && Uses(asked.content)[i].ToolUse? && answer.content[i].ToolResult?
         && Uses(asked.content)[i].id == answer.content[i].toolUseId
  }

  lemma RoundAnswered(prompt: seq<string>, model: Model, tools: Tools, k: nat)
    requires CallsOf(OutputIn(prompt, model, tools, k)) != []
    ensures var ms := RoundMessages(prompt, model, tools, k); Answered(ms[0], ms[1])
  {
    UsesAreCalls(ReplyIn(prompt, model, tools, k));
  }

  /**
   * The messages of round `n`: they start and end with `user` and alternate, every assistant message is
   * followed by the results of exactly its tool uses in order, the messages of every earlier round are a
   * prefix, and block by block they are what the items say.
   */
  lemma ProviderSees(prompt: seq<string>, model: Model, tools: Tools, n: nat)
    requires Continues(prompt, model, tools, n)
    ensures var t := Translate(Sent(prompt, model, tools, n));
      && |t| == 2 * n + 1 && t[0].role == User && t[2 * n].role == User && Alternates(t)
      && (forall k :: 0 <= k < n ==> Answered(t[2 * k + 1], t[2 * k + 2]))
      && (forall k :: 0 <= k < n ==> Translate(Sent(prompt, model, tools, k)) <= t)
      && Unfold(t) == AllSaid(Sent(prompt, model, tools, n))
  {
    var t := Dialogue(prompt, model, tools, n);
    WholeConversation(prompt, model, tools, n);
    PushAllGroups(AllSaid(Sent(prompt, model, tools, n)));
    forall k | 0 <= k < n
      ensures Answered(t[2 * k + 1], t[2 * k + 2]) && Translate(Sent(prompt, model, tools, k)) <= t
    {
      ContinuesAt(prompt, model, tools, n, k);
      WholeConversation(prompt, model, tools, k);
      DialogueGrows(prompt, model, tools, k, n);
      DialogueAt(prompt, model, tools, n, k);
      RoundAnswered(prompt, model, tools, k);
    }
    FirstIsPrompt(prompt, model, tools, n);
  }

  lemma {:induction false} FirstIsPrompt(prompt: seq<string>, model: Model, tools: Tools, n: nat)
    ensures Dialogue(prompt, model, tools, n)[0] == AnthropicMessage(User, [Text(TextOf(prompt))])
    decreases n
  {
    if n > 0 { FirstIsPrompt(prompt, model, tools, n - 1); }
  }
}
