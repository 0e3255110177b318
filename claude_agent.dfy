/** ClaudeAcademicAgent of claude_agent.py: the conversation it keeps,
    its bounded request/response loop, and main's path from the
    credential checks to one run.  The chat API is an Engine: a function
    from the history sent to the reply (or the exception) it gives. */
module ClaudeAgent {
  import opened Values
  import opened Sequences
  import opened McpSdk
  import opened AgentTools
  import opened ApiKey

  /** One content block of an engine reply. */
  datatype Block =
    | TextBlock(text: string)
    | ToolUseBlock(id: string, name: string, input: Args)
    | OtherBlock(kind: string)

  predicate IsToolUse(b: Block) { b.ToolUseBlock? }

  /** {"type": "tool_result", "tool_use_id": id, "content": payload};
      `content` is the value execute_tool serialises. */
  datatype ToolResult = ToolResult(toolUseId: string, content: Value)

  datatype Role = User | Assistant

  datatype TurnContent =
    | Instruction(text: string)
    | AssistantBlocks(blocks: seq<Block>)
    | ToolResults(results: seq<ToolResult>)

  /** One entry of conversation_history. */
  datatype Turn = Turn(role: Role, content: TurnContent)

  datatype EngineError = AuthenticationFailed | RequestFailed

  /** messages.create: a reply with its stop reason, or an exception. */
  datatype EngineReply = Reply(stopReason: string, content: seq<Block>) | Failed(error: EngineError)

  type Engine = seq<Turn> -> EngineReply

  /** run returns a string, unless the engine call raised (run re-raises
      AuthenticationError and lets every other exception through). */
  datatype RunOutcome = Returned(text: string) | Raised(error: EngineError)

  const NotCompletedMessage: string := "任务未完成（达到最大迭代次数）"
  const DefaultApiBaseUrl: string := "https://api.580ai.net/v1"
  const MainMaxIterations: nat := 15

  // ---- What one engine reply produces -----------------------------------

  /** The end_turn answer: the text blocks' texts, concatenated in order. */
  function FinalText(blocks: seq<Block>): string
    decreases |blocks|
  {
    if |blocks| == 0 then ""
    else FinalText(blocks[..|blocks| - 1]) +
         (match blocks[|blocks| - 1] case TextBlock(t) => t case _ => "")
  }

  /** The answer of a reply split in two is the two answers joined:
      blocks keep their order and non-text blocks add nothing. */
  lemma {:induction false} FinalTextAppend(a: seq<Block>, b: seq<Block>)
    ensures FinalText(a + b) == FinalText(a) + FinalText(b)
    decreases |b|
  {
    if |b| > 0 {
      var ab := a + b;
      assert ab[..|ab| - 1] == a + b[..|b| - 1];
      assert ab[|ab| - 1] == b[|b| - 1];
      FinalTextAppend(a, b[..|b| - 1]);
    } else {
      assert a + b == a;
    }
  }

  /** The tool_results list for one tool_use reply. */
  function ToolResultsFor(blocks: seq<Block>, net: string -> Server,
                          loads: string -> Loaded): seq<ToolResult>
    decreases |blocks|
  {
    if |blocks| == 0 then []
    else ToolResultsFor(blocks[..|blocks| - 1], net, loads) +
         (match blocks[|blocks| - 1]
          case ToolUseBlock(id, name, input) => [ToolResult(id, ExecuteTool(name, input, net, loads))]
          case _ => [])
  }

  /** Exactly one tool_result per tool_use block, in block order, each
      carrying the block's id and the payload of its own request; a failed
      request only affects its own entry. */
  lemma {:induction false} ToolResultsMatchBlocks(blocks: seq<Block>, net: string -> Server,
                                                  loads: string -> Loaded)
    ensures var results := ToolResultsFor(blocks, net, loads);
            var pos := Positions(blocks, IsToolUse);
            |results| == |pos| &&
            forall k :: 0 <= k < |pos| ==>
              blocks[pos[k]].ToolUseBlock? &&
              results[k] == ToolResult(blocks[pos[k]].id,
                                       ExecuteTool(blocks[pos[k]].name, blocks[pos[k]].input, net, loads))
    decreases |blocks|
  {
    if |blocks| > 0 {
      var n := |blocks|;
      var prefix := blocks[..n - 1];
      ToolResultsMatchBlocks(prefix, net, loads);
      PositionsSnoc(blocks, IsToolUse);
      var pre := Positions(prefix, IsToolUse);
      var pos := Positions(blocks, IsToolUse);
      var earlier := ToolResultsFor(prefix, net, loads);
      var results := ToolResultsFor(blocks, net, loads);
      var last := blocks[n - 1];
      assert results == earlier + (if IsToolUse(last) then
        [ToolResult(last.id, ExecuteTool(last.name, last.input, net, loads))] else []);
      forall k | 0 <= k < |pre|
        ensures blocks[pos[k]] == prefix[pre[k]] && results[k] == earlier[k]
      {
      }
    }
  }

  /** The loop of run that builds final_text. */
  method JoinText(blocks: seq<Block>) returns (finalText: string)
    ensures finalText == FinalText(blocks)
  {
    finalText := "";
    var i := 0;
    while i < |blocks|
      invariant 0 <= i <= |blocks|
      invariant finalText == FinalText(blocks[..i])
    {
      assert blocks[..i + 1][..i] == blocks[..i];
      if blocks[i].TextBlock? {
        finalText := finalText + blocks[i].text;
      }
      i := i + 1;
    }
    assert blocks[..i] == blocks;
  }

  /** The loop of run that executes every tool_use block and collects
      tool_results. */
  method DispatchTools(blocks: seq<Block>, net: string -> Server, loads: string -> Loaded)
    returns (toolResults: seq<ToolResult>)
    ensures toolResults == ToolResultsFor(blocks, net, loads)
  {
    toolResults := [];
    var i := 0;
    while i < |blocks|
      invariant 0 <= i <= |blocks|
      invariant toolResults == ToolResultsFor(blocks[..i], net, loads)
    {
      assert blocks[..i + 1][..i] == blocks[..i];
      match blocks[i] {
        case ToolUseBlock(id, name, input) =>
          var result := ExecuteTool(name, input, net, loads);
          toolResults := toolResults + [ToolResult(id, result)];
        case _ =>
      }
      i := i + 1;
    }
    assert blocks[..i] == blocks;
  }

  // ---- The loop as a function ------------------------------------------

  /** Where a run ends: what run returns, the history it leaves behind,
      and how many engine calls it made. */
  datatype RunState = RunState(outcome: RunOutcome, history: seq<Turn>, engineCalls: nat)

  /** The two turns a tool_use reply appends. */
  function ToolRound(content: seq<Block>, net: string -> Server, loads: string -> Loaded): seq<Turn> {
    [Turn(Assistant, AssistantBlocks(content)),
     Turn(User, ToolResults(ToolResultsFor(content, net, loads)))]
  }

  /** The remaining `budget` iterations of run, from `history`. */
  function Loop(history: seq<Turn>, budget: nat, engine: Engine,
                net: string -> Server, loads: string -> Loaded): RunState
    decreases budget
  {
    if budget == 0 then RunState(Returned(NotCompletedMessage), history, 0)
    else match engine(history)
      case Failed(e) => RunState(Raised(e), history, 1)
      case Reply(reason, content) =>
        if reason == "end_turn" then RunState(Returned(FinalText(content)), history, 1)
        else if reason == "tool_use" then
          var rest := Loop(history + ToolRound(content, net, loads), budget - 1, engine, net, loads);
          rest.(engineCalls := rest.engineCalls + 1)
        else RunState(Returned(NotCompletedMessage), history, 1)
  }

  /** A loop state seen after `calls` earlier engine calls. */
  function After(calls: nat, s: RunState): RunState {
    s.(engineCalls := calls + s.engineCalls)
  }

  /** One tool round of the loop, seen from the outside: the rest of the
      loop from the history extended by that round, one engine call later. */
  lemma LoopToolStep(history: seq<Turn>, budget: nat, engine: Engine,
                     net: string -> Server, loads: string -> Loaded, calls: nat)
    requires budget > 0 && engine(history).Reply? && engine(history).stopReason == "tool_use"
    ensures After(calls, Loop(history, budget, engine, net, loads)) ==
            After(calls + 1, Loop(history + ToolRound(engine(history).content, net, loads),
                                  budget - 1, engine, net, loads))
  {
  }

  /** A loop step that does not take a tool round ends the run there. */
  lemma LoopStops(history: seq<Turn>, budget: nat, engine: Engine,
                  net: string -> Server, loads: string -> Loaded, calls: nat)
    requires budget == 0 || !(engine(history).Reply? && engine(history).stopReason == "tool_use")
    ensures var s := Loop(history, budget, engine, net, loads);
            After(calls, s) == RunState(s.outcome, history, calls + (if budget == 0 then 0 else 1)) &&
            (budget == 0 ==> s.outcome == Returned(NotCompletedMessage)) &&
            (budget > 0 ==> Settles(engine(history), s.outcome))
  {
  }

  function Budget(maxIterations: int): nat {
    if maxIterations > 0 then maxIterations else 0
  }

  /** A whole run: history reset to the instruction, then the loop. */
  function RunSpec(instruction: string, maxIterations: int, engine: Engine,
                   net: string -> Server, loads: string -> Loaded): RunState
  {
    Loop([Turn(User, Instruction(instruction))], Budget(maxIterations), engine, net, loads)
  }

  /** `ext` is a sequence of complete tool rounds grown from `base`: each
      pair is the engine's tool_use reply to the history so far, then the
      matching tool results. */
  ghost predicate Rounds(base: seq<Turn>, ext: seq<Turn>, engine: Engine,
                         net: string -> Server, loads: string -> Loaded)
    decreases |ext|
  {
    if |ext| == 0 then true
    else
      var reply := engine(base);
      |ext| >= 2 && reply.Reply? && reply.stopReason == "tool_use" &&
      ext[..2] == ToolRound(reply.content, net, loads) &&
      Rounds(base + ext[..2], ext[2..], engine, net, loads)
  }

  /** How a run that did not take another tool round ended, given the
      engine's last reply. */
  predicate Settles(reply: EngineReply, outcome: RunOutcome) {
    match reply
    case Failed(e) => outcome == Raised(e)
    case Reply(reason, content) =>
      reason != "tool_use" &&
      outcome == Returned(if reason == "end_turn" then FinalText(content) else NotCompletedMessage)
  }

  /** The loop never makes more engine calls than its budget; it only
      appends whole tool rounds, two turns each, to the history it started
      from; and it ends either with the budget spent on tool rounds and the
      not-completed message, or with one more engine call whose reply
      settles the outcome (the end_turn text, the not-completed message
      for any other stop reason, or the engine's exception). */
  lemma {:induction false} LoopShape(history: seq<Turn>, budget: nat, engine: Engine,
                                     net: string -> Server, loads: string -> Loaded)
    ensures var s := Loop(history, budget, engine, net, loads);
            |history| <= |s.history| && s.history[..|history|] == history &&
            Rounds(history, s.history[|history|..], engine, net, loads) &&
            (|s.history| - |history|) % 2 == 0 &&
            s.engineCalls <= budget &&
            var rounds := (|s.history| - |history|) / 2;
            ((s.engineCalls == rounds == budget && s.outcome == Returned(NotCompletedMessage)) ||
             (s.engineCalls == rounds + 1 && Settles(engine(s.history), s.outcome)))
    decreases budget
  {
    var s := Loop(history, budget, engine, net, loads);
    if budget > 0 && engine(history).Reply? && engine(history).stopReason == "tool_use" {
      var content := engine(history).content;
      var round := ToolRound(content, net, loads);
      var next := history + round;
      LoopShape(next, budget - 1, engine, net, loads);
      var rest := Loop(next, budget - 1, engine, net, loads);
      assert s.history == rest.history;
      var ext := s.history[|history|..];
      assert |round| == 2 && |next| == |history| + 2;
      assert s.history[..|next|] == next;
      assert ext[..2] == s.history[|history|..|next|];
      assert next[|history|..] == round;
      assert ext[..2] == round;
      assert ext[2..] == s.history[|next|..];
      assert history + ext[..2] == next;
    } else {
      assert s.history == history;
      assert s.history[|history|..] == [];
    }
  }

  /** A whole run: at most max(max_iterations, 0) engine calls, the
      instruction stays the first turn, and the history holds it plus
      whole tool rounds only. */
  lemma RunBounded(instruction: string, maxIterations: int, engine: Engine,
                   net: string -> Server, loads: string -> Loaded)
    ensures var s := RunSpec(instruction, maxIterations, engine, net, loads);
            s.engineCalls <= Budget(maxIterations) &&
            |s.history| >= 1 && s.history[0] == Turn(User, Instruction(instruction)) &&
            Rounds([Turn(User, Instruction(instruction))], s.history[1..], engine, net, loads) &&
            |s.history| <= 1 + 2 * Budget(maxIterations)
  {
    var h := [Turn(User, Instruction(instruction))];
    LoopShape(h, Budget(maxIterations), engine, net, loads);
    var s := RunSpec(instruction, maxIterations, engine, net, loads);
    assert s.history[0] == s.history[..1][0];
  }

  // ---- The agent ---------------------------------------------------------

  /** `api_key or os.environ.get("ANTHROPIC_API_KEY")` */
  function ResolveApiKey(apiKey: Option<string>, env: map<string, string>): Option<string> {
    if apiKey.Some? && apiKey.value != "" then apiKey
    else if ApiKeyVar in env then Some(env[ApiKeyVar])
    else None
  }

  /** `base_url or os.environ.get("ANTHROPIC_BASE_URL", default)` */
  function ResolveBaseUrl(baseUrl: Option<string>, env: map<string, string>): string {
    if baseUrl.Some? && baseUrl.value != "" then baseUrl.value
    else if "ANTHROPIC_BASE_URL" in env then env["ANTHROPIC_BASE_URL"]
    else DefaultApiBaseUrl
  }

  class ClaudeAcademicAgent {
    /** The credentials the chat client is created with. */
    const clientApiKey: Option<string>
    const clientBaseUrl: string
    var conversationHistory: seq<Turn>

    constructor (apiKey: Option<string> := None, baseUrl: Option<string> := None,
                 env: map<string, string>)
      ensures clientApiKey == ResolveApiKey(apiKey, env)
      ensures clientBaseUrl == ResolveBaseUrl(baseUrl, env)
      ensures conversationHistory == []
    {
      clientApiKey := ResolveApiKey(apiKey, env);
      clientBaseUrl := ResolveBaseUrl(baseUrl, env);
      conversationHistory := [];
    }

    /** The tool_use branch of run: record the assistant's blocks, execute
        every tool_use block and record the results as one user turn. */
    method TakeToolRound(content: seq<Block>, net: string -> Server, loads: string -> Loaded)
      modifies this
      ensures conversationHistory == old(conversationHistory) + ToolRound(content, net, loads)
    {
      var assistantMessage := Turn(Assistant, AssistantBlocks(content));
      conversationHistory := conversationHistory + [assistantMessage];
      var toolResults := DispatchTools(content, net, loads);
      conversationHistory := conversationHistory + [Turn(User, ToolResults(toolResults))];
    }

    /** run: reset the history to the instruction and ask the engine at
        most max_iterations times. */
    method Run(instruction: string, maxIterations: int := 10, engine: Engine,
               net: string -> Server, loads: string -> Loaded)
      returns (outcome: RunOutcome, ghost engineCalls: nat)
      modifies this
      ensures RunState(outcome, conversationHistory, engineCalls) ==
              RunSpec(instruction, maxIterations, engine, net, loads)
    {
      ghost var spec := RunSpec(instruction, maxIterations, engine, net, loads);
      ghost var budget := Budget(maxIterations);
      conversationHistory := [Turn(User, Instruction(instruction))];
      var iteration := 0;
      while iteration < maxIterations
        invariant 0 <= iteration <= budget
        invariant spec == After(iteration, Loop(conversationHistory, budget - iteration, engine, net, loads))
      {
        ghost var before := conversationHistory;
        ghost var left: nat := budget - iteration;
        ghost var calls: nat := iteration;
        iteration := iteration + 1;
        var response := engine(conversationHistory);
        if !(response.Reply? && response.stopReason == "tool_use") {
          LoopStops(before, left, engine, net, loads, calls);
        }
        if response.Failed? {
          return Raised(response.error), iteration;
        }
        if response.stopReason == "end_turn" {
          var finalText := JoinText(response.content);
          return Returned(finalText), iteration;
        } else if response.stopReason == "tool_use" {
          LoopToolStep(before, left, engine, net, loads, calls);
          TakeToolRound(response.content, net, loads);
        } else {
          break;
        }
      }
      if iteration >= maxIterations {
        LoopStops(conversationHistory, budget - iteration, engine, net, loads, iteration);
      }
      return Returned(NotCompletedMessage), iteration;
    }
  }

  // ---- main --------------------------------------------------------------

  datatype MainOutcome = Stopped(reason: Startup) | Ran(outcome: RunOutcome)

  /** main after .env loading: check the key, store the trimmed key back
      into the environment, create the agent from it (usedKey is the key
      its chat client gets) and run the instruction with 15 iterations.
      A Ran outcome's text is what the report file receives. */
  method MainFlow(env: map<string, string>, instruction: string, engine: Engine,
                  net: string -> Server, loads: string -> Loaded)
    returns (result: MainOutcome, ghost usedKey: Option<string>)
    ensures result.Stopped? <==> !KeyCheck(env).Proceed?
    ensures result.Stopped? ==> result.reason == KeyCheck(env)
    ensures result.Ran? ==>
            result.outcome == RunSpec(instruction, MainMaxIterations, engine, net, loads).outcome
    ensures result.Ran? ==> usedKey == Some(KeyCheck(env).key)
  {
    var check := KeyCheck(env);
    if !check.Proceed? {
      return Stopped(check), None;
    }
    var agentEnv := env[ApiKeyVar := check.key];
    var agent := new ClaudeAcademicAgent(env := agentEnv);
    usedKey := agent.clientApiKey;
    var outcome;
    ghost var calls;
    outcome, calls := agent.Run(instruction, maxIterations := MainMaxIterations,
                                engine := engine, net := net, loads := loads);
    result := Ran(outcome);
  }
}
