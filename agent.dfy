/**
 * The agent (agent.py): a step-budgeted loop that asks the model for the next
 * turn, runs the tool calls it requests in order, feeds one correlated tool
 * message per call back into memory, and stops at the first turn without tool
 * calls or when the budget runs out.
 *
 * The model endpoint is a pure function of the model name, the history and
 * the advertised tool specs (`Gateway`); its `Err` case is a provider fault.
 * `RunLoop` gives the meaning of one run as a function; `Agent.Run` is the
 * loop itself, proved to compute it, and the lemmas state what a run does.
 */
module Agent {
  import opened Wrappers
  import opened JsonModel
  import opened Tools
  import Memory

  const SystemPrompt: string :=
    "You are a helpful, cautious, and tool-using assistant.\n"
    + "- Think step-by-step.\n"
    + "- Use tools when needed.\n"
    + "- If you can answer directly, do so concisely with citations when possible.\n"
    + "- When using tools, explain why and what you found.\n"
    + "- Stop when the user\U{2019}s request is satisfied.\n"

  /** The agent's memory keeps the last 60 messages. */
  const MemoryCapacity := 60

  const Fallback := "Reached max steps without a final answer."
  const UnsupportedCall := "Unsupported tool call type"

  /** The fields of `AgentConfig` the loop uses; temperature and top_p are never read. */
  datatype Config = Config(model: string, maxSteps: int)

  const DefaultConfig := Config("gpt-4o-mini", 8)

  /** A requested call: a function call (`ChatCompletionMessageFunctionToolCall`) or any other kind. */
  datatype ToolCall =
    | FunctionCall(id: string, name: string, arguments: Option<string>)
    | OtherCall(id: string)

  /** The four kinds of message the agent stores. */
  datatype Message =
    | SystemMsg(content: string)
    | UserMsg(content: string)
    | AssistantMsg(content: string, toolCalls: Option<seq<ToolCall>>)
    | ToolMsg(toolCallId: string, content: string)

  /** The model's turn: optional text and, when it requests tools, the list of calls. */
  datatype Response = Response(content: Option<string>, toolCalls: Option<seq<ToolCall>>)

  /** The chat endpoint: model name, history and tool specs to a turn, or the provider's error. */
  type Gateway = (string, seq<Message>, seq<ProviderSpec>) -> Result<Response, string>

  /** Why a run was aborted: the model endpoint failed, or a tool raised. */
  datatype Fault = GatewayFault(detail: string) | ToolFault(detail: string)

  /** `s or ""`. */
  function OrEmpty(s: Option<string>): string {
    match s
    case Some(t) => t
    case None => ""
  }

  /** `json.loads(arguments or "{}")`, with a decoding error replaced by `{}`. */
  function ParseArguments(codec: Codec, arguments: Option<string>): Json {
    var text := if arguments == None || arguments == Some("") then "{}" else arguments.value;
    match codec.loads(text)
    case Some(j) => j
    case None => JObj(map[])
  }

  /** A tool result as stored: a string verbatim, anything else serialised. */
  function Render(codec: Codec, result: Json): string {
    if result.JStr? then result.s else codec.dumps(result)
  }

  /** Missing or empty arguments are read as `"{}"`; unparseable arguments become an empty dictionary. */
  lemma ArgumentsLenient(codec: Codec, arguments: Option<string>)
    ensures arguments == None || arguments == Some("") ==> ParseArguments(codec, arguments) == ParseArguments(codec, Some("{}"))
    ensures arguments.Some? && arguments.value != "" && codec.loads(arguments.value).None? ==>
      ParseArguments(codec, arguments) == JObj(map[])
    ensures arguments.Some? && arguments.value != "" && codec.loads(arguments.value).Some? ==>
      ParseArguments(codec, arguments) == codec.loads(arguments.value).value
  {
  }

  /** Everything one run depends on besides the memory. */
  datatype Ctx = Ctx(model: string, gateway: Gateway, specs: seq<ProviderSpec>, tools: seq<ToolSpec>,
                     codec: Codec, cap: int)

  /** The tool message for one requested call, or the message of the exception its tool raised. */
  function ToolTurn(ctx: Ctx, tc: ToolCall): Result<Message, string> {
    match tc
    case OtherCall(id) => Ok(ToolMsg(id, UnsupportedCall))
    case FunctionCall(id, name, arguments) =>
      match CallTool(ctx.tools, name, ParseArguments(ctx.codec, arguments))
      case Err(e) => Err(e)
      case Ok(result) => Ok(ToolMsg(id, Render(ctx.codec, result)))
  }

  /**
   * Every call is answered by a tool message carrying its id; a call that is
   * not a function call gets the fixed refusal; only a registered tool can
   * raise, so an unknown name never aborts the run.
   */
  lemma ToolTurnShape(ctx: Ctx, tc: ToolCall)
    ensures ToolTurn(ctx, tc).Ok? ==> ToolTurn(ctx, tc).value.ToolMsg? && ToolTurn(ctx, tc).value.toolCallId == tc.id
    ensures tc.OtherCall? ==> ToolTurn(ctx, tc) == Ok(ToolMsg(tc.id, UnsupportedCall))
    ensures ToolTurn(ctx, tc).Err? ==> tc.FunctionCall? && Registered(ctx.tools, tc.name)
  {
    if tc.FunctionCall? {
      MappingKeys(ctx.tools, tc.name);
    }
  }

  /**
   * The content of the tool message for a function call: the unknown-tool
   * error value, serialised, for a name no tool carries; a string result
   * verbatim; any other result serialised.
   */
  lemma ToolTurnContent(ctx: Ctx, id: string, name: string, arguments: Option<string>)
    ensures !Registered(ctx.tools, name) ==>
      ToolTurn(ctx, FunctionCall(id, name, arguments)) == Ok(ToolMsg(id, ctx.codec.dumps(UnknownTool(name))))
    ensures var result := CallTool(ctx.tools, name, ParseArguments(ctx.codec, arguments));
      result.Ok? && result.value.JStr? ==> ToolTurn(ctx, FunctionCall(id, name, arguments)) == Ok(ToolMsg(id, result.value.s))
    ensures var result := CallTool(ctx.tools, name, ParseArguments(ctx.codec, arguments));
      result.Ok? && !result.value.JStr? ==>
        ToolTurn(ctx, FunctionCall(id, name, arguments)) == Ok(ToolMsg(id, ctx.codec.dumps(result.value)))
  {
    if !Registered(ctx.tools, name) {
      CallToolUnknown(ctx.tools, name, ParseArguments(ctx.codec, arguments));
    }
  }

  /** The tool messages of one round, up to the first raising tool, and the fault that stopped it. */
  datatype Round = Round(turns: seq<Message>, fault: Option<Fault>)

  /**
   * Runs the calls from position `j` on, in the order listed, until a tool
   * raises, which ends the round.
   */
  function ToolTurns(ctx: Ctx, calls: seq<ToolCall>, j: nat): Round
    requires j <= |calls|
    decreases |calls| - j
  {
    if j == |calls| then Round([], None)
    else
      match ToolTurn(ctx, calls[j])
      case Err(e) => Round([], Some(ToolFault(e)))
      case Ok(m) =>
        var rest := ToolTurns(ctx, calls, j + 1);
        Round([m] + rest.turns, rest.fault)
  }

  /** One step of a round: its end, a call whose tool raised, or a call answered before the rest. */
  lemma ToolTurnsUnfold(ctx: Ctx, calls: seq<ToolCall>, j: nat)
    requires j <= |calls|
    ensures j == |calls| ==> ToolTurns(ctx, calls, j) == Round([], None)
    ensures j < |calls| && ToolTurn(ctx, calls[j]).Err? ==>
      ToolTurns(ctx, calls, j) == Round([], Some(ToolFault(ToolTurn(ctx, calls[j]).error)))
    ensures j < |calls| && ToolTurn(ctx, calls[j]).Ok? ==>
      && ToolTurns(ctx, calls, j).turns == [ToolTurn(ctx, calls[j]).value] + ToolTurns(ctx, calls, j + 1).turns
      && ToolTurns(ctx, calls, j).fault == ToolTurns(ctx, calls, j + 1).fault
  {
  }

  /**
   * A round answers the calls in order, one tool message per call carrying
   * that call's id; it stops short exactly when a tool raised, and then the
   * fault is the one raised by the first unanswered call.
   */
  lemma {:induction false} ToolTurnsShape(ctx: Ctx, calls: seq<ToolCall>, j: nat)
    requires j <= |calls|
    ensures var r := ToolTurns(ctx, calls, j);
      && |r.turns| <= |calls| - j
      && (r.fault.None? <==> |r.turns| == |calls| - j)
      && (forall k :: 0 <= k < |r.turns| ==> ToolTurn(ctx, calls[j + k]) == Ok(r.turns[k]))
      && (r.fault.Some? ==> ToolTurn(ctx, calls[j + |r.turns|]).Err? &&
                            r.fault.value == ToolFault(ToolTurn(ctx, calls[j + |r.turns|]).error))
    decreases |calls| - j
  {
    if j < |calls| {
      ToolTurnShape(ctx, calls[j]);
      if ToolTurn(ctx, calls[j]).Ok? {
        ToolTurnsShape(ctx, calls, j + 1);
        var r, rest := ToolTurns(ctx, calls, j), ToolTurns(ctx, calls, j + 1);
        forall k | 0 < k < |r.turns|
          ensures ToolTurn(ctx, calls[j + k]) == Ok(r.turns[k])
        {
          assert r.turns[k] == rest.turns[k - 1];
          assert j + k == (j + 1) + (k - 1);
        }
        if r.fault.Some? {
          assert j + |r.turns| == (j + 1) + |rest.turns|;
        }
      }
    }
  }

  /** How one iteration of the loop ended: with the loop going on, or with the run's result. */
  datatype Status = Continue | Done(outcome: Result<string, Fault>)

  /** The memory after one iteration, the messages it appended, and how it ended. */
  datatype Step = Step(messages: seq<Message>, appended: seq<Message>, status: Status)

  /**
   * One iteration of the loop of `run` from memory `msgs`: a model query,
   * then the final answer, the gateway's fault, or a tool round whose
   * messages are all appended to memory.
   */
  function Iteration(ctx: Ctx, msgs: seq<Message>): Step {
    match ctx.gateway(ctx.model, msgs, ctx.specs)
    case Err(e) => Step(msgs, [], Done(Err(GatewayFault(e))))
    case Ok(response) =>
      if response.toolCalls.None? then
        var final := AssistantMsg(OrEmpty(response.content), None);
        Step(Memory.Retained(msgs, final, ctx.cap), [final], Done(Ok(final.content)))
      else
        var round := ToolTurns(ctx, response.toolCalls.value, 0);
        var appended := [AssistantMsg(OrEmpty(response.content), response.toolCalls)] + round.turns;
        Step(Memory.AddAll(msgs, appended, ctx.cap), appended,
             if round.fault.Some? then Done(Err(round.fault.value)) else Continue)
  }

  /** A final answer as stored: an assistant message without tool calls. */
  predicate IsFinal(m: Message) {
    m.AssistantMsg? && m.toolCalls.None?
  }

  /**
   * A tool round as stored: the assistant message carrying the calls, then
   * one tool message per answered call, in the order the calls were listed,
   * each carrying its call's id.
   */
  predicate ToolBlock(b: seq<Message>) {
    && |b| >= 1 && b[0].AssistantMsg? && b[0].toolCalls.Some?
    && |b| - 1 <= |b[0].toolCalls.value|
    && forall k :: 1 <= k < |b| ==> b[k].ToolMsg? && b[k].toolCallId == b[0].toolCalls.value[k - 1].id
  }

  /** A tool round in which every call was answered. */
  predicate CompleteToolBlock(b: seq<Message>) {
    ToolBlock(b) && |b| == 1 + |b[0].toolCalls.value|
  }

  /**
   * What one iteration appends and how it ends: nothing when the model
   * endpoint fails; the final answer alone, which is the reply's text or
   * `""`, exactly when the reply carries no tool calls (an empty list of
   * calls is still a tool round); otherwise a tool round, complete unless a
   * tool raised. The memory receives exactly the appended messages.
   */
  lemma IterationShape(ctx: Ctx, msgs: seq<Message>)
    ensures var st := Iteration(ctx, msgs);
      && st.messages == Memory.AddAll(msgs, st.appended, ctx.cap)
      && (st.appended == [] <==> st.status.Done? && st.status.outcome.Err? && st.status.outcome.error.GatewayFault?)
      && (st.status.Done? && st.status.outcome.Ok? <==> ctx.gateway(ctx.model, msgs, ctx.specs).Ok? &&
                                                        ctx.gateway(ctx.model, msgs, ctx.specs).value.toolCalls.None?)
      && (st.status.Done? && st.status.outcome.Ok? ==>
            st.appended == [AssistantMsg(st.status.outcome.value, None)] &&
            st.status.outcome.value == OrEmpty(ctx.gateway(ctx.model, msgs, ctx.specs).value.content))
      && (st.status.Continue? ==> CompleteToolBlock(st.appended))
      && (st.status.Done? && st.status.outcome.Err? && st.status.outcome.error.ToolFault? ==>
            ToolBlock(st.appended) && !CompleteToolBlock(st.appended))
  {
    hide ToolTurns;
    var st := Iteration(ctx, msgs);
    match ctx.gateway(ctx.model, msgs, ctx.specs)
    case Err(e) =>
    case Ok(response) =>
      if response.toolCalls.None? {
        var final := AssistantMsg(OrEmpty(response.content), None);
        assert [final][..0] == [];
      } else {
        var calls := response.toolCalls.value;
        var round := ToolTurns(ctx, calls, 0);
        ToolTurnsShape(ctx, calls, 0);
        forall k | 1 <= k < |st.appended|
          ensures st.appended[k].ToolMsg? && st.appended[k].toolCallId == calls[k - 1].id
        {
          assert st.appended[k] == round.turns[k - 1];
          ToolTurnShape(ctx, calls[k - 1]);
        }
      }
  }

  datatype RunResult = RunResult(messages: seq<Message>, log: seq<Message>, queries: nat, outcome: Result<string, Fault>)

  /** `r` preceded by the messages `log` appended and the `queries` issued before it. */
  function Extend(log: seq<Message>, queries: nat, r: RunResult): RunResult {
    RunResult(r.messages, log + r.log, queries + r.queries, r.outcome)
  }

  /** The number of iterations of `range(maxSteps)`. */
  function Budget(maxSteps: int): nat {
    if maxSteps > 0 then maxSteps else 0
  }

  /**
   * The loop of `run` from memory `msgs` with `budget` iterations left: the
   * memory afterwards, every message appended, the number of model queries,
   * and the answer or the fault. With no iteration left the answer is the
   * fallback text.
   */
  function RunLoop(ctx: Ctx, msgs: seq<Message>, budget: nat): RunResult
    decreases budget
  {
    if budget == 0 then RunResult(msgs, [], 0, Ok(Fallback))
    else
      var step := Iteration(ctx, msgs);
      match step.status
      case Done(outcome) => RunResult(step.messages, step.appended, 1, outcome)
      case Continue => Extend(step.appended, 1, RunLoop(ctx, step.messages, budget - 1))
  }

  lemma ExtendExtend(t: seq<Message>, q: nat, a: seq<Message>, p: nat, r: RunResult)
    ensures Extend(t, q, Extend(a, p, r)) == Extend(t + a, q + p, r)
  {
    assert t + (a + r.log) == (t + a) + r.log;
  }

  /**
   * One iteration of the loop, seen from the whole run: a final answer or a
   * fault ends the run with everything appended so far, otherwise the run
   * goes on from the memory the iteration left with one iteration fewer.
   */
  lemma LoopStep(ctx: Ctx, before: seq<Message>, budget: nat, log: seq<Message>, queries: nat,
                 after: seq<Message>, appended: seq<Message>, status: Status, spec: RunResult)
    requires budget > 0 && Iteration(ctx, before) == Step(after, appended, status)
    requires Extend(log, queries, RunLoop(ctx, before, budget)) == spec
    ensures status.Done? ==> RunResult(after, log + appended, queries + 1, status.outcome) == spec
    ensures status.Continue? ==> Extend(log + appended, queries + 1, RunLoop(ctx, after, budget - 1)) == spec
  {
    if status.Continue? {
      ExtendExtend(log, queries, appended, 1, RunLoop(ctx, after, budget - 1));
    }
  }

  /**
   * A run queries the model at most `budget` times, at least once when the
   * budget allows, and not at all when it does not, answering with the
   * fallback text.
   */
  lemma {:induction false} RunLoopQueries(ctx: Ctx, msgs: seq<Message>, budget: nat)
    ensures RunLoop(ctx, msgs, budget).queries <= budget
    ensures budget > 0 ==> RunLoop(ctx, msgs, budget).queries >= 1
    ensures budget == 0 ==> RunLoop(ctx, msgs, budget) == RunResult(msgs, [], 0, Ok(Fallback))
    decreases budget
  {
    hide Iteration;
    if budget > 0 && Iteration(ctx, msgs).status.Continue? {
      RunLoopQueries(ctx, Iteration(ctx, msgs).messages, budget - 1);
    }
  }

  /** The memory after a run is the memory before it with every appended message added in order. */
  lemma {:induction false} RunLoopMemory(ctx: Ctx, msgs: seq<Message>, budget: nat)
    ensures RunLoop(ctx, msgs, budget).messages == Memory.AddAll(msgs, RunLoop(ctx, msgs, budget).log, ctx.cap)
    decreases budget
  {
    hide Iteration;
    if budget > 0 {
      var st := Iteration(ctx, msgs);
      IterationShape(ctx, msgs);
      if st.status.Continue? {
        RunLoopMemory(ctx, st.messages, budget - 1);
        Memory.AddAllAppend(msgs, st.appended, RunLoop(ctx, st.messages, budget - 1).log, ctx.cap);
      }
    }
  }

  /** `last` ends `log`. */
  predicate EndsWith(log: seq<Message>, last: Message) {
    log != [] && log[|log| - 1] == last
  }

  /**
   * A run that answers either ends on the final assistant message carrying
   * that answer, or spent its whole budget and answers with the fallback
   * text; a run that stopped before its budget was spent either answered
   * that way or failed.
   */
  lemma {:induction false} RunLoopOutcome(ctx: Ctx, msgs: seq<Message>, budget: nat)
    ensures var r := RunLoop(ctx, msgs, budget);
      r.outcome.Ok? ==> EndsWith(r.log, AssistantMsg(r.outcome.value, None)) ||
                        (r.queries == budget && r.outcome.value == Fallback)
    ensures var r := RunLoop(ctx, msgs, budget);
      r.queries < budget ==> r.outcome.Err? || EndsWith(r.log, AssistantMsg(r.outcome.value, None))
    decreases budget
  {
    hide Iteration;
    if budget > 0 {
      var st := Iteration(ctx, msgs);
      IterationShape(ctx, msgs);
      if st.status.Continue? {
        var rest := RunLoop(ctx, st.messages, budget - 1);
        RunLoopOutcome(ctx, st.messages, budget - 1);
        if rest.log != [] {
          assert (st.appended + rest.log)[|st.appended + rest.log| - 1] == rest.log[|rest.log| - 1];
        }
      }
    }
  }

  /** The messages of all the blocks, in order. */
  function Flatten(blocks: seq<seq<Message>>): seq<Message>
    decreases |blocks|
  {
    if blocks == [] then [] else blocks[0] + Flatten(blocks[1..])
  }

  /**
   * Everything a run appends is a sequence of at most `queries` blocks: every
   * block but the last is a complete tool round, and the last is a tool
   * round or the final answer. So every tool message answers a call of the
   * assistant message that opened its round, in the order of the calls.
   */
  lemma {:induction false} RunLoopLog(ctx: Ctx, msgs: seq<Message>, budget: nat) returns (blocks: seq<seq<Message>>)
    ensures var r := RunLoop(ctx, msgs, budget);
      && r.log == Flatten(blocks)
      && |blocks| <= r.queries
      && (forall i :: 0 <= i < |blocks| - 1 ==> CompleteToolBlock(blocks[i]))
      && (blocks != [] ==> ToolBlock(blocks[|blocks| - 1]) ||
                           (r.outcome.Ok? && blocks[|blocks| - 1] == [AssistantMsg(r.outcome.value, None)]))
    decreases budget
  {
    hide Iteration;
    blocks := [];
    if budget > 0 {
      var st := Iteration(ctx, msgs);
      IterationShape(ctx, msgs);
      if st.status.Continue? {
        var rest := RunLoopLog(ctx, st.messages, budget - 1);
        blocks := [st.appended] + rest;
        assert blocks[1..] == rest;
      } else if st.appended != [] {
        blocks := [st.appended];
      }
    }
  }

  /** With the budget spent, the run ends with the fallback answer and nothing more appended. */
  lemma LoopExhausted(ctx: Ctx, msgs: seq<Message>, log: seq<Message>, queries: nat)
    ensures Extend(log, queries, RunLoop(ctx, msgs, 0)) == RunResult(msgs, log, queries, Ok(Fallback))
  {
    assert log + [] == log;
  }

  /** The agent (agent.py, `Agent`). */
  class Agent {
    const config: Config
    const gateway: Gateway
    const codec: Codec
    const tools: seq<ToolSpec>
    const mem: Memory.ShortTermMemory<Message>

    /** A new agent holds the registry's tools and a 60-message memory seeded with the system prompt. */
    constructor (config: Option<Config>, gateway: Gateway, services: Services, codec: Codec)
      ensures this.config == (if config.Some? then config.value else DefaultConfig)
      ensures this.gateway == gateway && this.codec == codec
      ensures tools == Registry(services)
      ensures fresh(mem) && mem.maxMessages == MemoryCapacity
      ensures mem.messages == [SystemMsg(SystemPrompt)]
    {
      hide Registry;
      this.config := if config.Some? then config.value else DefaultConfig;
      this.gateway := gateway;
      this.codec := codec;
      mem := new Memory.ShortTermMemory<Message>(MemoryCapacity);
      tools := Registry(services);
      new;
      mem.Add(SystemMsg(SystemPrompt));
    }

    /** What a run of this agent depends on besides its memory. */
    function Context(): Ctx {
      Ctx(config.model, gateway, ProviderSpecs(tools), tools, codec, mem.maxMessages)
    }

    /**
     * The inner loop of `run`: executes the calls in the order listed, adding
     * one tool message per call to memory, until a tool raises.
     */
    method ExecuteToolCalls(calls: seq<ToolCall>) returns (fault: Option<Fault>)
      modifies mem
      ensures var round := ToolTurns(Context(), calls, 0);
        && fault == round.fault
        && mem.messages == Memory.AddAll(old(mem.messages), round.turns, mem.maxMessages)
    {
      hide ToolTurns; hide ToolTurn; hide Memory.AddAll;
      Memory.AddAllNone(mem.messages, mem.maxMessages);
      var ctx := Context();
      ghost var round := ToolTurns(ctx, calls, 0);
      ghost var done: seq<Message> := [];
      var j := 0;
      while j < |calls|
        invariant 0 <= j <= |calls|
        invariant round.turns == done + ToolTurns(ctx, calls, j).turns
        invariant round.fault == ToolTurns(ctx, calls, j).fault
        invariant mem.messages == Memory.AddAll(old(mem.messages), done, mem.maxMessages)
      {
        var turn := ToolTurn(ctx, calls[j]);
        ToolTurnsUnfold(ctx, calls, j);
        if turn.Err? {
          assert round.turns == done;
          return Some(ToolFault(turn.error));
        }
        mem.Add(turn.value);
        Memory.AddAllSnoc(old(mem.messages), done, turn.value, mem.maxMessages);
        done := done + [turn.value];
        j := j + 1;
      }
      ToolTurnsUnfold(ctx, calls, j);
      assert round.turns == done;
      return None;
    }

    /**
     * One tool round of `run`: adds the assistant message that requested the
     * calls, then executes them.
     */
    method ToolRound(response: Response) returns (fault: Option<Fault>)
      requires response.toolCalls.Some?
      modifies mem
      ensures var round := ToolTurns(Context(), response.toolCalls.value, 0);
        && fault == round.fault
        && mem.messages == Memory.AddAll(old(mem.messages),
                                         [AssistantMsg(OrEmpty(response.content), response.toolCalls)] + round.turns,
                                         mem.maxMessages)
    {
      var head := AssistantMsg(OrEmpty(response.content), response.toolCalls);
      mem.Add(head);
      fault := ExecuteToolCalls(response.toolCalls.value);
      assert [head][..0] == [];
      Memory.AddAllAppend(old(mem.messages), [head], ToolTurns(Context(), response.toolCalls.value, 0).turns, mem.maxMessages);
    }

    /**
     * One iteration of the loop of `run`: queries the model with the current
     * memory and the advertised tools, then records the final answer or runs
     * the requested tools.
     */
    method Iterate(specs: seq<ProviderSpec>) returns (status: Status, ghost appended: seq<Message>)
      requires specs == ProviderSpecs(tools)
      modifies mem
      ensures Iteration(Context(), old(mem.messages)) == Step(mem.messages, appended, status)
    {
      var history := mem.Get();
      var reply := gateway(config.model, history, specs);
      if reply.Err? {
        return Done(Err(GatewayFault(reply.error))), [];
      }
      var msg := reply.value;
      if msg.toolCalls.None? {
        var final := AssistantMsg(OrEmpty(msg.content), None);
        mem.Add(final);
        return Done(Ok(final.content)), [final];
      }
      appended := [AssistantMsg(OrEmpty(msg.content), msg.toolCalls)] + ToolTurns(Context(), msg.toolCalls.value, 0).turns;
      var fault := ToolRound(msg);
      status := if fault.Some? then Done(Err(fault.value)) else Continue;
    }

    /**
     * The loop of `run`: `max_steps` iterations of `Iterate`, stopping at the
     * first final answer or fault; the fallback answer when none came.
     */
    method Loop(specs: seq<ProviderSpec>) returns (answer: Result<string, Fault>, ghost log: seq<Message>, ghost queries: nat)
      requires specs == ProviderSpecs(tools)
      modifies mem
      ensures RunResult(mem.messages, log, queries, answer) == RunLoop(Context(), old(mem.messages), Budget(config.maxSteps))
    {
      // The loop only relates iterations to the run through LoopStep and LoopExhausted.
      hide RunLoop;
      hide Iteration;
      ghost var budget := Budget(config.maxSteps);
      ghost var spec := RunLoop(Context(), mem.messages, budget);
      log, queries := [], 0;
      var step := 0;
      while step < config.maxSteps
        invariant 0 <= step <= budget
        invariant Extend(log, queries, RunLoop(Context(), mem.messages, budget - step)) == spec
      {
        ghost var before := mem.messages;
        ghost var appended;
        var status;
        status, appended := Iterate(specs);
        LoopStep(Context(), before, budget - step, log, queries, mem.messages, appended, status, spec);
        if status.Done? {
          answer, log, queries := status.outcome, log + appended, queries + 1;
          return;
        }
        log, queries := log + appended, queries + 1;
        step := step + 1;
      }
      LoopExhausted(Context(), mem.messages, log, queries);
      answer := Ok(Fallback);
    }

    /**
     * `run(goal)`: appends the goal as a user message, then runs the loop.
     * The ghost results are every message appended, the goal included, and
     * the number of model queries issued.
     */
    method Run(goal: string) returns (answer: Result<string, Fault>, ghost log: seq<Message>, ghost queries: nat)
      modifies mem
      ensures RunResult(mem.messages, log, queries, answer) ==
        Extend([UserMsg(goal)], 0, RunLoop(Context(), Memory.Retained(old(mem.messages), UserMsg(goal), mem.maxMessages),
                                           Budget(config.maxSteps)))
    {
      mem.Add(UserMsg(goal));
      var specs := OpenAIToolSpecs(tools);
      ghost var loopLog;
      answer, loopLog, queries := Loop(specs);
      log := [UserMsg(goal)] + loopLog;
    }
  }
}
