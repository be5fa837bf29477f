/**
 * A worked run of the agent: the user asks for an arithmetic result, the
 * model asks the calculator, and answers with what the calculator returned.
 * The run is proved for any call id, argument text, expression and result,
 * and then for the user asking for 17*23.
 */
module Scenario {
  import opened Wrappers
  import opened JsonModel
  import opened Tools
  import opened Agent
  import Memory

  /** A calculator call with the given id and argument text. */
  function CalculatorCall(id: string, argumentText: string): ToolCall {
    FunctionCall(id, "calculator", Some(argumentText))
  }

  /**
   * A model that requests `call` until the last message of the history is a
   * tool message, and then answers with that message's content.
   */
  function ScriptedGateway(call: ToolCall): Gateway {
    (model: string, history: seq<Message>, specs: seq<ProviderSpec>) =>
      if history != [] && history[|history| - 1].ToolMsg? then Ok(Response(Some(history[|history| - 1].content), None))
      else Ok(Response(None, Some([call])))
  }

  /** The run's context: the default model, the scripted model endpoint, the registry and a 60-message memory. */
  function ScriptedCtx(services: Services, codec: Codec, call: ToolCall): Ctx {
    Ctx(DefaultConfig.model, ScriptedGateway(call), ProviderSpecs(Registry(services)), Registry(services),
        codec, MemoryCapacity)
  }

  /** The calculator tool, called with an allowed expression, answers with the evaluator's rendering. */
  lemma CalculatorAnswers(services: Services, expression: string, product: string)
    requires OnlyAllowedChars(expression) && services.eval(expression) == Value(product)
    ensures CallTool(Registry(services), "calculator", JObj(map["expression" := JStr(expression)])) == Ok(JStr(product))
  {
    RegistryShape(services);
    hide Registry;
    CallToolDispatch(Registry(services), "calculator", 2, map["expression" := JStr(expression)]);
  }

  /** The call is answered by a tool message carrying its id and the calculator's answer. */
  lemma CalculatorTurn(services: Services, codec: Codec, id: string, argumentText: string, expression: string, product: string)
    requires OnlyAllowedChars(expression) && services.eval(expression) == Value(product)
    requires argumentText != [] && codec.loads(argumentText) == Some(JObj(map["expression" := JStr(expression)]))
    ensures var call := CalculatorCall(id, argumentText);
      ToolTurns(ScriptedCtx(services, codec, call), [call], 0) == Round([ToolMsg(id, product)], None)
  {
    CalculatorAnswers(services, expression, product);
    hide CallTool;
    hide Registry;
    var call := CalculatorCall(id, argumentText);
    var ctx := ScriptedCtx(services, codec, call);
    assert ParseArguments(codec, Some(argumentText)) == JObj(map["expression" := JStr(expression)]);
    assert ToolTurn(ctx, call) == Ok(ToolMsg(id, product));
  }

  /** First query: the model asks for the calculator, which answers; the loop goes on. */
  lemma FirstIteration(services: Services, codec: Codec, call: ToolCall, turn: Message, m0: seq<Message>)
    requires ToolTurns(ScriptedCtx(services, codec, call), [call], 0) == Round([turn], None)
    requires m0 != [] && !m0[|m0| - 1].ToolMsg?
    ensures var head := AssistantMsg("", Some([call]));
      Iteration(ScriptedCtx(services, codec, call), m0) ==
        Step(Memory.AddAll(m0, [head, turn], MemoryCapacity), [head, turn], Continue)
  {
    hide ToolTurns;
    hide Memory.AddAll;
    hide ProviderSpecs;
    hide Registry;
    var ctx := ScriptedCtx(services, codec, call);
    assert ctx.gateway(ctx.model, m0, ctx.specs) == Ok(Response(None, Some([call])));
    assert [AssistantMsg("", Some([call]))] + [turn] == [AssistantMsg("", Some([call])), turn];
  }

  /** Second query: the model answers with the content of the tool message that ends the history. */
  lemma SecondIteration(services: Services, codec: Codec, call: ToolCall, id: string, product: string, m1: seq<Message>)
    requires m1 != [] && m1[|m1| - 1] == ToolMsg(id, product)
    ensures Iteration(ScriptedCtx(services, codec, call), m1).appended == [AssistantMsg(product, None)]
    ensures Iteration(ScriptedCtx(services, codec, call), m1).status == Done(Ok(product))
  {
    hide Memory.AddAll;
    hide ProviderSpecs;
    hide Registry;
  }

  /** After adding two messages to a memory of 60, the second is the last one held. */
  lemma LastAfterTwo(m0: seq<Message>, head: Message, turn: Message)
    ensures var m1 := Memory.AddAll(m0, [head, turn], MemoryCapacity);
      m1 != [] && m1[|m1| - 1] == turn
  {
    assert [head, turn] == [head] + [turn];
    Memory.AddAllSnoc(m0, [head], turn, MemoryCapacity);
    Memory.RetainedIsWindow(Memory.AddAll(m0, [head], MemoryCapacity), turn, MemoryCapacity);
  }

  /**
   * With an evaluator that computes `expression` to `product` and a JSON
   * parser that reads the call's arguments, a run that starts after a user
   * turn asks the model twice, answers `product`, and appends the assistant
   * turn with the call, the correlated tool message and the final answer, in
   * that order.
   */
  lemma CalculatorRun(services: Services, codec: Codec, id: string, argumentText: string, expression: string,
                      product: string, msgs: seq<Message>, goal: string, budget: nat)
    requires OnlyAllowedChars(expression) && services.eval(expression) == Value(product)
    requires argumentText != [] && codec.loads(argumentText) == Some(JObj(map["expression" := JStr(expression)]))
    requires budget >= 2
    ensures var call := CalculatorCall(id, argumentText);
      var r := RunLoop(ScriptedCtx(services, codec, call), Memory.Retained(msgs, UserMsg(goal), MemoryCapacity), budget);
      && r.outcome == Ok(product)
      && r.queries == 2
      && r.log == [AssistantMsg("", Some([call])), ToolMsg(id, product), AssistantMsg(product, None)]
  {
    hide Iteration;
    hide ToolTurns;
    hide ProviderSpecs;
    hide Registry;
    var call := CalculatorCall(id, argumentText);
    var ctx := ScriptedCtx(services, codec, call);
    var head, turn := AssistantMsg("", Some([call])), ToolMsg(id, product);
    var m0 := Memory.Retained(msgs, UserMsg(goal), MemoryCapacity);
    Memory.RetainedIsWindow(msgs, UserMsg(goal), MemoryCapacity);
    CalculatorTurn(services, codec, id, argumentText, expression, product);
    FirstIteration(services, codec, call, turn, m0);
    var m1 := Iteration(ctx, m0).messages;
    LastAfterTwo(m0, head, turn);
    SecondIteration(services, codec, call, id, product, m1);
    assert RunLoop(ctx, m1, budget - 1) == RunResult(Iteration(ctx, m1).messages, [AssistantMsg(product, None)], 1, Ok(product));
  }

  /** `17*23` passes the calculator's allow-list. */
  lemma ProductAllowed()
    ensures OnlyAllowedChars("17*23")
  {
    AllowListGate("17*23");
    var e := "17*23";
    assert forall i :: 0 <= i < |e| ==> e[i] in "0123456789+-*/(). ";
  }

  /**
   * Asked for 17*23, with an evaluator that gives 391, the agent answers
   * `"391"` after two model queries.
   */
  lemma SeventeenTimesTwentyThree(services: Services, codec: Codec, msgs: seq<Message>, budget: nat)
    requires services.eval("17*23") == Value("391")
    requires codec.loads("{\"expression\": \"17*23\"}") == Some(JObj(map["expression" := JStr("17*23")]))
    requires budget >= 2
    ensures var call := CalculatorCall("call_1", "{\"expression\": \"17*23\"}");
      var r := RunLoop(ScriptedCtx(services, codec, call), Memory.Retained(msgs, UserMsg("What is 17*23?"), MemoryCapacity), budget);
      r.outcome == Ok("391") && r.queries == 2
  {
    ProductAllowed();
    CalculatorRun(services, codec, "call_1", "{\"expression\": \"17*23\"}", "17*23", "391", msgs, "What is 17*23?", budget);
  }
}
