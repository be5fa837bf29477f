/**
 * The tool registry (tools.py): tool records, the fixed registry of three
 * tools, their conversion to the provider's function-calling format,
 * dispatch by name, and the pure parts of the three tool handlers.
 *
 * Everything a handler reaches outside the process is a collaborator passed
 * in as a function (`Services`): the search provider, the HTTP fetch with its
 * HTML text extraction, and the calculator's expression evaluator. A handler
 * either returns a JSON-like value or raises; a raised exception is the
 * `Err` case, carrying its message.
 */
module Tools {
  import opened Wrappers
  import opened JsonModel
  import Whitespace

  /** The keyword arguments a handler is called with (`handler(**args)`). */
  type Args = map<string, Json>

  /** A tool implementation: its return value, or the message of the exception it raised. */
  type Handler = Args -> Result<Json, string>

  /** A registered tool (`make_tool`'s dictionary). */
  datatype ToolSpec = ToolSpec(name: string, description: string, parameters: Json, handler: Handler)

  /** `make_tool`: a tool record whose fields are exactly the given arguments. */
  function MakeTool(name: string, description: string, parameters: Json, handler: Handler): (t: ToolSpec)
    ensures t.name == name && t.description == description
    ensures t.parameters == parameters && t.handler == handler
  {
    ToolSpec(name, description, parameters, handler)
  }

  /** The message of the `TypeError` Python raises when keyword arguments do not fit a handler's signature. */
  const SignatureMismatch := "TypeError: arguments do not match the tool's signature"

  /** The message of the `TypeError` Python raises for `**args` when `args` is not a dictionary. */
  const NotAMapping := "TypeError: argument after ** must be a mapping"

  // ---------------------------------------------------------------------------
  // External collaborators

  /** The search provider's reply: the list under its `results` key, if it has one. */
  datatype SearchResponse = SearchResponse(results: Option<seq<map<string, Json>>>)

  /** A fetched page after HTML parsing: its `<title>` string, if any, and its extracted text. */
  datatype Page = Page(title: Option<string>, text: string)

  /** The evaluator's outcome: the `str()` of the value, or the message of the exception. */
  datatype Evaluation = Value(rendered: string) | Raised(message: string)

  datatype Services = Services(
    /** `tavily.search(query=..., max_results=...)`. */
    search: (Json, Json) -> Result<SearchResponse, string>,
    /** The HTTP GET (failing on a non-2xx status) and the HTML text extraction. */
    fetch: Json -> Result<Page, string>,
    /** `eval(expression, {"__builtins__": {}}, {})`. */
    eval: string -> Evaluation)

  // ---------------------------------------------------------------------------
  // web_search

  const DefaultMaxResults := 5

  /** One search hit with the provider's keys renamed: `url` becomes `href`, `content` becomes `snippet`. */
  function SearchEntry(r: map<string, Json>): (e: Json)
    ensures e.JObj? && e.fields.Keys == {"title", "href", "snippet"}
    ensures e.fields["title"] == Get(r, "title")
    ensures e.fields["href"] == Get(r, "url")
    ensures e.fields["snippet"] == Get(r, "content")
  {
    JObj(map["title" := Get(r, "title"), "href" := Get(r, "url"), "snippet" := Get(r, "content")])
  }

  /** The list comprehension of `tool_web_search`: one entry per hit, in the provider's order. */
  function SearchEntries(hits: seq<map<string, Json>>): (es: seq<Json>)
    ensures |es| == |hits|
    ensures forall i :: 0 <= i < |hits| ==> es[i] == SearchEntry(hits[i])
    decreases |hits|
  {
    if hits == [] then [] else [SearchEntry(hits[0])] + SearchEntries(hits[1..])
  }

  /** `results.get("results", [])`. */
  function Hits(response: SearchResponse): seq<map<string, Json>> {
    match response.results
    case None => []
    case Some(rs) => rs
  }

  /** `tool_web_search(query, max_results=5)` called with `**args`. */
  function WebSearch(search: (Json, Json) -> Result<SearchResponse, string>, args: Args): Result<Json, string> {
    if "query" !in args || !(args.Keys <= {"query", "max_results"}) then Err(SignatureMismatch)
    else
      var maxResults := if "max_results" in args then args["max_results"] else JInt(DefaultMaxResults);
      match search(args["query"], maxResults)
      case Err(e) => Err(e)
      case Ok(response) => Ok(JArr(SearchEntries(Hits(response))))
  }

  /**
   * `web_search` takes a `query` and an optional `max_results` (5 when
   * absent) and nothing else; a search failure propagates; otherwise the
   * result is one entry per provider hit, in order, with `url` renamed to
   * `href` and `content` to `snippet`.
   */
  lemma WebSearchShape(search: (Json, Json) -> Result<SearchResponse, string>, args: Args)
    ensures "query" !in args || !(args.Keys <= {"query", "max_results"}) ==> WebSearch(search, args) == Err(SignatureMismatch)
    ensures "query" in args && args.Keys == {"query"} ==>
      WebSearch(search, args) == WebSearch(search, args["max_results" := JInt(DefaultMaxResults)])
    ensures "query" in args && args.Keys <= {"query", "max_results"} ==>
      var maxResults := if "max_results" in args then args["max_results"] else JInt(DefaultMaxResults);
      var reply := search(args["query"], maxResults);
      && (reply.Err? ==> WebSearch(search, args) == Err(reply.error))
      && (reply.Ok? ==>
            var r := WebSearch(search, args);
            && r.Ok? && r.value.JArr? && |r.value.items| == |Hits(reply.value)|
            && forall i :: 0 <= i < |Hits(reply.value)| ==>
                 && r.value.items[i].JObj?
                 && r.value.items[i].fields.Keys == {"title", "href", "snippet"}
                 && r.value.items[i].fields["title"] == Get(Hits(reply.value)[i], "title")
                 && r.value.items[i].fields["href"] == Get(Hits(reply.value)[i], "url")
                 && r.value.items[i].fields["snippet"] == Get(Hits(reply.value)[i], "content"))
  {
    if "query" in args && args.Keys == {"query"} {
      var withDefault := args["max_results" := JInt(DefaultMaxResults)];
      assert withDefault.Keys == {"query", "max_results"};
    }
  }

  // ---------------------------------------------------------------------------
  // fetch_url

  /** The cap on the text a fetch returns. */
  const MaxTextLength := 20000

  /** `" ".join(text.split())[:20000]`. */
  function PageText(raw: string): string {
    var t := Whitespace.Collapse(raw);
    t[..if |t| <= MaxTextLength then |t| else MaxTextLength]
  }

  /** `soup.title.string.strip()` when the page has a non-empty title string, `""` otherwise. */
  function PageTitle(title: Option<string>): string {
    match title
    case Some(s) => if s != "" then Whitespace.Strip(s) else ""
    case None => ""
  }

  /** `tool_fetch_url(url)` called with `**args`. */
  function FetchUrl(fetch: Json -> Result<Page, string>, args: Args): Result<Json, string> {
    if args.Keys != {"url"} then Err(SignatureMismatch)
    else
      match fetch(args["url"])
      case Err(e) => Err(e)
      case Ok(page) =>
        Ok(JObj(map["title" := JStr(PageTitle(page.title)), "text" := JStr(PageText(page.text)),
                    "url" := args["url"]]))
  }

  /**
   * The fetched text is the collapsed text cut to at most 20000 characters:
   * its prefix of that length, the whole of it when it fits. It starts with
   * no whitespace and has no run of whitespace and no whitespace but plain
   * spaces.
   */
  lemma PageTextClean(raw: string)
    ensures |PageText(raw)| == if |Whitespace.Collapse(raw)| <= MaxTextLength then |Whitespace.Collapse(raw)| else MaxTextLength
    ensures |Whitespace.Collapse(raw)| <= MaxTextLength ==> PageText(raw) == Whitespace.Collapse(raw)
    ensures PageText(raw) <= Whitespace.Collapse(raw)
    ensures PageText(raw) != [] ==> !Whitespace.IsSpace(PageText(raw)[0])
    ensures Whitespace.SingleSpaced(PageText(raw))
    ensures |Whitespace.Collapse(raw)| <= MaxTextLength ==> Whitespace.Normalized(PageText(raw))
  {
    var c := Whitespace.Collapse(raw);
    var t := PageText(raw);
    Whitespace.CollapseNormalized(raw);
    assert t == c[..|t|];
    forall i, j | 0 <= i < j < |t| && j == i + 1
      ensures !(Whitespace.IsSpace(t[i]) && Whitespace.IsSpace(t[j]))
    {
      assert t[i] == c[i] && t[j] == c[j];
    }
    forall i | 0 <= i < |t| && Whitespace.IsSpace(t[i])
      ensures t[i] == ' '
    {
      assert t[i] == c[i];
    }
  }

  /**
   * `fetch_url` takes exactly a `url`; a fetch failure propagates; otherwise
   * the result holds the stripped title, the collapsed text cut to 20000
   * characters, and the URL it was given.
   */
  lemma FetchUrlShape(fetch: Json -> Result<Page, string>, args: Args)
    ensures args.Keys != {"url"} ==> FetchUrl(fetch, args) == Err(SignatureMismatch)
    ensures args.Keys == {"url"} && fetch(args["url"]).Err? ==> FetchUrl(fetch, args) == Err(fetch(args["url"]).error)
    ensures args.Keys == {"url"} && fetch(args["url"]).Ok? ==>
      var r := FetchUrl(fetch, args);
      && r.Ok? && r.value.JObj? && r.value.fields.Keys == {"title", "text", "url"}
      && r.value.fields["url"] == args["url"]
      && r.value.fields["title"] == JStr(PageTitle(fetch(args["url"]).value.title))
      && r.value.fields["text"] == JStr(PageText(fetch(args["url"]).value.text))
      && Whitespace.NoEdgeSpace(r.value.fields["title"].s)
      && |r.value.fields["text"].s| <= MaxTextLength
      && r.value.fields["text"].s <= Whitespace.Collapse(fetch(args["url"]).value.text)
  {
    if args.Keys == {"url"} && fetch(args["url"]).Ok? {
      PageTextClean(fetch(args["url"]).value.text);
    }
  }

  /**
   * The cap is applied after collapsing, so capped text can end in a space:
   * 19999 letters, a space and one more letter are cut just after the space.
   */
  lemma PageTextMayEndInSpace()
    ensures exists raw :: |PageText(raw)| == MaxTextLength && PageText(raw)[MaxTextLength - 1] == ' '
  {
    var raw := seq(MaxTextLength + 1, i => if i == MaxTextLength - 1 then ' ' else 'a');
    assert Whitespace.Normalized(raw) by {
      forall i, j | 0 <= i < j < |raw| && j == i + 1
        ensures !(Whitespace.IsSpace(raw[i]) && Whitespace.IsSpace(raw[j]))
      {
        assert i != MaxTextLength - 1 ==> raw[i] == 'a';
        assert i == MaxTextLength - 1 ==> raw[j] == 'a';
      }
    }
    Whitespace.CollapseFixesNormalized(raw);
    assert PageText(raw)[MaxTextLength - 1] == raw[MaxTextLength - 1];
  }

  // ---------------------------------------------------------------------------
  // calculator

  /** `ALLOWED_CHARS`: digits, the four operators, parentheses, the point and the space. */
  const AllowedChars: set<char> := set c | c in "0123456789+-*/(). "

  const ErrorPrefix := "Error: "
  /** `"Error: unsupported characters."` */
  const UnsupportedCharacters := ErrorPrefix + "unsupported " + "characters."

  /** `set(expression).issubset(ALLOWED_CHARS)`. */
  predicate OnlyAllowedChars(expression: string) {
    (set c | c in expression) <= AllowedChars
  }

  /** `tool_calculator(expression)`: the allow-list gate, then evaluation with errors turned into text. */
  function Calculator(expression: string, eval: string -> Evaluation): string {
    if !OnlyAllowedChars(expression) then UnsupportedCharacters
    else
      match eval(expression)
      case Value(v) => v
      case Raised(msg) => ErrorPrefix + msg
  }

  /**
   * An expression with a character outside the allow-list is rejected with
   * the fixed message, whatever the evaluator would have done: it is never
   * evaluated.
   */
  lemma CalculatorRejectsUnlisted(expression: string, i: nat, eval: string -> Evaluation, other: string -> Evaluation)
    requires i < |expression| && expression[i] !in "0123456789+-*/(). "
    ensures Calculator(expression, eval) == UnsupportedCharacters
    ensures Calculator(expression, eval) == Calculator(expression, other)
  {
    assert expression[i] in (set c | c in expression);
    assert expression[i] !in AllowedChars;
  }

  /** The gate passes exactly the expressions made of listed characters only. */
  lemma AllowListGate(expression: string)
    ensures OnlyAllowedChars(expression) <==> forall i :: 0 <= i < |expression| ==> expression[i] in "0123456789+-*/(). "
  {
    if forall i :: 0 <= i < |expression| ==> expression[i] in "0123456789+-*/(). " {
      forall c | c in (set c | c in expression)
        ensures c in AllowedChars
      {
        var i :| 0 <= i < |expression| && expression[i] == c;
        assert c in "0123456789+-*/(). ";
      }
    } else {
      var i :| 0 <= i < |expression| && expression[i] !in "0123456789+-*/(). ";
      assert expression[i] in (set c | c in expression);
      assert expression[i] !in AllowedChars;
    }
  }

  /**
   * The calculator's answer is the evaluator's rendering of an allowed
   * expression, or a message that starts with `"Error: "`.
   */
  lemma CalculatorAnswerShape(expression: string, eval: string -> Evaluation)
    ensures var r := Calculator(expression, eval);
      || (OnlyAllowedChars(expression) && eval(expression).Value? && r == eval(expression).rendered)
      || ErrorPrefix <= r
    ensures OnlyAllowedChars(expression) && eval(expression).Value? ==> Calculator(expression, eval) == eval(expression).rendered
  {
    var r := Calculator(expression, eval);
    if OnlyAllowedChars(expression) && eval(expression).Raised? {
      assert r == ErrorPrefix + eval(expression).message;
    }
  }

  /** An attempt to reach Python built-ins through the expression is refused before evaluation. */
  lemma CalculatorRefusesInjection(eval: string -> Evaluation)
    ensures Calculator("__import__('os').system('rm -rf /')", eval) == UnsupportedCharacters
    ensures "Error" <= Calculator("__import__('os').system('rm -rf /')", eval)
  {
    CalculatorRejectsUnlisted("__import__('os').system('rm -rf /')", 0, eval, eval);
  }

  /** The message of the `TypeError` `eval` raises when given something other than source text. */
  const EvalNeedsText := "eval() arg 1 must be a string, " + "bytes or code object"

  /** The message of the `TypeError` `set(x)` raises when `x` is a number, a boolean or `None`. */
  const NotIterable := "TypeError: object is not iterable"

  /** The message of the `TypeError` `set(x)` raises when an element of `x` is a list or a dictionary. */
  const Unhashable := "TypeError: unhashable type"

  /** A value Python can put in a set: anything but a list or a dictionary. */
  predicate Hashable(v: Json) {
    !v.JArr? && !v.JObj?
  }

  /** A value that equals a member of `ALLOWED_CHARS`: a one-character string of an allowed character. */
  predicate AllowedCharString(s: string) {
    |s| == 1 && s[0] in AllowedChars
  }

  /**
   * `tool_calculator(expression)` called with `**args`, for whatever JSON
   * value the model sent as `expression`. A string goes through the gate and
   * the evaluator. A list or a dictionary goes through the gate on its
   * elements or its keys; when it passes, `eval` refuses it inside the `try`,
   * so the answer is an error text. Anything else makes `set()` raise before
   * the `try`, and so does a list holding a list or a dictionary.
   */
  function CalculatorTool(eval: string -> Evaluation, args: Args): Result<Json, string> {
    if args.Keys != {"expression"} then Err(SignatureMismatch)
    else
      match args["expression"]
      case JStr(expression) => Ok(JStr(Calculator(expression, eval)))
      case JArr(items) =>
        if exists k :: 0 <= k < |items| && !Hashable(items[k]) then Err(Unhashable)
        else if forall k :: 0 <= k < |items| ==> items[k].JStr? && AllowedCharString(items[k].s) then
          Ok(JStr(ErrorPrefix + EvalNeedsText))
        else Ok(JStr(UnsupportedCharacters))
      case JObj(fields) =>
        if forall key | key in fields :: AllowedCharString(key) then Ok(JStr(ErrorPrefix + EvalNeedsText))
        else Ok(JStr(UnsupportedCharacters))
      case _ => Err(NotIterable)
  }

  /**
   * The calculator tool raises only for a wrong signature, for an
   * `expression` that is not iterable, or for a list holding a list or a
   * dictionary. A string is answered as `tool_calculator` answers it.
   * Anything else is never handed to the evaluator: the answer does not
   * depend on it, and when there is one it is an `"Error: "` text.
   */
  lemma CalculatorToolShape(eval: string -> Evaluation, other: string -> Evaluation, args: Args)
    ensures CalculatorTool(eval, args).Err? <==>
      || args.Keys != {"expression"}
      || args["expression"].JNull? || args["expression"].JBool? || args["expression"].JInt?
      || (args["expression"].JArr? && exists k :: 0 <= k < |args["expression"].items| && !Hashable(args["expression"].items[k]))
    ensures args.Keys == {"expression"} && args["expression"].JStr? ==>
      CalculatorTool(eval, args) == Ok(JStr(Calculator(args["expression"].s, eval)))
    ensures args.Keys == {"expression"} && !args["expression"].JStr? ==>
      && CalculatorTool(eval, args) == CalculatorTool(other, args)
      && (CalculatorTool(eval, args).Ok? ==>
            CalculatorTool(eval, args).value.JStr? && ErrorPrefix <= CalculatorTool(eval, args).value.s)
  {
  }

  // ---------------------------------------------------------------------------
  // The registry

  function StringParam(): Json { JObj(map["type" := JStr("string")]) }

  /** `{"type": "object", "properties": properties, "required": required}`. */
  function ObjectSchema(properties: map<string, Json>, required: seq<string>): Json {
    JObj(map["type" := JStr("object"), "properties" := JObj(properties),
             "required" := JArr(seq(|required|, i requires 0 <= i < |required| => JStr(required[i])))])
  }

  /*
   * The tool descriptions the model is shown. Each is written as a
   * concatenation of short pieces, which keeps the prover's work on these
   * literals small; the text is the concatenation.
   */
  const WebSearchDescription: string :=
    "Search the web " + "for current information " + "using Tavily. " + "Returns a list " + "of results."
  const FetchUrlDescription: string :=
    "Fetch a URL " + "and return " + "cleaned text content " + "(best-effort)."
  const CalculatorDescription: string :=
    "Safely evaluate " + "simple arithmetic " + "expressions. " + "No variables " + "or functions allowed."

  /** `registry()`: the three tools, in this order. */
  function Registry(services: Services): seq<ToolSpec> {
    [ MakeTool("web_search",
               WebSearchDescription,
               ObjectSchema(map["query" := StringParam(),
                                "max_results" := JObj(map["type" := JStr("integer"), "default" := JInt(DefaultMaxResults)])],
                            ["query"]),
               args => WebSearch(services.search, args)),
      MakeTool("fetch_url",
               FetchUrlDescription,
               ObjectSchema(map["url" := StringParam()], ["url"]),
               args => FetchUrl(services.fetch, args)),
      MakeTool("calculator",
               CalculatorDescription,
               ObjectSchema(map["expression" := StringParam()], ["expression"]),
               args => CalculatorTool(services.eval, args)) ]
  }

  /**
   * The registry holds exactly `web_search`, `fetch_url` and `calculator`, in
   * that order, with pairwise distinct names, each dispatching to its handler.
   */
  lemma RegistryShape(services: Services)
    ensures var tools := Registry(services);
      && |tools| == 3
      && tools[0].name == "web_search" && tools[1].name == "fetch_url" && tools[2].name == "calculator"
      && (forall i, j :: 0 <= i < j < 3 ==> tools[i].name != tools[j].name)
      && (forall a :: tools[0].handler(a) == WebSearch(services.search, a))
      && (forall a :: tools[1].handler(a) == FetchUrl(services.fetch, a))
      && (forall a :: tools[2].handler(a) == CalculatorTool(services.eval, a))
  {
    var tools := Registry(services);
    assert tools[0].name != tools[1].name by { assert tools[0].name[0] != tools[1].name[0]; }
    assert tools[0].name != tools[2].name by { assert tools[0].name[0] != tools[2].name[0]; }
    assert tools[1].name != tools[2].name by { assert tools[1].name[0] != tools[2].name[0]; }
  }

  // ---------------------------------------------------------------------------
  // Provider format

  /** The `"function"` member of a provider tool spec. */
  datatype FunctionDecl = FunctionDecl(name: string, description: string, parameters: Json)

  /** `{"type": kind, "function": func}` as the model provider expects it. */
  datatype ProviderSpec = ProviderSpec(kind: string, func: FunctionDecl)

  /** The provider specs for a tool list, as a function: one `"function"` spec per tool, in order. */
  function ProviderSpecs(tools: seq<ToolSpec>): seq<ProviderSpec>
    decreases |tools|
  {
    if tools == [] then []
    else [ProviderSpec("function", FunctionDecl(tools[0].name, tools[0].description, tools[0].parameters))] +
         ProviderSpecs(tools[1..])
  }

  /** One advertised spec per tool, in order, each declaring that tool as a function. */
  lemma {:induction false} ProviderSpecsAt(tools: seq<ToolSpec>)
    ensures |ProviderSpecs(tools)| == |tools|
    ensures forall i :: 0 <= i < |tools| ==>
      ProviderSpecs(tools)[i] == ProviderSpec("function", FunctionDecl(tools[i].name, tools[i].description, tools[i].parameters))
    decreases |tools|
  {
    if tools != [] {
      ProviderSpecsAt(tools[1..]);
      forall i | 1 <= i < |tools|
        ensures ProviderSpecs(tools)[i] == ProviderSpecs(tools[1..])[i - 1]
      {
      }
    }
  }

  /**
   * `openai_tool_specs`: one provider spec per tool, in registry order, each
   * of type `"function"` copying the tool's name, description and parameters.
   */
  method OpenAIToolSpecs(tools: seq<ToolSpec>) returns (specs: seq<ProviderSpec>)
    ensures specs == ProviderSpecs(tools)
    ensures |specs| == |tools|
    ensures forall i :: 0 <= i < |tools| ==>
      && specs[i].kind == "function"
      && specs[i].func == FunctionDecl(tools[i].name, tools[i].description, tools[i].parameters)
  {
    specs := [];
    for i := 0 to |tools|
      invariant |specs| == i
      invariant forall k :: 0 <= k < i ==>
        specs[k] == ProviderSpec("function", FunctionDecl(tools[k].name, tools[k].description, tools[k].parameters))
    {
      var t := tools[i];
      specs := specs + [ProviderSpec("function", FunctionDecl(t.name, t.description, t.parameters))];
    }
    ProviderSpecsAt(tools);
  }

  // ---------------------------------------------------------------------------
  // Dispatch

  /** `{t["name"]: t["handler"] for t in tools}`: a later tool of the same name overwrites an earlier one. */
  function Mapping(tools: seq<ToolSpec>): map<string, Handler>
    decreases |tools|
  {
    if tools == [] then map[]
    else
      var last := tools[|tools| - 1];
      Mapping(tools[..|tools| - 1])[last.name := last.handler]
  }

  /** Some tool of the list carries `name`. */
  ghost predicate Registered(tools: seq<ToolSpec>, name: string) {
    exists i :: 0 <= i < |tools| && tools[i].name == name
  }

  /** `i` is the last position of a tool named `name`. */
  ghost predicate LastWithName(tools: seq<ToolSpec>, name: string, i: int) {
    0 <= i < |tools| && tools[i].name == name && forall j :: i < j < |tools| ==> tools[j].name != name
  }

  /** The mapping's keys are exactly the registered names. */
  lemma {:induction false} MappingKeys(tools: seq<ToolSpec>, name: string)
    ensures name in Mapping(tools) <==> Registered(tools, name)
    decreases |tools|
  {
    if tools != [] {
      var init := tools[..|tools| - 1];
      MappingKeys(init, name);
      if Registered(init, name) {
        var i :| 0 <= i < |init| && init[i].name == name;
        assert tools[i].name == name;
      }
      if Registered(tools, name) && tools[|tools| - 1].name != name {
        var i :| 0 <= i < |tools| && tools[i].name == name;
        assert init[i].name == name;
      }
    }
  }

  /** When names repeat, the last registration wins. */
  lemma {:induction false} MappingLastWins(tools: seq<ToolSpec>, name: string, i: int)
    requires LastWithName(tools, name, i)
    ensures name in Mapping(tools) && Mapping(tools)[name] == tools[i].handler
    decreases |tools|
  {
    var init := tools[..|tools| - 1];
    if i < |tools| - 1 {
      MappingLastWins(init, name, i);
    }
  }

  /** `{"error": "Unknown tool: <name>"}`. */
  function UnknownTool(name: string): (r: Json)
    ensures r.JObj? && r.fields.Keys == {"error"}
    ensures r.fields["error"] == JStr("Unknown tool: " + name)
  {
    JObj(map["error" := JStr("Unknown tool: " + name)])
  }

  /**
   * `call_tool(tools, name, args)`: an unknown name yields a structured error
   * value; a known one calls its handler with `**args`, which raises unless
   * `args` is a dictionary.
   */
  function CallTool(tools: seq<ToolSpec>, name: string, args: Json): Result<Json, string> {
    var mapping := Mapping(tools);
    if name !in mapping then Ok(UnknownTool(name))
    else if !args.JObj? then Err(NotAMapping)
    else mapping[name](args.fields)
  }

  /** A name no tool carries yields the unknown-tool error value and no handler runs. */
  lemma CallToolUnknown(tools: seq<ToolSpec>, name: string, args: Json)
    requires !Registered(tools, name)
    ensures CallTool(tools, name, args) == Ok(UnknownTool(name))
  {
    MappingKeys(tools, name);
  }

  /** A registered name runs the handler of the last tool with that name on the given arguments. */
  lemma CallToolDispatch(tools: seq<ToolSpec>, name: string, i: int, args: map<string, Json>)
    requires LastWithName(tools, name, i)
    ensures CallTool(tools, name, JObj(args)) == tools[i].handler(args)
  {
    MappingLastWins(tools, name, i);
  }

  /** A registered name with arguments that are not a dictionary raises, as `**args` does. */
  lemma CallToolNotAMapping(tools: seq<ToolSpec>, name: string, args: Json)
    requires Registered(tools, name) && !args.JObj?
    ensures CallTool(tools, name, args) == Err(NotAMapping)
  {
    MappingKeys(tools, name);
  }
}
