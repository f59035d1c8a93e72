/** The script that has the model write a one-paragraph story and store it with the
    `create_document` tool: the catalog, the dispatch by name, and the two model
    calls with the histories they receive. The Google Docs call is the oracle
    `createDocument`. */
module SecondToolAgent {
  import opened Strings
  import opened Exceptions
  import opened Protocol

  const PROMPT := "Crie um conto de terror que seja de 1 parágrafo, e depois carregue-o para o Google Docs."

  /** `create_document(title="Placeholder", text="Placeholder")`: both parameters have
      a default, although the catalog marks both as required. */
  const CreateDocumentParams: seq<(string, Option<Value>)> :=
    [("title", Some(JStr("Placeholder"))), ("text", Some(JStr("Placeholder")))]

  /** `str(TOOL_MAPPING[name](**input))`. The oracle `createDocument` is total: its
      result is the text `create_document` returns, and a failure of the Google Docs
      service or of its sign-in is not modelled. */
  function Dispatch(name: string, input: Args, createDocument: (Value, Value) -> string): (r: Result<string>)
    ensures name != "create_document" <==> r == Err(KeyError(name))
    ensures r.Err? ==> r.error.KeyError? || r.error.TypeError?
    ensures name == "create_document" && r.Ok? ==>
      r.value == createDocument(
        if Lookup(input, "title").Some? then Lookup(input, "title").value else JStr("Placeholder"),
        if Lookup(input, "text").Some? then Lookup(input, "text").value else JStr("Placeholder"))
  {
    if name == "create_document" then
      var args :- Bind("create_document", input, CreateDocumentParams);
      Ok(createDocument(args[0], args[1]))
    else Err(KeyError(name))
  }

  /** `create_document` raises only for an argument it does not know; a missing
      title or text takes its default. */
  lemma DispatchDefaults(input: Args, createDocument: (Value, Value) -> string)
    requires forall i :: 0 <= i < |input| ==> IsParam(CreateDocumentParams, input[i].0)
    ensures Dispatch("create_document", input, createDocument).Ok?
  {
  }

  /** `TOOL_MAPPING`, as the function the script dispatches through. */
  function ToolMapping(createDocument: (Value, Value) -> string): (string, Args) -> Result<string>
  {
    (name: string, input: Args) => Dispatch(name, input, createDocument)
  }

  /** `TOOLS`: the one tool, passed on both calls. */
  const TOOLS: seq<ToolParam> := [
    ToolParam("create_document", Some("Crie um novo documento do Google Docs com o título e o texto fornecidos"),
      Schema([Property("title", "string", "The title of the document"),
              Property("text", "string", "The text to insert into the document body")], ["title", "text"]))
  ]

  /** The whole script: the call on the prompt, the first tool request answered, and
      the follow-up call. Both calls get TOOLS. The follow-up history is exactly the
      prompt, the initial reply as the assistant's message, and the user message
      `AnswerFirstRequest` builds: one tool result carrying the id of the initial
      reply's first tool use and the text of its dispatch. A reply without a tool use
      stops the script with IndexError before the second call, and a failed dispatch
      with its exception. */
  function Script(model: Model, createDocument: (Value, Value) -> string): (r: ScriptRun)
    ensures 1 <= |r.calls| <= 2 && r.calls[0] == ModelCall(Seed(PROMPT), Some(TOOLS)) &&
      (r.final.Ok? <==> |r.calls| == 2)
    ensures var initial := model(Seed(PROMPT), Some(TOOLS));
      |r.calls| == 2 ==>
        FirstToolUse(initial).Ok? &&
        r.calls[1].ModelCall? && r.calls[1].tools == Some(TOOLS) &&
        |r.calls[1].messages| == 3 &&
        r.calls[1].messages[0] == Message(User, Plain(PROMPT)) &&
        r.calls[1].messages[1] == Message(Assistant, Blocks(initial)) &&
        AnswerFirstRequest(initial, ToolMapping(createDocument)).Ok? &&
        r.calls[1].messages[2] == AnswerFirstRequest(initial, ToolMapping(createDocument)).value &&
        r.calls[1].messages[2].content.ToolResults? &&
        |r.calls[1].messages[2].content.results| == 1 &&
        r.calls[1].messages[2].content.results[0].toolUseId == FirstToolUse(initial).value.id &&
        r.final == Ok(model(r.calls[1].messages, Some(TOOLS)))
    ensures var initial := model(Seed(PROMPT), Some(TOOLS));
      r.final.Err? ==> |r.calls| == 1 && AnswerFirstRequest(initial, ToolMapping(createDocument)) == Err(r.final.error)
    ensures var initial := model(Seed(PROMPT), Some(TOOLS));
      FirstToolUse(initial).Err? ==> r == ScriptRun([ModelCall(Seed(PROMPT), Some(TOOLS))], Err(IndexOutOfRange))
  {
    var h1 := Seed(PROMPT);
    var initial := model(h1, Some(TOOLS));
    match AnswerFirstRequest(initial, ToolMapping(createDocument))
    case Err(e) => ScriptRun([ModelCall(h1, Some(TOOLS))], Err(e))
    case Ok(reply) =>
      var h2 := [Message(User, Plain(PROMPT)), Message(Assistant, Blocks(initial)), reply];
      ScriptRun([ModelCall(h1, Some(TOOLS)), ModelCall(h2, Some(TOOLS))], Ok(model(h2, Some(TOOLS))))
  }
}
