/** The values the clients and scripts exchange with the Anthropic Messages API
    and with an MCP server, and the small rules they share: the tool catalog sent
    to the model, the launch command chosen from a server script's suffix, the
    "[Chamando ferramenta ...]" line, `response.content[0].text`, the first
    `tool_use` block of a reply, the `tool_result` reply and keyword binding. */
module Protocol {
  import opened Strings
  import opened Exceptions

  // ---- tool arguments: a JSON object as the model sent it -------------------

  datatype Value = JInt(i: int) | JStr(s: string)

  ghost predicate DistinctKeys(a: seq<(string, Value)>)
  {
    forall i, j :: 0 <= i < j < |a| ==> a[i].0 != a[j].0
  }

  /** A Python dict from a JSON object: keys are distinct and keep their order. */
  type Args = a: seq<(string, Value)> | DistinctKeys(a)

  function Lookup(args: seq<(string, Value)>, key: string): (r: Option<Value>)
    ensures r.Some? <==> exists i :: 0 <= i < |args| && args[i].0 == key
    ensures r.Some? ==> exists i :: 0 <= i < |args| && args[i] == (key, r.value)
  {
    if args == [] then None
    else if args[0].0 == key then Some(args[0].1)
    else
      var r := Lookup(args[1..], key);
      assert forall i :: 0 <= i < |args[1..]| ==> args[1..][i] == args[i + 1];
      r
  }

  function ValueRepr(v: Value): string
  {
    match v
    case JInt(i) => IntToString(i)
    case JStr(s) => Quote(s)
  }

  /** `str(d)` of the arguments dict: `{'a': 316043, 'b': 201122}`. */
  function ArgsRepr(args: Args): string
  {
    "{" + Join(", ", seq(|args|, i requires 0 <= i < |args| => Quote(args[i].0) + ": " + ValueRepr(args[i].1))) + "}"
  }

  /** The text both clients add to their output for each tool call. */
  function CallLine(name: string, args: Args): string
  {
    "[Chamando ferramenta " + name + " com args " + ArgsRepr(args) + "]"
  }

  // ---- MCP: what a server lists and what a call returns ---------------------

  datatype ToolContent = TextContent(text: string) | ImageContent(data: string, mimeType: string) | ResourceContent(uri: string)

  datatype CallToolResult = CallToolResult(content: seq<ToolContent>, isError: bool)

  datatype Property = Property(name: string, kind: string, description: string)

  datatype Schema = Schema(properties: seq<Property>, required: seq<string>)

  /** A tool as `session.list_tools()` reports it. */
  datatype Tool = Tool(name: string, description: Option<string>, inputSchema: Schema)

  /** The tool provider at the other end of a session: what it lists and what a call returns. */
  datatype Server = Server(tools: seq<Tool>, call: (string, Args) -> CallToolResult)

  /** The stdio session a client holds after `connect_to_server`: the command
      and arguments it launched and the server it reached. */
  datatype Connection = Connection(command: string, args: seq<string>, server: Server)

  // ---- Anthropic Messages API -----------------------------------------------

  /** A block of a model reply. `textAttr` is what `getattr(block, "text")` finds on
      a tool-use block (the SDK's tool-use blocks have none, so it is normally None). */
  datatype Block =
    | TextBlock(text: string)
    | ToolUseBlock(id: string, name: string, input: Args, textAttr: Option<string>)

  datatype ResultPayload = ResultText(text: string) | ResultItems(items: seq<ToolContent>)

  /** `{"type": "tool_result", "tool_use_id": ..., "content": ...}` */
  datatype ToolResultPart = ToolResultPart(toolUseId: string, content: ResultPayload)

  /** The `content` of a message: a plain string, the blocks of a reply, a list of
      tool results, or a list of MCP content items passed through unchanged. */
  datatype Content =
    | Plain(text: string)
    | Blocks(blocks: seq<Block>)
    | ToolResults(results: seq<ToolResultPart>)
    | Items(items: seq<ToolContent>)

  datatype Role = User | Assistant

  datatype Message = Message(role: Role, content: Content)

  /** A tool entry of the `tools=` argument: `{"name", "description", "input_schema"}`. */
  datatype ToolParam = ToolParam(name: string, description: Option<string>, inputSchema: Schema)

  /** `messages.create(messages=..., tools=...)`; `None` when no `tools=` is passed. */
  type Model = (seq<Message>, Option<seq<ToolParam>>) -> seq<Block>

  /** The calls a client makes to its two oracles, in the order it makes them. */
  datatype Event =
    | ModelCall(messages: seq<Message>, tools: Option<seq<ToolParam>>)
    | ToolCall(name: string, input: Args)

  /** What a client's `process_query` has produced so far: the `final_text` entries,
      the oracle calls made, and the exception raised, if any. */
  datatype Run = Run(texts: seq<string>, events: seq<Event>, failure: Option<Exception>)

  /** The seed history of every client: one user message carrying the query. */
  function Seed(query: string): seq<Message>
  {
    [Message(User, Plain(query))]
  }

  /** `available_tools`: one entry per listed tool, in listing order, fields copied. */
  function Catalog(tools: seq<Tool>): (r: seq<ToolParam>)
    ensures |r| == |tools|
    ensures forall i :: 0 <= i < |tools| ==>
      r[i].name == tools[i].name && r[i].description == tools[i].description && r[i].inputSchema == tools[i].inputSchema
  {
    seq(|tools|, i requires 0 <= i < |tools| => ToolParam(tools[i].name, tools[i].description, tools[i].inputSchema))
  }

  /** A name is offered to the model exactly when the server lists a tool of that name. */
  lemma CatalogNames(tools: seq<Tool>, name: string)
    ensures (exists i :: 0 <= i < |Catalog(tools)| && Catalog(tools)[i].name == name)
        <==> (exists i :: 0 <= i < |tools| && tools[i].name == name)
  {
    var c := Catalog(tools);
    if exists i :: 0 <= i < |tools| && tools[i].name == name {
      var i :| 0 <= i < |tools| && tools[i].name == name;
      assert c[i].name == name;
    }
  }

  // ---- connect_to_server ----------------------------------------------------

  const ScriptSuffixError := ValueError("O script do servidor deve ser um arquivo .py ou .js")

  /** The interpreter `connect_to_server` launches for a server script. */
  function LaunchCommand(path: string): (r: Result<string>)
    ensures r.Ok? <==> EndsWith(path, ".py") || EndsWith(path, ".js")
    ensures r.Ok? ==> (r.value == "python" <==> EndsWith(path, ".py"))
    ensures r.Ok? ==> (r.value == "node" <==> EndsWith(path, ".js"))
    ensures r.Err? ==> r.error == ScriptSuffixError
  {
    var isPython := EndsWith(path, ".py");
    var isJs := EndsWith(path, ".js");
    if !(isPython || isJs) then Err(ScriptSuffixError)
    else
      assert !(isPython && isJs) by { SuffixesExclusive(path); }
      Ok(if isPython then "python" else "node")
  }

  lemma SuffixesExclusive(path: string)
    ensures !(EndsWith(path, ".py") && EndsWith(path, ".js"))
  {
  }

  // ---- reading a reply ------------------------------------------------------

  /** `getattr(block, "text", None)`. */
  function TextAttr(b: Block): Option<string>
  {
    match b
    case TextBlock(t) => Some(t)
    case ToolUseBlock(_, _, _, t) => t
  }

  /** `response.content[0].text`: IndexError on an empty reply, AttributeError when
      the first block has no text. */
  function FirstText(reply: seq<Block>): (r: Result<string>)
    ensures r.Ok? <==> reply != [] && TextAttr(reply[0]).Some?
    ensures r.Ok? ==> r.value == TextAttr(reply[0]).value
    ensures reply == [] ==> r == Err(IndexOutOfRange)
  {
    if reply == [] then Err(IndexOutOfRange)
    else match TextAttr(reply[0])
      case Some(t) => Ok(t)
      case None => Err(AttributeError("'ToolUseBlock' object has no attribute 'text'"))
  }

  /** `[b for b in blocks if b.type == "tool_use"]`. */
  function ToolUses(blocks: seq<Block>): (r: seq<Block>)
    ensures |r| <= |blocks|
    ensures forall i :: 0 <= i < |r| ==> r[i].ToolUseBlock? && r[i] in blocks
  {
    if blocks == [] then []
    else
      var init := ToolUses(blocks[..|blocks| - 1]);
      var last := blocks[|blocks| - 1];
      assert forall b :: b in blocks[..|blocks| - 1] ==> b in blocks;
      if last.ToolUseBlock? then init + [last] else init
  }

  lemma ToolUsesAppend(blocks: seq<Block>, b: Block)
    ensures ToolUses(blocks + [b]) == ToolUses(blocks) + (if b.ToolUseBlock? then [b] else [])
  {
    assert (blocks + [b])[..|blocks|] == blocks;
  }

  lemma UsesStep(blocks: seq<Block>, k: nat)
    requires 0 < k <= |blocks|
    ensures ToolUses(blocks[..k]) == ToolUses(blocks[..k - 1]) + (if blocks[k - 1].ToolUseBlock? then [blocks[k - 1]] else [])
  {
    assert blocks[..k] == blocks[..k - 1] + [blocks[k - 1]];
    ToolUsesAppend(blocks[..k - 1], blocks[k - 1]);
  }

  lemma {:induction false} ToolUsesFront(blocks: seq<Block>)
    requires blocks != []
    ensures ToolUses(blocks) == (if blocks[0].ToolUseBlock? then [blocks[0]] else []) + ToolUses(blocks[1..])
  {
    if |blocks| > 1 {
      var init := blocks[..|blocks| - 1];
      ToolUsesFront(init);
      assert init[1..] == blocks[1..][..|blocks[1..]| - 1];
    } else {
      assert blocks[..0] == [] && blocks[1..] == [];
    }
  }

  /** `[b for b in content if b.type == "tool_use"][0]`. */
  function FirstToolUse(blocks: seq<Block>): (r: Result<Block>)
    ensures r.Ok? ==> r.value.ToolUseBlock?
  {
    var uses := ToolUses(blocks);
    if uses == [] then Err(IndexOutOfRange) else Ok(uses[0])
  }

  /** The request picked is the first tool-use block of the reply; text blocks are
      skipped, and only a reply without any tool use raises IndexError. */
  lemma {:induction false} FirstToolUseIsFirst(blocks: seq<Block>)
    ensures FirstToolUse(blocks).Err? <==> forall i :: 0 <= i < |blocks| ==> !blocks[i].ToolUseBlock?
    ensures FirstToolUse(blocks).Err? ==> FirstToolUse(blocks).error == IndexOutOfRange
    ensures FirstToolUse(blocks).Ok? ==>
      exists i :: 0 <= i < |blocks| && blocks[i] == FirstToolUse(blocks).value && blocks[i].ToolUseBlock?
        && forall j :: 0 <= j < i ==> !blocks[j].ToolUseBlock?
  {
    if blocks != [] {
      ToolUsesFront(blocks);
      var rest := blocks[1..];
      FirstToolUseIsFirst(rest);
      if !blocks[0].ToolUseBlock? {
        assert FirstToolUse(blocks) == FirstToolUse(rest);
        assert forall i :: 1 <= i < |blocks| ==> blocks[i] == rest[i - 1];
        if FirstToolUse(rest).Ok? {
          var i :| 0 <= i < |rest| && rest[i] == FirstToolUse(rest).value && rest[i].ToolUseBlock?
            && forall j :: 0 <= j < i ==> !rest[j].ToolUseBlock?;
          assert blocks[i + 1] == rest[i];
          assert forall j :: 0 <= j < i + 1 ==> !blocks[j].ToolUseBlock? by {
            forall j | 0 <= j < i + 1 ensures !blocks[j].ToolUseBlock? {
              if j > 0 { assert blocks[j] == rest[j - 1]; }
            }
          }
        }
      }
    }
  }

  /** The user message answering a tool request: one `tool_result` whose
      `tool_use_id` is the request's id and whose content is the given text. */
  function ToolReply(request: Block, text: string): (m: Message)
    requires request.ToolUseBlock?
    ensures m.role == User && m.content.ToolResults? && |m.content.results| == 1
    ensures m.content.results[0].toolUseId == request.id
    ensures m.content.results[0].content == ResultText(text)
  {
    Message(User, ToolResults([ToolResultPart(request.id, ResultText(text))]))
  }

  /** How the two scripts answer a reply: take its first tool use, dispatch it by
      name, and send back `str` of the result under the request's id. The first
      exception raised on the way (no tool use, unknown name, bad arguments) is the
      script's. */
  function AnswerFirstRequest(reply: seq<Block>, dispatch: (string, Args) -> Result<string>): (r: Result<Message>)
    ensures r.Err? <==>
      (FirstToolUse(reply).Err? || dispatch(FirstToolUse(reply).value.name, FirstToolUse(reply).value.input).Err?)
    ensures FirstToolUse(reply).Err? ==> r == Err(IndexOutOfRange)
    ensures r.Ok? ==> var q := FirstToolUse(reply).value;
      r.value.role == User && r.value.content.ToolResults? && |r.value.content.results| == 1 &&
      r.value.content.results[0].toolUseId == q.id &&
      r.value.content.results[0].content == ResultText(dispatch(q.name, q.input).value)
  {
    var q :- FirstToolUse(reply);
    var text :- dispatch(q.name, q.input);
    Ok(ToolReply(q, text))
  }

  /** What one of the straight-line scripts did: the model calls it made, in order,
      and the content of its last reply, or the exception that stopped it. */
  datatype ScriptRun = ScriptRun(calls: seq<Event>, final: Result<seq<Block>>)

  /** The call `next` answers the reply to `prev`: its history is that of `prev`
      followed by the reply, as an assistant message, and the tool reply built from
      that reply's first request. */
  ghost predicate Answers(model: Model, dispatch: (string, Args) -> Result<string>, prev: Event, next: Event)
  {
    prev.ModelCall? && next.ModelCall? &&
    var reply := model(prev.messages, prev.tools);
    var answer := AnswerFirstRequest(reply, dispatch);
    answer.Ok? && next.messages == prev.messages + [Message(Assistant, Blocks(reply)), answer.value]
  }

  // ---- calling a Python function with **input ------------------------------

  ghost predicate IsParam(params: seq<(string, Option<Value>)>, key: string)
  {
    exists i :: 0 <= i < |params| && params[i].0 == key
  }

  function FirstUnexpected(args: seq<(string, Value)>, params: seq<(string, Option<Value>)>): (r: Option<string>)
    ensures r.None? <==> forall i :: 0 <= i < |args| ==> IsParam(params, args[i].0)
    ensures r.Some? ==> !IsParam(params, r.value)
  {
    if args == [] then None
    else if (exists i :: 0 <= i < |params| && params[i].0 == args[0].0) then
      var r := FirstUnexpected(args[1..], params);
      assert forall i :: 0 <= i < |args[1..]| ==> args[1..][i] == args[i + 1];
      r
    else Some(args[0].0)
  }

  function BindParams(fname: string, args: Args, params: seq<(string, Option<Value>)>): (r: Result<seq<Value>>)
    ensures r.Ok? <==> forall i :: 0 <= i < |params| ==> Lookup(args, params[i].0).Some? || params[i].1.Some?
    ensures r.Ok? ==> |r.value| == |params| && forall i :: 0 <= i < |params| ==>
      r.value[i] == (if Lookup(args, params[i].0).Some? then Lookup(args, params[i].0).value else params[i].1.value)
    ensures r.Err? ==> r.error.TypeError?
  {
    if params == [] then Ok([])
    else
      var p := params[0];
      var v := Lookup(args, p.0);
      if v.None? && p.1.None? then Err(TypeError(fname + "() missing required argument: " + Quote(p.0)))
      else
        var rest := BindParams(fname, args, params[1..]);
        assert forall i :: 0 <= i < |params[1..]| ==> params[1..][i] == params[i + 1];
        if rest.Err? then rest
        else Ok([if v.Some? then v.value else p.1.value] + rest.value)
  }

  /** `f(**args)` for a function `fname` with keyword parameters `params`, each with
      an optional default: an unexpected keyword or a missing argument is a TypeError;
      otherwise one value per parameter, taken from `args` or from its default. */
  function Bind(fname: string, args: Args, params: seq<(string, Option<Value>)>): (r: Result<seq<Value>>)
    ensures r.Ok? <==>
      (forall i :: 0 <= i < |args| ==> IsParam(params, args[i].0)) &&
      (forall i :: 0 <= i < |params| ==> Lookup(args, params[i].0).Some? || params[i].1.Some?)
    ensures r.Ok? ==> |r.value| == |params| && forall i :: 0 <= i < |params| ==>
      r.value[i] == (if Lookup(args, params[i].0).Some? then Lookup(args, params[i].0).value else params[i].1.value)
    ensures r.Err? ==> r.error.TypeError?
  {
    match FirstUnexpected(args, params)
    case Some(k) => Err(TypeError(fname + "() got an unexpected keyword argument " + Quote(k)))
    case None => BindParams(fname, args, params)
  }
}
