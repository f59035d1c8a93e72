/** The script that lets the model solve "316043 - 201122, then the square root"
    with two local tools: `subtract`, `sqrt`, the name-to-function mapping the
    script dispatches through, the catalog it sends on every call, and the three
    model calls with the histories they receive. */
module FirstTool {
  import opened Strings
  import opened Exceptions
  import opened Protocol

  const PROMPT := "Encontrar o valor de 201122 removido de 316043 e depois encontrar a raiz quadrada do resultado. "
    + "Retornar este valor **apenas** com nenhuma outra palavra."

  function TypeName(v: Value): string
  {
    match v
    case JInt(_) => "int"
    case JStr(_) => "str"
  }

  /** `str(v)` of a tool's return value. */
  function ValueStr(v: Value): string
  {
    match v
    case JInt(i) => IntToString(i)
    case JStr(s) => s
  }

  /** `subtract(a, b)`: `a - b`, which Python refuses for a string operand. */
  function Subtract(a: Value, b: Value): (r: Result<Value>)
    ensures r.Ok? <==> a.JInt? && b.JInt?
    ensures r.Ok? ==> r.value.JInt? && r.value.i + b.i == a.i
    ensures r.Err? ==> r.error.TypeError?
  {
    if a.JInt? && b.JInt? then Ok(JInt(a.i - b.i))
    else Err(TypeError("unsupported operand type(s) for -: " + Quote(TypeName(a)) + " and " + Quote(TypeName(b))))
  }

  /** `str(TOOL_MAPPING[name](**input))`. The float `num**0.5` is not modelled: its
      rendering is the oracle `sqrtText`. */
  function Dispatch(name: string, input: Args, sqrtText: int -> string): (r: Result<string>)
    ensures (r.Err? && r.error.KeyError?) <==> name != "subtract" && name != "sqrt"
    ensures r.Err? && r.error.KeyError? ==> r.error.key == name
    ensures name == "subtract" && r.Ok? ==>
      Lookup(input, "a").Some? && Lookup(input, "a").value.JInt? &&
      Lookup(input, "b").Some? && Lookup(input, "b").value.JInt? &&
      r.value == IntToString(Lookup(input, "a").value.i - Lookup(input, "b").value.i)
    ensures name == "sqrt" && r.Ok? ==>
      Lookup(input, "num").Some? && Lookup(input, "num").value.JInt? &&
      r.value == sqrtText(Lookup(input, "num").value.i)
  {
    if name == "subtract" then
      var args :- Bind("subtract", input, [("a", None), ("b", None)]);
      var d :- Subtract(args[0], args[1]);
      Ok(ValueStr(d))
    else if name == "sqrt" then
      var args :- Bind("sqrt", input, [("num", None)]);
      if args[0].JInt? then Ok(sqrtText(args[0].i))
      else Err(TypeError("unsupported operand type(s) for ** or pow(): " + Quote(TypeName(args[0])) + " and 'float'"))
    else Err(KeyError(name))
  }

  /** `TOOL_MAPPING`, as the function the script dispatches through. */
  function ToolMapping(sqrtText: int -> string): (string, Args) -> Result<string>
  {
    (name: string, input: Args) => Dispatch(name, input, sqrtText)
  }

  /** The request `{"a": x, "b": y}` is answered with the decimal text of `x - y`. */
  lemma DispatchSubtract(x: int, y: int, sqrtText: int -> string)
    ensures Dispatch("subtract", [("a", JInt(x)), ("b", JInt(y))], sqrtText) == Ok(IntToString(x - y))
  {
    var params: seq<(string, Option<Value>)> := [("a", None), ("b", None)];
    var input: Args := [("a", JInt(x)), ("b", JInt(y))];
    assert params[0].0 == "a" && params[1].0 == "b";
    assert input[1..] == [("b", JInt(y))];
    assert Lookup(input, "b") == Some(JInt(y));
    assert FirstUnexpected(input, params) == None;
    var bound := Bind("subtract", input, params);
    assert bound.Ok? && |bound.value| == 2;
    assert bound.value[0] == JInt(x) && bound.value[1] == JInt(y);
  }

  /** The request `{"num": n}` is answered with the text of `n`'s square root. */
  lemma DispatchSqrt(n: int, sqrtText: int -> string)
    ensures Dispatch("sqrt", [("num", JInt(n))], sqrtText) == Ok(sqrtText(n))
  {
    var params: seq<(string, Option<Value>)> := [("num", None)];
    assert params[0].0 == "num";
  }

  /** `TOOLS`: the catalog passed on all three calls. */
  const TOOLS: seq<ToolParam> := [
    ToolParam("subtract", Some("Calcula a diferença entre `a` e `b`"),
      Schema([Property("a", "number", "O primeiro operando"),
              Property("b", "number", "O segundo operando; o número a ser subtraído")], ["a", "b"])),
    ToolParam("sqrt", Some("Encontra a raiz quadrada de um número inteiro"),
      Schema([Property("num", "number", "O operando para encontrar a raiz quadrada")], ["num"]))
  ]

  /** Every tool the catalog offers is a key of the mapping, and its required
      arguments are the mapped function's parameters. */
  lemma CatalogMatchesMapping(sqrtText: int -> string, input: Args)
    ensures forall k :: 0 <= k < |TOOLS| ==> !(Dispatch(TOOLS[k].name, input, sqrtText).Err? && Dispatch(TOOLS[k].name, input, sqrtText).error.KeyError?)
    ensures TOOLS[0].name == "subtract" && TOOLS[0].inputSchema.required == ["a", "b"]
    ensures TOOLS[1].name == "sqrt" && TOOLS[1].inputSchema.required == ["num"]
  {
  }

  /** The script's straight-line run, for the dispatch `mapping`: the initial call on
      the prompt, then twice the first tool request answered and the model called
      again on the grown history. The model is called one to three times, always with
      TOOLS. The first history is the prompt alone; each later one extends the one
      before by the reply it answered and the tool reply to that reply's first
      request. The run ends with the third reply, or with the exception raised
      answering the last reply it got. */
  function Rounds(model: Model, mapping: (string, Args) -> Result<string>): (r: ScriptRun)
    ensures 1 <= |r.calls| <= 3 &&
      (forall k :: 0 <= k < |r.calls| ==> r.calls[k].ModelCall? && r.calls[k].tools == Some(TOOLS)) &&
      r.calls[0].messages == Seed(PROMPT)
    ensures |r.calls| >= 2 ==> Answers(model, mapping, r.calls[0], r.calls[1])
    ensures |r.calls| == 3 ==> Answers(model, mapping, r.calls[1], r.calls[2])
    ensures (r.final.Ok? <==> |r.calls| == 3) &&
      (r.final.Ok? ==> r.final.value == model(r.calls[2].messages, Some(TOOLS)))
    ensures var last := r.calls[|r.calls| - 1];
      r.final.Err? ==> AnswerFirstRequest(model(last.messages, Some(TOOLS)), mapping) == Err(r.final.error)
  {
    var h1 := Seed(PROMPT);
    var initial := model(h1, Some(TOOLS));
    match AnswerFirstRequest(initial, mapping)
    case Err(e) => ScriptRun([ModelCall(h1, Some(TOOLS))], Err(e))
    case Ok(subtractReply) =>
      var h2 := h1 + [Message(Assistant, Blocks(initial)), subtractReply];
      var intermediate := model(h2, Some(TOOLS));
      match AnswerFirstRequest(intermediate, mapping)
      case Err(e) => ScriptRun([ModelCall(h1, Some(TOOLS)), ModelCall(h2, Some(TOOLS))], Err(e))
      case Ok(sqrtReply) =>
        var h3 := h2 + [Message(Assistant, Blocks(intermediate)), sqrtReply];
        ScriptRun([ModelCall(h1, Some(TOOLS)), ModelCall(h2, Some(TOOLS)), ModelCall(h3, Some(TOOLS))],
                  Ok(model(h3, Some(TOOLS))))
  }

  /** The whole script, dispatching through `TOOL_MAPPING`. */
  function Script(model: Model, sqrtText: int -> string): ScriptRun
  {
    Rounds(model, ToolMapping(sqrtText))
  }

  /** Histories only grow: the k-th call's history has 2k+1 messages and starts
      with every earlier call's history. */
  lemma ScriptHistoriesGrow(model: Model, sqrtText: int -> string)
    ensures var run := Script(model, sqrtText);
      forall j, k :: 0 <= j <= k < |run.calls| ==>
        run.calls[j].ModelCall? && run.calls[k].ModelCall? &&
        |run.calls[j].messages| == 2 * j + 1 && run.calls[j].messages <= run.calls[k].messages
  {
    var run := Script(model, sqrtText);
    if |run.calls| > 1 {
      assert Answers(model, ToolMapping(sqrtText), run.calls[0], run.calls[1]);
    }
    if |run.calls| > 2 {
      assert Answers(model, ToolMapping(sqrtText), run.calls[1], run.calls[2]);
    }
  }
}
