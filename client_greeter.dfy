/** The Greeter client: the greeting rule that decides whether the `greet` tool is
    called, the `.py`-only launch rule, and the console loop that strips each line,
    stops on "quit" and reports an exception without leaving the loop. `str.lower`
    is the oracle `lower`; console lines are the sequence `lines`. */
module ClientGreeter {
  import opened Strings
  import opened Exceptions
  import opened Protocol

  const Greetings := ["olá", "oi", "hey"]

  const Hint := "Por favor, use 'Olá', 'Oi' ou 'Hey' para receber uma saudação."

  const NotPython := ValueError("O script do servidor deve ser um arquivo .py")

  const NoSession := AttributeError("'NoneType' object has no attribute 'call_tool'")

  /** `result.content[0].text`: IndexError for no content, AttributeError when the
      first item is not text. */
  function FirstContentText(content: seq<ToolContent>): (r: Result<string>)
    ensures r.Ok? <==> content != [] && content[0].TextContent?
    ensures r.Ok? ==> r.value == content[0].text
    ensures content == [] ==> r == Err(IndexOutOfRange)
  {
    if content == [] then Err(IndexOutOfRange)
    else if content[0].TextContent? then Ok(content[0].text)
    else Err(AttributeError("object has no attribute 'text'"))
  }

  /** `process_greeting`: the answer, and the tool calls it made. */
  function ProcessGreeting(session: Option<Connection>, greeting: string, lower: string -> string): (r: (Result<string>, seq<Event>))
    ensures r.1 == [ToolCall("greet", [])] <==> lower(greeting) in Greetings && session.Some?
    ensures r.1 != [] ==> r.1 == [ToolCall("greet", [])]
    ensures lower(greeting) !in Greetings ==> r.0 == Ok(Hint)
    ensures lower(greeting) in Greetings && session.Some? ==>
      r.0 == FirstContentText(session.value.server.call("greet", []).content)
    ensures lower(greeting) in Greetings && session.None? ==> r.0 == Err(NoSession)
  {
    if lower(greeting) in Greetings then
      if session.None? then (Err(NoSession), [])
      else (FirstContentText(session.value.server.call("greet", []).content), [ToolCall("greet", [])])
    else (Ok(Hint), [])
  }

  /** What one loop iteration prints for a line: nothing, and the loop ends, when the
      stripped line lower-cases to "quit"; otherwise the answer to the stripped line,
      or the exception raised while answering it. */
  function Respond(session: Option<Connection>, lower: string -> string, line: string): (r: Option<string>)
    ensures r.None? <==> lower(Strip(line)) == "quit"
    ensures r.Some? ==> var answer := ProcessGreeting(session, Strip(line), lower).0;
      r.value == if answer.Ok? then "\n" + answer.value else "\nErro: " + Str(answer.error)
  {
    var greeting := Strip(line);
    if lower(greeting) == "quit" then None
    else match ProcessGreeting(session, greeting, lower).0
      case Ok(response) => Some("\n" + response)
      case Err(e) => Some("\nErro: " + Str(e))
  }

  /** `Respond` for a fixed session and `lower`, as the loop applies it to each line. */
  function Responder(session: Option<Connection>, lower: string -> string): string -> Option<string>
  {
    line => Respond(session, lower, line)
  }

  /** What the loop prints over `lines` when it stops at the first line that ends it
      or at the end of the input. */
  function Session(respond: string -> Option<string>, lines: seq<string>): (r: seq<string>)
    ensures |r| <= |lines|
  {
    if lines == [] then []
    else match respond(lines[0])
      case None => []
      case Some(p) => [p] + Session(respond, lines[1..])
  }

  /** The index of the first line that ends the loop, or `|lines|`. */
  function QuitAt(respond: string -> Option<string>, lines: seq<string>): (q: nat)
    ensures q <= |lines|
    ensures forall i :: 0 <= i < q ==> respond(lines[i]).Some?
    ensures q < |lines| ==> respond(lines[q]).None?
  {
    if lines == [] || respond(lines[0]).None? then 0 else 1 + QuitAt(respond, lines[1..])
  }

  /** One printed entry per line before the first "quit", each that line's response. */
  lemma {:induction false} SessionContents(respond: string -> Option<string>, lines: seq<string>)
    ensures |Session(respond, lines)| == QuitAt(respond, lines)
    ensures forall i :: 0 <= i < QuitAt(respond, lines) ==>
      respond(lines[i]).Some? && Session(respond, lines)[i] == respond(lines[i]).value
  {
    if lines != [] && respond(lines[0]).Some? {
      SessionContents(respond, lines[1..]);
      var s := Session(respond, lines);
      forall i | 0 <= i < QuitAt(respond, lines)
        ensures respond(lines[i]).Some? && s[i] == respond(lines[i]).value
      {
        if i > 0 {
          assert lines[i] == lines[1..][i - 1];
        }
      }
    }
  }

  /** One step of `Session` from line `i`. */
  lemma SessionStep(respond: string -> Option<string>, lines: seq<string>, i: nat)
    requires i < |lines|
    ensures respond(lines[i]).None? ==> Session(respond, lines[i..]) == []
    ensures respond(lines[i]).Some? ==>
      Session(respond, lines[i..]) == [respond(lines[i]).value] + Session(respond, lines[i + 1..])
  {
    assert lines[i..][0] == lines[i];
    assert lines[i..][1..] == lines[i + 1..];
  }

  // ---- the loop as the source writes it --------------------------------------

  const EOFMessage := "\nErro: " + Str(EOFError)

  /** The first `n` iterations of `while True` as written: once the input is used up,
      `input()` raises EOFError, which `except Exception` catches, so each further
      iteration prints the EOF error and the loop goes on. */
  function AsWritten(respond: string -> Option<string>, lines: seq<string>, n: nat): (r: (seq<string>, bool))
    ensures |r.0| <= n
    ensures r.1 <==> QuitAt(respond, lines) < |lines| && QuitAt(respond, lines) < n
  {
    if n == 0 then ([], false)
    else if lines == [] then
      var rest := AsWritten(respond, [], n - 1);
      ([EOFMessage] + rest.0, rest.1)
    else match respond(lines[0])
      case None => ([], true)
      case Some(p) =>
        var rest := AsWritten(respond, lines[1..], n - 1);
        ([p] + rest.0, rest.1)
  }

  /** At the end of the input the loop as written never stops: for every `n`, `n`
      iterations print `n` EOF errors and leave the loop running. */
  lemma {:induction false} AsWrittenSpinsAtEOF(respond: string -> Option<string>, n: nat)
    ensures !AsWritten(respond, [], n).1
    ensures |AsWritten(respond, [], n).0| == n
    ensures forall i :: 0 <= i < n ==> AsWritten(respond, [], n).0[i] == EOFMessage
  {
    if n > 0 {
      AsWrittenSpinsAtEOF(respond, n - 1);
    }
  }

  /** With the interactive input closed before any line, the Greeter loop as written
      never ends: after any number of iterations it is still running. */
  lemma ClosedInputNeverEnds(session: Option<Connection>, lower: string -> string)
    ensures forall n: nat :: !AsWritten(Responder(session, lower), [], n).1
  {
    forall n: nat ensures !AsWritten(Responder(session, lower), [], n).1 {
      AsWrittenSpinsAtEOF(Responder(session, lower), n);
    }
  }

  /** Up to the end of the input the loop as written and the stopping loop agree:
      `|lines| + 1` iterations as written print the stopping loop's output, followed by
      one EOF error exactly when no line said "quit". */
  lemma {:induction false} AsWrittenAgrees(respond: string -> Option<string>, lines: seq<string>)
    ensures AsWritten(respond, lines, |lines| + 1).1 == (QuitAt(respond, lines) < |lines|)
    ensures AsWritten(respond, lines, |lines| + 1).0 ==
      Session(respond, lines) + (if QuitAt(respond, lines) < |lines| then [] else [EOFMessage])
  {
    if lines == [] {
      assert AsWritten(respond, [], 0) == ([], false);
    } else if respond(lines[0]).Some? {
      AsWrittenAgrees(respond, lines[1..]);
    }
  }

  // ---- the client -------------------------------------------------------------

  class GreeterClient {
    var session: Option<Connection>

    constructor ()
      ensures session == None
    {
      session := None;
    }

    /** Only a .py script is accepted, and it is launched with `python`. */
    method ConnectToServer(path: string, server: Server) returns (r: Result<()>)
      modifies this
      ensures EndsWith(path, ".py") ==> r == Ok(()) && session == Some(Connection("python", [path], server))
      ensures !EndsWith(path, ".py") ==> r == Err(NotPython) && session == old(session)
    {
      if !EndsWith(path, ".py") {
        return Err(NotPython);
      }
      session := Some(Connection("python", [path], server));
      r := Ok(());
    }

    /** `chat_loop`, stopping at the end of the input as well as at "quit": what it
        prints is `Session`. */
    method ChatLoop(lines: seq<string>, lower: string -> string) returns (out: seq<string>)
      ensures out == Session(Responder(session, lower), lines)
    {
      ghost var respond := Responder(session, lower);
      out := [];
      var i := 0;
      while i < |lines|
        invariant i <= |lines|
        invariant out + Session(respond, lines[i..]) == Session(respond, lines)
      {
        var response := Respond(session, lower, lines[i]);
        SessionStep(respond, lines, i);
        if response.None? {
          return;
        }
        out := out + [response.value];
        i := i + 1;
      }
    }
  }
}
