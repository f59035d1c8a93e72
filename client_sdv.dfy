/** The SDV client: the same suffix rule as the other clients, and a `process_query`
    whose history holds plain values. A tool-use block adds its own text as an
    assistant message only when it has a non-empty one, then the raw tool output as a
    user message without any tool_use id; follow-up calls get no tool catalog. */
module ClientSdv {
  import opened Strings
  import opened Exceptions
  import opened Protocol

  /** The messages a tool-use block appends. */
  function Turn(u: Block, server: Server): (r: seq<Message>)
    requires u.ToolUseBlock?
  {
    (if u.textAttr.Some? && u.textAttr.value != "" then [Message(Assistant, Plain(u.textAttr.value))] else [])
    + [Message(User, Items(server.call(u.name, u.input).content))]
  }

  /** `messages` once the blocks `done` of the first reply have been processed. */
  function History(query: string, done: seq<Block>, server: Server): seq<Message>
  {
    if done == [] then Seed(query)
    else
      var last := done[|done| - 1];
      History(query, done[..|done| - 1], server) + if last.ToolUseBlock? then Turn(last, server) else []
  }

  /** The run before any block: the first model call, with the query and the catalog. */
  function Start(query: string, catalog: seq<ToolParam>): Run
  {
    Run([], [ModelCall(Seed(query), Some(catalog))], None)
  }

  /** The last block of `done`, processed after the run `prev` over the blocks before it:
      a text block adds its text; a tool use calls the tool, adds the call line, and asks
      the model, without tools, for a follow-up whose first text is added too. */
  function Step(query: string, done: seq<Block>, server: Server, model: Model, prev: Run): Run
    requires done != []
  {
    match done[|done| - 1]
    case TextBlock(t) => prev.(texts := prev.texts + [t])
    case ToolUseBlock(_, name, input, _) =>
      var h := History(query, done, server);
      var follow := FirstText(model(h, None));
      var texts := prev.texts + [CallLine(name, input)];
      var events := prev.events + [ToolCall(name, input), ModelCall(h, None)];
      if follow.Ok? then Run(texts + [follow.value], events, None)
      else Run(texts, events, Some(follow.error))
  }

  /** The blocks of the first reply from index `i` on, after the run `acc` over the ones
      before; the first exception ends the walk. */
  function Go(query: string, blocks: seq<Block>, i: nat, server: Server, model: Model, acc: Run): Run
    requires i <= |blocks|
    decreases |blocks| - i
  {
    if i == |blocks| || acc.failure.Some? then acc
    else Go(query, blocks, i + 1, server, model, Step(query, blocks[..i + 1], server, model, acc))
  }

  /** The answer of `process_query` for a connected session, and the oracle calls made. */
  function Answer(query: string, server: Server, model: Model): (Result<string>, seq<Event>)
  {
    var catalog := Catalog(server.tools);
    var blocks := model(Seed(query), Some(catalog));
    var run := Go(query, blocks, 0, server, model, Start(query, catalog));
    (if run.failure.Some? then Err(run.failure.value) else Ok(Join("\n", run.texts)), run.events)
  }

  // ---- properties of the history -------------------------------------------

  /** A text block leaves the history alone; a tool-use block appends one message, or two
      when it carries a non-empty text; earlier messages are never changed. */
  lemma HistoryGrowth(query: string, done: seq<Block>, b: Block, server: Server)
    ensures var h := History(query, done, server);
      var h' := History(query, done + [b], server);
      |h'| == |h| + (if !b.ToolUseBlock? then 0 else if TextAttr(b).Some? && TextAttr(b).value != "" then 2 else 1) &&
      h'[..|h|] == h
  {
    assert (done + [b])[..|done|] == done;
  }

  /** The history only grows: the history after a prefix of the blocks is a prefix of it. */
  lemma {:induction false} HistoryMonotone(query: string, done: seq<Block>, k: nat, server: Server)
    requires k <= |done|
    ensures var h := History(query, done[..k], server);
      |h| <= |History(query, done, server)| && History(query, done, server)[..|h|] == h
  {
    if k < |done| {
      var init := done[..|done| - 1];
      assert done[..k] == init[..k];
      HistoryMonotone(query, init, k, server);
      HistoryGrowth(query, init, done[|done| - 1], server);
      assert init + [done[|done| - 1]] == done;
    } else {
      assert done[..k] == done;
    }
  }

  /** The first message carries the query; no message carries a tool_result, so no result
      is tied to the id of the block that asked for it; each assistant message is the
      non-empty text of a block. */
  lemma {:induction false} HistoryForm(query: string, done: seq<Block>, server: Server)
    ensures var h := History(query, done, server);
      |h| >= 1 && h[0] == Message(User, Plain(query)) &&
      (forall i :: 0 <= i < |h| ==> !h[i].content.ToolResults?) &&
      (forall i :: 1 <= i < |h| ==>
        (h[i].role == User && h[i].content.Items?) ||
        (h[i].role == Assistant && h[i].content.Plain? && h[i].content.text != ""))
  {
    if done != [] {
      HistoryForm(query, done[..|done| - 1], server);
    }
  }

  /** The number of messages: one, plus one per tool use, plus one per tool use with text. */
  lemma {:induction false} HistoryLength(query: string, done: seq<Block>, server: Server)
    ensures |ToolUses(done)| + 1 <= |History(query, done, server)| <= 2 * |ToolUses(done)| + 1
  {
    if done != [] {
      var init := done[..|done| - 1];
      HistoryLength(query, init, server);
      assert done == init + [done[|done| - 1]];
      ToolUsesAppend(init, done[|done| - 1]);
    }
  }

  lemma TextKeepsHistory(query: string, blocks: seq<Block>, i: nat, server: Server)
    requires i < |blocks| && blocks[i].TextBlock?
    ensures History(query, blocks[..i + 1], server) == History(query, blocks[..i], server)
  {
    assert blocks[..i + 1][..i] == blocks[..i];
  }

  /** After a tool-use block, the last message is that tool's raw output. */
  lemma HistoryEndsWithOutput(query: string, done: seq<Block>, server: Server)
    requires done != [] && done[|done| - 1].ToolUseBlock?
    ensures var h := History(query, done, server);
      var u := done[|done| - 1];
      h != [] && h[|h| - 1] == Message(User, Items(server.call(u.name, u.input).content))
  {
    var u := done[|done| - 1];
    var h0 := History(query, done[..|done| - 1], server);
    assert History(query, done, server) == h0 + Turn(u, server);
  }

  // ---- properties of the run -----------------------------------------------

  /** The m-th tool use is called with its name and input unchanged, and is followed by
      a model call without tools whose history ends with that tool's raw output. */
  ghost predicate CallsMatch(events: seq<Event>, uses: seq<Block>, server: Server)
    requires |events| == 1 + 2 * |uses|
    requires forall m :: 0 <= m < |uses| ==> uses[m].ToolUseBlock?
  {
    forall m :: 0 <= m < |uses| ==>
      events[2 * m + 1] == ToolCall(uses[m].name, uses[m].input) &&
      events[2 * m + 2].ModelCall? && events[2 * m + 2].tools == None &&
      events[2 * m + 2].messages != [] &&
      events[2 * m + 2].messages[|events[2 * m + 2].messages| - 1] ==
        Message(User, Items(server.call(uses[m].name, uses[m].input).content))
  }

  lemma CallsMatchExtend(events: seq<Event>, uses: seq<Block>, server: Server, b: Block, h: seq<Message>)
    requires |events| == 1 + 2 * |uses|
    requires forall m :: 0 <= m < |uses| ==> uses[m].ToolUseBlock?
    requires CallsMatch(events, uses, server)
    requires b.ToolUseBlock? && h != [] && h[|h| - 1] == Message(User, Items(server.call(b.name, b.input).content))
    ensures CallsMatch(events + [ToolCall(b.name, b.input), ModelCall(h, None)], uses + [b], server)
  {
    var events' := events + [ToolCall(b.name, b.input), ModelCall(h, None)];
    var uses' := uses + [b];
    forall m | 0 <= m < |uses'|
      ensures events'[2 * m + 1] == ToolCall(uses'[m].name, uses'[m].input)
      ensures events'[2 * m + 2].ModelCall? && events'[2 * m + 2].tools == None
      ensures events'[2 * m + 2].messages != []
      ensures events'[2 * m + 2].messages[|events'[2 * m + 2].messages| - 1] ==
        Message(User, Items(server.call(uses'[m].name, uses'[m].input).content))
    {
      if m < |uses| {
        assert uses'[m] == uses[m] && events'[2 * m + 1] == events[2 * m + 1] && events'[2 * m + 2] == events[2 * m + 2];
      }
    }
  }

  /** What a run without failure over the blocks `done` looks like: one `final_text`
      entry per text block and two per tool use; the first model call gets the query
      and the catalog; each tool call is matched by a follow-up call as in CallsMatch. */
  ghost predicate Shaped(run: Run, query: string, catalog: seq<ToolParam>, done: seq<Block>, server: Server)
  {
    run.failure.None? &&
    |run.texts| == |done| + |ToolUses(done)| &&
    |run.events| == 1 + 2 * |ToolUses(done)| &&
    run.events[0] == ModelCall(Seed(query), Some(catalog)) &&
    CallsMatch(run.events, ToolUses(done), server)
  }

  lemma StepShaped(run: Run, query: string, catalog: seq<ToolParam>, done: seq<Block>, b: Block, server: Server, model: Model)
    requires Shaped(run, query, catalog, done, server)
    ensures var next := Step(query, done + [b], server, model, run);
      next.failure.None? ==> Shaped(next, query, catalog, done + [b], server)
  {
    ToolUsesAppend(done, b);
    if b.ToolUseBlock? {
      HistoryEndsWithOutput(query, done + [b], server);
      CallsMatchExtend(run.events, ToolUses(done), server, b, History(query, done + [b], server));
    }
  }

  lemma {:induction false} GoShaped(query: string, catalog: seq<ToolParam>, blocks: seq<Block>, i: nat, server: Server, model: Model, acc: Run)
    requires i <= |blocks|
    requires Shaped(acc, query, catalog, blocks[..i], server)
    ensures var run := Go(query, blocks, i, server, model, acc);
      run.failure.None? ==> Shaped(run, query, catalog, blocks, server)
    decreases |blocks| - i
  {
    if i == |blocks| {
      assert blocks[..i] == blocks;
    } else {
      assert blocks[..i + 1] == blocks[..i] + [blocks[i]];
      StepShaped(acc, query, catalog, blocks[..i], blocks[i], server, model);
      var next := Step(query, blocks[..i + 1], server, model, acc);
      if next.failure.None? {
        GoShaped(query, catalog, blocks, i + 1, server, model, next);
      }
    }
  }

  /** When `process_query` returns, its text has one line per text block of the first
      reply and two per tool use, the tool is called once per tool-use block of the first
      reply only (follow-up replies are never walked), and each call is followed by a
      model call without tools on a history ending with that tool's output. */
  lemma AnswerShape(query: string, server: Server, model: Model)
    ensures var catalog := Catalog(server.tools);
      var blocks := model(Seed(query), Some(catalog));
      var run := Go(query, blocks, 0, server, model, Start(query, catalog));
      run.failure.None? ==>
        Answer(query, server, model) == (Ok(Join("\n", run.texts)), run.events) &&
        Shaped(run, query, catalog, blocks, server)
  {
    var catalog := Catalog(server.tools);
    var blocks := model(Seed(query), Some(catalog));
    assert blocks[..0] == [];
    GoShaped(query, catalog, blocks, 0, server, model, Start(query, catalog));
  }

  lemma GoStep(query: string, blocks: seq<Block>, i: nat, server: Server, model: Model, acc: Run)
    requires i < |blocks| && acc.failure.None?
    ensures Go(query, blocks, i, server, model, acc) ==
      Go(query, blocks, i + 1, server, model, Step(query, blocks[..i + 1], server, model, acc))
  {
  }

  // ---- the contents of final_text -----------------------------------------

  /** The first text of the follow-up reply the model gives, without tools, right
      after the block at index k of the first reply. */
  function FollowUp(query: string, blocks: seq<Block>, k: nat, server: Server, model: Model): Result<string>
    requires k < |blocks|
  {
    FirstText(model(History(query, blocks[..k + 1], server), None))
  }

  /** What block k puts in `final_text`, read off the block alone: a text block its
      text; a tool use the call line and then, when the follow-up has one, its first
      text. */
  function Entries(query: string, blocks: seq<Block>, k: nat, server: Server, model: Model): seq<string>
    requires k < |blocks|
  {
    match blocks[k]
    case TextBlock(t) => [t]
    case ToolUseBlock(_, name, input, _) =>
      var f := FollowUp(query, blocks, k, server, model);
      [CallLine(name, input)] + if f.Ok? then [f.value] else []
  }

  /** The entries of the blocks before index n, in order. */
  function EntriesUpTo(query: string, blocks: seq<Block>, n: nat, server: Server, model: Model): seq<string>
    requires n <= |blocks|
  {
    if n == 0 then [] else EntriesUpTo(query, blocks, n - 1, server, model) + Entries(query, blocks, n - 1, server, model)
  }

  /** Every tool use at an index in [lo, hi) gets a follow-up reply with a first text. */
  ghost predicate FollowUpsHaveText(query: string, blocks: seq<Block>, lo: nat, hi: nat, server: Server, model: Model)
    requires hi <= |blocks|
  {
    forall k :: lo <= k < hi && blocks[k].ToolUseBlock? ==> FollowUp(query, blocks, k, server, model).Ok?
  }

  /** The walk from index lo stops at the tool use k with the exception e: its
      follow-up has no first text, and every follow-up before it in [lo, k) has one. */
  ghost predicate StopsAt(query: string, blocks: seq<Block>, lo: nat, k: nat, server: Server, model: Model, e: Exception)
  {
    lo <= k < |blocks| && blocks[k].ToolUseBlock? &&
    FollowUp(query, blocks, k, server, model) == Err(e) &&
    FollowUpsHaveText(query, blocks, lo, k, server, model)
  }

  /** One block: the step fails iff the block is a tool use whose follow-up has no
      text, and otherwise adds exactly the block's entries. */
  lemma StepTexts(query: string, blocks: seq<Block>, i: nat, server: Server, model: Model, acc: Run)
    requires i < |blocks| && acc.failure.None?
    ensures var next := Step(query, blocks[..i + 1], server, model, acc);
      (next.failure.None? <==> (blocks[i].ToolUseBlock? ==> FollowUp(query, blocks, i, server, model).Ok?)) &&
      (next.failure.None? ==> next.texts == acc.texts + Entries(query, blocks, i, server, model)) &&
      (next.failure.Some? ==> blocks[i].ToolUseBlock? && FollowUp(query, blocks, i, server, model) == Err(next.failure.value))
  {
    assert blocks[..i + 1][i] == blocks[i];
  }

  /** The follow-ups from i on have texts iff the one at i (for a tool use) and those
      from i + 1 on do. */
  lemma FollowUpsFrom(query: string, blocks: seq<Block>, i: nat, server: Server, model: Model)
    requires i < |blocks|
    ensures FollowUpsHaveText(query, blocks, i, |blocks|, server, model) <==>
      (blocks[i].ToolUseBlock? ==> FollowUp(query, blocks, i, server, model).Ok?) &&
      FollowUpsHaveText(query, blocks, i + 1, |blocks|, server, model)
  {
  }

  /** A stop from i + 1 on is a stop from i on when the follow-up at i passes. */
  lemma StopsFrom(query: string, blocks: seq<Block>, i: nat, k: nat, server: Server, model: Model, e: Exception)
    requires i < |blocks| && StopsAt(query, blocks, i + 1, k, server, model, e)
    requires blocks[i].ToolUseBlock? ==> FollowUp(query, blocks, i, server, model).Ok?
    ensures StopsAt(query, blocks, i, k, server, model, e)
  {
  }

  /** From index i on, the walk succeeds iff every remaining follow-up has a text, and
      then `final_text` holds the entries of all blocks. */
  lemma {:induction false} GoTexts(query: string, blocks: seq<Block>, i: nat, server: Server, model: Model, acc: Run)
    requires i <= |blocks| && acc.failure.None?
    requires acc.texts == EntriesUpTo(query, blocks, i, server, model)
    ensures var run := Go(query, blocks, i, server, model, acc);
      run.failure.None? <==> FollowUpsHaveText(query, blocks, i, |blocks|, server, model)
    ensures var run := Go(query, blocks, i, server, model, acc);
      run.failure.None? ==> run.texts == EntriesUpTo(query, blocks, |blocks|, server, model)
    decreases |blocks| - i
  {
    if i < |blocks| {
      var next := Step(query, blocks[..i + 1], server, model, acc);
      StepTexts(query, blocks, i, server, model, acc);
      FollowUpsFrom(query, blocks, i, server, model);
      GoStep(query, blocks, i, server, model, acc);
      if next.failure.None? {
        GoTexts(query, blocks, i + 1, server, model, next);
      } else {
        assert Go(query, blocks, i + 1, server, model, next) == next;
      }
    }
  }

  /** A walk from index i that fails stops with the exception of the first follow-up
      without a text. */
  lemma {:induction false} GoStops(query: string, blocks: seq<Block>, i: nat, server: Server, model: Model, acc: Run)
    requires i <= |blocks| && acc.failure.None?
    ensures var run := Go(query, blocks, i, server, model, acc);
      run.failure.Some? ==> exists k :: StopsAt(query, blocks, i, k, server, model, run.failure.value)
    decreases |blocks| - i
  {
    if i < |blocks| {
      var next := Step(query, blocks[..i + 1], server, model, acc);
      StepTexts(query, blocks, i, server, model, acc);
      GoStep(query, blocks, i, server, model, acc);
      if next.failure.None? {
        GoStops(query, blocks, i + 1, server, model, next);
        var run := Go(query, blocks, i + 1, server, model, next);
        if run.failure.Some? {
          var k :| StopsAt(query, blocks, i + 1, k, server, model, run.failure.value);
          StopsFrom(query, blocks, i, k, server, model, run.failure.value);
        }
      } else {
        assert Go(query, blocks, i + 1, server, model, next) == next;
        assert StopsAt(query, blocks, i, i, server, model, next.failure.value);
      }
    }
  }

  /** `process_query`'s answer: the "\n" join of every block's entries when each
      follow-up reply has a first text, and otherwise the exception of the first
      follow-up reply without one. */
  lemma AnswerTexts(query: string, server: Server, model: Model)
    ensures var blocks := model(Seed(query), Some(Catalog(server.tools)));
      var answer := Answer(query, server, model).0;
      (answer.Ok? <==> FollowUpsHaveText(query, blocks, 0, |blocks|, server, model)) &&
      (answer.Ok? ==> answer.value == Join("\n", EntriesUpTo(query, blocks, |blocks|, server, model))) &&
      (answer.Err? ==> exists k :: StopsAt(query, blocks, 0, k, server, model, answer.error))
  {
    var catalog := Catalog(server.tools);
    var blocks := model(Seed(query), Some(catalog));
    GoTexts(query, blocks, 0, server, model, Start(query, catalog));
    GoStops(query, blocks, 0, server, model, Start(query, catalog));
  }

  // ---- the client ----------------------------------------------------------

  /** A tool-use block: call the tool, append the call line, the block's own text (when
      it has one) and the tool's output, and ask the model, without tools, for a follow-up. */
  method ToolTurn(query: string, blocks: seq<Block>, i: nat, server: Server, model: Model,
                  messages: seq<Message>, finalText: seq<string>, events: seq<Event>)
    returns (messages': seq<Message>, finalText': seq<string>, events': seq<Event>, failure: Option<Exception>)
    requires i < |blocks| && blocks[i].ToolUseBlock?
    requires messages == History(query, blocks[..i], server)
    ensures messages' == History(query, blocks[..i + 1], server)
    ensures Step(query, blocks[..i + 1], server, model, Run(finalText, events, None)) == Run(finalText', events', failure)
  {
    var b := blocks[i];
    assert blocks[..i + 1][..i] == blocks[..i];
    events' := events + [ToolCall(b.name, b.input)];
    var result := server.call(b.name, b.input);
    finalText' := finalText + [CallLine(b.name, b.input)];
    messages' := messages;
    if b.textAttr.Some? && b.textAttr.value != "" {
      messages' := messages' + [Message(Assistant, Plain(b.textAttr.value))];
    }
    messages' := messages' + [Message(User, Items(result.content))];
    events' := events' + [ModelCall(messages', None)];
    var follow := FirstText(model(messages', None));
    if follow.Err? {
      return messages', finalText', events', Some(follow.error);
    }
    finalText' := finalText' + [follow.value];
    failure := None;
  }

  const NoSession := AttributeError("'NoneType' object has no attribute 'list_tools'")

  class SDVClient {
    var session: Option<Connection>

    constructor ()
      ensures session == None
    {
      session := None;
    }

    /** `python` for a .py script, `node` for a .js script, ValueError otherwise. */
    method ConnectToServer(path: string, server: Server) returns (r: Result<()>)
      modifies this
      ensures LaunchCommand(path).Ok? ==> r == Ok(()) && session == Some(Connection(LaunchCommand(path).value, [path], server))
      ensures LaunchCommand(path).Err? ==> r == Err(ScriptSuffixError) && session == old(session)
    {
      var command := LaunchCommand(path);
      if command.Err? {
        return Err(command.error);
      }
      session := Some(Connection(command.value, [path], server));
      r := Ok(());
    }

    /** `process_query`: the answer and the oracle calls are those of `Answer`. */
    method ProcessQuery(query: string, model: Model) returns (r: Result<string>, events: seq<Event>)
      ensures session.None? ==> r == Err(NoSession) && events == []
      ensures session.Some? ==> (r, events) == Answer(query, session.value.server, model)
    {
      if session.None? {
        return Err(NoSession), [];
      }
      var server := session.value.server;
      var messages := [Message(User, Plain(query))];
      var catalog := Catalog(server.tools);
      events := [ModelCall(messages, Some(catalog))];
      var blocks := model(messages, Some(catalog));
      ghost var target := Go(query, blocks, 0, server, model, Start(query, catalog));
      assert blocks[..0] == [];
      var finalText: seq<string> := [];
      var i := 0;
      while i < |blocks|
        invariant i <= |blocks|
        invariant messages == History(query, blocks[..i], server)
        invariant Go(query, blocks, i, server, model, Run(finalText, events, None)) == target
      {
        GoStep(query, blocks, i, server, model, Run(finalText, events, None));
        if blocks[i].TextBlock? {
          TextKeepsHistory(query, blocks, i, server);
          finalText := finalText + [blocks[i].text];
        } else {
          var failure;
          messages, finalText, events, failure :=
            ToolTurn(query, blocks, i, server, model, messages, finalText, events);
          if failure.Some? {
            return Err(failure.value), events;
          }
        }
        i := i + 1;
      }
      r := Ok(Join("\n", finalText));
    }
  }
}
