/** The Google-Docs agent client: `connect_to_server` picks the interpreter from the
    script's suffix, and `process_query` walks the blocks of the model's first
    reply, calling a tool for every tool-use block and asking the model for a
    follow-up after each. Every assistant message it appends refers to one and the
    same content list, which keeps growing: the model always sees every assistant
    entry with all the blocks processed so far. */
module ThirdProtocolAgent {
  import opened Strings
  import opened Exceptions
  import opened Protocol

  /** `assistant_message_content`: created once per query and extended with every block. */
  class ContentList {
    var blocks: seq<Block>

    constructor ()
      ensures blocks == []
    {
      blocks := [];
    }

    method Append(b: Block)
      modifies this
      ensures blocks == old(blocks) + [b]
    {
      blocks := blocks + [b];
    }
  }

  /** An entry of `messages`: a message value, or an assistant message whose
      content is a (shared) content list. */
  datatype Entry = Fixed(message: Message) | Shared(content: ContentList)

  function Lists(entries: seq<Entry>): set<ContentList>
  {
    set e | e in entries && e.Shared? :: e.content
  }

  /** The messages the API receives: each shared entry shows its list as it is now. */
  function View(entries: seq<Entry>): (r: seq<Message>)
    reads Lists(entries)
    ensures |r| == |entries|
  {
    if entries == [] then []
    else
      var init := entries[..|entries| - 1];
      var last := entries[|entries| - 1];
      assert Lists(init) <= Lists(entries) by {
        forall e | e in init ensures e in entries { }
      }
      View(init) + [match last case Fixed(m) => m case Shared(c) => Message(Assistant, Blocks(c.blocks))]
  }

  // ---- the history as values -----------------------------------------------

  /** The user message holding a tool's result, correlated by the request's id. */
  function ResultMessage(u: Block, server: Server): (m: Message)
    requires u.ToolUseBlock?
    ensures m.role == User && m.content.ToolResults? && |m.content.results| == 1
    ensures m.content.results[0].toolUseId == u.id
    ensures m.content.results[0].content == ResultItems(server.call(u.name, u.input).content)
  {
    Message(User, ToolResults([ToolResultPart(u.id, ResultItems(server.call(u.name, u.input).content))]))
  }

  /** The history after the blocks `done`: the seed, then for each tool use among them
      an assistant message showing `shown` and the tool's result. */
  function Transcript(query: string, done: seq<Block>, shown: seq<Block>, server: Server): seq<Message>
  {
    if done == [] then Seed(query)
    else
      var last := done[|done| - 1];
      Transcript(query, done[..|done| - 1], shown, server)
        + if last.ToolUseBlock? then [Message(Assistant, Blocks(shown)), ResultMessage(last, server)] else []
  }

  /** The history as the API sees it once the blocks `done` have been processed:
      every assistant message shows the shared list, which holds all of `done`. */
  function History(query: string, done: seq<Block>, server: Server): seq<Message>
  {
    Transcript(query, done, done, server)
  }

  /** `messages` itself after the blocks `done`: the seed, then a shared entry and a
      result per tool use. */
  function Skeleton(query: string, done: seq<Block>, c: ContentList, server: Server): seq<Entry>
  {
    if done == [] then [Fixed(Message(User, Plain(query)))]
    else
      var last := done[|done| - 1];
      Skeleton(query, done[..|done| - 1], c, server)
        + if last.ToolUseBlock? then [Shared(c), Fixed(ResultMessage(last, server))] else []
  }

  lemma {:induction false} SkeletonLists(query: string, done: seq<Block>, c: ContentList, server: Server)
    ensures Lists(Skeleton(query, done, c, server)) <= {c}
  {
    if done != [] {
      SkeletonLists(query, done[..|done| - 1], c, server);
    }
  }

  /** Reading `messages` gives the transcript with every assistant entry showing the list. */
  lemma {:induction false} ViewSkeleton(query: string, done: seq<Block>, c: ContentList, server: Server)
    ensures View(Skeleton(query, done, c, server)) == Transcript(query, done, c.blocks, server)
  {
    if done != [] {
      var init := done[..|done| - 1];
      var last := done[|done| - 1];
      ViewSkeleton(query, init, c, server);
      SkeletonLists(query, init, c, server);
      if last.ToolUseBlock? {
        var s0 := Skeleton(query, init, c, server);
        var s1 := s0 + [Shared(c)];
        var s2 := s1 + [Fixed(ResultMessage(last, server))];
        assert Skeleton(query, done, c, server) == s2;
        assert s2[..|s2| - 1] == s1;
        assert s1[..|s1| - 1] == s0;
        assert View(s1) == View(s0) + [Message(Assistant, Blocks(c.blocks))];
        assert View(s2) == View(s1) + [ResultMessage(last, server)];
      } else {
        var s0 := Skeleton(query, init, c, server);
        var t0 := Transcript(query, init, c.blocks, server);
        assert s0 + [] == s0 && t0 + [] == t0;
        assert Skeleton(query, done, c, server) == s0;
        assert Transcript(query, done, c.blocks, server) == t0;
      }
    } else {
      assert Skeleton(query, done, c, server)[..0] == [];
    }
  }

  /** One user message with the query, then for the m-th tool use an assistant message
      showing `shown` and a user message whose single tool_result carries that block's
      id and the tool's output. */
  lemma {:induction false} TranscriptShape(query: string, done: seq<Block>, shown: seq<Block>, server: Server)
    ensures |Transcript(query, done, shown, server)| == 1 + 2 * |ToolUses(done)|
    ensures Transcript(query, done, shown, server)[0] == Message(User, Plain(query))
    ensures forall m :: 0 <= m < |ToolUses(done)| ==>
      Transcript(query, done, shown, server)[2 * m + 1] == Message(Assistant, Blocks(shown)) &&
      Transcript(query, done, shown, server)[2 * m + 2] == ResultMessage(ToolUses(done)[m], server)
  {
    if done != [] {
      var init := done[..|done| - 1];
      var last := done[|done| - 1];
      TranscriptShape(query, init, shown, server);
      assert done == init + [last];
      ToolUsesAppend(init, last);
      var t0 := Transcript(query, init, shown, server);
      var t := Transcript(query, done, shown, server);
      var uses := ToolUses(done);
      forall m | 0 <= m < |uses|
        ensures t[2 * m + 1] == Message(Assistant, Blocks(shown)) && t[2 * m + 2] == ResultMessage(uses[m], server)
      {
        if m < |ToolUses(init)| {
          assert t[2 * m + 1] == t0[2 * m + 1] && t[2 * m + 2] == t0[2 * m + 2];
        }
      }
    }
  }

  /** After the blocks `done`, every assistant message is the same one, showing every
      block processed so far (text blocks included), and the m-th result answers the
      m-th tool use. */
  lemma HistoryShape(query: string, done: seq<Block>, server: Server)
    ensures |History(query, done, server)| == 1 + 2 * |ToolUses(done)|
    ensures History(query, done, server)[0] == Message(User, Plain(query))
    ensures forall m :: 0 <= m < |ToolUses(done)| ==>
      History(query, done, server)[2 * m + 1] == Message(Assistant, Blocks(done)) &&
      History(query, done, server)[2 * m + 2] == ResultMessage(ToolUses(done)[m], server)
  {
    TranscriptShape(query, done, done, server);
  }

  /** A text block appends no message; a tool-use block appends exactly two. */
  lemma HistoryGrowth(query: string, done: seq<Block>, b: Block, server: Server)
    ensures |History(query, done + [b], server)| == |History(query, done, server)| + (if b.ToolUseBlock? then 2 else 0)
  {
    ToolUsesAppend(done, b);
    HistoryShape(query, done, server);
    HistoryShape(query, done + [b], server);
  }

  // ---- the run as values ---------------------------------------------------

  /** The run before any block: the first model call, with the query and the catalog. */
  function Start(query: string, catalog: seq<ToolParam>): Run
  {
    Run([], [ModelCall(Seed(query), Some(catalog))], None)
  }

  /** The last block of `done`, processed after the run `prev` over the blocks before it:
      a text block adds its text; a tool use calls the tool, adds the call line, and asks
      the model, with the catalog, for a follow-up whose first text is added too. */
  function Step(query: string, catalog: seq<ToolParam>, done: seq<Block>, server: Server, model: Model, prev: Run): Run
    requires done != []
  {
    match done[|done| - 1]
    case TextBlock(t) => prev.(texts := prev.texts + [t])
    case ToolUseBlock(_, name, input, _) =>
      var h := History(query, done, server);
      var follow := FirstText(model(h, Some(catalog)));
      var texts := prev.texts + [CallLine(name, input)];
      var events := prev.events + [ToolCall(name, input), ModelCall(h, Some(catalog))];
      if follow.Ok? then Run(texts + [follow.value], events, None)
      else Run(texts, events, Some(follow.error))
  }

  /** The blocks of the first reply from index `i` on, after the run `acc` over the ones
      before; the first exception ends the walk. */
  function Go(query: string, catalog: seq<ToolParam>, blocks: seq<Block>, i: nat, server: Server, model: Model, acc: Run): Run
    requires i <= |blocks|
    decreases |blocks| - i
  {
    if i == |blocks| || acc.failure.Some? then acc
    else Go(query, catalog, blocks, i + 1, server, model, Step(query, catalog, blocks[..i + 1], server, model, acc))
  }

  /** The answer of `process_query` for a connected session, and the oracle calls made. */
  function Answer(query: string, server: Server, model: Model): (Result<string>, seq<Event>)
  {
    var catalog := Catalog(server.tools);
    var blocks := model(Seed(query), Some(catalog));
    var run := Go(query, catalog, blocks, 0, server, model, Start(query, catalog));
    (if run.failure.Some? then Err(run.failure.value) else Ok(Join("\n", run.texts)), run.events)
  }

  lemma GoStep(query: string, catalog: seq<ToolParam>, blocks: seq<Block>, i: nat, server: Server, model: Model, acc: Run)
    requires i < |blocks| && acc.failure.None?
    ensures Go(query, catalog, blocks, i, server, model, acc) ==
      Go(query, catalog, blocks, i + 1, server, model, Step(query, catalog, blocks[..i + 1], server, model, acc))
  {
  }

  // ---- properties of the run -----------------------------------------------

  /** Once a tool-use block is processed, the history has two more messages than there
      were tool uses before it, and the last one is that tool's result. */
  lemma HistoryLast(query: string, done: seq<Block>, b: Block, server: Server)
    requires b.ToolUseBlock?
    ensures |History(query, done + [b], server)| == 2 * |ToolUses(done)| + 3
    ensures History(query, done + [b], server)[2 * |ToolUses(done)| + 2] == ResultMessage(b, server)
  {
    ToolUsesAppend(done, b);
    TranscriptShape(query, done + [b], done + [b], server);
  }

  /** The m-th tool use is called with its name and input unchanged, and is
      immediately followed by a model call, with the catalog, whose history has
      2m+3 messages and ends with that tool's result. */
  ghost predicate CallsMatch(events: seq<Event>, uses: seq<Block>, catalog: seq<ToolParam>, server: Server)
    requires |events| == 1 + 2 * |uses|
    requires forall m :: 0 <= m < |uses| ==> uses[m].ToolUseBlock?
  {
    forall m :: 0 <= m < |uses| ==>
      events[2 * m + 1] == ToolCall(uses[m].name, uses[m].input) &&
      events[2 * m + 2].ModelCall? && events[2 * m + 2].tools == Some(catalog) &&
      |events[2 * m + 2].messages| == 2 * m + 3 &&
      events[2 * m + 2].messages[2 * m + 2] == ResultMessage(uses[m], server)
  }

  lemma CallsMatchExtend(events: seq<Event>, uses: seq<Block>, catalog: seq<ToolParam>, server: Server, b: Block, h: seq<Message>)
    requires |events| == 1 + 2 * |uses|
    requires forall m :: 0 <= m < |uses| ==> uses[m].ToolUseBlock?
    requires CallsMatch(events, uses, catalog, server)
    requires b.ToolUseBlock? && |h| == 2 * |uses| + 3 && h[2 * |uses| + 2] == ResultMessage(b, server)
    ensures CallsMatch(events + [ToolCall(b.name, b.input), ModelCall(h, Some(catalog))], uses + [b], catalog, server)
  {
    var events' := events + [ToolCall(b.name, b.input), ModelCall(h, Some(catalog))];
    var uses' := uses + [b];
    forall m | 0 <= m < |uses'|
      ensures events'[2 * m + 1] == ToolCall(uses'[m].name, uses'[m].input)
      ensures events'[2 * m + 2].ModelCall? && events'[2 * m + 2].tools == Some(catalog)
      ensures |events'[2 * m + 2].messages| == 2 * m + 3
      ensures events'[2 * m + 2].messages[2 * m + 2] == ResultMessage(uses'[m], server)
    {
      if m < |uses| {
        assert uses'[m] == uses[m] && events'[2 * m + 1] == events[2 * m + 1] && events'[2 * m + 2] == events[2 * m + 2];
      }
    }
  }

  /** What a run without failure over the blocks `done` looks like: one `final_text`
      entry per text block and two per tool use; the first model call gets the query
      and the catalog; each tool call is matched by a follow-up call as in CallsMatch. */
  ghost predicate Shaped(run: Run, query: string, catalog: seq<ToolParam>, done: seq<Block>, server: Server)
  {
    run.failure.None? &&
    |run.texts| == |done| + |ToolUses(done)| &&
    |run.events| == 1 + 2 * |ToolUses(done)| &&
    run.events[0] == ModelCall(Seed(query), Some(catalog)) &&
    CallsMatch(run.events, ToolUses(done), catalog, server)
  }

  lemma StepShaped(run: Run, query: string, catalog: seq<ToolParam>, done: seq<Block>, b: Block, server: Server, model: Model)
    requires Shaped(run, query, catalog, done, server)
    ensures var next := Step(query, catalog, done + [b], server, model, run);
      next.failure.None? ==> Shaped(next, query, catalog, done + [b], server)
  {
    ToolUsesAppend(done, b);
    if b.ToolUseBlock? {
      HistoryLast(query, done, b, server);
      CallsMatchExtend(run.events, ToolUses(done), catalog, server, b, History(query, done + [b], server));
    }
  }

  lemma {:induction false} GoShaped(query: string, catalog: seq<ToolParam>, blocks: seq<Block>, i: nat, server: Server, model: Model, acc: Run)
    requires i <= |blocks|
    requires Shaped(acc, query, catalog, blocks[..i], server)
    ensures var run := Go(query, catalog, blocks, i, server, model, acc);
      run.failure.None? ==> Shaped(run, query, catalog, blocks, server)
    decreases |blocks| - i
  {
    if i == |blocks| {
      assert blocks[..i] == blocks;
    } else {
      assert blocks[..i + 1] == blocks[..i] + [blocks[i]];
      StepShaped(acc, query, catalog, blocks[..i], blocks[i], server, model);
      var next := Step(query, catalog, blocks[..i + 1], server, model, acc);
      if next.failure.None? {
        GoShaped(query, catalog, blocks, i + 1, server, model, next);
      }
    }
  }

  /** When `process_query` returns, its text has one line per text block of the first
      reply and two per tool use, the tool is called once per tool-use block of the first
      reply only (follow-up replies are never walked), and each call comes before the
      follow-up model call whose history ends with that tool's result. */
  lemma AnswerShape(query: string, server: Server, model: Model)
    ensures var catalog := Catalog(server.tools);
      var blocks := model(Seed(query), Some(catalog));
      var run := Go(query, catalog, blocks, 0, server, model, Start(query, catalog));
      run.failure.None? ==>
        Answer(query, server, model) == (Ok(Join("\n", run.texts)), run.events) &&
        Shaped(run, query, catalog, blocks, server)
  {
    var catalog := Catalog(server.tools);
    var blocks := model(Seed(query), Some(catalog));
    assert blocks[..0] == [];
    GoShaped(query, catalog, blocks, 0, server, model, Start(query, catalog));
  }

  // ---- the contents of final_text -----------------------------------------

  /** The first text of the follow-up reply the model gives right after the block at
      index k of the first reply, on the history as it then reads. */
  function FollowUp(query: string, catalog: seq<ToolParam>, blocks: seq<Block>, k: nat, server: Server, model: Model): Result<string>
    requires k < |blocks|
  {
    FirstText(model(History(query, blocks[..k + 1], server), Some(catalog)))
  }

  /** What block k puts in `final_text`, read off the block alone: a text block its
      text; a tool use the call line and then, when the follow-up has one, its first
      text. */
  function Entries(query: string, catalog: seq<ToolParam>, blocks: seq<Block>, k: nat, server: Server, model: Model): seq<string>
    requires k < |blocks|
  {
    match blocks[k]
    case TextBlock(t) => [t]
    case ToolUseBlock(_, name, input, _) =>
      var f := FollowUp(query, catalog, blocks, k, server, model);
      [CallLine(name, input)] + if f.Ok? then [f.value] else []
  }

  /** The entries of the blocks before index n, in order. */
  function EntriesUpTo(query: string, catalog: seq<ToolParam>, blocks: seq<Block>, n: nat, server: Server, model: Model): seq<string>
    requires n <= |blocks|
  {
    if n == 0 then [] else EntriesUpTo(query, catalog, blocks, n - 1, server, model) + Entries(query, catalog, blocks, n - 1, server, model)
  }

  /** Every tool use at an index in [lo, hi) gets a follow-up reply with a first text. */
  ghost predicate FollowUpsHaveText(query: string, catalog: seq<ToolParam>, blocks: seq<Block>, lo: nat, hi: nat, server: Server, model: Model)
    requires hi <= |blocks|
  {
    forall k :: lo <= k < hi && blocks[k].ToolUseBlock? ==> FollowUp(query, catalog, blocks, k, server, model).Ok?
  }

  /** The walk from index lo stops at the tool use k with the exception e: its
      follow-up has no first text, and every follow-up before it in [lo, k) has one. */
  ghost predicate StopsAt(query: string, catalog: seq<ToolParam>, blocks: seq<Block>, lo: nat, k: nat, server: Server, model: Model, e: Exception)
  {
    lo <= k < |blocks| && blocks[k].ToolUseBlock? &&
    FollowUp(query, catalog, blocks, k, server, model) == Err(e) &&
    FollowUpsHaveText(query, catalog, blocks, lo, k, server, model)
  }

  /** One block: the step fails iff the block is a tool use whose follow-up has no
      text, and otherwise adds exactly the block's entries. */
  lemma StepTexts(query: string, catalog: seq<ToolParam>, blocks: seq<Block>, i: nat, server: Server, model: Model, acc: Run)
    requires i < |blocks| && acc.failure.None?
    ensures var next := Step(query, catalog, blocks[..i + 1], server, model, acc);
      (next.failure.None? <==> (blocks[i].ToolUseBlock? ==> FollowUp(query, catalog, blocks, i, server, model).Ok?)) &&
      (next.failure.None? ==> next.texts == acc.texts + Entries(query, catalog, blocks, i, server, model)) &&
      (next.failure.Some? ==> blocks[i].ToolUseBlock? && FollowUp(query, catalog, blocks, i, server, model) == Err(next.failure.value))
  {
    assert blocks[..i + 1][i] == blocks[i];
  }

  /** The follow-ups from i on have texts iff the one at i (for a tool use) and those
      from i + 1 on do. */
  lemma FollowUpsFrom(query: string, catalog: seq<ToolParam>, blocks: seq<Block>, i: nat, server: Server, model: Model)
    requires i < |blocks|
    ensures FollowUpsHaveText(query, catalog, blocks, i, |blocks|, server, model) <==>
      (blocks[i].ToolUseBlock? ==> FollowUp(query, catalog, blocks, i, server, model).Ok?) &&
      FollowUpsHaveText(query, catalog, blocks, i + 1, |blocks|, server, model)
  {
  }

  /** A stop from i + 1 on is a stop from i on when the follow-up at i passes. */
  lemma StopsFrom(query: string, catalog: seq<ToolParam>, blocks: seq<Block>, i: nat, k: nat, server: Server, model: Model, e: Exception)
    requires i < |blocks| && StopsAt(query, catalog, blocks, i + 1, k, server, model, e)
    requires blocks[i].ToolUseBlock? ==> FollowUp(query, catalog, blocks, i, server, model).Ok?
    ensures StopsAt(query, catalog, blocks, i, k, server, model, e)
  {
  }

  /** From index i on, the walk succeeds iff every remaining follow-up has a text, and
      then `final_text` holds the entries of all blocks. */
  lemma {:induction false} GoTexts(query: string, catalog: seq<ToolParam>, blocks: seq<Block>, i: nat, server: Server, model: Model, acc: Run)
    requires i <= |blocks| && acc.failure.None?
    requires acc.texts == EntriesUpTo(query, catalog, blocks, i, server, model)
    ensures var run := Go(query, catalog, blocks, i, server, model, acc);
      run.failure.None? <==> FollowUpsHaveText(query, catalog, blocks, i, |blocks|, server, model)
    ensures var run := Go(query, catalog, blocks, i, server, model, acc);
      run.failure.None? ==> run.texts == EntriesUpTo(query, catalog, blocks, |blocks|, server, model)
    decreases |blocks| - i
  {
    if i < |blocks| {
      var next := Step(query, catalog, blocks[..i + 1], server, model, acc);
      StepTexts(query, catalog, blocks, i, server, model, acc);
      FollowUpsFrom(query, catalog, blocks, i, server, model);
      GoStep(query, catalog, blocks, i, server, model, acc);
      if next.failure.None? {
        GoTexts(query, catalog, blocks, i + 1, server, model, next);
      } else {
        assert Go(query, catalog, blocks, i + 1, server, model, next) == next;
      }
    }
  }

  /** A walk from index i that fails stops with the exception of the first follow-up
      without a text. */
  lemma {:induction false} GoStops(query: string, catalog: seq<ToolParam>, blocks: seq<Block>, i: nat, server: Server, model: Model, acc: Run)
    requires i <= |blocks| && acc.failure.None?
    ensures var run := Go(query, catalog, blocks, i, server, model, acc);
      run.failure.Some? ==> exists k :: StopsAt(query, catalog, blocks, i, k, server, model, run.failure.value)
    decreases |blocks| - i
  {
    if i < |blocks| {
      var next := Step(query, catalog, blocks[..i + 1], server, model, acc);
      StepTexts(query, catalog, blocks, i, server, model, acc);
      GoStep(query, catalog, blocks, i, server, model, acc);
      if next.failure.None? {
        GoStops(query, catalog, blocks, i + 1, server, model, next);
        var run := Go(query, catalog, blocks, i + 1, server, model, next);
        if run.failure.Some? {
          var k :| StopsAt(query, catalog, blocks, i + 1, k, server, model, run.failure.value);
          StopsFrom(query, catalog, blocks, i, k, server, model, run.failure.value);
        }
      } else {
        assert Go(query, catalog, blocks, i + 1, server, model, next) == next;
        assert StopsAt(query, catalog, blocks, i, i, server, model, next.failure.value);
      }
    }
  }

  /** `process_query`'s answer: the "\n" join of every block's entries when each
      follow-up reply has a first text, and otherwise the exception of the first
      follow-up reply without one. */
  lemma AnswerTexts(query: string, server: Server, model: Model)
    ensures var catalog := Catalog(server.tools);
      var blocks := model(Seed(query), Some(catalog));
      var answer := Answer(query, server, model).0;
      (answer.Ok? <==> FollowUpsHaveText(query, catalog, blocks, 0, |blocks|, server, model)) &&
      (answer.Ok? ==> answer.value == Join("\n", EntriesUpTo(query, catalog, blocks, |blocks|, server, model))) &&
      (answer.Err? ==> exists k :: StopsAt(query, catalog, blocks, 0, k, server, model, answer.error))
  {
    var catalog := Catalog(server.tools);
    var blocks := model(Seed(query), Some(catalog));
    GoTexts(query, catalog, blocks, 0, server, model, Start(query, catalog));
    GoStops(query, catalog, blocks, 0, server, model, Start(query, catalog));
  }

  // ---- the client ----------------------------------------------------------

  /** The two entries a tool-use block adds, and what the API then reads. */
  lemma SkeletonStep(query: string, blocks: seq<Block>, i: nat, content: ContentList, server: Server)
    requires i < |blocks| && blocks[i].ToolUseBlock?
    requires content.blocks == blocks[..i + 1]
    ensures Skeleton(query, blocks[..i + 1], content, server) ==
      Skeleton(query, blocks[..i], content, server) + [Shared(content), Fixed(ResultMessage(blocks[i], server))]
    ensures View(Skeleton(query, blocks[..i + 1], content, server)) == History(query, blocks[..i + 1], server)
  {
    assert blocks[..i + 1][..i] == blocks[..i];
    ViewSkeleton(query, blocks[..i + 1], content, server);
  }

  lemma TextKeepsSkeleton(query: string, blocks: seq<Block>, i: nat, content: ContentList, server: Server)
    requires i < |blocks| && blocks[i].TextBlock?
    ensures Skeleton(query, blocks[..i + 1], content, server) == Skeleton(query, blocks[..i], content, server)
  {
    assert blocks[..i + 1][..i] == blocks[..i];
  }

  /** A tool-use block: call the tool, append the block to the shared list, add the
      assistant entry and the tool result, and ask the model for a follow-up on the
      history as it now reads. */
  method ToolTurn(query: string, catalog: seq<ToolParam>, blocks: seq<Block>, i: nat, server: Server, model: Model,
                  content: ContentList, messages: seq<Entry>, finalText: seq<string>, events: seq<Event>)
    returns (messages': seq<Entry>, finalText': seq<string>, events': seq<Event>, failure: Option<Exception>)
    requires i < |blocks| && blocks[i].ToolUseBlock?
    requires content.blocks == blocks[..i]
    requires messages == Skeleton(query, blocks[..i], content, server)
    modifies content
    ensures content.blocks == blocks[..i + 1]
    ensures messages' == Skeleton(query, blocks[..i + 1], content, server)
    ensures Step(query, catalog, blocks[..i + 1], server, model, Run(finalText, events, None)) == Run(finalText', events', failure)
  {
    var b := blocks[i];
    events' := events + [ToolCall(b.name, b.input)];
    var result := server.call(b.name, b.input);
    finalText' := finalText + [CallLine(b.name, b.input)];
    content.Append(b);
    SkeletonStep(query, blocks, i, content, server);
    messages' := messages + [Shared(content), Fixed(Message(User, ToolResults([ToolResultPart(b.id, ResultItems(result.content))])))];
    var snapshot := View(messages');
    events' := events' + [ModelCall(snapshot, Some(catalog))];
    var follow := FirstText(model(snapshot, Some(catalog)));
    if follow.Err? {
      return messages', finalText', events', Some(follow.error);
    }
    finalText' := finalText' + [follow.value];
    failure := None;
  }

  const NoSession := AttributeError("'NoneType' object has no attribute 'list_tools'")

  class MCPClient {
    var session: Option<Connection>

    constructor ()
      ensures session == None
    {
      session := None;
    }

    /** Launches `python` for a .py script and `node` for a .js script; any other
        path raises ValueError before a transport is opened. */
    method ConnectToServer(path: string, server: Server) returns (r: Result<()>)
      modifies this
      ensures LaunchCommand(path).Ok? ==> r == Ok(()) && session == Some(Connection(LaunchCommand(path).value, [path], server))
      ensures LaunchCommand(path).Err? ==> r == Err(ScriptSuffixError) && session == old(session)
    {
      var command := LaunchCommand(path);
      if command.Err? {
        return Err(command.error);
      }
      session := Some(Connection(command.value, [path], server));
      r := Ok(());
    }

    /** `process_query`: the answer and the oracle calls are those of `Answer`. */
    method ProcessQuery(query: string, model: Model) returns (r: Result<string>, events: seq<Event>)
      ensures session.None? ==> r == Err(NoSession) && events == []
      ensures session.Some? ==> (r, events) == Answer(query, session.value.server, model)
    {
      if session.None? {
        return Err(NoSession), [];
      }
      var server := session.value.server;
      var catalog := Catalog(server.tools);
      var messages: seq<Entry> := [Fixed(Message(User, Plain(query)))];
      events := [ModelCall(View(messages), Some(catalog))];
      assert View(messages) == Seed(query) by {
        assert messages[..0] == [];
      }
      var blocks := model(View(messages), Some(catalog));
      ghost var target := Go(query, catalog, blocks, 0, server, model, Start(query, catalog));
      assert blocks[..0] == [];
      var finalText: seq<string> := [];
      var content := new ContentList();
      var i := 0;
      while i < |blocks|
        invariant i <= |blocks|
        invariant content.blocks == blocks[..i]
        invariant messages == Skeleton(query, blocks[..i], content, server)
        invariant Go(query, catalog, blocks, i, server, model, Run(finalText, events, None)) == target
      {
        GoStep(query, catalog, blocks, i, server, model, Run(finalText, events, None));
        if blocks[i].TextBlock? {
          TextKeepsSkeleton(query, blocks, i, content, server);
          finalText := finalText + [blocks[i].text];
          content.Append(blocks[i]);
          assert content.blocks == blocks[..i + 1];
        } else {
          var failure;
          messages, finalText, events, failure :=
            ToolTurn(query, catalog, blocks, i, server, model, content, messages, finalText, events);
          if failure.Some? {
            return Err(failure.value), events;
          }
        }
        i := i + 1;
      }
      r := Ok(Join("\n", finalText));
    }
  }
}
