# Foundations of the Model Context Protocol: a Dafny model

This project models the decision logic and bookkeeping of a set of small Model
Context Protocol (MCP) demos. The demos are clients that talk to the Anthropic
Messages API and to MCP servers, plus the servers themselves:

- **weather**: US National Weather Service alerts and forecasts;
- **Pokémon**: info, a tournament squad and a popular list over PokeAPI;
- **SDV**: generate, evaluate and visualise synthetic data;
- **file counter**: count the regular files in a directory;
- **Reminders**: a CRUD API over one MongoDB collection.

Every foreign service is an oracle: a function-typed parameter or a datatype
field holding functions. This covers:

- the model's reply (`Protocol.Model`);
- an MCP server's tool list and `call_tool` (`Protocol.Server`);
- HTTP fetches (`Weather.Fetch`, `Poke.Http`);
- the SDV library and the file system (`SdvTools.Sdv`, `FileCounter.FileSystem`);
- `uuid4()` and `datetime.now()` (parameters of `Reminders.ReminderStore.Create`);
- `str.lower` and `str.capitalize`.

With the oracles fixed, every operation is deterministic, and the model states
what it computes.

Modules follow the source files:

| module | file | form |
|---|---|---|
| `Strings`, `Exceptions`, `Json` | shared | Python's string, exception and JSON semantics as the core uses them |
| `Protocol` | shared by the four Anthropic clients | messages, blocks, the tool catalog, the launch rule, first text, first tool use, `**kwargs` binding |
| `ThirdProtocolAgent` | MCP_AssemblyAI/third_protocol_agent.py | class `MCPClient`; the shared `assistant_message_content` list is class `ContentList` |
| `ClientSdv` | Synthetic_Data_Vault-SDV_with_MCP/client_sdv.py | class `SDVClient` |
| `FirstTool`, `SecondToolAgent` | MCP_AssemblyAI/first_tool.py, second_tool_agent.py | pure scripts as functions |
| `ClientGreeter` | MCP_greeter/client_greeter.py | class `GreeterClient` |
| `Weather` | simple_MCP_weather_server/weather.py | functions, and methods for the forecast loop |
| `Poke` | Pokemon_MCP_Server/poke.py | functions, and a method for the squad loop |
| `SdvTools`, `SdvServer` | Synthetic_Data_Vault-SDV_with_MCP/tools.py, server.py | functions, and methods for the loops of `generate` and `evaluate` |
| `FileCounter` | MCP_filecounter/filecounter.py | functions |
| `Reminders` | fastapi-mcp/app/main.py | class `ReminderStore` over the collection |

Each loop in the source is a method. Its `ensures` ties the result to a
specification function, and lemmas about that function state what the source
promises.

In `ThirdProtocolAgent`, `messages` holds references to one `ContentList`
object. `View` reads every such entry as the list's current blocks. The
lemmas `ViewSkeleton` and `HistoryShape` prove that every assistant message
the model sees is the same message, holding every block processed so far.

The Mongo collection is a `seq<Reminder>` in natural order rather than a map.
Three facts make it a sequence:

- `find().to_list(1000)` depends on that order;
- `find_one`, `update_one` and `delete_one` act on the first match;
- the code never enforces unique ids.

With unique ids, which `uuid4()` provides (the predicate `UniqueIds`), the
lemmas give back the map-like behaviour.

## Model

| member | source | states |
|---|---|---|
| Strings.ReplaceChar | Synthetic_Data_Vault-SDV_with_MCP/tools.py:192 | `str.replace` with one-character arguments: same length, each `from` character becomes `to`, every other character is kept |
| Strings.PathJoin | Synthetic_Data_Vault-SDV_with_MCP/tools.py:27 | POSIX `os.path.join`: the result ends with the second part; an absolute second part replaces the first; otherwise the result starts with a non-empty first part |
| Strings.StripLeftSplits | MCP_greeter/client_greeter.py:79 | left strip removes exactly a whitespace prefix, and the result does not start with whitespace |
| Strings.StripRightSplits | MCP_greeter/client_greeter.py:79 | right strip removes exactly a whitespace suffix, and the result does not end with whitespace |
| Strings.StripSplits | MCP_greeter/client_greeter.py:79 | `s == a + s.strip() + b` with `a` and `b` all whitespace, and the stripped text neither starts nor ends with whitespace |
| Strings.StripIdempotent | MCP_greeter/client_greeter.py:79 | stripping twice is stripping once |
| Strings.NoSpaceEndsStripped | MCP_greeter/client_greeter.py:79 | a text without whitespace at either end is its own strip |
| Strings.NatToStringRoundTrip | MCP_filecounter/filecounter.py:30 | the decimal rendering of a count is all digits and parses back to the count |
| Strings.IntToStringRoundTrip | MCP_AssemblyAI/first_tool.py:93 | `int(str(i)) == i` for every integer, negative ones included |
| Strings.IntToStringInjective | MCP_AssemblyAI/first_tool.py:93 | distinct integers render as distinct texts |
| Exceptions.Traverse | simple_MCP_weather_server/weather.py:57 | a comprehension whose item function may raise: Ok iff every item succeeds, with every result in order; otherwise the exception of the first item that raises |
| Exceptions.TraverseFailsEarly | simple_MCP_weather_server/weather.py:57 | once a prefix raises, the whole comprehension raises the same exception |
| Json.PyStr | simple_MCP_weather_server/weather.py:33 | an f-string shows a string value as itself |
| Json.ReprRepeatedKey | simple_MCP_weather_server/weather.py:33 | for example, a dict written with a repeated key shows that key once, holding its last value, as a Python dict does |
| Json.Get | simple_MCP_weather_server/weather.py:33 | a dict lookup finds a value iff the key occurs, and the value found is that of the key's last occurrence |
| Json.Keys | simple_MCP_weather_server/weather.py:33 | a dict's keys, each once, in first-insertion order: a key is listed iff a lookup finds it |
| Json.FirstIndex | simple_MCP_weather_server/weather.py:33 | the position of a key's first occurrence: it holds the key and no earlier field does |
| Json.KeysOrder | simple_MCP_weather_server/weather.py:33 | the keys are listed in the order of their first occurrences |
| Json.Subscript | simple_MCP_weather_server/weather.py:31 | `j[key]` succeeds iff `j` is a dict holding the key, gives that value, and raises KeyError for a dict without it |
| Json.GetOr | simple_MCP_weather_server/weather.py:33 | `j.get(key, default)` needs a dict and gives the key's value or the default |
| Json.Contains | simple_MCP_weather_server/weather.py:51 | `key in d` for a dict is key presence; only dicts, lists and strings support `in` |
| Json.Elements | simple_MCP_weather_server/weather.py:57 | iterating a list gives its items, a dict its distinct keys in first-insertion order; only dicts, lists and strings are iterable |
| Json.Head | simple_MCP_weather_server/weather.py:86 | `x[:n]` of a list is its first `min(n, len)` items; the result never has more than `n`; only lists and strings can be sliced |
| Json.JoinStrings | Pokemon_MCP_Server/poke.py:45 | `sep.join(items)` succeeds iff every item is a string, and is then the join of their texts |
| Protocol.Lookup | MCP_AssemblyAI/first_tool.py:93 | a keyword is found iff the arguments hold it, with the value given for it |
| Protocol.Catalog | MCP_AssemblyAI/third_protocol_agent.py:80-85 | one catalog entry per listed tool, in listing order, with name, description and input schema copied |
| Protocol.CatalogNames | MCP_AssemblyAI/third_protocol_agent.py:80-85 | the model is offered a name iff the server lists a tool of that name |
| Protocol.LaunchCommand | MCP_AssemblyAI/third_protocol_agent.py:46-51 | accepted iff the path ends in ".py" or ".js"; "python" exactly for ".py", "node" exactly for ".js"; otherwise the ValueError with the source's message |
| Protocol.FirstText | MCP_AssemblyAI/third_protocol_agent.py:135 | `response.content[0].text`: Ok iff the reply is non-empty and its first block has a text, which is returned; IndexError on an empty reply |
| Protocol.ToolUses | MCP_AssemblyAI/first_tool.py:86 | the filtered blocks are tool-use blocks of the reply, no more than it has |
| Protocol.FirstToolUse | MCP_AssemblyAI/first_tool.py:86 | the block picked is a tool-use block |
| Protocol.FirstToolUseIsFirst | MCP_AssemblyAI/first_tool.py:86 | IndexError iff the reply has no tool use; otherwise the block picked is a tool use with none before it, and text blocks are skipped |
| Protocol.ToolReply | MCP_AssemblyAI/first_tool.py:87-96 | one user message with a single tool_result carrying the request's id and the given text |
| Protocol.AnswerFirstRequest | MCP_AssemblyAI/first_tool.py:86-96 | fails iff no tool use exists or the dispatch raises (IndexError in the first case); otherwise one tool_result with the first request's id and `str` of its dispatched result |
| Protocol.FirstUnexpected | MCP_AssemblyAI/first_tool.py:93 | finds a keyword iff some argument names no parameter, and the keyword found is not a parameter |
| Protocol.BindParams | MCP_AssemblyAI/first_tool.py:93 | binding succeeds iff every parameter has an argument or a default; each bound value is the argument if given, else the default; failures are TypeError |
| Protocol.Bind | MCP_AssemblyAI/first_tool.py:93 | `f(**input)`: succeeds iff every keyword is a parameter and every parameter is supplied or defaulted, binding as above; otherwise TypeError |
| ClientSdv.HistoryGrowth | Synthetic_Data_Vault-SDV_with_MCP/client_sdv.py:108-110 | a text block leaves the history alone; a tool use appends one message, or two when it has a non-empty text; earlier messages never change |
| ClientSdv.HistoryMonotone | Synthetic_Data_Vault-SDV_with_MCP/client_sdv.py:108-110 | the history after a prefix of the blocks is a prefix of the later history: it never shrinks |
| ClientSdv.HistoryForm | Synthetic_Data_Vault-SDV_with_MCP/client_sdv.py:70-110 | the first message is the query; no message carries a tool_result, so no result is tied to a tool_use id; later messages are raw tool output (user) or a block's non-empty text (assistant) |
| ClientSdv.HistoryLength | Synthetic_Data_Vault-SDV_with_MCP/client_sdv.py:108-110 | between 1 + k and 1 + 2k messages after k tool uses |
| ClientSdv.TextKeepsHistory | Synthetic_Data_Vault-SDV_with_MCP/client_sdv.py:95-96 | a text block does not touch the history |
| ClientSdv.HistoryEndsWithOutput | Synthetic_Data_Vault-SDV_with_MCP/client_sdv.py:110 | after a tool use the last message is that tool's raw result content |
| ClientSdv.AnswerShape | Synthetic_Data_Vault-SDV_with_MCP/client_sdv.py:83-121 | on success, final_text has one entry per text block and two per tool use, and the oracle calls are these: the first call gets the query and the catalog; each tool is called with the block's name and input, then the model is called without tools on a history ending in that output; only the first reply is walked |
| ClientSdv.AnswerTexts | Synthetic_Data_Vault-SDV_with_MCP/client_sdv.py:92-121 | the answer is Ok iff every tool use's follow-up reply has a first text; it is then the "\n" join of each block's entries in order (a text block its text; a tool use its call line and the follow-up's first text); otherwise it is the exception of the first follow-up without one |
| ClientSdv.ToolTurn | Synthetic_Data_Vault-SDV_with_MCP/client_sdv.py:97-119 | one tool-use block processed in place gives the history and the run of the specification |
| ClientSdv.SDVClient.constructor | Synthetic_Data_Vault-SDV_with_MCP/client_sdv.py:33 | a new client has no session |
| ClientSdv.SDVClient.ConnectToServer | Synthetic_Data_Vault-SDV_with_MCP/client_sdv.py:43-61 | ".py" launches python and ".js" node with the path as the one argument; any other path raises the ValueError and leaves the session as it was |
| ClientSdv.SDVClient.ProcessQuery | Synthetic_Data_Vault-SDV_with_MCP/client_sdv.py:68-121 | the loop's answer and oracle calls equal the specification `Answer`; without a session, the AttributeError and no call |
| ThirdProtocolAgent.ContentList.constructor | MCP_AssemblyAI/third_protocol_agent.py:98 | the shared content list starts empty |
| ThirdProtocolAgent.ContentList.Append | MCP_AssemblyAI/third_protocol_agent.py:102 | appending adds the block at the end of the shared list |
| ThirdProtocolAgent.ResultMessage | MCP_AssemblyAI/third_protocol_agent.py:116-125 | one user message with a single tool_result whose tool_use_id is the block's id and whose content is the tool's result |
| ThirdProtocolAgent.ViewSkeleton | MCP_AssemblyAI/third_protocol_agent.py:98-115 | reading `messages`, every assistant entry shows the shared list's current blocks |
| ThirdProtocolAgent.TranscriptShape | MCP_AssemblyAI/third_protocol_agent.py:100-125 | 1 + 2k messages after k tool uses: the query, then for the m-th tool use an assistant message and the m-th use's tool_result |
| ThirdProtocolAgent.HistoryShape | MCP_AssemblyAI/third_protocol_agent.py:98-125 | what the model sees: 1 + 2k messages; every assistant message is the same one, holding every block processed so far, text blocks included; the m-th result answers the m-th tool use by id |
| ThirdProtocolAgent.HistoryGrowth | MCP_AssemblyAI/third_protocol_agent.py:100-125 | a text block appends no message; a tool use appends exactly two |
| ThirdProtocolAgent.HistoryLast | MCP_AssemblyAI/third_protocol_agent.py:116-125 | after a tool use the last message is that block's tool_result |
| ThirdProtocolAgent.AnswerShape | MCP_AssemblyAI/third_protocol_agent.py:88-137 | on success, final_text has one entry per text block and two per tool use, and the oracle calls are these: every model call gets the catalog; each tool is called with the block's name and input before the follow-up call, whose history of 2m+3 messages ends in that result; only the first reply is walked |
| ThirdProtocolAgent.AnswerTexts | MCP_AssemblyAI/third_protocol_agent.py:96-137 | the answer is Ok iff every tool use's follow-up reply has a first text; it is then the "\n" join of each block's entries in order (a text block its text; a tool use its call line and the follow-up's first text); otherwise it is the exception of the first follow-up without one |
| ThirdProtocolAgent.SkeletonStep | MCP_AssemblyAI/third_protocol_agent.py:111-125 | a tool use adds a reference to the shared list and the tool_result; the model then reads the specification history |
| ThirdProtocolAgent.TextKeepsSkeleton | MCP_AssemblyAI/third_protocol_agent.py:100-102 | a text block adds no entry to `messages` |
| ThirdProtocolAgent.ToolTurn | MCP_AssemblyAI/third_protocol_agent.py:103-135 | one tool-use block processed in place: the shared list grows by the block, `messages` and the run are those of the specification |
| ThirdProtocolAgent.MCPClient.constructor | MCP_AssemblyAI/third_protocol_agent.py:36 | a new client has no session |
| ThirdProtocolAgent.MCPClient.ConnectToServer | MCP_AssemblyAI/third_protocol_agent.py:46-64 | ".py" launches python and ".js" node with the path as the one argument; anything else raises the ValueError before a session exists |
| ThirdProtocolAgent.MCPClient.ProcessQuery | MCP_AssemblyAI/third_protocol_agent.py:71-137 | the loop over the shared list gives the answer and the oracle calls of the specification `Answer`; without a session, the AttributeError and no call |
| FirstTool.Subtract | MCP_AssemblyAI/first_tool.py:33-34 | `a - b` for integers (result + b == a); TypeError for a string operand |
| FirstTool.Dispatch | MCP_AssemblyAI/first_tool.py:93 | KeyError naming the tool iff it is neither "subtract" nor "sqrt"; a subtract reply is the text of a - b for integer arguments a and b; a sqrt reply is the square-root text of integer num |
| FirstTool.DispatchSubtract | MCP_AssemblyAI/first_tool.py:39-42 | the request {"a": x, "b": y} is answered with the text of x - y |
| FirstTool.DispatchSqrt | MCP_AssemblyAI/first_tool.py:36-42 | the request {"num": n} is answered with the square-root text of n |
| FirstTool.CatalogMatchesMapping | MCP_AssemblyAI/first_tool.py:39-72 | every catalog tool is a mapping key; subtract requires a and b, sqrt requires num |
| FirstTool.Rounds | MCP_AssemblyAI/first_tool.py:74-137 | one to three calls, each with TOOLS; the first history is the prompt; each later one extends the one before by that reply and the tool reply to its first request; the script ends with the third reply or with the exception raised answering the last reply |
| FirstTool.ScriptHistoriesGrow | MCP_AssemblyAI/first_tool.py:98-137 | the k-th history has 2k+1 messages and starts with every earlier history |
| SecondToolAgent.Dispatch | MCP_AssemblyAI/second_tool_agent.py:98 | KeyError iff the name is not create_document; otherwise the document oracle's text on the given title and text, each defaulting to "Placeholder"; other failures are TypeError |
| SecondToolAgent.DispatchDefaults | MCP_AssemblyAI/doc_tools.py:12 | any request whose keywords are among title and text succeeds: a missing one takes its default |
| SecondToolAgent.Script | MCP_AssemblyAI/second_tool_agent.py:76-112 | both calls get TOOLS; the follow-up history is exactly the prompt, the initial reply and the tool reply built from its first tool use, which carries that use's id; the script ends with the follow-up reply, or before the second call with the exception of answering the first reply (IndexError without a tool use) |
| ClientGreeter.FirstContentText | MCP_greeter/client_greeter.py:67 | `result.content[0].text`: Ok iff the first item is text, returning it; IndexError on no content |
| ClientGreeter.ProcessGreeting | MCP_greeter/client_greeter.py:58-69 | greet is called, with no arguments, exactly when the lower-cased input is "olá", "oi" or "hey"; the answer is then the first content text; any other input gets the hint and no call |
| ClientGreeter.Respond | MCP_greeter/client_greeter.py:79-88 | the loop ends iff the stripped, lower-cased line is "quit"; otherwise it prints the answer to the stripped line, or "Erro: " and the exception |
| ClientGreeter.QuitAt | MCP_greeter/client_greeter.py:79-82 | the first line that ends the loop: every earlier line gets a response |
| ClientGreeter.Session | MCP_greeter/client_greeter.py:77-88 | the stopping loop prints at most one entry per input line |
| ClientGreeter.SessionContents | MCP_greeter/client_greeter.py:77-88 | one printed entry per line before the first "quit", each that line's response, errors included |
| ClientGreeter.AsWritten | MCP_greeter/client_greeter.py:77-88 | n iterations as written print at most n entries, and the loop has ended iff a line before the end of the input said "quit" within those n iterations |
| ClientGreeter.AsWrittenSpinsAtEOF | MCP_greeter/client_greeter.py:77-88 | at the end of the input the loop as written prints n EOF errors in n iterations and never stops |
| ClientGreeter.ClosedInputNeverEnds | MCP_greeter/client_greeter.py:77-88 | with the input closed, the loop as written is still running after any number of iterations |
| ClientGreeter.AsWrittenAgrees | MCP_greeter/client_greeter.py:77-88 | up to the end of the input, the loop as written prints what the corrected loop prints, then an EOF error exactly when no line said "quit" |
| ClientGreeter.GreeterClient.constructor | MCP_greeter/client_greeter.py:26 | a new client has no session |
| ClientGreeter.GreeterClient.ConnectToServer | MCP_greeter/client_greeter.py:36-41 | only a ".py" path is accepted, launched with python; anything else raises the ValueError and leaves the session alone |
| ClientGreeter.GreeterClient.ChatLoop | MCP_greeter/client_greeter.py:77-88 | the responses the loop prints are exactly `Session`: one response per line up to the first "quit" or the end of the input |
| Weather.Joined | simple_MCP_weather_server/weather.py:58 | texts joined by "\n---\n", or the exception raised producing them |
| Weather.Shown | simple_MCP_weather_server/weather.py:33-37 | a missing key shows its default, a present one its value |
| Weather.FormatAlert | simple_MCP_weather_server/weather.py:29-38 | succeeds iff the feature is a dict whose "properties" is a dict; a missing "properties" raises its KeyError |
| Weather.FormatAlertFields | simple_MCP_weather_server/weather.py:31-38 | for any properties dict, each of the five lines shows the key's value when present and its own default otherwise |
| Weather.FormatAlertAllMissing | simple_MCP_weather_server/weather.py:31-38 | properties without any of the five keys show "Unknown" for event, area and severity and the two fixed defaults |
| Weather.FormatAlertDefaults | simple_MCP_weather_server/weather.py:31-38 | for example, a present event shows its text, a null severity "None", and missing areaDesc, description and instruction their defaults |
| Weather.AlertsUrl | simple_MCP_weather_server/weather.py:48 | the URL is the API base, "/alerts/active/area/" and the state |
| Weather.GetAlerts | simple_MCP_weather_server/weather.py:42-58 | no reply or an empty one gives the fixed failure message; an exception needs a reply for which `"features" in data` is not False: the key is present, or `in` itself raises |
| Weather.GetAlertsUnavailable | simple_MCP_weather_server/weather.py:49-52 | no reply, an empty reply or one without "features" gives the fixed failure message |
| Weather.GetAlertsNone | simple_MCP_weather_server/weather.py:54-55 | an empty features list gives "Nenhum alerta ativo para este estado." |
| Weather.GetAlertsEach | simple_MCP_weather_server/weather.py:57-58 | otherwise one formatted alert per feature, in order, joined by "\n---\n" |
| Weather.PointsUrl | simple_MCP_weather_server/weather.py:70 | the points URL is the API base, "/points/", then the latitude and longitude joined by "," |
| Weather.FormatPeriod | simple_MCP_weather_server/weather.py:87-92 | a period renders iff it is a dict with all six fields; a missing one raises the KeyError naming it |
| Weather.RenderPeriods | simple_MCP_weather_server/weather.py:84-95 | periods that are neither a list nor a string cannot be sliced: TypeError |
| Weather.RenderPeriodsFirstFive | simple_MCP_weather_server/weather.py:84-95 | only the first five periods render, in order; later periods never change the forecast |
| Weather.RenderEach | simple_MCP_weather_server/weather.py:85-95 | the append loop equals the rendering of every period joined by "\n---\n", or the first period's exception |
| Weather.Forecast | simple_MCP_weather_server/weather.py:62-81 | no points reply or an empty one gives "Unable to fetch forecast data for this location."; when the forecast URL is found but its reply is missing or empty, "Não foi possível buscar previsão detalhada." |
| Weather.ForecastRenders | simple_MCP_weather_server/weather.py:70-95 | with both replies usable, the forecast is the rendering of the reply's periods |
| Weather.ForecastPeriods | simple_MCP_weather_server/weather.py:70-95 | with both replies usable and a list of periods, the forecast is its first five periods rendered in order and joined by "\n---\n", or the first period's exception |
| Weather.GetForecast | simple_MCP_weather_server/weather.py:62-95 | equals the specification `Forecast`: the points failure message, then the forecast failure message, then the five-period rendering |
| Poke.FetchPokemonData | Pokemon_MCP_Server/poke.py:20-28 | the URL uses the lower-cased name; an HTTP error or a non-200 status gives {}; a 200 gives the decoded body, or raises when it is not JSON |
| Poke.PutFind | Pokemon_MCP_Server/poke.py:39 | after `d[k] = v`, `k` holds `v` and every other key keeps its value |
| Poke.PutKeys | Pokemon_MCP_Server/poke.py:39 | `d[k] = v` appends a new key and keeps the order of existing ones |
| Poke.CollectLastWins | Pokemon_MCP_Server/poke.py:39 | the stats dict has each stat name once, in first-occurrence order, holding the base_stat of the last occurrence |
| Poke.StatPair | Pokemon_MCP_Server/poke.py:39 | a stat gives (stat["stat"]["name"], stat["base_stat"]) iff both subscripts succeed and the name is hashable |
| Poke.NamesOf | Pokemon_MCP_Server/poke.py:40-41 | the type or ability names are the entries' names in reply order, or the first exception |
| Poke.StatsOf | Pokemon_MCP_Server/poke.py:39 | the stat pairs in reply order, or the first exception |
| Poke.GetPokemonInfo | Pokemon_MCP_Server/poke.py:20-48 | an HTTP error or a non-200 status gives "No data found for Pokémon: " and the name; a 200 body that is not JSON raises the decoder's ValueError; a decoded body is described when non-empty and gives the no-data message when empty |
| Poke.JoinJsonStrings | Pokemon_MCP_Server/poke.py:45-46 | joining JSON strings joins their texts |
| Poke.DescribeText | Pokemon_MCP_Server/poke.py:39-48 | the text holds the capitalised name, the types and abilities in reply order joined by ", ", and the stats dict's "k: v" items joined by ", " |
| Poke.DescribeNameNotString | Pokemon_MCP_Server/poke.py:44 | a name that is not a string raises AttributeError |
| Poke.PresentNames | Pokemon_MCP_Server/poke.py:65-68 | a name is kept iff some fetch produced it, and no more names are kept than fetched; none when no fetch succeeds; all, in order, when every fetch does |
| Poke.PresentAppend | Pokemon_MCP_Server/poke.py:65-68 | the names kept from two runs of fetches are those of the first run followed by those of the second: the loop keeps the order |
| Poke.SquadAllMissing | Pokemon_MCP_Server/poke.py:53-70 | when every fetch is empty, the squad is "Tournament Squad:\n" alone |
| Poke.SquadAllFound | Pokemon_MCP_Server/poke.py:53-70 | when every fetch has a name, the squad lists all six capitalised names in the fixed order |
| Poke.Squad | Pokemon_MCP_Server/poke.py:53-70 | the squad succeeds iff every candidate's fetch succeeds, and then starts with "Tournament Squad:\n" |
| Poke.CreateTournamentSquad | Pokemon_MCP_Server/poke.py:53-70 | the loop equals the specification `Squad`: the header and the capitalised names of the candidates found, in order |
| Poke.PopularAreTheCandidates | Pokemon_MCP_Server/poke.py:75-79 | the popular list is the squad's six candidates capitalised, in the same order |
| Poke.ListPopularPokemon | Pokemon_MCP_Server/poke.py:75-79 | the popular list is the six squad candidates, each capitalised, joined by "\n" |
| SdvTools.Rewrap | Synthetic_Data_Vault-SDV_with_MCP/tools.py:55-56 | a success passes through; any exception becomes RuntimeError with the prefix and its text |
| SdvTools.Generated | Synthetic_Data_Vault-SDV_with_MCP/tools.py:20-56 | the missing folder is reported before the missing metadata file, each as FileNotFoundError; after both checks every failure is RuntimeError with the generate prefix |
| SdvTools.GeneratedSavesEveryTable | Synthetic_Data_Vault-SDV_with_MCP/tools.py:46-52 | a success wrote every synthetic table to its own CSV under "synthetic_data" and names them all in its message |
| SdvTools.Generate | Synthetic_Data_Vault-SDV_with_MCP/tools.py:20-56 | the checks and the saving loop equal `Generated` |
| SdvTools.DictsKeys | Synthetic_Data_Vault-SDV_with_MCP/tools.py:83-99 | both dicts are keyed by exactly the metadata's tables |
| SdvTools.DictsValues | Synthetic_Data_Vault-SDV_with_MCP/tools.py:83-99 | with distinct table names, each table holds its own real and synthetic frames |
| SdvTools.LoadDicts | Synthetic_Data_Vault-SDV_with_MCP/tools.py:83-99 | the loop filling the two dicts equals `Loaded` |
| SdvTools.Evaluated | Synthetic_Data_Vault-SDV_with_MCP/tools.py:60-119 | the checks run in order (real folder, "synthetic_data", metadata file), each as FileNotFoundError; after them every failure is RuntimeError with the evaluate prefix |
| SdvTools.EvaluatedLoadsEveryTable | Synthetic_Data_Vault-SDV_with_MCP/tools.py:60-119 | a successful evaluation found the real folder, "synthetic_data" and the metadata file and loaded every table's frames, and its result is the quality report on the two dicts of those frames with the metadata file |
| SdvTools.EvaluatedMissingCsv | Synthetic_Data_Vault-SDV_with_MCP/tools.py:87-119 | a missing per-table CSV surfaces as RuntimeError, not FileNotFoundError |
| SdvTools.LoadedFailsAt | Synthetic_Data_Vault-SDV_with_MCP/tools.py:87-99 | the first table that cannot be loaded decides the loop's exception |
| SdvTools.Evaluate | Synthetic_Data_Vault-SDV_with_MCP/tools.py:60-119 | the checks and the `try` body equal `Evaluated` |
| SdvTools.Assess | Synthetic_Data_Vault-SDV_with_MCP/tools.py:75-115 | the `try` body equals `Assessed` |
| SdvTools.SafeColumnSanitises | Synthetic_Data_Vault-SDV_with_MCP/tools.py:192 | the safe column name keeps its length; every space and "/" becomes "_", and every other character is kept |
| SdvTools.Visualize | Synthetic_Data_Vault-SDV_with_MCP/tools.py:123-202 | the three checks in order as FileNotFoundError, then RuntimeError with the visualize prefix; a success names the absolute path of table + "_" + safe column + ".png" in the plot folder |
| SdvTools.Plot | Synthetic_Data_Vault-SDV_with_MCP/tools.py:143-198 | a success of the `try` body names the absolute path of the plot file |
| SdvTools.Draw | Synthetic_Data_Vault-SDV_with_MCP/tools.py:164-198 | a success after the column check names the absolute path of the plot file |
| SdvTools.VisualizeUnknownTable | Synthetic_Data_Vault-SDV_with_MCP/tools.py:143-202 | an unknown table is reported as RuntimeError wrapping the ValueError's text |
| SdvTools.VisualizeUnknownColumn | Synthetic_Data_Vault-SDV_with_MCP/tools.py:164-202 | a column the real table lacks is reported as RuntimeError wrapping the ValueError's text |
| SdvTools.VisualizeNoFigure | Synthetic_Data_Vault-SDV_with_MCP/tools.py:175-202 | a plot the library does not produce is reported as RuntimeError wrapping the ValueError's text |
| SdvServer.Catch | Synthetic_Data_Vault-SDV_with_MCP/server.py:33-38 | A success is returned unchanged, a FileNotFoundError or RuntimeError is returned as the handler's value on its text, and any other exception escapes. |
| SdvServer.SdvGenerate | Synthetic_Data_Vault-SDV_with_MCP/server.py:33-38 | the message passes through and any failure becomes "Erro: " and its text |
| SdvServer.SdvEvaluate | Synthetic_Data_Vault-SDV_with_MCP/server.py:54-60 | the metrics pass through; FileNotFoundError becomes {"error": "Arquivo não encontrado: …"}, RuntimeError {"error": "Avaliação falhou: …"} |
| SdvServer.SdvVisualize | Synthetic_Data_Vault-SDV_with_MCP/server.py:83-88 | like generate, always with the default "evaluation_plots" folder |
| SdvServer.WrappersNeverRaise | Synthetic_Data_Vault-SDV_with_MCP/server.py:33-88 | none of the three tools lets an exception escape |
| SdvServer.MissingFolderReported | Synthetic_Data_Vault-SDV_with_MCP/server.py:33-88 | a missing folder reaches the client as text naming it, in each tool's form |
| FileCounter.ExpandUser | MCP_filecounter/filecounter.py:20 | POSIX `expanduser`: a path not starting with "~" is unchanged; "~" or "~/…" uses $HOME without trailing slashes |
| FileCounter.Files | MCP_filecounter/filecounter.py:28 | the filtered listing has no more entries than the directory |
| FileCounter.FilesAreRegular | MCP_filecounter/filecounter.py:28 | the files kept are exactly the entries that are regular files: subdirectories are excluded |
| FileCounter.FilesCount | MCP_filecounter/filecounter.py:28-30 | the count reported is the number of listing positions whose entry is a regular file |
| FileCounter.NoFilesNoCount | MCP_filecounter/filecounter.py:28-29 | a directory of subdirectories only counts 0 |
| FileCounter.CountFiles | MCP_filecounter/filecounter.py:14-32 | on the expanded path: missing, then not a directory, then a listing failure, each with its message; otherwise the count of regular files; never raises |
| FileCounter.ReportsPathAsGiven | MCP_filecounter/filecounter.py:20-30 | checks use the expanded path; the message quotes the path as given |
| Reminders.FindIndex | fastapi-mcp/app/main.py:137 | the first document with the id, or none |
| Reminders.FindOne | fastapi-mcp/app/main.py:137 | None iff no document has the id; otherwise a stored document with that id |
| Reminders.FirstPage | fastapi-mcp/app/main.py:119 | at most 1000 documents, the first ones in order |
| Reminders.WithBase | fastapi-mcp/app/main.py:161-164 | `$set` writes title, description and due date from the request, omitted optionals as None; id and created_at are kept |
| Reminders.Updated | fastapi-mcp/app/main.py:161-164 | only the first matching document changes, to WithBase; every other one is unchanged |
| Reminders.ModifiedCount | fastapi-mcp/app/main.py:166 | 1 exactly when a document matches and the update changes it, else 0 |
| Reminders.Deleted | fastapi-mcp/app/main.py:192 | the first matching document is removed; the others stay in order |
| Reminders.CreateThenRead | fastapi-mcp/app/main.py:98-104 | a created reminder with a fresh id keeps ids unique and is what is read under its id |
| Reminders.UpdateThenRead | fastapi-mcp/app/main.py:161-175 | after an update of a present id, reading it gives the request's fields with id and created_at kept; ids stay unique |
| Reminders.UnmodifiedUpdate | fastapi-mcp/app/main.py:166-175 | an update that modifies nothing leaves the collection unchanged |
| Reminders.DeleteThenRead | fastapi-mcp/app/main.py:192-197 | with unique ids a deleted reminder is gone, one document fewer, and every other reminder remains |
| Reminders.ReminderStore.constructor | fastapi-mcp/app/main.py:30 | the collection starts empty |
| Reminders.ReminderStore.Create | fastapi-mcp/app/main.py:98-104 | the reminder copies the request's fields and adds the given id and time; it is appended to the collection and returned |
| Reminders.ReminderStore.ReadAll | fastapi-mcp/app/main.py:113-120 | the first min(n, 1000) reminders, in order |
| Reminders.ReminderStore.Read | fastapi-mcp/app/main.py:129-143 | Ok iff a reminder has the id, returning the first one; otherwise the 404 "Lembrete com ID … não encontrado" |
| Reminders.ReminderStore.Update | fastapi-mcp/app/main.py:152-175 | the collection becomes `Updated`; a missing id gives the 404; a present one returns the updated reminder, including when it already held these values |
| Reminders.ReminderStore.Delete | fastapi-mcp/app/main.py:184-198 | the collection becomes `Deleted`; Ok iff a reminder had the id, otherwise the 404 |

## Left out

- Some oracles can fail and some cannot:
  - these can fail: PokeAPI's `client.get` (an `httpx.HTTPError`, a non-200 status, a body that is not JSON); every SDV library call, through a `Result` that `Rewrap` turns into RuntimeError; `os.listdir`, whose failure `count_files` reports; `make_nws_request`, whose failure is `None` as its own `except Exception` makes it;
  - these are total, and their transport errors are not modelled: `messages.create`, `call_tool`, `list_tools`, Google Docs (`createDocument`, including its sign-in) and Mongo.
- The MCP handshake is left out: `stdio_client`, `ClientSession.initialize`, the `list_tools` print in `connect_to_server`, `AsyncExitStack` cleanup, and the `stdio`/`write` fields. A connection records only the command, the arguments and the server reached.
- Async execution, console prompts and prints, `main()` and argv handling are left out.
- `chat_loop` of client_sdv.py (132-143) and of third_protocol_agent.py (151-162) is not modelled. It has the same structure as the Greeter loop, which is modelled, including its end-of-input behaviour.
- Floating point is not modelled:
  - `sqrt`'s `num**0.5` is the oracle `sqrtText`, so FirstTool.Dispatch does not state the square root's value;
  - the forecast coordinates arrive as text (`Weather.PointsUrl`);
  - `overallScore` is a `real` produced by the oracle;
  - the tool arguments of `Protocol.Value` and JSON numbers are integers and strings only.
- Poke.Collect: `Json` equality is structural, so the model does not reproduce Python's `True == 1` key equality.
- Protocol.BindParams: the missing-argument TypeError reads "f() missing required argument: 'x'", not CPython's "missing 1 required positional argument" wording: the class is modelled, the exact text is not.
- `call_tool` is a function of the tool name and arguments: identical calls return identical results, and server-side state between calls is not modelled.
- The synthesized tables are a sequence of (name, frame) pairs, which may repeat a name where the library's dict cannot; a repeated name is saved twice to the same CSV.
- Json.Head: a slice of a dict raises TypeError "unhashable type: 'slice'", as CPython 3.11 and earlier do; the model assumes CPython 3.11 (from 3.12 on it is a KeyError).
- `repr` escaping of quotes and control characters (`Strings.Quote`, `Json.Repr`) is not modelled. A dict's repeated keys are rendered as Python's dict keeps them (`Json.ReprRepeatedKey`).
- `str.lower`, `str.capitalize` and Unicode case mapping are oracles. `Poke.AsciiCapitalize` only relates the two fixed name lists.
- Strings.IsSpace: `str.strip` also removes non-ASCII whitespace; the model covers the ASCII characters only.
- `make_nws_request`'s headers, User-Agent and timeout are left out: the request is the oracle `fetch`.
- The MCP server registration (`FastMCP`, `@mcp.tool()`, `mcp.run`) is left out.
- For the SDV tools, these parts are oracles: CSV reading, HMASynthesizer fit and sample, `evaluate_quality`, `get_column_plot`, `write_image`, `os.makedirs(exist_ok=True)` and `os.path.abspath`. A CSV's contents are only its column names and rows.
- FileCounter.ExpandUser: `~user` uses the user database oracle. Python's fallback when `$HOME` is unset is not modelled.
- For the Reminders API, these FastAPI and Mongo parts are left out:
  - request validation and the 422 response;
  - `response_model` filtering (Mongo's `_id`);
  - status codes 201 and 204;
  - startup and shutdown hooks;
  - concurrent requests.
- These files are not part of this model, because they only forward results or return constants:
  - LitServe_MCP (client and server);
  - MCP_greeter/greeter.py and greeter.py;
  - MCP_AssemblyAI/first_simple_llm.py;
  - MCP_filecounter/client_filecounter.py;
  - the OAuth flow of MCP_AssemblyAI/doc_tools.py.

## Findings

| source | as written | input that shows it | evidently intended | confidence | as-written member | corrected member |
|---|---|---|---|---|---|---|
| MCP_greeter/client_greeter.py:77-88 | `while True` around `input()`, with `except Exception` printing the error and continuing | standard input closed or exhausted before "quit": `input()` raises EOFError, which is an `Exception`, so every iteration prints "Erro: EOF when reading a line" and the loop never ends | the loop ends at the end of the input as it does at "quit" | not executed | ClientGreeter.ClosedInputNeverEnds | ClientGreeter.GreeterClient.ChatLoop |
