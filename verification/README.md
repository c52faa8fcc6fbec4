# EnterpriseAI-Client: the chat agent's tool bookkeeping, in Dafny

This project models the core of EnterpriseAI-Client, a Chainlit chat agent. The agent connects to MCP tool servers, lets an OpenAI-style model call their tools, and watches a per-conversation folder for files that the tools produce. The model covers:

- **The streaming tool-call loop** (`process_llm_response` in chainlit_app/app.py and its older form in ui/chat.py).
  - Tool calls are rebuilt from index-tagged stream pieces.
  - Call ids are assigned, and assistant and tool messages are appended to the history.
  - Every failure of a call becomes the text of its tool message.
  - The loop repeats while the model asks for tools.
  - The model's answers form a script: one stream per request. Tool replies, JSON parsing and the folder are parameters.
- **The workspace diff.**
  - app.py reports new or modified files from `{name: mtime}` snapshots and splits them into images and other files.
  - ui/chat.py keeps the new image names of a set difference.
- **The two `MCPConnectionManager` classes** (utils/mcp_manager_legacy.py, utils/mcp_manager.py).
  - Each is a Dafny class over the same four dictionaries: `connection_tasks`, `sessions`, `tools` and `connections`.
  - utils/mcp_manager.py adds the roots registry, with `file://` URIs.
  - A connection task is an opaque number. The end of its handshake is an event: `OnConnected` or `OnFailed`.
- **The overseer** (chainlit_app/overseer.py): the length-capped tool trace, the report renderer, the JSON fallback and the model settings.
- **The mock OAuth token store** (routers/oauth.py). It is a class over a map from access tokens to their records. Time is an integer number of seconds.
- **OAuth provider registration** (chainlit_app/inject_custom_auth.py).
- **The tool servers' string rules** (mcp_servers/buildin.py, mcp_servers/user_custom_prompt.py):
  - the prompt-tool name check and registration;
  - download file names;
  - transcription file names;
  - the YouTube content-type dispatch and subtitle search;
  - the conversation folder;
  - the folder listing text.
- **The server configuration table** (utils/mcp_servers_config.py).

Python dictionaries whose order is observable are modelled as insertion-ordered lists of pairs (`PyDict`). This covers the tool catalog, where "the first server offering a tool" depends on it, and the settings and configuration dicts.

Files:
- `wrappers.dfy`, `text.dfy`, `pydict.dfy`: Option and Result, Python string helpers, ordered dicts.
- `messages.dfy`, `stream.dfy`, `workspace.dfy`: messages and results, the stream accumulator, the folder diff.
- `app_loop.dfy`, `chat_loop.dfy`: the two loops.
- `mcp_session.dfy`, `legacy_manager.dfy`, `manager.dfy`: the managers.
- `overseer.dfy`, `oauth.dfy`, `custom_auth.dfy`, `prompt_tools.dfy`, `buildin.dfy`, `servers_config.dfy`.

## Model

| member | source | states |
|---|---|---|
| Text.NatToStringInjective | chainlit_app/app.py:450 | different numbers never print to the same decimal text, so numbered call ids cannot collide |
| Text.SplitextOfStemAndExt | chainlit_app/app.py:89 | `os.path.splitext` of a plain stem followed by one extension gives back exactly that stem and extension |
| Text.ReprRoundTrip | mcp_servers/user_custom_prompt.py:17 | reading back the Python literal that `repr` writes gives the original string |
| PyDict.PutSpec | chainlit_app/app.py:402-403 | assigning a key keeps a present key in its place and appends a new one; every other key keeps its value |
| PyDict.DelSpec | utils/mcp_manager_legacy.py:58-59 | `del` removes exactly that key and keeps the order and values of the others; an absent key changes nothing |
| Messages.ModelSetting | chainlit_app/app.py:399 | the base chat settings are model gpt-4o-mini and stream True, in the keys model, temperature, stream |
| Messages.FormatTools | chainlit_app/app.py:354-368 | one function entry per tool, in order, with the tool's name, its description and its input schema as parameters |
| Messages.AllTools | chainlit_app/app.py:394-397 | a tool is in the aggregated list exactly when some server's list holds it |
| Messages.AllToolsEmpty | chainlit_app/app.py:400 | the aggregated list is empty exactly when every server's list is empty |
| Messages.ChatParamsTools | chainlit_app/app.py:399-403 | `tools` and `tool_choice` = "auto" are set exactly when some server offers a tool, and `tools` is the formatted catalog; ui/chat.py:334-338 applies the same rule |
| Messages.ResolveServer | chainlit_app/app.py:339-345 | the server chosen is the first in catalog order whose list has a tool of that name; None means no server has it |
| Messages.ExecuteTool | chainlit_app/app.py:327-351 | an unknown tool gives the not-found error dict; a server without a session gives the call-error dict; otherwise the reply is passed on, an exception becomes the call-error dict, and a cancellation propagates |
| Messages.TextsOf | chainlit_app/app.py:377-383 | one item gives its text when it is a text item and nothing otherwise; there are none exactly when no item is text; every text item's text is among them |
| Messages.TextsOfAppend | chainlit_app/app.py:380-383 | the texts of two runs of items are the first run's texts followed by the second's, so the texts keep the items' order |
| Messages.FormatResultSkipsOthers | chainlit_app/app.py:377-386 | an item that is not text is skipped: the result is the newline join of the texts before it followed by those after it |
| Messages.ErrorDictTextReadsBack | chainlit_app/app.py:387 | `str({"error": e})` starts with `{'error': ` and its quoted part reads back as `e` |
| Messages.FormatResultOfTexts | chainlit_app/app.py:371-387 | a result made only of text items is formatted as their newline join |
| Messages.TextsOfAllText | ui/chat.py:312-321 | an all-text result gives back every text, in order |
| McpSession.ToolsOf | utils/mcp_manager_legacy.py:128-146 | each listed tool becomes {name, description, input_schema}, in order; a listing error gives [] |
| McpSession.ListedToolsOffered | utils/mcp_manager_legacy.py:102-104 | every tool a server lists can be resolved by name in the catalog entry made from that listing |
| McpSession.UpdatedToolsSpec | utils/mcp_manager_legacy.py:148-153 | refreshing neither adds, drops nor moves a server; only servers with a session get a new list |
| Stream.RunDeltasSpec | chainlit_app/app.py:426-435 | each call's arguments are the in-order concatenation of its argument pieces; its name is the last non-empty name piece; there are exactly as many calls as pieces that reached the next free index |
| Stream.RunDeltasFails | chainlit_app/app.py:427-435 | the accumulation raises exactly when some piece's index skips past the next free index |
| Stream.GapRaises | chainlit_app/app.py:428-432 | a first piece for call 1 raises IndexError |
| Stream.RunDeltasNonePersists | chainlit_app/app.py:426-435 | once an access has failed, no later piece undoes it: the exception leaves the loop |
| Stream.DeltasAppend | chainlit_app/app.py:416-435 | the pieces of two runs of chunks are the pieces of the first run followed by those of the second |
| Stream.ApplyPiece | chainlit_app/app.py:426-435 | one piece appends at most one empty call, then overwrites the name and extends the arguments, as the accumulator function says |
| Stream.ApplyPieces | chainlit_app/app.py:425-435 | the loop over one delta's tool-call pieces continues the accumulation of the earlier pieces, failing exactly when the accumulator function fails |
| Stream.CollectFails | ui/chat.py:351-370 | a chunk without choices that is not skipped, or a piece whose index skips ahead, makes the stream raise IndexError |
| Stream.CollectStream | chainlit_app/app.py:413-435 | the loop over chunks computes the text and calls of the accumulator function; with the flag set, chunks without choices are skipped |
| Stream.ChunkStep | ui/chat.py:351-370 | the text and pieces of a prefix grow by exactly those of the next chunk |
| Stream.FailureReachesEnd | ui/chat.py:360-370 | a failing piece anywhere in the stream makes the whole stream fail |
| Workspace.SnapshotSpec | chainlit_app/app.py:39-56 | the snapshot holds exactly the regular files of the listing, each with its own mtime |
| Workspace.GetFilesState | chainlit_app/app.py:39-56 | `get_files_state` builds that snapshot; a missing folder gives {} |
| Workspace.NewOrModifiedSpec | chainlit_app/app.py:70-79 | a name is reported exactly when it is in the new snapshot and absent from the old one or has another mtime |
| Workspace.DeletedNotReported | chainlit_app/app.py:76-79 | a deleted file is never reported |
| Workspace.FindNewOrModified | chainlit_app/app.py:76-79 | the loop computes the reported names in snapshot order |
| Workspace.ImagesOf | chainlit_app/app.py:84-93 | a name is in the image list exactly when it was reported and has an image extension |
| Workspace.OthersOf | chainlit_app/app.py:84-93 | a name is in the other list exactly when it was reported and has no image extension |
| Workspace.ClassifyPartition | chainlit_app/app.py:84-93 | the two lists together are a permutation of the reported names |
| Workspace.Classify | chainlit_app/app.py:88-93 | the loop computes both lists |
| Workspace.UpperCaseImage | chainlit_app/app.py:89 | the extension is compared in lower case: `chart.PNG` is an image |
| Workspace.HiddenFileNotImage | chainlit_app/app.py:89 | `.png` alone has no extension for `splitext`, so it is not an image |
| Workspace.FilesNotice | chainlit_app/app.py:134-141 | `🖼️ 產生了 {n} 個圖片檔案` is present exactly when there are images, `📁 產生了 {n} 個檔案可供下載` exactly when there are other files, joined by `、` when both are; the notice is empty exactly when neither is |
| Workspace.FirstUnreadable | chainlit_app/app.py:95-115 | some image fails to encode exactly when there is a first one that fails |
| Workspace.CheckNewFilesSpec | chainlit_app/app.py:58-157 | a report lists at least one file and only images as images; the history gains one image message only when asked to and images exist; an encoding failure escapes |
| Workspace.ImagePartsOf | chainlit_app/app.py:113-122 | one image part per file, in order |
| Workspace.NothingChangedNothingReported | chainlit_app/app.py:70-82 | a call that only deletes files, or keeps their mtimes, reports nothing |
| Workspace.NewImages | ui/chat.py:71-75 | a new image is a name listed now, not listed before, with an image extension; mtimes are ignored |
| Workspace.NewImageOrder | ui/chat.py:75 | the list of new images holds each of them once |
| Workspace.ReadableParts | ui/chat.py:84-106 | one image part per image that could be read; failures are skipped |
| Workspace.CheckNewImages | ui/chat.py:61-124 | no folder or no new image leaves the history unchanged; otherwise exactly one user message with the readable images is appended |
| AppLoop.CallIdInjective | chainlit_app/app.py:450 | `call_{b}_{i}` ids of different (position, index) pairs differ |
| AppLoop.Records | chainlit_app/app.py:448-458 | call i of the round is recorded under `call_{b}_{i}` with its name and arguments |
| AppLoop.Contents | chainlit_app/app.py:476-498 | the tool message content of every call, in order |
| AppLoop.ToolMsgs | chainlit_app/app.py:500-507 | call j is answered by one tool message under `call_{b}_{j}` |
| AppLoop.Checks | chainlit_app/app.py:509-510 | the folder check runs after every call |
| AppLoop.FirstFailureSpec | chainlit_app/app.py:510 | the first failing folder check is a failing one with none before it; no failure means every check passed |
| AppLoop.FirstFailureAt | chainlit_app/app.py:468-510 | a failing check with none before it is the first failure of any longer run |
| AppLoop.RunCall | chainlit_app/app.py:469-510 | one call gives its tool content (the formatted result, the cancellation text or the error text) and the outcome of the folder check |
| AppLoop.RunCalls | chainlit_app/app.py:468-510 | the calls run in order, each answered under `call_{b}_{i}`; the first failing folder check stops the round after that call's answer |
| AppLoop.RunRound | chainlit_app/app.py:408-519 | one request either ends the turn as the turn function says or continues it from the next request |
| AppLoop.ProcessLlmResponse | chainlit_app/app.py:389-522 | the loop computes the history and ending of the turn function |
| AppLoop.AppendPlain | chainlit_app/app.py:438-440 | appending a text message keeps calls and answers paired |
| AppLoop.RoundKeepsPairing | chainlit_app/app.py:443-507 | a round keeps every tool message answering an earlier call, with distinct answers; a full round answers all its calls |
| AppLoop.TurnKeepsPairing | chainlit_app/app.py:389-522 | a whole turn keeps the history paired; a turn that ends normally leaves every call answered |
| AppLoop.ToolRoundKeepsPairing | chainlit_app/app.py:443-516 | the rest of a turn after a round's calls keeps the history paired, whether a folder check stops it or it goes on to the next request; ending normally leaves every call answered |
| AppLoop.RoundShape | chainlit_app/app.py:443-516 | a round with calls appends exactly one assistant message carrying all of them, then their answers in order |
| AppLoop.NoCallsEndsTurn | chainlit_app/app.py:437-440 | a stream without calls ends the turn; its text is appended only when not blank |
| ChatLoop.ChatCallIdInjective | ui/chat.py:395 | `call_{n}` ids of different positions differ |
| ChatLoop.SetOf | ui/chat.py:71 | the set of a listing holds exactly its names |
| ChatLoop.Kinds | ui/chat.py:385-425 | call i of a round either has unparsable arguments, is cancelled (never when the cancellation is answered), or is answered with its content and at most one image message |
| ChatLoop.RunCall | ui/chat.py:378-425 | one call: an argument parse failure leaves no trace; otherwise an assistant message `call_{n}` and then its tool message `call_{n'-1}`, then the images; a cancellation ends the round |
| ChatLoop.CheckImages | ui/chat.py:61-124 | the images step appends what the images function says |
| ChatLoop.RunCalls | ui/chat.py:378-425 | the calls of a round run in order as the calls function says |
| ChatLoop.AbortStays | ui/chat.py:385-425 | once a cancellation has ended the round, later calls change nothing |
| ChatLoop.RunRound | ui/chat.py:344-433 | one request either ends the turn or continues it from the next request |
| ChatLoop.ProcessLlmResponse | ui/chat.py:324-436 | the loop computes the history and ending of the turn function |
| ChatLoop.PairedPair | ui/chat.py:389-419 | appending the assistant message `call_{n}` and, right after it, the tool message under the same id keeps the history paired |
| ChatLoop.CallStepPairs | ui/chat.py:385-425 | a call extends the history and keeps it paired, unless a cancellation leaves its assistant message unanswered at the end |
| ChatLoop.CallsPair | ui/chat.py:378-425 | a round keeps the pairing up to a cancellation, which leaves exactly the last call unanswered |
| ChatLoop.TurnPairs | ui/chat.py:324-436 | a turn extends the history and keeps it paired unless it ends on a cancellation |
| ChatLoop.CorrectedTurnPairs | chainlit_app/app.py:487-490 | with the cancellation answered as app.py does it, a turn never ends on a cancellation and every call it records is answered right after it |
| ChatLoop.CancelLeavesCallUnanswered | ui/chat.py:385-425 | a round whose only call is cancelled ends with an assistant call message that no tool message answers |
| LegacyManager.ConnectionManager.constructor | utils/mcp_manager_legacy.py:14-24 | a new manager has empty dicts and the shutdown event unset |
| LegacyManager.ConnectionManager.RemoveConnection | utils/mcp_manager_legacy.py:42-63 | a known name leaves all four dicts and nothing else changes; an unknown name changes nothing |
| LegacyManager.ConnectionManager.AddConnection | utils/mcp_manager_legacy.py:32-40 | an existing connection of that name is removed first, then exactly one new task is recorded; the name is not connected yet |
| LegacyManager.ConnectionManager.GetToolsFromSession | utils/mcp_manager_legacy.py:128-146 | [] for a server without a session, else its listed tools in order |
| LegacyManager.ConnectionManager.OnConnected | utils/mcp_manager_legacy.py:98-108 | the session is stored and the server's tool list is exactly its listing; the tasks are unchanged |
| LegacyManager.ConnectionManager.OnFailed | utils/mcp_manager_legacy.py:113-117 | a failing task removes its own connection exactly as `remove_connection` does |
| LegacyManager.ConnectionManager.UpdateTools | utils/mcp_manager_legacy.py:148-153 | only servers with a session get a new list; no server is added or dropped |
| LegacyManager.ConnectionManager.CallTool | utils/mcp_manager_legacy.py:155-161 | the call fails exactly when the server has no session; otherwise name and arguments go to its session unchanged |
| LegacyManager.ConnectionManager.Shutdown | utils/mcp_manager_legacy.py:163-176 | the shutdown event is set and all four dicts are empty |
| LegacyManager.ConnectionManager.ListRootsRequest | utils/mcp_manager_legacy.py:187-193 | always exactly one root, `file://{id}`, named user_session_folder |
| LegacyManager.ConnectionManager.MessageHandler | utils/mcp_manager_legacy.py:194-207 | a logging notification gives exactly the line `📡 [{name}] {data}`; a progress notification reaches `on_progress` tagged with the server the handler was made for, and nothing without a callback |
| LegacyManager.ConnectionManager.ElicitationRequest | utils/mcp_manager_legacy.py:209-214 | the callback's action is answered exactly when there is a callback |
| LegacyManager.ConnectedIffCallable | utils/mcp_manager_legacy.py:182-184 | in a consistent manager a server is connected exactly when `call_tool` accepts it; otherwise the call is refused with the not-connected message |
| Manager.Basename | utils/mcp_manager.py:304 | `os.path.basename` holds no separator |
| Manager.RootUri | utils/mcp_manager.py:329 | the URI starts with `file://`, has one character per path character, and keeps no non-`/` separator |
| Manager.DefaultName | utils/mcp_manager.py:333 | a non-empty path always gives a non-empty default name |
| Manager.MakeRoot | utils/mcp_manager.py:359-376 | the root's URI comes from the absolute path; a missing name defaults to the directory's name |
| Manager.AddFromConfig | utils/mcp_manager.py:311-345 | an entry without a path, with a path that does not exist, or with a listed URI adds nothing; any other entry appends its root; URIs stay distinct |
| Manager.ConfigRootsSpec | utils/mcp_manager.py:292-297 | the configured roots have distinct URIs, each comes from an admitted entry, and every admitted entry's URI is listed |
| Manager.CwdRoot | utils/mcp_manager.py:299-305 | the default root is the working directory, named after it |
| Manager.InitialRootsSpec | utils/mcp_manager.py:291-309 | after init the URIs are distinct; the list is empty exactly when the capability is off, which happens exactly when no entry is admitted and the working directory cannot be read |
| Manager.WithoutUri | utils/mcp_manager.py:405 | the roots kept are exactly those with another URI, in order |
| Manager.WithoutUriCount | utils/mcp_manager.py:404-412 | with distinct URIs, removing a listed URI takes out exactly one root |
| Manager.ConnectionManager.constructor | utils/mcp_manager.py:17-31 | a new manager has empty dicts and the roots of `_initialize_roots` |
| Manager.ConnectionManager.AddRootFromConfig | utils/mcp_manager.py:311-345 | the roots become those the configuration function gives; nothing else changes |
| Manager.ConnectionManager.InitializeRoots | utils/mcp_manager.py:291-309 | the roots and capability become those of the initial-roots function |
| Manager.ConnectionManager.AddRoot | utils/mcp_manager.py:347-392 | a missing path or a listed URI leaves the list unchanged and gives False; otherwise exactly one root is appended, and True comes back only if the notification could be scheduled |
| Manager.ConnectionManager.RemoveRoot | utils/mcp_manager.py:394-416 | every root with that URI is dropped; True exactly when the count decreased and the notification could be scheduled |
| Manager.ConnectionManager.ListRoots | utils/mcp_manager.py:418-420 | the roots in their order, with distinct URIs |
| Manager.ConnectionManager.ClientRoots | utils/mcp_manager.py:75 | each client is given only the session root `file://{id}` |
| Manager.ConnectionManager.RemoveConnection | utils/mcp_manager.py:49-70 | a known name leaves all four dicts; an unknown one changes nothing; the roots are untouched |
| Manager.ConnectionManager.AddConnection | utils/mcp_manager.py:39-47 | an existing name is removed first, then exactly one task is recorded |
| Manager.ConnectionManager.OnConnected | utils/mcp_manager.py:103-116 | the session is stored and the tool list is exactly the listing |
| Manager.ConnectionManager.OnFailed | utils/mcp_manager.py:128-141 | a failing task deletes its session and tool list but stays recorded; the server is not connected |
| Manager.ConnectionManager.UpdateTools | utils/mcp_manager.py:251-256 | only servers with a session get a new list |
| Manager.ConnectionManager.CallTool | utils/mcp_manager.py:258-264 | the call fails exactly when the server has no session; otherwise it is forwarded unchanged |
| Manager.ConnectionManager.Shutdown | utils/mcp_manager.py:266-279 | the event is set and all four dicts are empty; the roots stay |
| Manager.ConnectedIffCallable | utils/mcp_manager.py:285-287 | in a consistent manager a server is connected exactly when `call_tool` accepts it; otherwise the call is refused with the not-connected message |
| Overseer.Truncate | chainlit_app/overseer.py:88-89 | tool output over 1000 characters keeps its first 1000 followed by `...[truncated]`; shorter output is unchanged |
| Overseer.CallLines | chainlit_app/overseer.py:80-84 | one `[assistant->tool_call] name(args)` line per call, in order |
| Overseer.EntryLines | chainlit_app/overseer.py:71-90 | user and tool entries give one line; an assistant entry gives its content line when truthy, then one line per call; other roles give nothing |
| Overseer.TraceLinesAppend | chainlit_app/overseer.py:70-91 | the lines keep history order |
| Overseer.OtherRolesIgnored | chainlit_app/overseer.py:72-90 | system and other roles leave the trace unchanged |
| Overseer.SliceFrom | chainlit_app/overseer.py:93 | Python's `s[start:]`: negative starts count from the end, both ends are clamped |
| Overseer.Tail | chainlit_app/overseer.py:91-94 | a trace that fits is kept; a longer one keeps its last `max_chars` characters, so it is never longer than the limit |
| Overseer.TailAgrees | chainlit_app/overseer.py:92-93 | for every positive limit the code as written gives that result |
| Overseer.ZeroLimitKeepsWholeTrace | chainlit_app/overseer.py:92-93 | with a limit of 0 the code as written returns a non-empty trace whole |
| Overseer.AppendCalls | chainlit_app/overseer.py:80-84 | the loop over an assistant entry's tool calls appends one line per call, in order |
| Overseer.AppendEntry | chainlit_app/overseer.py:71-90 | one pass of the loop appends exactly that entry's lines |
| Overseer.BuildToolTrace | chainlit_app/overseer.py:61-94 | the loop builds the joined lines, and a trace longer than `max_chars` becomes `trace[-max_chars:]` as written, so a limit of 0 keeps it whole and a negative one drops its first characters |
| Overseer.DefaultTraceBounded | chainlit_app/overseer.py:100 | with the default limit the trace as written has at most 12000 characters, the latest ones, and equals the intended cap |
| Overseer.OverseerModelSettingSpec | chainlit_app/overseer.py:50-59 | no `stream` key; model gpt-4o-mini; temperature 0.2 |
| Overseer.FallbackReport | chainlit_app/overseer.py:117-126 | status terminate, the invalid_json loop warning, and no subtasks, paths or actions |
| Overseer.OverseerVerdict | chainlit_app/overseer.py:112-126 | the parsed reply when it parses, otherwise the fallback |
| Overseer.MissingLines | chainlit_app/overseer.py:136-137 | one bulleted line per subtask, in order |
| Overseer.TriedLines | chainlit_app/overseer.py:140-141 | one line per tried path, in order |
| Overseer.ActionLines | chainlit_app/overseer.py:144-145 | one line per next action, in order |
| Overseer.AppendMissing | chainlit_app/overseer.py:134-137 | the subtasks section as the section function gives it |
| Overseer.AppendTried | chainlit_app/overseer.py:138-141 | the tried-paths section as the section function gives it |
| Overseer.AppendActions | chainlit_app/overseer.py:142-145 | the next-actions section as the section function gives it |
| Overseer.RenderOverseerForUser | chainlit_app/overseer.py:129-152 | the method builds the newline join of the rendered lines |
| Overseer.HeadingIff | chainlit_app/overseer.py:132-151 | a section heading appears exactly when its own section has lines |
| Overseer.RenderSections | chainlit_app/overseer.py:129-152 | the status line always comes first; each other section appears exactly when its field is truthy; the loop warning appears exactly when `detected` holds |
| Overseer.FallbackRendering | chainlit_app/overseer.py:117-126 | the fallback is shown as exactly four lines |
| OAuth.LastEight | routers/oauth.py:137 | `user_id[-8:]`: the last eight characters, or all of a shorter id |
| OAuth.ProfileOf | routers/oauth.py:133-141 | id = user_id, email `{user_id}@example.com`, name ending in the last eight characters of the id |
| OAuth.BearerToken | routers/oauth.py:100-114 | a missing or empty header and a header without `Bearer ` give 401 with their messages; otherwise the token is the header minus the prefix |
| OAuth.BearerTokenShort | routers/oauth.py:149-156 | the same acceptance, with one message for both failures |
| OAuth.TokenStore.GetAccessToken | routers/oauth.py:51-91 | a grant type other than authorization_code, or an empty code, gives 400 and leaves the store unchanged; otherwise exactly one entry is added under the new token, which expires 3600 seconds later |
| OAuth.TokenStore.CheckToken | routers/oauth.py:116-131 | an unknown token gives 401; an expired one is deleted and gives 401; a live one is returned |
| OAuth.TokenStore.GetUserInfo | routers/oauth.py:94-141 | the answer and the new store are those of the userinfo checks |
| OAuth.TokenStore.ValidateToken | routers/oauth.py:144-176 | the same header, unknown-token and expiry checks, including deletion; a valid token answers valid with its user id |
| OAuth.TokenStore.RevokeToken | routers/oauth.py:179-200 | a stored token is deleted; any other gives 404; expiry is not checked |
| OAuth.StoreAfterCheck | routers/oauth.py:124-127 | the checks only ever remove a token, and only an expired one |
| OAuth.TokenAnswer | routers/oauth.py:116-131 | a token is accepted exactly when it is stored and not expired |
| OAuth.IssuedTokenIdentifiesUser | routers/oauth.py:70-141 | a freshly issued token gives its user's profile until it expires, and 401 afterwards |
| OAuth.RevokedTokenRefused | routers/oauth.py:191-200 | a revoked token is refused by userinfo and validate, and is no longer stored |
| OAuth.MalformedHeaderRefused | routers/oauth.py:107-112 | a header without the prefix never reaches the store |
| CustomAuth.RandomSecret | chainlit_app/inject_custom_auth.py:6-10 | exactly `length` characters (64 by default, none for a negative length), each the alphabet character the draw picks |
| CustomAuth.DefaultSecretLength | chainlit_app/inject_custom_auth.py:9 | without a length the secret has 64 characters |
| CustomAuth.ProviderIdInList | chainlit_app/inject_custom_auth.py:13-22 | False without a provider list; otherwise true exactly when some provider has the id |
| CustomAuth.CountId | chainlit_app/inject_custom_auth.py:17 | no provider carries the id exactly when the count is zero |
| CustomAuth.Registry.AddCustomOAuthProvider | chainlit_app/inject_custom_auth.py:25-30 | appends exactly when the id is absent; otherwise, or without a list, nothing changes |
| CustomAuth.AddTwiceOnce | chainlit_app/inject_custom_auth.py:25-30 | adding the same instance twice leaves exactly one provider with its id |
| PromptTools.TrailingNewlinePasses | mcp_servers/user_custom_prompt.py:13 | the check as written accepts `prompt_1\n` |
| PromptTools.IdentifierIsValidatorWithoutNewline | mcp_servers/user_custom_prompt.py:13-14 | the intended rule accepts exactly the names the check accepts that hold no newline |
| PromptTools.IdentifierIsAscii | mcp_servers/user_custom_prompt.py:12-14 | every accepted name is ASCII and does not start with a digit, so Chinese names are refused |
| PromptTools.RegisterMcpTool | mcp_servers/user_custom_prompt.py:7-30 | the outcome is the registration function's; on success the server gains the tool and the namespace binds its name, so a tool called `mcp` leaves the namespace without a server; on failure nothing changes |
| PromptTools.Registration | mcp_servers/buildin.py:21-44 | registration succeeds exactly for a name `def` can take (not a keyword, not `__debug__`), a safe docstring, a namespace whose `mcp` is a server, and a module whose `re`, `repr`, `exec` (and `globals` by default) are not rebound to tools; a name the check refuses gives ValueError and a name only the compiler refuses gives SyntaxError; the tool returns exactly `return_string` |
| PromptTools.RegisteredToolReturnsPrompt | mcp_servers/user_custom_prompt.py:17-24 | in an untouched module and namespace a proper name is registered, and its literal reads back as the prompt text |
| PromptTools.DebugNameRefused | mcp_servers/user_custom_prompt.py:13-28 | `__debug__` passes the name check and then fails to compile |
| PromptTools.ReboundNamesBreakLaterCalls | mcp_servers/user_custom_prompt.py:13-28 | after a tool called `mcp` is bound in a namespace, later registrations there fail; after a tool called `re` is bound in the module, every later registration fails |
| Buildin.PathJoin | mcp_servers/buildin.py:74 | `os.path.join`: an absolute name replaces the folder; otherwise the name goes under it |
| Buildin.HeaderFilename | mcp_servers/buildin.py:59-63 | the text after the first `filename=`, up to any next one, with the quotes stripped from both ends |
| Buildin.UrlFilename | mcp_servers/buildin.py:65-71 | the URL's last `/` segment cut at the first `?`, or `downloaded_file` when that is empty or has no dot |
| Buildin.DerivedFilename | mcp_servers/buildin.py:58-71 | the header's name when it gives a non-empty one, else the URL's |
| Buildin.HeaderNameEscapesFolder | mcp_servers/buildin.py:73-74 | a header naming `/etc/x.sh` makes the code as written write outside the folder |
| Buildin.SafeFilename | mcp_servers/buildin.py:73 | the kept name is non-empty, has no `/`, and is neither `.` nor `..` |
| Buildin.DownloadStaysInFolder | mcp_servers/buildin.py:73-74 | every download lands directly inside the folder; URL-derived names other than `.` and `..` are written where the code writes them |
| Buildin.DownloadAnswer | mcp_servers/buildin.py:52-90 | a request failure gives `下載失敗`; the file is written at the derived name joined to the folder; a write failure there gives `發生錯誤` with its message; success repeats the derived name |
| Buildin.AbsoluteHeaderNameAnswered | mcp_servers/buildin.py:59-85 | for a header naming `/etc/x.sh` the code as written writes to `/etc/x.sh` and answers that it downloaded there |
| Buildin.SafeDownloadAnswer | mcp_servers/buildin.py:73-90 | the corrected download: the file is written directly in the folder under a name without `/` that is not `.` or `..`, and the answer gives that name or the write error |
| Buildin.TranscriptionStart | mcp_servers/buildin.py:109-124 | a missing file and an unsupported lower-cased extension are refused with their messages; otherwise the copy and transcript names are base + `_compressed.ogg` and base + `_transcript.txt` |
| Buildin.UpperCaseAudioAccepted | mcp_servers/buildin.py:118-119 | the extension check is on the lower-cased extension |
| Buildin.TranscriptionNamesDistinct | mcp_servers/buildin.py:123-124 | the compressed copy and the transcript never overwrite the audio or each other |
| Buildin.TranscribedFile | mcp_servers/buildin.py:127-158 | the compressed copy is transcribed when compression worked, the original otherwise; only the copy is removed afterwards |
| Buildin.ItemLines | mcp_servers/buildin.py:403-416 | files and directories give one line; other entries give none |
| Buildin.ListingLinesEmpty | mcp_servers/buildin.py:403-419 | there is no line exactly when no entry is a file or a directory |
| Buildin.ListFilesInternal | mcp_servers/buildin.py:396-424 | the loop builds the listing text: a missing folder, a listing error, an empty folder, or the header and one line per entry |
| Buildin.EmptyFolderMessage | mcp_servers/buildin.py:418-419 | the folder is reported empty exactly when it holds no file and no directory |
| Buildin.ParseContentType | mcp_servers/buildin.py:316-381 | audio, video and subtitle are accepted; anything else raises ValueError with its message |
| Buildin.SearchFromSpec | mcp_servers/buildin.py:362-376 | the search returns the content of the first candidate that is not passed over, and finds nothing exactly when every candidate is passed over |
| Buildin.SearchSubtitles | mcp_servers/buildin.py:361-376 | the loop tries the seven suffixes in priority order and computes the search function |
| Buildin.DownloadYoutube | mcp_servers/buildin.py:300-384 | a bad type raises; a non-empty subtitle is returned; otherwise the folder listing is returned after the header |
| Buildin.EmptySubtitleStopsSearch | mcp_servers/buildin.py:368-379 | an empty first subtitle ends the search, so a later readable one is never returned |
| Buildin.TakeUntil | mcp_servers/buildin.py:393 | the prefix before the first stop character |
| Buildin.Host | mcp_servers/buildin.py:393 | the host is non-empty and holds no `/` |
| Buildin.ConversationFolder | mcp_servers/buildin.py:391-394 | no root raises IndexError; otherwise the folder starts with `.files/` |
| Buildin.SessionRootGivesSessionFolder | utils/mcp_manager_legacy.py:187-193 | with the legacy root `file://{id}` the folder is `.files/{id}`, the folder the chat app makes for the session |
| ServersConfig.McpServersConfig | utils/mcp_servers_config.py:10-62 | exactly the five servers in order; only buildin uses http and has a url; only sequentialthinking is disabled |
| ServersConfig.ConfigUsesFolder | utils/mcp_servers_config.py:26-46 | buildin's `ROOT_FOLDER` is the folder and playwright's last argument is `--output-dir=` + folder |
| ServersConfig.InitiallyEnabled | chainlit_app/app.py:245-250 | the servers connected at chat start are exactly the enabled entries |
| ServersConfig.DefaultServers | utils/mcp_servers_config.py:16-58 | a new session connects every server except sequential thinking |
| ServersConfig.StartConfigIs | chainlit_app/app.py:208-218 | the start copy is the table with playwright's entry replaced in place by one with `--output-dir=` + folder appended; setting buildin's `ROOT_FOLDER` again changes nothing |
| ServersConfig.StartAdjustmentNotShared | chainlit_app/app.py:208-217 | each call builds a new table, so the start copy passes playwright the folder twice and the table re-read on a settings change passes it once; nothing else differs |

## Left out

- Concurrency: tasks, `cancel`, awaits, the shutdown event's waiters and the grace sleeps. A connection task is a number, and its end is the `OnConnected` or `OnFailed` event.
- The transports and protocol clients: stdio, streamable HTTP, `ClientSession`, the FastMCP `Client`, and `get_tools_from_fastmcp_client`. A listing is a parameter.
- The fallback connection path of utils/mcp_manager.py (lines 150-213) is not modelled. Its own failures are caught inside it, so the clean-up at lines 137-141 is reached only through a raising fallback. `Manager.ConnectionManager.OnFailed` models that clean-up.
- `connect_mcp_server`, `get_connected_servers` and `_notify_roots_changed` are not modelled. Scheduling the notification is a boolean: is an event loop running?
- The Chainlit UI is not modelled: messages, steps, settings widgets, `on_mcp_connect`, `on_mcp_progress` and `on_mcp_elicit`. Neither are the rest of `start` and `on_settings_update`, beyond the configuration table.
- The LLM client and the completion calls: the model's streams are a script.
- `json.loads` is a parameter, and so is `str()` of a non-result value.
- MarkItDown conversion, image base64 encoding, the `requests` download body, yt-dlp, Whisper and pydub are left out. Their outcomes are parameters, such as a read error per file, a fetch outcome or a subtitle probe.
- Floating point is left out: the compression ratio, the KB/MB size texts (a parameter of the listing) and the temperature values, which are kept as decimal text.
- Wall clock and randomness: `now`, the access and refresh tokens, the user id digits, and the draws of `random_secret` are parameters.
- The mock OAuth redirect page (routers/oauth.py:41-48) builds a redirect URL and holds no state. It is not modelled.
- `read_file`, `sleep_10second` and `download_youtube_sync` are not modelled. They are file conversion, a delay, and a synchronous copy that is not registered as a tool.
- String case and `repr` are ASCII only: `lower()` folds A-Z only, and `repr` is modelled for ASCII escapes.
- `PromptTools.RegisterMcpTool`: FastMCP's own checks on the generated function, and its docstring cleaning, are not modelled. A description that could change the generated code is refused as `UnsafeDescription`, which stands for behaviour the model does not follow.
- `PromptTools.RegisterMcpTool`: a rebound name fails where the code first uses it, as `Rebound`; the exact exception is not modelled. For `globals`, the failure is at line 11. If FastMCP's decorator hands back the plain function, it comes later, at `exec`, after the name check. Rebinding `__builtins__` and other names the code does not look up has no modelled effect.
- `Buildin.Host`: pydantic's URL parsing is reduced to taking the authority after `//`. Userinfo and port are not split off, and the host is not lower-cased.
- `Manager.ConnectionManager.InitializeRoots`: an exception raised while reading the configuration is modelled only as the working directory being unreadable.
- `Overseer.EntryLines`: an entry's `content` and `tool_call_id` are strings or absent. A key that holds `None` is treated as absent. For such a key the source would print `None` on a user line or as a tool call id, and would raise `TypeError` for a tool line's content.
- `Buildin.PathJoin`, `Buildin.SafeFilename` and `Buildin.SafeDownloadAnswer` follow POSIX `os.path.join`, where only `/` separates and only a leading `/` makes a path absolute. The server table launches servers through `./.venv/Scripts/python.exe`, which is a Windows path. On Windows, `\` also separates and a drive such as `C:` also restarts the path, so names like `..\x`, `\x` or `C:\x` leave the folder too. The corrected download is proved to stay in the folder on POSIX only.
- `Stream.ToolCallDelta`: a tool-call index is a natural number. A negative index in the source skips the append and reaches `tool_calls[tc_id]` from the end, or raises `IndexError` on an empty list. That case is not modelled.
- `ChatLoop.ImagesAfter`: the image parts follow `Workspace.NewImageOrder`, the order of the folder listing. The source builds them from a `set` difference, so their order is the set's iteration order, which the model does not follow. `Workspace.CheckNewImages` takes that order as a parameter and so does not have this gap.
- Diagnostic `print` calls are left out: the tool and settings traces in ui/chat.py, the image error lines, and the error prints in the tool servers. The one `print` the model keeps is the legacy manager's log line, in `LegacyManager.ConnectionManager.MessageHandler`.

## Findings

| source | as written | input that shows it | evidently intended | confidence | as-written member | corrected member |
|---|---|---|---|---|---|---|
| ui/chat.py:385-425 | `asyncio.CancelledError` is not an `Exception`, so a cancelled call escapes after its assistant message is appended | a round whose only call is cancelled | every recorded call is answered by a tool message, as chainlit_app/app.py:487-490 does | not executed | ChatLoop.CancelLeavesCallUnanswered | ChatLoop.CorrectedTurnPairs |
| chainlit_app/overseer.py:92-93 | `trace[-max_chars:]` with `max_chars` = 0 is `trace[0:]`, the whole trace | `max_chars` = 0 with a non-empty history | the trace is at most `max_chars` characters long | not executed | Overseer.ZeroLimitKeepsWholeTrace | Overseer.Tail |
| mcp_servers/user_custom_prompt.py:13 | `re.match` with `$` also matches before a final newline, so the check accepts `prompt_1\n` and the generated code then fails with SyntaxError instead of the check's ValueError | `func_name` = `"prompt_1\n"` | only identifiers pass the check | not executed | PromptTools.TrailingNewlinePasses | PromptTools.IdentifierIsValidatorWithoutNewline |
| mcp_servers/buildin.py:59-74 | the `Content-Disposition` file name is joined to the folder unchecked, so an absolute name or one with `..` writes outside the conversation folder | header `filename=/etc/x.sh` | the file is saved inside the conversation folder, as the comment at line 73 says | not executed | Buildin.AbsoluteHeaderNameAnswered | Buildin.SafeDownloadAnswer |
