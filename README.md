# Decision logic of the llama.cpp MCP agent, MCP client and simple-function-call

This project models, in Dafny, the decisions three small llama.cpp programs make around an
inference engine, a process runner and an MCP transport, and proves what those decisions
guarantee.

- **simple-mcp-agent** is an MCP server exposing a `calculator` and a `shell_command` tool.
  - `is_command_safe` is a default-deny check: a substring block-list, then a prefix allow-list (module `ShellSafety`).
  - Both tool handlers check their parameters in a fixed order (module `AgentHandlers`).
  - `clean_llm_response` erases chat-template markers in place and trims the result (module `ResponseCleaning`).
  - Also modelled: the agent's `parse_config`, the model-path check at the start of `main`, and the last-character logic of `readline_utf8` (module `AgentCli`).
- **simple-mcp-client** connects to MCP servers and offers an interactive prompt.
  - `parse_config` (module `ClientCli`).
  - The global server list and tool-to-server map, as a class `Registry`; `connect_to_server`, `find_server_for_tool`, `execute_tool` and the connect loop of `main` (module `ClientRegistry`).
  - The line grammar of `run_interactive_mode` and its loop (module `ClientInteractive`).
- **simple-function-call** runs one generation with a shell tool.
  - The argument block of `main` (module `FunctionCallCli`).
  - The token-budget generation loop, over a token oracle (module `Generation`).
  - The dispatch of the parsed tool calls, with the `y`/`Y` confirmation gate (module `ToolDispatch`).

The operations that change state step by step are methods proved against specification
functions:

| method | specification function |
|---|---|
| `ParseConfig` | `AgentFrom` |
| `ParseClientConfig` | `ClientFrom` |
| `ParseArguments` | `ParseFrom` |
| `CleanLlmResponse` | `Clean` |
| `Registry.ConnectAll` | `ConnectedAfter` / `MapAfter` |
| `Registry.ExecuteTool` | `Routed` |
| `RunInteractive` | `Handle` |
| `DispatchToolCalls` | `EventAt` |

The lemmas then state what those functions promise.

Collaborators are parameters:

- `std::stoi` is `string -> Option<int>`, with None when it throws.
- `json::parse` is a predicate.
- The process runner and `call_tool` are functions.
- A server's answer to connect is a `ConnectReply`.
- The engine is a per-turn oracle: decode failure, sampled token, end-of-generation, and the piece of a token.

Behaviour of the programs worth noting:

- A failed decode, or a token that cannot be converted to a piece, ends simple-function-call with status 1. It is not a recoverable generation error.
- A declined or malformed tool call in simple-function-call is only reported. The program then moves to the next call, and there is no further generation round.
- The agent's `parse_config` does fail in one case: `std::stoi` throws on a bad `--port` value, nothing catches it, and the program ends abnormally (`Aborted`).

Two behaviours of the source are stated as proved properties, not as defects:

- `ResponseCleaning.SplicedMarkerSurvives`: erasing markers in order can splice an earlier marker back together.
- `ClientRegistry.SameNameMisroutes`: two servers configured under the same name make a tool route to a server that does not list it.

## Model

| member | source | states |
|---|---|---|
| Text.Find | tools/mcp/simple-mcp-agent/simple-mcp-agent.cpp:120 | `std::string::find`: a position exactly when the text occurs, and then the first occurrence |
| Text.FirstNotTrimSpace | tools/mcp/simple-mcp-agent/simple-mcp-agent.cpp:176 | `find_first_not_of(" \n\r\t", from)`: the first non-blank index at or after `from`, every index before it blank, None when all are blank |
| Text.LastNotTrimSpace | tools/mcp/simple-mcp-agent/simple-mcp-agent.cpp:177 | `find_last_not_of(" \n\r\t")`: the last non-blank index, every index after it blank, None when all are blank |
| Text.Trim | tools/mcp/simple-mcp-agent/simple-mcp-agent.cpp:175-178 | the trim lambda gives a slice of its input that keeps everything between the first and last non-blank characters; it starts and ends with no blank, and it is empty exactly when the input is all blank |
| Text.TrimOfTrimmed | tools/mcp/simple-mcp-agent/simple-mcp-agent.cpp:175-178 | text with no blank at either end is left unchanged |
| Text.TrimIdempotent | tools/mcp/simple-mcp-agent/simple-mcp-agent.cpp:175-179 | trimming twice is trimming once |
| Text.TrimKeepsAbsence | tools/mcp/simple-mcp-agent/simple-mcp-agent.cpp:174-179 | trimming cannot create an occurrence of a string that was absent |
| Text.ConcatAppend | examples/simple-function-call/simple-function-call.cpp:376 | appending a piece to the response text appends it to the concatenation of the pieces |
| ShellSafety.Substr0 | tools/mcp/simple-mcp-agent/simple-mcp-agent.cpp:131 | `substr(0, n)` is a prefix of the command, of length n or the whole command when shorter |
| ShellSafety.AnyFound | tools/mcp/simple-mcp-agent/simple-mcp-agent.cpp:119-123 | the block-list loop returns true exactly when some entry occurs somewhere in the command |
| ShellSafety.AnyLeading | tools/mcp/simple-mcp-agent/simple-mcp-agent.cpp:130-134 | the allow-list loop returns true exactly when the command starts with some entry |
| ShellSafety.IsCommandSafe | tools/mcp/simple-mcp-agent/simple-mcp-agent.cpp:113-137 | safe exactly when no blocked substring occurs anywhere and the raw text starts with an allowed name |
| ShellSafety.BlockedAnywhereRefused | tools/mcp/simple-mcp-agent/simple-mcp-agent.cpp:114-123 | a blocked substring at any position refuses the command, whatever surrounds it |
| ShellSafety.DefaultDeny | tools/mcp/simple-mcp-agent/simple-mcp-agent.cpp:125-136 | a command that starts with no allowed name is refused |
| ShellSafety.AllowedPrefixAccepted | tools/mcp/simple-mcp-agent/simple-mcp-agent.cpp:125-134 | an allowed name followed by text with no blocked substring is accepted |
| ShellSafety.RefusedChained | tools/mcp/simple-mcp-agent/simple-mcp-agent.cpp:114-123 | "ls; rm -rf /" is refused |
| ShellSafety.RefusedSum | tools/mcp/simple-mcp-agent/simple-mcp-agent.cpp:114-123 | "echo sum" is refused, because "su" occurs inside "sum" |
| ShellSafety.RefusedCurl | tools/mcp/simple-mcp-agent/simple-mcp-agent.cpp:125-136 | "curl evil.com" is refused by default |
| ShellSafety.RefusedEmpty | tools/mcp/simple-mcp-agent/simple-mcp-agent.cpp:125-136 | the empty command is refused |
| ShellSafety.AcceptedListing | tools/mcp/simple-mcp-agent/simple-mcp-agent.cpp:113-137 | "ls -l" is accepted |
| ShellSafety.AcceptedPwd | tools/mcp/simple-mcp-agent/simple-mcp-agent.cpp:113-137 | "pwd" is accepted |
| ShellSafety.AcceptedWhoami | tools/mcp/simple-mcp-agent/simple-mcp-agent.cpp:113-137 | "whoami" is accepted |
| ShellSafety.AcceptedPrefixNotWord | tools/mcp/simple-mcp-agent/simple-mcp-agent.cpp:131 | "lsblk" is accepted: the allow-list test is a prefix test, not a word match |
| ResponseCleaning.Erase | tools/mcp/simple-mcp-agent/simple-mcp-agent.cpp:170 | `erase(pos, n)` keeps the text before `pos`, then the text after the n erased characters |
| ResponseCleaning.RemoveAll | tools/mcp/simple-mcp-agent/simple-mcp-agent.cpp:168-171 | the inner erase loop ends with the marker absent and the text no longer |
| ResponseCleaning.StripMarkers | tools/mcp/simple-mcp-agent/simple-mcp-agent.cpp:161-172 | the marker loop leaves the text no longer, with the last marker erased absent |
| ResponseCleaning.Clean | tools/mcp/simple-mcp-agent/simple-mcp-agent.cpp:158-182 | the cleaned response is no longer than the input, has no space, `\n`, `\r` or `\t` at either end, and holds no "user\n" |
| ResponseCleaning.CleanLlmResponse | tools/mcp/simple-mcp-agent/simple-mcp-agent.cpp:158-182 | the in-place erase loops, then the trim, compute `Clean` of the response |
| ResponseCleaning.RemoveAllSkipsPrefix | tools/mcp/simple-mcp-agent/simple-mcp-agent.cpp:168-171 | when no occurrence of the marker can start inside a prefix, erasing works on the rest alone |
| ResponseCleaning.RemoveAllFillers | tools/mcp/simple-mcp-agent/simple-mcp-agent.cpp:168-171 | on text made of markers and single blanks, erasing a marker removes exactly its own pieces |
| ResponseCleaning.FillerOnlyCleansToEmpty | tools/mcp/simple-mcp-agent/simple-mcp-agent.cpp:158-182 | a response made only of markers and whitespace, in any order, cleans to "" |
| ResponseCleaning.SplicedMarkerSurvives | tools/mcp/simple-mcp-agent/simple-mcp-agent.cpp:161-172 | "<\|im_<\|im_end\|>start\|>" cleans to "<\|im_start\|>": erasing a later marker splices an earlier one back together |
| ResponseCleaning.CleanOfPlain | tools/mcp/simple-mcp-agent/simple-mcp-agent.cpp:158-182 | text with no marker and no blank at either end comes through unchanged |
| ResponseCleaning.StripAbsent | tools/mcp/simple-mcp-agent/simple-mcp-agent.cpp:167-172 | markers that do not occur leave the text unchanged |
| AgentHandlers.ShellCommandHandle | tools/mcp/simple-mcp-agent/simple-mcp-agent.cpp:85-110 | invalid_params for, in this order, a missing command, an empty cleaned command and an unsafe one; the runner is reached exactly when the cleaned command is non-empty and safe, with that cleaned command; its output is the content, and a start failure is internal_error |
| AgentHandlers.RunCommandIsSafe | tools/mcp/simple-mcp-agent/simple-mcp-agent.cpp:90-100 | what reaches the runner is non-empty, trimmed, free of every blocked substring, and starts with an allowed name |
| AgentHandlers.RejectionIgnoresRunner | tools/mcp/simple-mcp-agent/simple-mcp-agent.cpp:86-97 | an invalid_params rejection does not depend on the runner |
| AgentHandlers.ChainedCommandRefused | tools/mcp/simple-mcp-agent/simple-mcp-agent.cpp:95-96 | the command "ls; rm -rf /" is answered with invalid_params "Command not allowed for security reasons" |
| AgentHandlers.OperationOf | tools/mcp/simple-mcp-agent/simple-mcp-agent.cpp:70-79 | an operation exactly for `+`, `-`, `*` and `/` |
| AgentHandlers.CalculatorHandle | tools/mcp/simple-mcp-agent/simple-mcp-agent.cpp:39-80 | a missing or empty cleaned expression is invalid_params, and only those are; internal_error is an invalid operator or a division by zero; otherwise the content is the result of the scanned operation |
| AgentHandlers.CalculatorValidatesFirst | tools/mcp/simple-mcp-agent/simple-mcp-agent.cpp:40-47 | parameter errors are invalid_params and do not depend on how the expression would be read or evaluated |
| AgentCli.ParseConfig | tools/mcp/simple-mcp-agent/simple-mcp-agent.cpp:190-202 | the argv loop computes `AgentFrom` of the arguments from index 1, starting from the defaults |
| AgentCli.AbortedOnlyByPort | tools/mcp/simple-mcp-agent/simple-mcp-agent.cpp:195-196 | parsing fails only at a --port followed by a value stoi cannot convert |
| AgentCli.AgentDefaultsKept | tools/mcp/simple-mcp-agent/simple-mcp-agent.cpp:184-202 | without --port parsing succeeds with port 8889, and without --confirm commands are not confirmed |
| AgentCli.KeepsPort | tools/mcp/simple-mcp-agent/simple-mcp-agent.cpp:190-202 | without --port the port and, without --confirm, the confirmation flag come through parsing unchanged |
| AgentCli.IgnoredArguments | tools/mcp/simple-mcp-agent/simple-mcp-agent.cpp:192-199 | an unknown argument is skipped, and so is -m or --port given last |
| AgentCli.AgentMainStart | tools/mcp/simple-mcp-agent/simple-mcp-agent.cpp:266-270 | main returns 1 exactly when parsing succeeded with an empty model path; it goes on with the parsed configuration otherwise, unless parsing aborted |
| AgentCli.ModelPathSuffices | tools/mcp/simple-mcp-agent/simple-mcp-agent.cpp:266-270 | with `-m PATH` given, and no later -m or --port, main goes on |
| AgentCli.KeepsModel | tools/mcp/simple-mcp-agent/simple-mcp-agent.cpp:193-194 | without -m or --port, the model path comes through parsing unchanged |
| AgentCli.ReadlineUtf8 | tools/mcp/simple-mcp-agent/simple-mcp-agent.cpp:216-233 | a failed read empties the line and returns false; a trailing '/' is dropped and returns false; a trailing '\\' is dropped and toggles the flag; otherwise the line and the flag are unchanged |
| AgentCli.ReadlineKeepsText | tools/mcp/simple-mcp-agent/simple-mcp-agent.cpp:222-232 | the line kept is the line read less at most its last character |
| ClientCli.ParseClientConfig | tools/mcp/simple-mcp-client/simple-mcp-client.cpp:46-65 | the argv loop with its `i += 4` computes `ClientFrom` of the arguments from index 1, starting from the default server and shown instructions |
| ClientCli.ServersOnlyAppended | tools/mcp/simple-mcp-client/simple-mcp-client.cpp:51-63 | parsing only appends: the servers configured so far stay at the front, in order |
| ClientCli.DefaultServerFirst | tools/mcp/simple-mcp-client/simple-mcp-client.cpp:49 | the first server is always ("default-agent", "localhost", 8889, "llama-agent") |
| ClientCli.AddedServersFromArguments | tools/mcp/simple-mcp-client/simple-mcp-client.cpp:52-59 | every added server is made of the four arguments after some --add-server: name, host, converted port, type |
| ClientCli.AddServerAppendsOne | tools/mcp/simple-mcp-client/simple-mcp-client.cpp:52-59 | --add-server with four arguments appends exactly that server and goes on after them |
| ClientCli.AddServerTooShortIgnored | tools/mcp/simple-mcp-client/simple-mcp-client.cpp:52 | with fewer than four arguments after it, --add-server is skipped |
| ClientCli.ClientIgnoresOthers | tools/mcp/simple-mcp-client/simple-mcp-client.cpp:51-63 | any argument other than --add-server and --hide-instructions is skipped and changes nothing |
| ClientCli.InstructionsShown | tools/mcp/simple-mcp-client/simple-mcp-client.cpp:60-62 | without --hide-instructions the flag keeps its value, and once false it stays false |
| ClientCli.HideInstructions | tools/mcp/simple-mcp-client/simple-mcp-client.cpp:60-62 | --hide-instructions turns the instructions off |
| ClientRegistry.Registered | tools/mcp/simple-mcp-client/simple-mcp-client.cpp:82-84 | after the map loop every listed tool maps to the server's name and every other entry is kept |
| ClientRegistry.FirstNamed | tools/mcp/simple-mcp-client/simple-mcp-client.cpp:118-122 | the first server in list order with the name, and no server before it has that name |
| ClientRegistry.Lookup | tools/mcp/simple-mcp-client/simple-mcp-client.cpp:113-124 | null for an unmapped tool; otherwise the first connected server with the mapped name |
| ClientRegistry.Routed | tools/mcp/simple-mcp-client/simple-mcp-client.cpp:127-141 | no call exactly when the lookup fails; otherwise the tool is called on the server found, and what it threw is reported, not propagated |
| ClientRegistry.ConnectKeepsConsistent | tools/mcp/simple-mcp-client/simple-mcp-client.cpp:81-84 | adding a server and registering its tools keeps every mapped tool pointing at a connected server that lists it |
| ClientRegistry.LaterServerWins | tools/mcp/simple-mcp-client/simple-mcp-client.cpp:211-216 | a tool maps to the name of the last connected server that listed it |
| ClientRegistry.UnlistedToolUntouched | tools/mcp/simple-mcp-client/simple-mcp-client.cpp:82-84 | a tool no connected server listed keeps its old mapping or stays unmapped |
| ClientRegistry.NoneConnected | tools/mcp/simple-mcp-client/simple-mcp-client.cpp:218-221 | no server is kept exactly when every configured server failed to connect |
| ClientRegistry.KeptAreConnected | tools/mcp/simple-mcp-client/simple-mcp-client.cpp:211-216 | the kept servers are exactly the configurations that connected, each with the tools it listed |
| ClientRegistry.LookupFindsMapped | tools/mcp/simple-mcp-client/simple-mcp-client.cpp:113-124 | in a consistent registry a lookup finds a server exactly when the tool is mapped |
| ClientRegistry.LookupFindsLister | tools/mcp/simple-mcp-client/simple-mcp-client.cpp:113-124 | with distinct server names, the server found lists the tool |
| ClientRegistry.SameNameMisroutes | tools/mcp/simple-mcp-client/simple-mcp-client.cpp:118-122 | with two servers named alike, a consistent map routes a tool of the second to the first, which does not list it |
| ClientRegistry.Registry.constructor | tools/mcp/simple-mcp-client/simple-mcp-client.cpp:42-43 | both globals start empty, and consistent |
| ClientRegistry.Registry.ConnectToServer | tools/mcp/simple-mcp-client/simple-mcp-client.cpp:68-92 | success exactly when the server listed its tools; only then is each listed tool mapped to the server's name, and nothing else changes |
| ClientRegistry.Registry.ConnectAll | tools/mcp/simple-mcp-client/simple-mcp-client.cpp:211-221 | the servers that connected are appended in order, the map is `MapAfter` of the replies, the registry stays consistent, and the result is false exactly when no server is connected |
| ClientRegistry.Registry.FindServerForTool | tools/mcp/simple-mcp-client/simple-mcp-client.cpp:113-124 | the map, then the scan of the list, give `Lookup` |
| ClientRegistry.Registry.ExecuteTool | tools/mcp/simple-mcp-client/simple-mcp-client.cpp:127-141 | the outcome is `Routed`: no call for an unknown tool, else the call on the server found |
| ClientInteractive.NextWord | tools/mcp/simple-mcp-client/simple-mcp-client.cpp:163 | `ss >> word` skips whitespace, then takes the maximal run of non-space characters |
| ClientInteractive.NextWordUnique | tools/mcp/simple-mcp-client/simple-mcp-client.cpp:163 | any token with that description is the one read |
| ClientInteractive.LineEnd | tools/mcp/simple-mcp-client/simple-mcp-client.cpp:183 | getline on the stream stops at the first '\n' or at the end |
| ClientInteractive.TrimLeading | tools/mcp/simple-mcp-client/simple-mcp-client.cpp:185 | the suffix from the first non-blank character, empty exactly when all is blank |
| ClientInteractive.ParseLine | tools/mcp/simple-mcp-client/simple-mcp-client.cpp:159-203 | blank exactly for the empty line; a tool name is a non-empty word without spaces; JSON arguments are non-empty, start with no blank and parse; a bad-JSON text does not parse; an unknown word is no keyword |
| ClientInteractive.ParseToolCall | tools/mcp/simple-mcp-client/simple-mcp-client.cpp:175-197 | the rest of a "tool" line is a call, a JSON error, or a missing name, with the same guarantees on name and arguments |
| ClientInteractive.BlankWordUnknown | tools/mcp/simple-mcp-client/simple-mcp-client.cpp:161-163 | a non-empty line of whitespace only reads an empty command word, which is unknown |
| ClientInteractive.QuitWords | tools/mcp/simple-mcp-client/simple-mcp-client.cpp:165-166 | "exit" or "quit" as the first word, whatever follows, ends the loop |
| ClientInteractive.ToolWord | tools/mcp/simple-mcp-client/simple-mcp-client.cpp:174 | a line whose first word is "tool" is parsed from the end of that word |
| ClientInteractive.ToolNameAt | tools/mcp/simple-mcp-client/simple-mcp-client.cpp:175-176 | after blanks, the next word read is the tool name, and the rest follows it |
| ClientInteractive.ArgumentsText | tools/mcp/simple-mcp-client/simple-mcp-client.cpp:182-185 | blanks without a newline, then text without one: getline keeps it all, and the blanks are trimmed |
| ClientInteractive.BlankArguments | tools/mcp/simple-mcp-client/simple-mcp-client.cpp:183-189 | arguments made only of blanks are trimmed away |
| ClientInteractive.ToolLineParts | tools/mcp/simple-mcp-client/simple-mcp-client.cpp:174-197 | "tool NAME ARGS" parses to a call of NAME with ARGS when ARGS parses as JSON, and to a JSON error otherwise |
| ClientInteractive.ToolLineRoundTrip | tools/mcp/simple-mcp-client/simple-mcp-client.cpp:174-198 | printing a call as "tool NAME JSON", with any leading and separating blanks, parses back to that call |
| ClientInteractive.InvalidJsonNotCalled | tools/mcp/simple-mcp-client/simple-mcp-client.cpp:191-196 | arguments that do not parse give an error, and no call is made |
| ClientInteractive.ToolWithoutArguments | tools/mcp/simple-mcp-client/simple-mcp-client.cpp:188-189 | "tool NAME" with nothing but blanks after it calls NAME with `{}` |
| ClientInteractive.ToolNameRequired | tools/mcp/simple-mcp-client/simple-mcp-client.cpp:177-180 | "tool" with only whitespace after it is an error, and no call is made |
| ClientInteractive.Handle | tools/mcp/simple-mcp-client/simple-mcp-client.cpp:159-203 | one line's step: its command, and an outcome exactly for a tool call, which is the routed call |
| ClientInteractive.HandleLine | tools/mcp/simple-mcp-client/simple-mcp-client.cpp:160-203 | one pass of the loop body computes `Handle` against the registry |
| ClientInteractive.RunInteractive | tools/mcp/simple-mcp-client/simple-mcp-client.cpp:155-204 | lines are handled in order, each step as `Handle` gives it and none a quit; the run stops at the first exit or quit line, or at the end of input |
| ClientInteractive.LineSeenAsWritten | tools/mcp/simple-mcp-client/simple-mcp-client.cpp:158 | as written, after the input runs out the loop sees "" or the stale last line |
| ClientInteractive.AsWrittenNeverEnds | tools/mcp/simple-mcp-client/simple-mcp-client.cpp:156-166 | as written, input with no exit or quit line never ends the loop |
| ClientInteractive.AsWrittenRepeatsLastCall | tools/mcp/simple-mcp-client/simple-mcp-client.cpp:156-198 | as written, a last line "tool calculator" with no final newline is called again on every later iteration |
| FunctionCallCli.Status | examples/simple-function-call/simple-function-call.cpp:157-180 | status 0 exactly for help; every other early end is status 1 |
| FunctionCallCli.SetValue | examples/simple-function-call/simple-function-call.cpp:89-151 | each of the six value flags sets its own field to the value (converted for -n and -ngl) and leaves every other field unchanged; -n and -ngl fail exactly when stoi throws |
| FunctionCallCli.Finish | examples/simple-function-call/simple-function-call.cpp:170-180 | parsing goes on exactly with a model path and a prompt; the model path is checked first |
| FunctionCallCli.ParseArguments | examples/simple-function-call/simple-function-call.cpp:85-181 | the argv loop, with `argv[++i]`, and the checks after it compute `ParseFrom` of the arguments from index 1 and the defaults |
| FunctionCallCli.ProceedNeedsModelAndPrompt | examples/simple-function-call/simple-function-call.cpp:170-180 | past the argument block, the model path and the prompt are non-empty |
| FunctionCallCli.ModelPathFromArguments | examples/simple-function-call/simple-function-call.cpp:89-96 | the model path used follows some -m on the command line, or is the one parsing started from |
| FunctionCallCli.DefaultsKept | examples/simple-function-call/simple-function-call.cpp:70-78 | without -n, -ngl or --confirm, their starting values are kept |
| FunctionCallCli.DefaultValues | examples/simple-function-call/simple-function-call.cpp:66-78 | the defaults: 99 GPU layers, 256 tokens, no confirmation, no model path, no prompt |
| FunctionCallCli.MissingValueOnlyAtEnd | examples/simple-function-call/simple-function-call.cpp:90-151 | a missing value is reported only for a value flag read as the last argument |
| FunctionCallCli.TrailingValueFlag | examples/simple-function-call/simple-function-call.cpp:90-151 | a value flag given last ends the program with status 1 |
| FunctionCallCli.HelpWins | examples/simple-function-call/simple-function-call.cpp:157-160 | -h or --help ends parsing with help, whatever follows and before the model and prompt checks |
| FunctionCallCli.HelpOnlyFromFlag | examples/simple-function-call/simple-function-call.cpp:157-160 | status 0 comes only from a help flag on the command line |
| FunctionCallCli.UnknownRejected | examples/simple-function-call/simple-function-call.cpp:162-166 | an unrecognised argument ends the program as unknown |
| FunctionCallCli.NonNumericRejected | examples/simple-function-call/simple-function-call.cpp:107-133 | a value of -n or -ngl that stoi cannot convert ends the program |
| FunctionCallCli.LaterValueWins | examples/simple-function-call/simple-function-call.cpp:89-151 | a flag given twice in a row keeps its second value, and the first has no effect; for -n and -ngl when the first value converts |
| FunctionCallCli.FinalValues | examples/simple-function-call/simple-function-call.cpp:85-181 | every setting that gets past the argument block is the value after that flag's last occurrence, whatever lies between (converted for -n and -ngl), or the starting value when the flag is absent |
| FunctionCallCli.LaterModelAcrossOthers | examples/simple-function-call/simple-function-call.cpp:89-105 | `-m a -p x -m b` uses model b |
| FunctionCallCli.ConfirmTakesNoValue | examples/simple-function-call/simple-function-call.cpp:153-155 | --confirm takes no value: the next argument is read as a flag |
| FunctionCallCli.ModelCheckedFirst | examples/simple-function-call/simple-function-call.cpp:170-174 | with neither -m nor -p, the model is reported missing |
| Generation.Generate | examples/simple-function-call/simple-function-call.cpp:344-385 | at most `n_predict` pieces, none when it is not positive; each is the piece of its turn, and the text is their concatenation; generation stops at the budget or at an end-of-generation token, which adds nothing; a failed decode or conversion ends the program within the budget |
| ToolDispatch.PromptsBefore | examples/simple-function-call/simple-function-call.cpp:421-424 | no more confirmation lines are read than calls handled |
| ToolDispatch.Decide | examples/simple-function-call/simple-function-call.cpp:412-437 | a command runs exactly for shell_command with a readable command and, with confirmation on, a reply of "y" or "Y"; the command run is the one in the arguments; a refused reply cancels; an argument error is reported; other names are ignored |
| ToolDispatch.DispatchToolCalls | examples/simple-function-call/simple-function-call.cpp:404-442 | one event per call, in order, each decided with the next unread confirmation line; the content is shown exactly when there are no calls and it is non-empty |
| ToolDispatch.NoConfirmationRunsAll | examples/simple-function-call/simple-function-call.cpp:421-433 | with confirmation off, every shell_command call with a readable command runs |
| ToolDispatch.ExhaustedRepliesCancel | examples/simple-function-call/simple-function-call.cpp:423-428 | once the input lines run out, every further prompted call is cancelled |
| ToolDispatch.PromptsAreCounted | examples/simple-function-call/simple-function-call.cpp:421-424 | each prompted call reads a line of its own |
| ToolDispatch.NothingReadWithoutConfirmation | examples/simple-function-call/simple-function-call.cpp:421 | with confirmation off no line is read |

## Left out

- ClientInteractive.RunInteractive: ends at the end of the input, where the source as written loops forever (see Findings).
- ClientInteractive.RunInteractive: treats a help line as a step of its own. The nested `run_interactive_mode` that the source starts for it (line 200) is not modelled. After a help line the source needs one exit per open session, and the model needs one.
- ClientInteractive.Handle: the tools and servers commands are steps with no outcome, because `display_tools` and the server listing only print.
- Generation.Generate: `n_prompt + n_predict` is unbounded here, so the 32-bit `int` overflow of that sum is not modelled.
- Generation.Generate: the 128-byte piece buffer is part of the oracle. A piece that does not fit shows up as a failed conversion.
- AgentHandlers.CalculatorHandle: the double arithmetic and `std::to_string` are the parameter `render`, and the `istringstream` extraction is the parameter `scan`. The model also does not capture reading an uninitialised operator when extraction fails.
- AgentHandlers.ShellCommandHandle: the runner (`popen`/`fgets`) is a parameter. Non-string `command` or `expression` values, whose JSON-to-string conversion throws, cannot be represented: the parameters are a map from string to string.
- ToolDispatch.DispatchToolCalls: `json::parse` followed by reading `"command"` is the parameter `commandOf`, and `execute_shell_command` is the parameter `execute`. The chat template and `common_chat_parse` that produce the calls are not part of this model.
- Strings are sequences of characters, while `std::string` holds bytes. Every marker, separator, flag and blank the programs compare against is ASCII, so no decision depends on the difference.
- `std::stoi` is a parameter. The model does not fix which texts it accepts (leading whitespace, trailing junk, range).
- The SSE client is not modelled: `initialize`, `get_tools`, `call_tool`, the 5-second timeout and threads. Their effect is a `ConnectReply` or the parameter `call`.
- The agent's `main` after the model-path check is not modelled. That covers model and context creation, the MCP server, tool registration and the chat loop, which are inference engine, networking and threads.
- `display_message`, `display_tools`, `print_usage` and every `printf` are output only.
- The Windows wide-character branch of `readline_utf8` is not modelled; the POSIX branch is.

## Findings

| source | as written | input that shows it | evidently intended | confidence | as-written member | corrected member |
|---|---|---|---|---|---|---|
| tools/mcp/simple-mcp-client/simple-mcp-client.cpp:156-159 | the result of `std::getline` is never checked. At end of input the loop goes on forever: it sees an empty line after a final newline, or the last line again when there is none | input whose only line is `tool calculator` with no final newline: the calculator is called again on every iteration, without end | the interactive loop ends at end of input | not executed | ClientInteractive.AsWrittenRepeatsLastCall | ClientInteractive.RunInteractive |
