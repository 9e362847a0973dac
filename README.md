# Self-correcting registration agent and ToolFabric: a Dafny model

This project models the sequential logic of a small agent system. The system registers
spreadsheet users on a web form, asks a vision model to diagnose each failed attempt, and
manages tools through a registry. Three pieces of code are modelled:

- **`parse_correction_json`**, in the two variants of adk2.py and adk.py. It finds the first
  "```json" block in the model's reply, takes the stripped interior (or the whole stripped
  reply when the block is incomplete) and decodes it. adk2.py also insists on the keys
  `diagnosis` and `corrected_data`. The decoder `json.loads` is a function parameter,
  `string -> Option<Json>`, where `None` stands for `json.JSONDecodeError`. The key
  validation is stated on the decoded value (`CheckAsWritten`, and the corrected
  `CheckCorrection` that the parser `ParseCorrection` uses).
- **`register_user_on_web`**, both variants, with the browser abstracted away. The model
  covers default field values, the sanitised screenshot file name and the SUCCESS/FAILURE
  result record. The browser is a function from the filled-in form to `BrowserRun`: either
  an exception (its `repr()` and `str()`, and whether `launch` had returned) or the final
  URL. `int(time.time())` is a parameter.
- **tool_fabric.py**: `create_tool`, `MCPClient`, `BaseTool` with its two subclasses (one
  class `Tool` with a `kind`), their `to_tool` callables, and the `ToolFabric` registry.
  The registry keeps two dictionaries keyed by tool name, updated in place. Configuration is
  given as typed records; a key absent from the YAML is `None`. The foreign step of `start`
  (`subprocess.Popen`, or `importlib` plus `getattr`) is reduced to whether it raised.

Python's string operations (`find`, `in`, `strip`, `replace`, `str(int)`) are modelled
in module `PyText`. `strip` uses Python's `isspace` character set.

The "retry once after correction" behaviour exists only as instructions to the language
model (adk2.py:226-234, adk.py:240-246) and is left out.

Files: `wrappers.dfy` (Option/Result/Outcome, Python exceptions), `pytext.dfy`,
`json_value.dfy`, `correction_parser.dfy`, `registration.dfy`, `tool_fabric.dfy`.

## Model

| member | source | states |
|---|---|---|
| PyText.Find | adk2.py:33-34 | `str.find(sub, start)`: the result is -1 or a position at or after `start` where `sub` occurs, and no earlier position from `start` on is a match |
| PyText.StripPadded | adk2.py:38-41 | `strip` removes exactly the whitespace padding around a core that has no whitespace at either end |
| PyText.StripIdempotent | adk2.py:38-41 | stripping an already stripped string changes nothing |
| PyText.LStrip | adk2.py:38-41 | `lstrip` removes a prefix made only of whitespace and leaves a string that is empty or starts with a non-whitespace character |
| PyText.RStrip | adk2.py:38-41 | `rstrip` removes a suffix made only of whitespace and leaves a string that is empty or ends with a non-whitespace character |
| PyText.Strip | adk2.py:38-41 | `strip` never lengthens, leaves no whitespace at either end, and gives "" exactly when the string is all whitespace |
| PyText.ReplaceChar | adk2.py:133 | `replace(c, rep)` leaves no `c` when `rep` has none, keeps every other character, adds only characters of `rep`, and is the identity when `c` does not occur |
| PyText.DigitsRoundTrip | adk2.py:134 | reading back the decimal digits of a timestamp gives the timestamp |
| PyText.DecimalInjective | adk2.py:134 | `str(i)` of two different integers differs |
| CorrectionParser.NoCloseInsideOpen | adk2.py:33-34 | no "```" starts at positions 1 to 6 of an opening "```json" |
| CorrectionParser.CloseFollowsOpen | adk2.py:34-38 | a closing fence found from `start + 1` begins at or after `start + 7`, so `text[start+7:end]` is well formed |
| CorrectionParser.JsonTextGuarded | adk2.py:33-41 | the text adk2.py decodes is no longer than the reply, has no whitespace at either end, and is the whole stripped reply when there is no opening fence or no closing fence after it |
| CorrectionParser.JsonTextUnguarded | adk.py:63-70 | the same for the text adk.py decodes, with its unconditional search for the closing fence |
| CorrectionParser.FencedReply | adk2.py:33-38 | for free text holding no earlier "```json", a json block whose body has no "```" inside it (inline backticks allowed) and any trailer, the decoded text is exactly the stripped block interior |
| CorrectionParser.UnclosedReply | adk2.py:37-41 | an opening fence preceded by free text holding no earlier "```json", with no closing fence after it, makes the whole stripped reply the decoded text |
| CorrectionParser.UnfencedReply | adk2.py:39-41 | a reply with no opening fence is decoded whole, in both variants |
| CorrectionParser.FencesAgree | adk.py:63-70 | adk.py searches for the closing fence even when `start == -1`, yet selects the same text as adk2.py; with an opening fence both searches find the same position |
| JsonValue.In | adk2.py:50 | Python's `key in v`: key membership for a dict, element equality for a list, substring for a str, and TypeError naming the type exactly for null, bool, int and float |
| CorrectionParser.CheckAsWritten | adk2.py:43-54 | a decoding failure gives None; a returned value is the decoded one; for a decoded dict the result is a value exactly when both keys are present; TypeError escapes exactly when the decoded value is a number, boolean or null |
| CorrectionParser.ParseCorrectionAsWritten | adk2.py:27-54 | adk2.py's parser as written: None when decoding the extracted text fails, a returned value is the decoded one, and TypeError escapes exactly when the decoded value is not a dict, list or str |
| CorrectionParser.ParseCorrection | adk2.py:27-54 | the corrected parser returns the value decoded from the extracted text exactly when it is a dict holding both keys, and None otherwise |
| CorrectionParser.CheckCorrection | adk2.py:27-54 | corrected validation: returns the decoded value exactly when it is a dict holding `diagnosis` and `corrected_data`, and None otherwise |
| CorrectionParser.AsWrittenAgreesOnDicts | adk2.py:43-54 | when the reply decodes to a dict, or fails to decode, the validation as written and the corrected one give the same result |
| CorrectionParser.PlainReply | adk2.py:37-41 | a reply with no backtick and no surrounding whitespace is decoded exactly as it is |
| CorrectionParser.PlainReplyParsed | adk2.py:37-54 | for such a reply both parsers validate what the decoder makes of the whole reply |
| CorrectionParser.BareNumberRaises | adk2.py:50 | a reply decoding to the number 42 makes the parser as written raise TypeError; the corrected one returns None |
| CorrectionParser.KeyListAccepted | adk2.py:50-54 | the reply `["diagnosis", "corrected_data"]`, decoded to that list, is returned by the parser as written; the corrected one returns None |
| CorrectionParser.KeyStringAccepted | adk2.py:50-54 | the reply `"diagnosis corrected_data"`, decoded to that string, is returned by the parser as written, since `in` on a str tests for a substring; the corrected one returns None |
| CorrectionParser.ParseCorrectionUnchecked | adk.py:59-75 | adk.py returns whatever the decoder makes of the same text adk2.py decodes, with no key check |
| CorrectionParser.UncheckedReturnsEveryDecodedValue | adk.py:59-75 | so adk.py returns everything the corrected adk2.py parser returns |
| Registration.ScreenshotPath | adk2.py:134 | the path starts with "temp_screenshots/error_" and ends with ".png" |
| Registration.ScreenshotPathInjective | adk2.py:134 | the path determines both the timestamp and the sanitised e-mail it was built from |
| Registration.FormInputAdk2 | adk2.py:84-86 | the form gets the row's Email, Country and Gender, each "" when the column is missing, on the given URL |
| Registration.FormInputAdk | adk.py:108-110 | the form gets the row's Email, Country and Gender, with Email "UNKNOWN" and the others "" when missing |
| Registration.SafeEmailAdk2 | adk2.py:133 | the sanitised e-mail has no '@' and no '.', keeps every other character, and is unchanged when neither occurs |
| Registration.RegisterAdk2 | adk2.py:84-152 | SUCCESS exactly when the browser raised nothing and the final URL differs from the input URL, FAILURE otherwise; both carry the original row; FAILURE also carries the path built from the timestamp and the sanitised e-mail (default "") |
| Registration.SafeEmailAdk | adk.py:144 | the file-name part has no '@', keeps its dots ('.' occurs in it exactly when it occurs in the e-mail), and is unchanged without '@' |
| Registration.RegisterAdkAsWritten | adk.py:142-160 | adk.py as written: AttributeError from `browser.is_closed()` escapes exactly when the attempt failed after `launch` returned (the browser raised with `browser` bound, or the URL did not change); otherwise the result of `RegisterAdk` |
| Registration.RegisterAdk | adk.py:108-160 | with the except handler's cleanup unable to raise: SUCCESS exactly when the browser raised nothing and the final URL differs from the input URL, and then the result has no `user_data` and no `screenshot_path`; FAILURE carries both, the path built from the e-mail (default "UNKNOWN") |
| Registration.UnchangedUrlEscapes | adk.py:151-153 | a submission that leaves the URL unchanged makes adk.py as written raise AttributeError, where the guarded cleanup returns FAILURE |
| Registration.FormDefaults | adk2.py:84-86 | a missing Email, Country or Gender reads as "" in adk2.py and as "UNKNOWN", "", "" in adk.py (adk.py:108-110); no other column is read |
| Registration.VariantsClassifyAlike | adk.py:135-140 | for the same browser behaviour both variants give the same status |
| Registration.MissingEmailScreenshots | adk.py:108-144 | for a failed row without an e-mail, adk2.py names the screenshot after "" and adk.py after "UNKNOWN" |
| Fabric.CreateTool | tool_fabric.py:245-251 | a "command" key selects the MCP-based tool even with "module"/"function"; otherwise both "module" and "function" select the internal tool; otherwise ValueError naming the tool; no name gives KeyError |
| Fabric.EnabledConfigs | tool_fabric.py:150-152 | the kept configurations are exactly the enabled ones ("enabled" true or absent); a single configuration is kept exactly when it is enabled |
| Fabric.EnabledConfigsAppend | tool_fabric.py:150-152 | the enabled configurations of a concatenation are those of each part, in turn, so filtering keeps order and duplicates |
| Fabric.AttachSpecShape | tool_fabric.py:149-161 | every client attaching appends is connected, there is at most one per enabled configuration, and the only exception is a KeyError for "name", "host" or "port" |
| Fabric.AttachAll | tool_fabric.py:149-161 | attaching raises nothing exactly when every enabled client configuration has name, host and port; then it appends one connected client per enabled configuration, in order, with protocol defaulting to "stdio" |
| Fabric.MCPClient.constructor | tool_fabric.py:73-81 | a new client keeps its name, host, port, protocol and token, is disconnected and has sent nothing; it records the tool that created it |
| Fabric.MCPClient.Connect | tool_fabric.py:83-89 | the client becomes connected; nothing else changes |
| Fabric.MCPClient.Send | tool_fabric.py:91-95 | a connected client writes out the payload; a disconnected one changes nothing |
| Fabric.MCPClient.Disconnect | tool_fabric.py:97-102 | the client is disconnected and its health-check stop flag is set |
| Fabric.Tool.constructor | tool_fabric.py:127-131 | a new tool has its name and configuration and no clients |
| Fabric.Tool.AttachClients | tool_fabric.py:149-161 | the clients appended are fresh, each one's state follows its configuration, earlier clients stay in place, and the KeyError is raised where the configuration says |
| Fabric.StartSpec | tool_fabric.py:211-218 | `start` raises the foreign error exactly when it makes a foreign call (an import, or a launch with a non-empty command; tool_fabric.py:181-185) and that call fails, and then attaches nothing; otherwise it attaches as `_attach_mcp_clients` does |
| Fabric.Tool.Start | tool_fabric.py:181-185 | a failing import or launch raises before any client is attached; otherwise start attaches as above (MCP-based start: tool_fabric.py:211-218) |
| Fabric.Tool.Stop | tool_fabric.py:138-141 | every client of the tool ends disconnected with its stop flag set; no client's sent payloads change |
| Fabric.ActionMessage | tool_fabric.py:229-231 | the message is a dict with exactly the keys "action" and "payload"; the payload is the given one when truthy and `{}` otherwise |
| Fabric.ToTool | tool_fabric.py:227-233 | `to_tool()` gives a callable bound to the instance: the action callable for an MCP-based tool, the function callable for an internal one (tool_fabric.py:192-198) |
| Fabric.Tool.CallAction | tool_fabric.py:227-233 | every connected client gets exactly one message `{action, payload or {}}` and a disconnected one gets none; the result is "[name] action executed" |
| Fabric.Tool.CallFunction | tool_fabric.py:192-198 | the wrapped function's result is sent as `{"result": value}` to every connected client and returned; if the function raised, nothing is sent and the same exception is raised |
| Fabric.SetupLastWins | tool_fabric.py:275-278 | after a setup that raised nothing, a name is registered exactly when it was before or some configuration carries it, with the last configuration of that name winning; the outcome of each foreign start step is given by the configuration's position |
| Fabric.SetupStopsAtFailure | tool_fabric.py:275-278 | the first failing configuration stops setup: the configurations before it stay registered, none after it is added, and its exception is raised |
| Fabric.ToolFabric.NoSharedClients | tool_fabric.py:280-292 | two registered tools share no client, so stopping one tool cannot touch another's clients |
| Fabric.ToolFabric.constructor | tool_fabric.py:264-269 | both dictionaries start empty; a document is loaded only for a non-empty path |
| Fabric.ToolFabric.LoadFromYaml | tool_fabric.py:271-273 | the configuration is replaced and the registry is unchanged |
| Fabric.ToolFabric.AddTool | tool_fabric.py:280-285 | the tool is created and started before either dictionary changes, so a failure registers nothing; on success both dictionaries map the name to the new tool, replacing an earlier one, and no other name changes; the two key sets stay equal |
| Fabric.ToolFabric.RemoveTool | tool_fabric.py:287-292 | an absent name changes nothing; otherwise the tool's clients are disconnected and the name leaves both dictionaries, every other entry unchanged, and every client of the remaining tools is left exactly as it was |
| Fabric.ToolFabric.Setup | tool_fabric.py:275-278 | the registry after setup is the fold of `add_tool` over the configurations in order (the outcome of the k-th configuration's foreign start step is `launchOk(k)`), stopping at the first failure, which is raised; without a loaded document AttributeError; on success the returned dictionary is `tools` |

## Left out

- Playwright browser driving and screenshot capture. These are reduced to the `BrowserRun` value the browser function returns. Closing the browser is reduced to it too, except for adk.py's unguarded cleanup in its except handler, which `RegisterAdkAsWritten` models.
- Registration.RegisterAdk: assumes the browser cleanup in adk.py's except handler cannot raise, as in adk2.py; the code as written is `RegisterAdkAsWritten`.
- Spreadsheet cells and corrected rows whose values are not strings (a numeric cell, `"Email": null` in a correction). The row is a `map<string, string>`, so the AttributeError that `email.replace` then raises inside the except handler (adk2.py:133, adk.py:144) is not modelled.
- Reading the spreadsheet with pandas, calling Gemini or ADK, `image_to_parts` and prompt building. These are foreign I/O.
- The agent definitions and run scripts. The per-user "retry once" exists only as natural-language instructions.
- `json.loads` internals. The decoder is a parameter. A JSON float is a Dafny `real`, exact where Python's float rounds; only its type name and its truthiness are used.
- `print` output other than `MCPClient.send`'s SEND line, which is the client's `delivered` log, and `time.time()`, which is a parameter.
- Health-check threads (`start_health_check`, `_start_health_checks`, the joins in `stop`). Their point is concurrency.
- `subprocess.Popen`, `process.terminate`, `importlib` and YAML loading. These are process and library I/O; whether the launch or import raised is a parameter, and the parsed document is a parameter.
- `attach_all_to_agent`. It only hands each callable to a foreign agent object.
- Python dictionary insertion order. The registry is modelled with maps, which are unordered.
- YAML values of unexpected types (a numeric tool name, `enabled: 0`, a null `mcp_clients`). The configuration records are typed.
- Fabric.ToolFabric.Setup: returns the value of `tools` at the end of the call, not the dictionary object itself. Later in-place changes to the registry are not seen through the returned value.
- Fabric.Tool.CallAction: states what each client receives, not the order across clients. One message per client is sent in list order, but nothing in the model observes that order.
- Fabric.Tool.CallFunction: the wrapped Python function's arguments are not modelled. Its outcome, a value or an exception, is a parameter.

## Findings

| source | as written | input that shows it | evidently intended | confidence | as-written member | corrected member |
|---|---|---|---|---|---|---|
| adk2.py:50 | `"diagnosis" not in obj` runs on whatever `json.loads` returned, so a reply that is a bare JSON number, boolean or null raises TypeError out of the parser | reply `42` | return None, as the docstring promises ("Returns a dict or None if parsing fails") | medium, not executed | CorrectionParser.BareNumberRaises | CorrectionParser.CheckCorrection |
| adk.py:151-153 | the except handler's cleanup `if 'browser' in locals() and not browser.is_closed()` is not guarded, and Playwright's `Browser` has `is_connected()` but no `is_closed()`, so every failure after `launch` returned raises AttributeError out of the function instead of returning the FAILURE dict | a submission after which the URL is unchanged | return the FAILURE dict with the screenshot path, as adk2.py:141-145 does by guarding the close | medium, not executed | Registration.UnchangedUrlEscapes | Registration.RegisterAdk |
| adk2.py:50-54 | the key test also succeeds on a list or string that contains the key names, so a non-dict is returned | the reply `["diagnosis", "corrected_data"]` | return a dict holding both keys, or None | medium, not executed | CorrectionParser.KeyListAccepted | CorrectionParser.CheckCorrection |
