# AI IDE — a verified model of its decision logic

The AI IDE is a browser page with a code editor, an output console and an AI
assistant pane, served by a small Flask backend. The page runs Python code on
the server (`/api/code/run_python`) and forwards prompts to a Gemini model
(`/api/ai/generate`). It also keeps a chat transcript, switches between dark
and light themes and between left-to-right and right-to-left layouts, and
remembers the theme in `localStorage`.

This project models the logic between the widgets and the network:

- `ClientSession.dfy` — the page's state as one `Session` class. It holds the
  globals `currentTheme`, `currentDir`, `selectedAIAction`, plus the editor
  text, panes, chat list, loading flag, status line, stored theme, prompt field
  and the `[data-en]` labels (an `array`). Each event handler is a method. The
  network's answer is a `Reply` parameter and the user's answer to `confirm()`
  is a boolean parameter. Each handler's `modifies` clause names the only
  fields it may change, and its postconditions give their new values.
- `ClientLogic.dfy` — the pure client rules: the runtime-input filter, request
  validation and the request body, how run and AI replies are classified, and
  chat truncation. JavaScript truthiness (`""` counts as absent) is modelled exactly.
- `Markup.dfy` — the three global regular-expression replacements of
  `showAIOutput`, as the left-to-right scans `String.prototype.replace` performs.
- `Backend.dfy` — the Flask handlers as pure functions from request data and
  the subprocess or upstream result to a `(body, status)` pair. Each handler
  also returns the external call it made, if any.
- `EndToEnd.dfy` — client and server together: input lines survive the client
  split/filter and the server join; every outcome of a run (success, failure,
  timeout, crash) and every answer of the AI route (text, invalid action, missing
  key, upstream error status, failed request, unprocessable answer) is traced to
  what the page shows.
- `Text.dfy`, `Wrappers.dfy` — JavaScript `trim`/`split`, Python
  `strip`/`join`/`str(int)` with each language's own white-space set, and `Option`.

One formatter behaviour is easy to misread. It would be natural to expect the
contents of a fenced block to be left alone. In `static/script.js:310-312`,
though, the inline-code rule runs over the whole string after the fenced
rule, so backtick spans inside a `<pre>` block still become `<code>` spans.
The model follows the code, and `Markup.InlineRuleReachesFencedContent`
states this.

## Model

| member | source | states |
|---|---|---|
| Text.JsTrim | static/script.js:151 | `trim()` returns a slice of its input cut only at ECMAScript white space, with none left at either end |
| Text.PyStrip | app.py:74-78 | `strip()` returns a slice of its input cut only where `isspace()` holds, with none left at either end |
| Text.StripBy | static/script.js:149 | trimming removes only white space from both ends, and the result neither starts nor ends with white space |
| Text.StripEmptyIffAllSpace | static/script.js:151 | `trim()` yields `""` exactly when every character is white space |
| Text.StripIdempotent | app.py:74 | stripping twice is stripping once |
| Text.Split | static/script.js:149 | `split('\n')` gives at least one piece, and no piece holds the separator |
| Text.SplitJoin | app.py:59 | splitting `'\n'.join(xs)` on `'\n'` gives back `xs` when `xs` is non-empty and newline-free |
| Text.JoinSplit | app.py:59 | joining the pieces of a split restores the string |
| Text.NatToDecimalValue | app.py:131 | the decimal rendering of a status denotes that status |
| ClientLogic.Truthy | static/script.js:174-180 | a missing field and `""` are falsy; any other string is truthy |
| ClientLogic.Or | static/script.js:177 | a field or-ed with a fallback is the field when truthy, else the fallback, and is never empty when the fallback is not |
| ClientLogic.NonBlank | static/script.js:149 | the filter keeps only non-blank lines drawn from its input, never more than it was given |
| ClientLogic.NonBlankKeeps | static/script.js:149 | a line is kept iff it occurs in the input and is not blank; kept lines are not trimmed |
| ClientLogic.NonBlankAppend | static/script.js:149 | the filter distributes over concatenation, so the original order is kept |
| ClientLogic.RuntimeInputs | static/script.js:148-149 | every runtime input is non-blank and newline-free |
| ClientLogic.RuntimeInputsFirstLine | static/script.js:149 | the first textarea line is an input iff it is not blank, followed by the inputs of the remaining lines |
| ClientLogic.RunShown | static/script.js:173-184 | the output pane is an error iff the reply is not an ok reply free of a truthy `error`; errors start with "Error:"; success text is never empty; a thrown failure shows "Error: " + message |
| ClientLogic.RunShownOnSuccess | static/script.js:177 | an ok reply shows `output`, or "Code executed successfully!" when it is empty or absent |
| ClientLogic.RunShownOnAppError | static/script.js:174-175 | an ok reply with a truthy `error` shows "Error:\n" + error |
| ClientLogic.RunShownOnHttpError | static/script.js:180 | a failed reply shows "Error: " + (error or "Failed to execute code") |
| ClientLogic.ValidateAI | static/script.js:198-217 | the three checks in their order: selection required, then code for the two code actions, then a non-blank prompt for every other action |
| ClientLogic.BuildAIRequest | static/script.js:226-234 | `action` is the selection; `prompt` is the trimmed prompt, or the untrimmed editor text when the prompt is blank; `code` is present iff the action is a code action, and then equals the editor text |
| ClientLogic.UserChatText | static/script.js:223 | the user's chat entry is the trimmed prompt, or "طلب " + action when the prompt is blank; never empty |
| ClientLogic.AcceptedRequestHasPrompt | static/script.js:204-228 | a request that passed validation never carries a blank prompt |
| ClientLogic.AIShown | static/script.js:246-267 | the AI pane is an error iff the reply is not ok; errors start with "Error: "; success text is never empty |
| ClientLogic.AIShownOnSuccess | static/script.js:247 | an ok reply shows `response`, else `code`, else "AI response received." |
| ClientLogic.AIShownIgnoresErrorOnSuccess | static/script.js:246-249 | an `error` field on an ok reply changes nothing |
| ClientLogic.AIShownOnHttpError | static/script.js:261-262 | a failed reply shows "Error: " + (error or "Failed to get AI response") |
| ClientLogic.EditorAfterReply | static/script.js:252-256 | the editor changes only for generate_code on an ok reply with a truthy `code` that the user confirms, and then holds that code |
| ClientLogic.OffersInsert | static/script.js:252 | the insert question is asked only for generate_code on an ok reply with a non-empty `code` |
| ClientLogic.InsertOnlyWhenOffered | static/script.js:252-256 | the editor changes only when the insert was offered and confirmed, and then it holds the reply's code |
| ClientLogic.ChatDisplay | static/script.js:330 | a message of at most 200 characters is shown verbatim, a longer one as its first 200 followed by "..."; at most 203 characters |
| ClientLogic.ChatDisplayKeepsPrefix | static/script.js:330 | the shown text always begins with the message's first (up to) 200 characters |
| Markup.BreakLines | static/script.js:310 | the result has no newline; newline-free text is unchanged; no backtick is introduced |
| Markup.ReplaceFences | static/script.js:311 | backtick-free text is unchanged, and no newline is introduced |
| Markup.ReplaceInline | static/script.js:312 | backtick-free text is unchanged, and no newline is introduced |
| Markup.Format | static/script.js:309-312 | the pane's HTML never contains a newline |
| Markup.FormatWithoutBackticks | static/script.js:309-312 | backtick-free text only has its newlines turned into `<br>` |
| Markup.FormatPlain | static/script.js:309-312 | text without newlines or backticks is shown unchanged |
| Markup.FencedSpan | static/script.js:311 | the shortest fenced span becomes one `<pre>` block holding its content, and the scan resumes after it |
| Markup.InlineSpan | static/script.js:312 | a backtick span with non-empty backtick-free content becomes one `<code>` span |
| Markup.FormatSingleFence | static/script.js:309-312 | a single backtick-free fenced block becomes exactly one `<pre>` block |
| Markup.NewlinesInsideFence | static/script.js:310-311 | newlines are replaced before fences are matched, so the line breaks around fenced code appear as `<br>` inside the `<pre>` |
| Markup.InlineRuleReachesFencedContent | static/script.js:311-312 | a backtick span inside a fenced block still becomes a `<code>` span inside the `<pre>` |
| Markup.BreakLinesAppend | static/script.js:310 | the newline replacement distributes over concatenation |
| ClientSession.RelabelAll | static/script.js:132-140 | each label shows its Arabic text in rtl when it has one, its English text in ltr, and is otherwise unchanged |
| ClientSession.RelabelIdempotent | static/script.js:132-140 | relabelling for the same direction twice is relabelling once |
| ClientSession.RelabelLtrShowsEnglish | static/script.js:136-137 | after switching to ltr every label shows its English text |
| ClientSession.Session.constructor | static/script.js:7-10 | the initial state: dark, ltr, no action, the welcome program, editor theme "vs-dark", empty panes and chat, loading off |
| ClientSession.Session.UpdateStatus | static/script.js:338-342 | the status line shows the message; nothing else may change |
| ClientSession.Session.ResetStatus | static/script.js:344-346 | the delayed reset writes "جاهز" iff the direction is rtl, else "Ready" |
| ClientSession.Session.ShowOutput | static/script.js:298-303 | the output pane gets the text and error flag; nothing else may change |
| ClientSession.Session.ShowAIOutput | static/script.js:305-317 | the AI pane gets the text (its HTML, `AiHtml`, is `Markup.Format` of it) and the error flag; nothing else may change |
| ClientSession.Session.AddChatMessage | static/script.js:319-335 | exactly one entry, with the truncated text, is appended to the chat; nothing else may change |
| ClientSession.Session.ToggleTheme | static/script.js:95-112 | the theme flips; the stored preference is the new theme; the editor theme is "vs-dark" iff dark; nothing else changes but the light-mode class and the status |
| ClientSession.ToggleThemeTwice | static/script.js:95-112 | toggling twice restores theme, light mode and editor theme |
| ClientSession.Session.UpdateTextContent | static/script.js:132-140 | the label array becomes the relabelling of its old contents for the current direction |
| ClientSession.Session.ToggleDirection | static/script.js:117-127 | the direction flips, `lang` is "ar" in rtl and "en" in ltr, the labels are relabelled, and the status names the new direction |
| ClientSession.Session.SelectAIAction | static/script.js:74-80 | the button's action becomes the selection and the status names it |
| ClientSession.Session.RunPython | static/script.js:146-189 | blank code only shows "Error: No code to execute!" (no request, loading and status untouched); otherwise exactly one request with the editor text and the filtered inputs, the classified outcome in the pane, loading off and status "Ready" |
| ClientSession.Session.SendAIPrompt | static/script.js:194-273 | a failed check only shows its message as an error (chat, loading and requests unchanged); otherwise one user entry and one reply entry are appended, one request with the built body is sent, the classified outcome is shown, the editor follows `EditorAfterReply`, the prompt is cleared iff the reply is ok, and loading ends off |
| ClientSession.Session.Exchange | static/script.js:219-272 | the accepted path: the user entry then the reply entry are appended, exactly the given request is sent, then the reply is handled as in `Respond` |
| ClientSession.Session.Respond | static/script.js:245-272 | the reply handling: the pane shows the classified outcome and the chat gets the same text; the editor follows `EditorAfterReply`; the prompt is cleared iff the reply is ok; loading off, status "Ready" |
| ClientSession.Session.ClearCode | static/script.js:278-283 | on confirmation only the editor (emptied) and the status change; otherwise nothing changes |
| ClientSession.Session.ClearOutput | static/script.js:285-288 | only the output text (emptied) and the status change |
| ClientSession.Session.ClearAiOutput | static/script.js:290-293 | only the AI pane (emptied, so its HTML is empty) and the status change; the chat stays |
| ClientSession.ShouldToggle | static/script.js:403 | a toggle is asked for only by a stored non-empty value, and never by the value naming the current theme |
| ClientSession.ThemePreferenceSettles | static/script.js:401-406 | for a stored "dark" or "light", exactly one of a theme and its flip asks for a toggle, so loading settles after one toggle |
| ClientSession.Session.LoadThemePreference | static/script.js:401-406 | toggles iff a non-empty stored value differs from the current theme; a stored "dark" or "light" ends equal to the theme |
| Backend.InputStr | app.py:59 | no inputs give the empty standard input, and one input is passed as it is |
| Backend.InputStrSplits | app.py:59 | the joined standard input splits back into the given newline-free lines |
| Backend.RunPythonCode | app.py:53-83 | the interpreter gets the code (default "") and the joined inputs (default none); exit 0 gives `{"output": strip(stdout)}` 200; any other exit gives `{"error": strip(stderr)}` 400; timeout gives the 5-second message with 408; any other failure gives the prefixed reason with 500 |
| Backend.RunReplyIsStripped | app.py:74-78 | the text of a finished run never starts or ends with white space |
| Backend.CallGemini | app.py:90-149 | an empty or placeholder key gives the key error with 500 and no request; otherwise exactly the given call is sent; an upstream status of 400 or more gives "API Error <status>: <message>" with that status; below 400 an extracted text gives `{"text": text}` 200 and an unprocessable answer gives "Error processing AI response: " + reason with 500; a failed request gives "API request failed: " + reason with 500 |
| Backend.KeyUsable | app.py:94 | the placeholder and the empty key are refused |
| Backend.ConfiguredKey | app.py:13 | the environment's key, or the placeholder, which is refused, when it is unset |
| Backend.UnsetKeyRefused | app.py:13 | with no key in the environment every call answers the key error with 500 and sends nothing |
| Backend.ApiErrorText | app.py:131 | the error text starts with "API Error " and ends with the upstream message |
| Backend.NoKeyIgnoresUpstream | app.py:94-95 | without a usable key the answer does not depend on the call or on the upstream |
| Backend.ApiErrorStatusReadable | app.py:131 | the upstream status can be read back from the error text's digits after "API Error " |
| Backend.Framed | app.py:168 | the framed prompt is the header, the rule "\n---\n", the user's prompt and the closing rule "\n---", each at its place |
| Backend.Dispatch | app.py:162-196 | a call is made iff the action is one of the four; chat sends the prompt verbatim, each code action its own header around the prompt |
| Backend.DispatchInjective | app.py:162-193 | for a known action, different prompts give different calls |
| Backend.GenerateContent | app.py:153-206 | an unknown action gives `{"error": "Invalid AI action specified."}` 400 without a call; a known one calls the model when the key is usable, answers the key error with 500 when it is not, and passes every non-200 answer of the helper through unchanged (body and status); chat returns the helper's answer as it is; a code action's 200 carries only "code", holding the helper's text |
| Backend.GeneratedTextKey | app.py:201-206 | the model's text is returned under "code" for the code actions and under "text" for chat |
| Backend.MissingActionIsChat | app.py:159 | a request without an action is handled as chat_response |
| Backend.CodeFieldIgnored | app.py:157-159 | the request's `code` field has no influence on the answer |
| EndToEnd.ToClient | static/script.js:171-172 | `response.ok` is a 2xx status, and each field the page reads is present iff the server sent it, with the server's value |
| EndToEnd.InputsRoundTrip | app.py:59 | the page's kept input lines reach the program one per line: splitting the joined text gives them back; no lines give "" |
| EndToEnd.RunSuccessShown | app.py:71-74 | a successful run shows the stripped stdout, or "Code executed successfully!" when that is empty |
| EndToEnd.RunFailureShown | app.py:75-78 | a failed run shows "Error: " + stripped stderr, or "Error: Failed to execute code" when that is empty |
| EndToEnd.RunTimeoutShown | app.py:80-81 | a timed-out run shows the timeout message as an error |
| EndToEnd.RunCrashShown | app.py:82-83 | any other failure of the run shows "Error: An unexpected error occurred during execution: " + reason as an error |
| EndToEnd.ChatReplyNeverShown | app.py:142 | a successful chat reply's text is under "text", so the page shows "AI response received." instead |
| EndToEnd.CodeReplyShown | app.py:201-203 | a code action's text is shown (or the acknowledgement when empty); generate_code offers the insert iff the text is non-empty |
| EndToEnd.UpstreamErrorShown | app.py:123-131 | an upstream failure reaches the page as an error naming its status |
| EndToEnd.InvalidActionShown | app.py:195-196 | an unknown action reaches the page as "Error: Invalid AI action specified." |
| EndToEnd.MissingKeyShown | app.py:94-95 | without a usable key a known action shows "Error: " + the missing-key message as an error |
| EndToEnd.RequestFailureShown | app.py:144-146 | a failed request to the model shows "Error: API request failed: " + reason as an error |
| EndToEnd.UnprocessableShown | app.py:147-149 | an answer whose text cannot be extracted shows "Error: Error processing AI response: " + reason as an error |

## Left out

- Monaco loader, worker URL and editor options (static/script.js:15-45): a third-party widget. The editor is a string field, and the constructor is the state once it exists.
- `ClientSession.Session.ToggleTheme`: always sets the editor theme. The source's `if (monacoEditor)` guard is always true, because every handler is registered after the editor is created.
- DOM lookups, listener registration (static/script.js:50-90) and the keyboard shortcuts (static/script.js:411-429): plumbing. The handler methods are called directly.
- `fetch`, `await` and `response.json()`, plus Flask routing, `request.get_json`, `jsonify` and `render_template`: I/O. Replies and requests are datatype parameters. A body that is not JSON is a thrown `Reply`. JSON null and non-string values are not modelled.
- Each handler is modelled as one atomic step, from the click to the last statement after its `await`s. The source reads the global `selectedAIAction` again after the reply arrives (static/script.js:252). A selection changed by another click while a request is in flight is therefore not captured: `Respond` uses the action validated when the request was sent.
- The `setTimeout` status reset and overlapping submissions: timers and concurrency. The reset is a separate method, `ResetStatus`. The transient statuses "Running Python code..." and "Processing AI request..." are overwritten within the same handler.
- `confirm()`: the user's answer is a boolean parameter. `localStorage` is the `storedTheme` field.
- The resizer (static/script.js:364-396): pixel geometry read from the layout.
- `subprocess.run` and `requests.post`: external process and network. Their results are the `ProcessOutcome` and `Upstream` parameters. The request itself (URL, headers, `maxOutputTokens`, temperature 0.7, the 30-second timeout) is not modelled.
- The Gemini response walk with defaults (app.py:139-140), including the "No text generated." default: a foreign JSON shape. It is the `Extraction` parameter. How the error JSON yields `error.message` (app.py:126-130) is the `errorMessage` parameter.
- The system-prompt wording (app.py:163-192): opaque. It is the `Persona` enumeration.
- The `index` route, the startup warning and the `__main__` block of app.py; console and app logging; scroll positions; the theme icon emoji; button opacity; CSS class names beyond the error flag.
- `ClientLogic.ChatDisplay`: counts Unicode scalar values, whereas JavaScript's `length` and `substring` count UTF-16 code units. The two differ for characters outside the Basic Multilingual Plane.
- `EndToEnd.ToClient`: takes `ok` as a status in 200-299 and does not model how Flask serialises error pages.
