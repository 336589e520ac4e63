/**
 * The pure decision logic of the browser controller (static/script.js):
 * the runtime-input filter, the AI-request validation and request body,
 * the classification of run and AI replies, the editor-insert rule and
 * the chat truncation. JavaScript truthiness is modelled exactly: an absent
 * field and the empty string are both falsy.
 */
module ClientLogic {
  import opened Wrappers
  import opened Text

  /** The JSON fields the client reads from a reply; each may be absent. */
  datatype ReplyBody = ReplyBody(output: Option<string>, error: Option<string>,
                                 response: Option<string>, code: Option<string>)

  /**
   * What `fetch` followed by `response.json()` produced: either something was
   * thrown (network failure, body that is not JSON) with its `message`, or an
   * HTTP reply with its `ok` bit and decoded body.
   */
  datatype Reply = Thrown(message: string) | Http(ok: bool, body: ReplyBody)

  /** What a display call shows: the text and whether the pane is styled as an error. */
  datatype Shown = Shown(text: string, isError: bool)

  /** JavaScript truthiness of an optional string field. */
  predicate Truthy(f: Option<string>): (b: bool)
    ensures f == None ==> !b
    ensures f == Some("") ==> !b
    ensures f.Some? && f.value != "" ==> b
  {
    f.Some? && f.value != ""
  }

  /** `f || fallback` for an optional string field. */
  function Or(f: Option<string>, fallback: string): (r: string)
    ensures Truthy(f) ==> r == f.value
    ensures !Truthy(f) ==> r == fallback
    ensures fallback != "" ==> r != ""
  {
    if Truthy(f) then f.value else fallback
  }

  // ---------------- runtime inputs (line 149) ----------------

  /** `lines.filter(line => line.trim() !== '')`. */
  function NonBlank(lines: seq<string>): (r: seq<string>)
    ensures |r| <= |lines|
    ensures forall k :: 0 <= k < |r| ==> !IsBlank(r[k]) && r[k] in lines
    decreases |lines|
  {
    if lines == [] then []
    else
      var rest := NonBlank(lines[1..]);
      if JsTrim(lines[0]) == "" then rest else [lines[0]] + rest
  }

  /** `inputsText.split('\n').filter(line => line.trim() !== '')`. */
  function RuntimeInputs(text: string): (r: seq<string>)
    ensures forall k :: 0 <= k < |r| ==> !IsBlank(r[k]) && '\n' !in r[k]
  {
    var lines := Split(text, '\n');
    var r := NonBlank(lines);
    assert forall k :: 0 <= k < |r| ==> r[k] in lines;
    r
  }

  /** A line is kept exactly when it holds a non-white-space character; kept lines are not trimmed. */
  lemma {:induction false} NonBlankKeeps(lines: seq<string>, x: string)
    ensures x in NonBlank(lines) <==> x in lines && !IsBlank(x)
    decreases |lines|
  {
    if lines != [] {
      NonBlankKeeps(lines[1..], x);
      JsTrimEmptyIffBlank(lines[0]);
      assert lines == [lines[0]] + lines[1..];
    }
  }

  /** The filter keeps the original order: it distributes over concatenation. */
  lemma {:induction false} NonBlankAppend(a: seq<string>, b: seq<string>)
    ensures NonBlank(a + b) == NonBlank(a) + NonBlank(b)
    decreases |a|
  {
    if a == [] {
      assert a + b == b;
    } else {
      assert (a + b)[0] == a[0];
      assert (a + b)[1..] == a[1..] + b;
      NonBlankAppend(a[1..], b);
    }
  }

  /**
   * Reading the textarea line by line: the first line is an input exactly when
   * it is not blank, and the inputs of the remaining lines follow it in order.
   */
  lemma RuntimeInputsFirstLine(line: string, rest: string)
    requires '\n' !in line
    ensures RuntimeInputs(line + "\n" + rest)
         == (if IsBlank(line) then [] else [line]) + RuntimeInputs(rest)
  {
    SplitAfterPiece(line, '\n', rest);
    assert line + "\n" + rest == line + ['\n'] + rest;
    NonBlankAppend([line], Split(rest, '\n'));
    JsTrimEmptyIffBlank(line);
    assert [line][1..] == [];
  }

  // ---------------- runPython reply classification (lines 151-187) ----------------

  const NoCodeMessage := "Error: No code to execute!"
  const RunSuccessFallback := "Code executed successfully!"
  const RunFailureFallback := "Failed to execute code"

  /** What `runPython` shows in the output pane for the outcome of its request. */
  function RunShown(reply: Reply): (r: Shown)
    ensures r.isError <==> !(reply.Http? && reply.ok && !Truthy(reply.body.error))
    ensures r.isError ==> "Error:" <= r.text
    ensures !r.isError ==> r.text != ""
    ensures reply.Thrown? ==> r.text == "Error: " + reply.message
  {
    match reply
    case Thrown(message) => Shown("Error: " + message, true)
    case Http(ok, body) =>
      if ok then
        if Truthy(body.error) then Shown("Error:\n" + body.error.value, true)
        else Shown(Or(body.output, RunSuccessFallback), false)
      else Shown("Error: " + Or(body.error, RunFailureFallback), true)
  }

  /** An ok reply without a truthy error shows its output, or the fixed message when the output is empty or absent. */
  lemma RunShownOnSuccess(body: ReplyBody)
    requires !Truthy(body.error)
    ensures RunShown(Http(true, body)).text
         == if body.output.Some? && body.output.value != "" then body.output.value else RunSuccessFallback
  {
  }

  /** An ok reply with a truthy error shows that error after "Error:" and a newline. */
  lemma RunShownOnAppError(body: ReplyBody)
    requires Truthy(body.error)
    ensures RunShown(Http(true, body)) == Shown("Error:\n" + body.error.value, true)
  {
  }

  /** A failed reply shows the server's error, or the fixed fallback when it has none. */
  lemma RunShownOnHttpError(body: ReplyBody)
    ensures RunShown(Http(false, body)).text
         == "Error: " + (if Truthy(body.error) then body.error.value else RunFailureFallback)
  {
  }

  // ---------------- sendAIPrompt validation and request (lines 195-234) ----------------

  const SelectActionFirst := "الرجاء اختيار إجراء AI أولاً!"
  const CodeRequired := "الرجاء إدخال كود في المحرر قبل استخدام هذا الإجراء."
  const PromptRequired := "الرجاء إدخال نص أو طلب صالح قبل الإرسال."

  /** The two actions that work on the editor's code. */
  predicate IsCodeAction(action: string)
  {
    action == "check_and_fix" || action == "improve_code"
  }

  datatype Validation = Rejected(message: string) | Accepted(action: string)

  /**
   * The checks `sendAIPrompt` makes before any request, in their order:
   * an action must be selected; a code action needs code in the editor;
   * any other action needs a non-blank prompt.
   */
  function ValidateAI(selected: Option<string>, promptField: string, editor: string): (v: Validation)
    ensures !Truthy(selected) ==> v == Rejected(SelectActionFirst)
    ensures Truthy(selected) && IsCodeAction(selected.value) ==>
              v == (if IsBlank(editor) then Rejected(CodeRequired) else Accepted(selected.value))
    ensures Truthy(selected) && !IsCodeAction(selected.value) ==>
              v == (if IsBlank(promptField) then Rejected(PromptRequired) else Accepted(selected.value))
  {
    var prompt := JsTrim(promptField);
    JsTrimEmptyIffBlank(promptField);
    JsTrimEmptyIffBlank(editor);
    if !Truthy(selected) then Rejected(SelectActionFirst)
    else if IsCodeAction(selected.value) then
      if JsTrim(editor) == "" then Rejected(CodeRequired) else Accepted(selected.value)
    else if prompt == "" then Rejected(PromptRequired)
    else Accepted(selected.value)
  }

  /** The body of the request to the AI endpoint. */
  datatype AIRequest = AIRequest(action: string, prompt: string, code: Option<string>)

  /**
   * `{action, prompt: prompt || editor}` plus `code: editor` for the code
   * actions: an empty prompt is replaced by the whole, untrimmed editor text.
   */
  function BuildAIRequest(action: string, promptField: string, editor: string): (b: AIRequest)
    ensures b.action == action
    ensures b.code.Some? <==> IsCodeAction(action)
    ensures b.code.Some? ==> b.code.value == editor
    ensures !IsBlank(promptField) ==> b.prompt == JsTrim(promptField)
    ensures IsBlank(promptField) ==> b.prompt == editor
  {
    JsTrimEmptyIffBlank(promptField);
    var prompt := JsTrim(promptField);
    AIRequest(action, if prompt != "" then prompt else editor,
              if IsCodeAction(action) then Some(editor) else None)
  }

  /** The text of the user's chat entry: the trimmed prompt, or "طلب " and the action. */
  function UserChatText(action: string, promptField: string): (t: string)
    ensures t != ""
    ensures !IsBlank(promptField) ==> t == JsTrim(promptField)
    ensures IsBlank(promptField) ==> t == "طلب " + action
  {
    JsTrimEmptyIffBlank(promptField);
    var prompt := JsTrim(promptField);
    if prompt != "" then prompt else "طلب " + action
  }

  /** A request that passed validation never carries a blank prompt. */
  lemma AcceptedRequestHasPrompt(selected: Option<string>, promptField: string, editor: string)
    requires ValidateAI(selected, promptField, editor).Accepted?
    ensures !IsBlank(BuildAIRequest(selected.value, promptField, editor).prompt)
  {
    var b := BuildAIRequest(selected.value, promptField, editor);
    if !IsBlank(promptField) {
      JsTrimEmptyIffBlank(promptField);
      JsTrimEmptyIffBlank(b.prompt);
    }
  }

  // ---------------- AI reply classification (lines 246-271) ----------------

  const AIFallback := "AI response received."
  const AIFailureFallback := "Failed to get AI response"

  /** What `sendAIPrompt` shows in the AI pane, and adds to the chat, for the outcome of its request. */
  function AIShown(reply: Reply): (r: Shown)
    ensures r.isError <==> !(reply.Http? && reply.ok)
    ensures r.isError ==> "Error: " <= r.text
    ensures !r.isError ==> r.text != ""
    ensures reply.Thrown? ==> r.text == "Error: " + reply.message
  {
    match reply
    case Thrown(message) => Shown("Error: " + message, true)
    case Http(ok, body) =>
      if ok then Shown(Or(body.response, Or(body.code, AIFallback)), false)
      else Shown("Error: " + Or(body.error, AIFailureFallback), true)
  }

  /** On an ok reply the shown text is `response`, else `code`, else the fixed acknowledgement. */
  lemma AIShownOnSuccess(body: ReplyBody)
    ensures AIShown(Http(true, body)).text
         == if Truthy(body.response) then body.response.value
            else if Truthy(body.code) then body.code.value
            else AIFallback
  {
  }

  /** An `error` field on an ok reply is ignored. */
  lemma AIShownIgnoresErrorOnSuccess(body: ReplyBody, error: Option<string>)
    ensures AIShown(Http(true, body.(error := error))) == AIShown(Http(true, body))
  {
  }

  /** A failed reply shows the server's error, or the fixed fallback when it has none. */
  lemma AIShownOnHttpError(body: ReplyBody)
    ensures AIShown(Http(false, body)).text
         == "Error: " + (if Truthy(body.error) then body.error.value else AIFailureFallback)
  {
  }

  /**
   * The editor text after the reply: replaced by the reply's `code` only for
   * generate_code, on an ok reply with a truthy `code`, and when the user confirms.
   */
  function EditorAfterReply(editor: string, action: string, reply: Reply, confirmed: bool): (e: string)
    ensures e != editor ==> reply.Http? && reply.ok && action == "generate_code" && confirmed && Truthy(reply.body.code)
    ensures reply.Http? && reply.ok && action == "generate_code" && confirmed && Truthy(reply.body.code)
            ==> e == reply.body.code.value
  {
    if reply.Http? && reply.ok && action == "generate_code" && Truthy(reply.body.code) && confirmed
    then reply.body.code.value
    else editor
  }

  /** Whether the insert question is put to the user at all. */
  predicate OffersInsert(action: string, reply: Reply): (b: bool)
    ensures b ==> action == "generate_code" && reply.Http? && reply.ok
                  && reply.body.code.Some? && reply.body.code.value != ""
  {
    reply.Http? && reply.ok && action == "generate_code" && Truthy(reply.body.code)
  }

  /** The editor changes only after the insert was offered and confirmed, and then it holds the code. */
  lemma InsertOnlyWhenOffered(editor: string, action: string, reply: Reply, confirmed: bool)
    ensures EditorAfterReply(editor, action, reply, confirmed) != editor ==> OffersInsert(action, reply) && confirmed
    ensures OffersInsert(action, reply) && confirmed ==> EditorAfterReply(editor, action, reply, confirmed) == reply.body.code.value
  {
  }

  // ---------------- chat truncation (line 330) ----------------

  const ChatLimit := 200

  /** The text a chat entry displays: messages over 200 characters are cut to 200 and given "...". */
  function ChatDisplay(message: string): (r: string)
    ensures |message| <= ChatLimit ==> r == message
    ensures |message| > ChatLimit ==> r == message[..ChatLimit] + "..." && |r| == ChatLimit + 3
    ensures |r| <= ChatLimit + 3
  {
    if |message| > ChatLimit then message[..ChatLimit] + "..." else message
  }

  /** The displayed text always starts with the first (up to) 200 characters of the message. */
  lemma ChatDisplayKeepsPrefix(message: string)
    ensures var n := if |message| < ChatLimit then |message| else ChatLimit;
            n <= |ChatDisplay(message)| && ChatDisplay(message)[..n] == message[..n]
  {
  }
}
