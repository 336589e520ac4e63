/**
 * The Flask backend (app.py) as pure functions from request data and the
 * results of the external calls to the `(body, status)` pair it answers with.
 * A JSON body is a map from keys to strings. The Python subprocess and the
 * HTTP request to the model are parameters: each handler returns, beside its
 * reply, what it handed to the outside world (or `None` when it made no call).
 */
module Backend {
  import opened Wrappers
  import opened Text

  /** A JSON reply and its HTTP status. */
  datatype ServerReply = ServerReply(body: map<string, string>, status: int)

  function ErrorReply(message: string, status: int): (r: ServerReply)
    ensures r.body.Keys == {"error"} && r.body["error"] == message && r.status == status
  {
    ServerReply(map["error" := message], status)
  }

  // ---------------- /api/code/run_python (lines 48-83) ----------------

  /** The request body: `code` and `inputs` may be missing. */
  datatype RunRequest = RunRequest(code: Option<string>, inputs: Option<seq<string>>)

  /** What the interpreter is started with: the program and its standard input. */
  datatype Execution = Execution(program: string, stdin: string)

  /** How the interpreter run ended. */
  datatype ProcessOutcome =
    | Exited(returnCode: int, stdout: string, stderr: string)
    | TimedOut                // subprocess.TimeoutExpired after 5 seconds
    | Crashed(reason: string) // any other exception, rendered with str(e)

  /** The handler's answer together with the run it started. */
  datatype RunHandled = RunHandled(exec: Execution, reply: ServerReply)

  const TimeoutMessage: string := "Execution timeout: Code took too long to run (5s limit)."
  const UnexpectedPrefix: string := "An unexpected error occurred during execution: "

  /** `'\n'.join(inputs)`: the interpreter's standard input. */
  function InputStr(inputs: seq<string>): (r: string)
    ensures inputs == [] ==> r == ""
    ensures |inputs| == 1 ==> r == inputs[0]
  {
    Join(inputs, '\n')
  }

  /** Lines without newlines are recovered from the standard input by splitting it on '\n'. */
  lemma InputStrSplits(inputs: seq<string>)
    requires |inputs| >= 1
    requires forall k :: 0 <= k < |inputs| ==> '\n' !in inputs[k]
    ensures Split(InputStr(inputs), '\n') == inputs
  {
    SplitJoin(inputs, '\n');
  }

  /** `run_python_code` with `outcome` standing for what `subprocess.run` produced. */
  function RunPythonCode(req: RunRequest, outcome: ProcessOutcome): (r: RunHandled)
    ensures r.exec == Execution(GetOr(req.code, ""), InputStr(GetOr(req.inputs, [])))
    ensures r.reply.status == 200 <==> outcome.Exited? && outcome.returnCode == 0
    ensures r.reply.status == 200 ==> r.reply.body.Keys == {"output"} && r.reply.body["output"] == PyStrip(outcome.stdout)
    ensures r.reply.status != 200 ==> r.reply.body.Keys == {"error"}
    ensures outcome.Exited? && outcome.returnCode != 0 ==> r.reply == ErrorReply(PyStrip(outcome.stderr), 400)
    ensures outcome.TimedOut? ==> r.reply == ErrorReply(TimeoutMessage, 408)
    ensures outcome.Crashed? ==> r.reply == ErrorReply(UnexpectedPrefix + outcome.reason, 500)
  {
    var exec := Execution(GetOr(req.code, ""), InputStr(GetOr(req.inputs, [])));
    match outcome
    case Exited(rc, out, err) =>
      if rc == 0 then RunHandled(exec, ServerReply(map["output" := PyStrip(out)], 200))
      else RunHandled(exec, ErrorReply(PyStrip(err), 400))
    case TimedOut => RunHandled(exec, ErrorReply(TimeoutMessage, 408))
    case Crashed(reason) => RunHandled(exec, ErrorReply(UnexpectedPrefix + reason, 500))
  }

  /** The text a run sends back never starts or ends with white space. */
  lemma RunReplyIsStripped(req: RunRequest, outcome: ProcessOutcome)
    requires outcome.Exited?
    ensures var body := RunPythonCode(req, outcome).reply.body;
            var text := if "output" in body then body["output"] else body["error"];
            text != [] ==> !IsPyWhitespace(text[0]) && !IsPyWhitespace(text[|text| - 1])
  {
    var body := RunPythonCode(req, outcome).reply.body;
    if outcome.returnCode == 0 {
      assert "output" in body && body["output"] == PyStrip(outcome.stdout);
    } else {
      assert "output" !in body && body["error"] == PyStrip(outcome.stderr);
    }
  }

  // ---------------- call_gemini_api (lines 90-149) ----------------

  /** Substituted for the key when the environment does not provide one (line 13). */
  const PlaceholderKey: string := "YOUR_API_KEY_HERE"
  const MissingKeyMessage: string := "API Key is missing or invalid. Please set GEMINI_API_KEY."

  /** The configured key: the environment's value, or the placeholder. */
  function ConfiguredKey(env: Option<string>): (key: string)
    ensures env.None? ==> !KeyUsable(key)
    ensures env.Some? ==> key == env.value
  {
    GetOr(env, PlaceholderKey)
  }

  /** The key guard: the placeholder and the empty string are refused. */
  predicate KeyUsable(key: string): (b: bool)
    ensures key == PlaceholderKey || key == "" ==> !b
    ensures b ==> |key| > 0
  {
    key != PlaceholderKey && key != ""
  }

  /** The system instruction chosen for an action; its wording is not modelled. */
  datatype Persona = Coder | Fixer | Improver | ChatAssistant

  /** What is sent to the model: the system instruction and the user prompt. */
  datatype GeminiCall = GeminiCall(system: Persona, user: string)

  /** The outcome of parsing a successful response and taking its first part's text. */
  datatype Extraction = Extracted(text: string) | Unprocessable(reason: string)

  /** What the HTTP request to the model produced. */
  datatype Upstream =
    | RequestFailed(reason: string)   // requests.exceptions.RequestException, rendered with str(e)
      /** `details` is the raw response text, `errorMessage` the JSON body's error.message if any. */
    | Answered(status: nat, details: string, errorMessage: Option<string>, content: Extraction)

  /** The helper's answer together with the request it made, if any. */
  datatype GeminiOutcome = GeminiOutcome(sent: Option<GeminiCall>, reply: ServerReply)

  const RequestFailedPrefix: string := "API request failed: "
  const ProcessingPrefix: string := "Error processing AI response: "

  /** The error text for an upstream status of 400 or more. */
  function ApiErrorText(status: nat, message: string): (t: string)
    ensures |t| > 10 + |message| && t[..10] == "API Error " && t[|t| - |message|..] == message
  {
    "API Error " + NatToDecimal(status) + ": " + message
  }

  /** `call_gemini_api` with `upstream` standing for what `requests.post` produced. */
  function CallGemini(key: string, call: GeminiCall, upstream: Upstream): (r: GeminiOutcome)
    ensures !KeyUsable(key) ==> r == GeminiOutcome(None, ErrorReply(MissingKeyMessage, 500))
    ensures KeyUsable(key) ==> r.sent == Some(call)
    ensures r.reply.status == 200 ==> r.reply.body.Keys == {"text"}
    ensures r.reply.status != 200 ==> r.reply.body.Keys == {"error"}
    ensures KeyUsable(key) && upstream.Answered? && upstream.status >= 400 ==>
              r.reply == ErrorReply(ApiErrorText(upstream.status, GetOr(upstream.errorMessage, upstream.details)), upstream.status)
    ensures KeyUsable(key) && upstream.Answered? && upstream.status < 400 && upstream.content.Extracted? ==>
              r.reply == ServerReply(map["text" := upstream.content.text], 200)
    ensures KeyUsable(key) && upstream.Answered? && upstream.status < 400 && upstream.content.Unprocessable? ==>
              r.reply == ErrorReply(ProcessingPrefix + upstream.content.reason, 500)
    ensures KeyUsable(key) && upstream.RequestFailed? ==> r.reply == ErrorReply(RequestFailedPrefix + upstream.reason, 500)
  {
    if !KeyUsable(key) then GeminiOutcome(None, ErrorReply(MissingKeyMessage, 500))
    else
      var reply := match upstream
        case RequestFailed(reason) => ErrorReply(RequestFailedPrefix + reason, 500)
        case Answered(status, details, errorMessage, content) =>
          if status >= 400 then ErrorReply(ApiErrorText(status, GetOr(errorMessage, details)), status)
          else match content
            case Extracted(text) => ServerReply(map["text" := text], 200)
            case Unprocessable(reason) => ErrorReply(ProcessingPrefix + reason, 500);
      GeminiOutcome(Some(call), reply)
  }

  /** With no key in the environment the placeholder is configured, and every call is refused before any request. */
  lemma UnsetKeyRefused(call: GeminiCall, upstream: Upstream)
    ensures CallGemini(ConfiguredKey(None), call, upstream) == GeminiOutcome(None, ErrorReply(MissingKeyMessage, 500))
  {
  }

  /** Without a usable key the answer is the same whatever the model would have said. */
  lemma NoKeyIgnoresUpstream(key: string, c1: GeminiCall, c2: GeminiCall, u1: Upstream, u2: Upstream)
    requires !KeyUsable(key)
    ensures CallGemini(key, c1, u1) == CallGemini(key, c2, u2)
  {
  }

  /**
   * An upstream failure's status can be read back from the error text: it
   * starts with "API Error ", then the decimal digits of the status, then ": ".
   */
  lemma ApiErrorStatusReadable(status: nat, message: string)
    ensures var t := ApiErrorText(status, message);
            var digits := NatToDecimal(status);
            t[..10] == "API Error " && t[10..10 + |digits|] == digits
            && DecimalValue(t[10..10 + |digits|]) == status
  {
    NatToDecimalValue(status);
  }

  // ---------------- /api/ai/generate (lines 152-206) ----------------

  /** The request body: `action` and `prompt` may be missing; a `code` field is never read. */
  datatype AIRequestBody = AIRequestBody(action: Option<string>, prompt: Option<string>, code: Option<string>)

  const DefaultAction: string := "chat_response"
  const InvalidActionMessage: string := "Invalid AI action specified."
  const GenerateHeader: string := "الطلب: اكتب كود Python للوظيفة التالية:"
  const FixHeader: string := "الكود المراد تصحيحه:"
  const ImproveHeader: string := "الكود المراد تحسينه:"
  const Rule: string := "\n---\n"
  const RuleEnd: string := "\n---"

  predicate KnownAction(action: string)
  {
    action == "generate_code" || action == "check_and_fix" || action == "improve_code" || action == "chat_response"
  }

  /** The prompt framed between a header and two rules, as the three code actions send it. */
  function Framed(header: string, prompt: string): (u: string)
    ensures |u| == |header| + |Rule| + |prompt| + |RuleEnd|
    ensures u[..|header|] == header && u[|header| + |Rule|..|u| - |RuleEnd|] == prompt
    ensures u[|header|..|header| + |Rule|] == Rule && u[|u| - |RuleEnd|..] == RuleEnd
  {
    var u := header + Rule + prompt + RuleEnd;
    assert u[..|header|] == header;
    assert u[|header|..|header| + |Rule|] == Rule;
    assert u[|u| - |RuleEnd|..] == RuleEnd;
    assert u[|header| + |Rule|..|u| - |RuleEnd|] == prompt;
    u
  }

  /** The dispatch table: system instruction and user prompt per action; `None` rejects the action. */
  function Dispatch(action: string, prompt: string): (c: Option<GeminiCall>)
    ensures c.Some? <==> KnownAction(action)
    ensures action == "chat_response" ==> c == Some(GeminiCall(ChatAssistant, prompt))
    ensures action == "generate_code" ==> c == Some(GeminiCall(Coder, Framed(GenerateHeader, prompt)))
    ensures action == "check_and_fix" ==> c == Some(GeminiCall(Fixer, Framed(FixHeader, prompt)))
    ensures action == "improve_code" ==> c == Some(GeminiCall(Improver, Framed(ImproveHeader, prompt)))
  {
    if action == "generate_code" then Some(GeminiCall(Coder, Framed(GenerateHeader, prompt)))
    else if action == "check_and_fix" then Some(GeminiCall(Fixer, Framed(FixHeader, prompt)))
    else if action == "improve_code" then Some(GeminiCall(Improver, Framed(ImproveHeader, prompt)))
    else if action == "chat_response" then Some(GeminiCall(ChatAssistant, prompt))
    else None
  }

  /** Different prompts for the same known action give different user prompts: the framing loses nothing. */
  lemma DispatchInjective(action: string, p1: string, p2: string)
    requires KnownAction(action)
    requires Dispatch(action, p1) == Dispatch(action, p2)
    ensures p1 == p2
  {
    var u1 := Dispatch(action, p1).value.user;
    if action != "chat_response" {
      var h := if action == "generate_code" then GenerateHeader
               else if action == "check_and_fix" then FixHeader else ImproveHeader;
      assert u1 == Framed(h, p1) == Framed(h, p2);
      assert p1 == u1[|h| + |Rule|..|u1| - |RuleEnd|] == p2;
    }
  }

  /** `ai_generate_content` with `upstream` standing for what the model's endpoint produced. */
  function GenerateContent(req: AIRequestBody, key: string, upstream: Upstream): (r: GeminiOutcome)
    ensures var action := GetOr(req.action, DefaultAction);
            !KnownAction(action) ==> r == GeminiOutcome(None, ErrorReply(InvalidActionMessage, 400))
    ensures var action := GetOr(req.action, DefaultAction);
            KnownAction(action) ==> r.sent == (if KeyUsable(key) then Dispatch(action, GetOr(req.prompt, "")) else None)
    ensures var action := GetOr(req.action, DefaultAction);
            r.reply.status == 200 ==> r.reply.body.Keys == (if action == DefaultAction then {"text"} else {"code"})
    ensures r.reply.status != 200 ==> r.reply.body.Keys == {"error"}
    ensures var action := GetOr(req.action, DefaultAction);
            KnownAction(action) && !KeyUsable(key) ==> r.reply == ErrorReply(MissingKeyMessage, 500)
    ensures var action := GetOr(req.action, DefaultAction);
            KnownAction(action) ==>
              var helper := CallGemini(key, Dispatch(action, GetOr(req.prompt, "")).value, upstream);
              && (r.reply.status != 200 ==> r.reply == helper.reply)
              && (action == DefaultAction ==> r.reply == helper.reply)
              && (action != DefaultAction && helper.reply.status == 200 ==>
                    r.reply == ServerReply(map["code" := helper.reply.body["text"]], 200))
  {
    var action := GetOr(req.action, DefaultAction);
    var prompt := GetOr(req.prompt, "");
    match Dispatch(action, prompt)
    case None => GeminiOutcome(None, ErrorReply(InvalidActionMessage, 400))
    case Some(call) =>
      var helper := CallGemini(key, call, upstream);
      if helper.reply.status == 200 && action != DefaultAction then
        GeminiOutcome(helper.sent, ServerReply(map["code" := helper.reply.body["text"]], 200))
      else helper
  }

  /** The model's text reaches the client under "code" for the code actions and under "text" for chat. */
  lemma GeneratedTextKey(req: AIRequestBody, key: string, text: string, details: string, em: Option<string>, status: nat)
    requires KnownAction(GetOr(req.action, DefaultAction)) && KeyUsable(key) && status < 400
    ensures var r := GenerateContent(req, key, Answered(status, details, em, Extracted(text))).reply;
            r.status == 200
            && (if GetOr(req.action, DefaultAction) == DefaultAction then r.body == map["text" := text]
                else r.body == map["code" := text])
  {
  }

  /** A request without an action is a chat request. */
  lemma MissingActionIsChat(prompt: Option<string>, code: Option<string>, key: string, upstream: Upstream)
    ensures GenerateContent(AIRequestBody(None, prompt, code), key, upstream)
         == GenerateContent(AIRequestBody(Some("chat_response"), prompt, code), key, upstream)
  {
  }

  /** The `code` field of the request has no influence on the answer. */
  lemma CodeFieldIgnored(action: Option<string>, prompt: Option<string>, c1: Option<string>, c2: Option<string>,
                         key: string, upstream: Upstream)
    ensures GenerateContent(AIRequestBody(action, prompt, c1), key, upstream)
         == GenerateContent(AIRequestBody(action, prompt, c2), key, upstream)
  {
  }
}
