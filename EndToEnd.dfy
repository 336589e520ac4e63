/**
 * Properties of the client and the backend taken together: what the page
 * sends reaches the interpreter intact, and what the server answers is what
 * the page shows. `ToClient` is the JSON round trip between them: `ok` is a
 * status in 200-299 and each field the page reads is present exactly when the
 * server put it in the body.
 */
module EndToEnd {
  import opened Wrappers
  import opened Text
  import opened ClientLogic
  import opened Backend

  /** The reply as the page's handlers see it after `response.json()`. */
  function ToClient(r: ServerReply): (c: Reply)
    ensures c.Http? && (c.ok <==> 200 <= r.status < 300)
    ensures c.body.output.Some? <==> "output" in r.body
    ensures c.body.error.Some? <==> "error" in r.body
    ensures c.body.response.Some? <==> "response" in r.body
    ensures c.body.code.Some? <==> "code" in r.body
    ensures c.body.output.Some? ==> c.body.output.value == r.body["output"]
    ensures c.body.error.Some? ==> c.body.error.value == r.body["error"]
    ensures c.body.response.Some? ==> c.body.response.value == r.body["response"]
    ensures c.body.code.Some? ==> c.body.code.value == r.body["code"]
  {
    Http(200 <= r.status < 300,
         ReplyBody(Lookup(r.body, "output"), Lookup(r.body, "error"),
                   Lookup(r.body, "response"), Lookup(r.body, "code")))
  }

  /**
   * The lines the page keeps from the input box reach the program's standard
   * input one per line: splitting the joined text on '\n' gives them back, in
   * order, and an empty selection joins to the empty string.
   */
  lemma InputsRoundTrip(text: string)
    ensures var xs := RuntimeInputs(text);
            (xs == [] ==> InputStr(xs) == "")
            && (xs != [] ==> Split(InputStr(xs), '\n') == xs)
  {
    var xs := RuntimeInputs(text);
    if xs != [] {
      InputStrSplits(xs);
    }
  }

  /** A successful run shows the stripped standard output, or the fixed message when it is empty. */
  lemma RunSuccessShown(req: RunRequest, stdout: string, stderr: string)
    ensures var shown := RunShown(ToClient(RunPythonCode(req, Exited(0, stdout, stderr)).reply));
            shown == Shown(if PyStrip(stdout) == "" then RunSuccessFallback else PyStrip(stdout), false)
  {
  }

  /** A failed run shows "Error: " and its stripped error output, or the fixed message when that is empty. */
  lemma RunFailureShown(req: RunRequest, rc: int, stdout: string, stderr: string)
    requires rc != 0
    ensures var shown := RunShown(ToClient(RunPythonCode(req, Exited(rc, stdout, stderr)).reply));
            shown == Shown("Error: " + (if PyStrip(stderr) == "" then RunFailureFallback else PyStrip(stderr)), true)
  {
  }

  /** A run cut off by the time limit shows the timeout message as an error. */
  lemma RunTimeoutShown(req: RunRequest)
    ensures RunShown(ToClient(RunPythonCode(req, TimedOut).reply)) == Shown("Error: " + TimeoutMessage, true)
  {
  }

  /** A run the server could not start or finish for another reason shows the server's message as an error. */
  lemma RunCrashShown(req: RunRequest, reason: string)
    ensures RunShown(ToClient(RunPythonCode(req, Crashed(reason)).reply)) == Shown("Error: " + UnexpectedPrefix + reason, true)
  {
  }

  /**
   * A successful chat reply carries its text under "text", a key the page
   * never reads: the page shows the fixed acknowledgement instead of the answer.
   */
  lemma ChatReplyNeverShown(prompt: Option<string>, code: Option<string>, key: string, upstream: Upstream)
    requires GenerateContent(AIRequestBody(Some("chat_response"), prompt, code), key, upstream).reply.status == 200
    ensures AIShown(ToClient(GenerateContent(AIRequestBody(Some("chat_response"), prompt, code), key, upstream).reply))
         == Shown(AIFallback, false)
  {
    var r := GenerateContent(AIRequestBody(Some("chat_response"), prompt, code), key, upstream).reply;
    assert "response" !in r.body && "code" !in r.body;
  }

  /**
   * A successful code action shows the model's text; for generate_code the
   * page offers to put it into the editor exactly when the text is non-empty.
   */
  lemma CodeReplyShown(action: string, prompt: Option<string>, code: Option<string>, key: string, text: string,
                       status: nat, details: string, em: Option<string>)
    requires action == "generate_code" || action == "check_and_fix" || action == "improve_code"
    requires KeyUsable(key) && status < 400
    ensures var c := ToClient(GenerateContent(AIRequestBody(Some(action), prompt, code), key,
                                              Answered(status, details, em, Extracted(text))).reply);
            AIShown(c) == Shown(if text == "" then AIFallback else text, false)
            && (action == "generate_code" ==> (OffersInsert(action, c) <==> text != ""))
  {
    GeneratedTextKey(AIRequestBody(Some(action), prompt, code), key, text, details, em, status);
  }

  /** An upstream failure reaches the page as an error naming the upstream status. */
  lemma UpstreamErrorShown(action: string, prompt: Option<string>, code: Option<string>, key: string,
                           status: nat, details: string, em: Option<string>, content: Extraction)
    requires KnownAction(action) && KeyUsable(key) && status >= 400
    ensures var shown := AIShown(ToClient(GenerateContent(AIRequestBody(Some(action), prompt, code), key,
                                                          Answered(status, details, em, content)).reply));
            shown.isError && shown.text == "Error: " + ApiErrorText(status, GetOr(em, details))
  {
  }

  /** An unknown action is refused with status 400 and the page shows the server's message as an error. */
  lemma InvalidActionShown(action: string, prompt: Option<string>, code: Option<string>, key: string, upstream: Upstream)
    requires !KnownAction(action)
    ensures AIShown(ToClient(GenerateContent(AIRequestBody(Some(action), prompt, code), key, upstream).reply))
         == Shown("Error: " + InvalidActionMessage, true)
  {
  }

  /** Without a usable key a known action shows the missing-key message as an error. */
  lemma MissingKeyShown(action: string, prompt: Option<string>, code: Option<string>, key: string, upstream: Upstream)
    requires KnownAction(action) && !KeyUsable(key)
    ensures AIShown(ToClient(GenerateContent(AIRequestBody(Some(action), prompt, code), key, upstream).reply))
         == Shown("Error: " + MissingKeyMessage, true)
  {
  }

  /** A request to the model that fails in transport shows the failure as an error. */
  lemma RequestFailureShown(action: string, prompt: Option<string>, code: Option<string>, key: string, reason: string)
    requires KnownAction(action) && KeyUsable(key)
    ensures AIShown(ToClient(GenerateContent(AIRequestBody(Some(action), prompt, code), key, RequestFailed(reason)).reply))
         == Shown("Error: " + RequestFailedPrefix + reason, true)
  {
  }

  /** A model answer whose text cannot be extracted shows the processing error as an error. */
  lemma UnprocessableShown(action: string, prompt: Option<string>, code: Option<string>, key: string,
                           status: nat, details: string, em: Option<string>, reason: string)
    requires KnownAction(action) && KeyUsable(key) && status < 400
    ensures AIShown(ToClient(GenerateContent(AIRequestBody(Some(action), prompt, code), key,
                                             Answered(status, details, em, Unprocessable(reason))).reply))
         == Shown("Error: " + ProcessingPrefix + reason, true)
  {
  }
}
