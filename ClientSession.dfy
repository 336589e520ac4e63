/**
 * The browser controller's state and handlers (static/script.js). The module
 * globals `currentTheme`, `currentDir` and `selectedAIAction` and the
 * page-resident state (editor text, panes, chat list, loading overlay, status
 * line, stored theme, prompt field, labelled elements) are the fields of one
 * `Session`; each event handler is a method on it. What the network returned
 * and what the user answered to `confirm()` are parameters of the handlers.
 */
module ClientSession {
  import opened Wrappers
  import opened Text
  import opened ClientLogic
  import Markup

  datatype Theme = Dark | Light
  datatype Direction = Ltr | Rtl
  datatype Sender = User | Assistant

  /** One chat entry as displayed: who sent it and its (possibly truncated) text. */
  datatype ChatEntry = ChatEntry(sender: Sender, text: string)

  /** An element carrying `data-en` (and maybe `data-ar`), with its current text. */
  datatype Label = Label(en: string, ar: Option<string>, text: string)

  /** A request the page sent to the backend. */
  datatype Request = RunCode(code: string, inputs: seq<string>) | AskAI(body: AIRequest)

  /** The value stored under the key "theme" and shown in the status line. */
  function ThemeName(t: Theme): string
  {
    match t
    case Dark => "dark"
    case Light => "light"
  }

  function Flip(t: Theme): Theme
  {
    if t == Dark then Light else Dark
  }

  /** The editor colour scheme for a page theme. */
  function EditorTheme(t: Theme): string
  {
    if t == Dark then "vs-dark" else "vs"
  }

  function Turn(d: Direction): Direction
  {
    if d == Ltr then Rtl else Ltr
  }

  /** The `lang` attribute for a direction. */
  function LangFor(d: Direction): string
  {
    if d == Rtl then "ar" else "en"
  }

  /** The status-line label after the delayed reset. */
  function IdleLabel(d: Direction): string
  {
    if d == Rtl then "جاهز" else "Ready"
  }

  /** `currentDir.toUpperCase()` for the two directions. */
  function DirName(d: Direction): string
  {
    if d == Rtl then "RTL" else "LTR"
  }

  /** What `updateTextContent` does to one element. */
  function Relabel(l: Label, d: Direction): Label
  {
    if d == Rtl && l.ar.Some? then l.(text := l.ar.value)
    else if d == Ltr then l.(text := l.en)
    else l
  }

  /** What `updateTextContent` does to all elements. */
  function RelabelAll(ls: seq<Label>, d: Direction): (r: seq<Label>)
    ensures |r| == |ls|
    ensures forall k :: 0 <= k < |r| ==> r[k] == Relabel(ls[k], d)
  {
    seq(|ls|, k requires 0 <= k < |ls| => Relabel(ls[k], d))
  }

  /** Relabelling for the current direction again changes nothing. */
  lemma RelabelIdempotent(ls: seq<Label>, d: Direction)
    ensures RelabelAll(RelabelAll(ls, d), d) == RelabelAll(ls, d)
  {
    var once := RelabelAll(ls, d);
    assert forall k :: 0 <= k < |once| ==> Relabel(once[k], d) == once[k];
  }

  /** After switching to left-to-right every element shows its English text. */
  lemma RelabelLtrShowsEnglish(ls: seq<Label>)
    ensures forall k :: 0 <= k < |ls| ==> RelabelAll(ls, Ltr)[k].text == ls[k].en
  {
  }

  /** Whether `loadThemePreference` toggles: a stored, non-empty value that differs from the current theme. */
  predicate ShouldToggle(stored: Option<string>, current: Theme): (b: bool)
    ensures b ==> stored.Some? && stored.value != ""
    ensures stored == Some(ThemeName(current)) ==> !b
  {
    stored.Some? && stored.value != "" && stored.value != ThemeName(current)
  }

  /** For a stored "dark" or "light", exactly one of a theme and its flip asks for a toggle. */
  lemma ThemePreferenceSettles(stored: Option<string>, current: Theme)
    requires stored == Some("dark") || stored == Some("light")
    ensures ShouldToggle(stored, current) <==> !ShouldToggle(stored, Flip(current))
  {
  }

  const WelcomeCode := "# Welcome to AI IDE\n# Write your Python code here\n\nprint(\"Hello, World!\")\n"

  class Session {
    var theme: Theme                   // currentTheme
    var dir: Direction                 // currentDir
    var lang: string                   // <html lang>
    var selectedAction: Option<string> // selectedAIAction (null, or a button's data-action)
    var editor: string                 // the editor's value
    var editorTheme: string            // the editor's colour scheme
    var lightMode: bool                // body has class 'light-mode'
    var labels: array<Label>           // elements matching [data-en]
    var runtimeInputs: string          // #runtimeInputs value
    var outputText: string             // #outputConsole text
    var outputIsError: bool            // #outputConsole has 'error-text'
    var aiText: string                 // text last shown in #aiOutput; its innerHTML is AiHtml()
    var aiIsError: bool                // #aiOutput has 'error-text'
    var chat: seq<ChatEntry>           // #chatHistory children
    var loading: bool                  // #loadingOverlay is active
    var status: string                 // .status-text
    var storedTheme: Option<string>    // localStorage 'theme'
    var aiPrompt: string               // #aiPrompt value
    var sent: seq<Request>             // requests issued so far, in order

    /** The AI pane's HTML: the formatting of the text it was last given. */
    function AiHtml(): string
      reads this
    {
      Markup.Format(aiText)
    }

    /** The editor's colour scheme always follows the page theme. */
    ghost predicate Valid()
      reads this
    {
      editorTheme == EditorTheme(theme)
    }

    /**
     * The page right after the editor is created: dark theme, left-to-right,
     * no action selected, the welcome program in the editor, empty panes and
     * chat. The rest of the initial page comes from its markup and the browser.
     */
    constructor (page: seq<Label>, pageLang: string, pageLight: bool, pageStatus: string,
                 inputs: string, prompt: string, stored: Option<string>)
      ensures Valid()
      ensures fresh(labels) && labels[..] == page
      ensures theme == Dark && dir == Ltr && lang == pageLang && selectedAction == None
      ensures editor == WelcomeCode && editorTheme == "vs-dark" && lightMode == pageLight
      ensures runtimeInputs == inputs && outputText == "" && !outputIsError
      ensures aiText == "" && !aiIsError && chat == [] && !loading
      ensures status == pageStatus && storedTheme == stored && aiPrompt == prompt && sent == []
    {
      theme, dir, lang, selectedAction := Dark, Ltr, pageLang, None;
      editor, editorTheme, lightMode := WelcomeCode, "vs-dark", pageLight;
      labels := new Label[|page|](k requires 0 <= k < |page| => page[k]);
      runtimeInputs, outputText, outputIsError := inputs, "", false;
      aiText, aiIsError, chat, loading := "", false, [], false;
      status, storedTheme, aiPrompt, sent := pageStatus, stored, prompt, [];
    }

    /** `updateStatus` without its delayed reset (see `ResetStatus`). */
    method UpdateStatus(message: string)
      modifies this`status
      ensures status == message
    {
      status := message;
    }

    /** The delayed callback `updateStatus` schedules: the idle label for the current direction. */
    method ResetStatus()
      modifies this`status
      ensures status == IdleLabel(dir)
      ensures status == "جاهز" <==> dir == Rtl
    {
      status := IdleLabel(dir);
    }

    /** `showOutput`: the output pane's text and error styling. */
    method ShowOutput(text: string, isError: bool)
      modifies this`outputText, this`outputIsError
      ensures outputText == text && outputIsError == isError
    {
      outputText := text;
      outputIsError := isError;
    }

    /** `showAIOutput`: the AI pane shows `text`, formatted, with the error styling. */
    method ShowAIOutput(text: string, isError: bool)
      modifies this`aiText, this`aiIsError
      ensures aiText == text && aiIsError == isError
    {
      aiText := text;
      aiIsError := isError;
    }

    /** `addChatMessage`: exactly one entry is appended, its text truncated for display. */
    method AddChatMessage(sender: Sender, message: string)
      modifies this`chat
      ensures chat == old(chat) + [ChatEntry(sender, ChatDisplay(message))]
    {
      chat := chat + [ChatEntry(sender, ChatDisplay(message))];
    }

    /** `toggleTheme`: flip the theme, restyle page and editor, store the new value. */
    method ToggleTheme()
      requires Valid()
      modifies this`theme, this`editorTheme, this`lightMode, this`status, this`storedTheme
      ensures Valid()
      ensures theme == Flip(old(theme)) && lightMode == !old(lightMode)
      ensures editorTheme == "vs-dark" <==> theme == Dark
      ensures storedTheme == Some(ThemeName(theme))
      ensures status == "Theme changed to " + ThemeName(theme) + " mode"
    {
      theme := if theme == Dark then Light else Dark;
      lightMode := !lightMode;
      editorTheme := EditorTheme(theme);
      storedTheme := Some(ThemeName(theme));
      UpdateStatus("Theme changed to " + ThemeName(theme) + " mode");
    }

    /** `updateTextContent`: every labelled element shows the text for the current direction. */
    method UpdateTextContent()
      modifies labels
      ensures labels[..] == RelabelAll(old(labels[..]), dir)
    {
      var i := 0;
      while i < labels.Length
        invariant 0 <= i <= labels.Length
        invariant forall k :: 0 <= k < i ==> labels[k] == Relabel(old(labels[k]), dir)
        invariant forall k :: i <= k < labels.Length ==> labels[k] == old(labels[k])
      {
        var el := labels[i];
        if dir == Rtl && el.ar.Some? {
          labels[i] := el.(text := el.ar.value);
        } else if dir == Ltr {
          labels[i] := el.(text := el.en);
        }
        i := i + 1;
      }
    }

    /** `toggleDirection`: flip the direction, set `lang`, relabel the page. */
    method ToggleDirection()
      modifies this`dir, this`lang, this`status, labels
      ensures dir == Turn(old(dir))
      ensures lang == LangFor(dir) && (lang == "ar" <==> dir == Rtl)
      ensures labels[..] == RelabelAll(old(labels[..]), dir)
      ensures status == "Direction changed to " + DirName(dir)
    {
      dir := if dir == Ltr then Rtl else Ltr;
      lang := LangFor(dir);
      UpdateTextContent();
      UpdateStatus("Direction changed to " + DirName(dir));
    }

    /**
     * The click handler of an AI action button (lines 74-80): the button's
     * `data-action` (null when the attribute is missing, which string
     * concatenation renders as "null") becomes the selected action.
     */
    method SelectAIAction(dataAction: Option<string>)
      modifies this`selectedAction, this`status
      ensures selectedAction == dataAction
      ensures status == "AI Action selected: " + GetOr(dataAction, "null")
    {
      selectedAction := dataAction;
      UpdateStatus("AI Action selected: " + GetOr(dataAction, "null"));
    }

    /**
     * `runPython`, with `reply` standing for what the request returns. Blank
     * code only shows an error: no request, loading and status untouched.
     * Otherwise one request carries the code and the filtered input lines, the
     * outcome is shown, and loading ends false.
     */
    method RunPython(reply: Reply)
      modifies this`outputText, this`outputIsError, this`loading, this`status, this`sent
      ensures IsBlank(old(editor)) ==> outputText == NoCodeMessage && outputIsError
      ensures IsBlank(old(editor)) ==> unchanged(this`loading, this`status, this`sent)
      ensures !IsBlank(old(editor)) ==>
                && Shown(outputText, outputIsError) == RunShown(reply)
                && sent == old(sent) + [RunCode(old(editor), RuntimeInputs(old(runtimeInputs)))]
                && !loading && status == "Ready"
    {
      var code := editor;
      var inputs := RuntimeInputs(runtimeInputs);
      // `!code.trim()`: the trimmed text is empty exactly when the code is blank (JsTrimEmptyIffBlank).
      if IsBlank(code) {
        ShowOutput(NoCodeMessage, true);
        return;
      }
      loading := true;
      UpdateStatus("Running Python code...");
      sent := sent + [RunCode(code, inputs)];
      var shown := RunShown(reply);
      ShowOutput(shown.text, shown.isError);
      loading := false;
      UpdateStatus("Ready");
    }

    /**
     * `sendAIPrompt`, with `reply` standing for what the request returns and
     * `confirmInsert` for the user's answer to the insert question. A failed
     * validation only shows its message. Otherwise the user's chat entry is
     * added, one request is sent, the outcome goes to the pane and the chat,
     * the editor may take the generated code, and loading ends false.
     */
    method SendAIPrompt(reply: Reply, confirmInsert: bool)
      modifies this`editor, this`aiText, this`aiIsError, this`chat, this`loading, this`status, this`aiPrompt, this`sent
      ensures ValidateAI(old(selectedAction), old(aiPrompt), old(editor)).Rejected? ==>
                && aiText == ValidateAI(old(selectedAction), old(aiPrompt), old(editor)).message && aiIsError
                && unchanged(this`editor, this`chat, this`loading, this`status, this`aiPrompt, this`sent)
      ensures ValidateAI(old(selectedAction), old(aiPrompt), old(editor)).Accepted? ==>
                var action := old(selectedAction).value;
                && Shown(aiText, aiIsError) == AIShown(reply)
                && chat == old(chat) + [ChatEntry(User, ChatDisplay(UserChatText(action, old(aiPrompt))))]
                                      + [ChatEntry(Assistant, ChatDisplay(aiText))]
                && sent == old(sent) + [AskAI(BuildAIRequest(action, old(aiPrompt), old(editor)))]
                && editor == EditorAfterReply(old(editor), action, reply, confirmInsert)
                && aiPrompt == (if reply.Http? && reply.ok then "" else old(aiPrompt))
                && !loading && status == "Ready"
    {
      var verdict := ValidateAI(selectedAction, aiPrompt, editor);
      if verdict.Rejected? {
        ShowAIOutput(verdict.message, true);
        return;
      }
      var action := verdict.action;
      Exchange(action, UserChatText(action, aiPrompt), BuildAIRequest(action, aiPrompt, editor), reply, confirmInsert);
    }

    /**
     * The part of `sendAIPrompt` after validation has accepted `action`: the
     * user's chat entry `userText`, the request `body`, then the reply handling.
     */
    method Exchange(action: string, userText: string, body: AIRequest, reply: Reply, confirmInsert: bool)
      modifies this`editor, this`aiText, this`aiIsError, this`chat, this`loading, this`status, this`aiPrompt, this`sent
      ensures Shown(aiText, aiIsError) == AIShown(reply)
      ensures chat == old(chat) + [ChatEntry(User, ChatDisplay(userText))] + [ChatEntry(Assistant, ChatDisplay(aiText))]
      ensures sent == old(sent) + [AskAI(body)]
      ensures editor == EditorAfterReply(old(editor), action, reply, confirmInsert)
      ensures aiPrompt == (if reply.Http? && reply.ok then "" else old(aiPrompt))
      ensures !loading && status == "Ready"
    {
      loading := true;
      UpdateStatus("Processing AI request...");
      AddChatMessage(User, userText);
      sent := sent + [AskAI(body)];
      Respond(action, reply, confirmInsert);
    }

    /** How `sendAIPrompt` handles the outcome of its request for `action`. */
    method Respond(action: string, reply: Reply, confirmInsert: bool)
      modifies this`editor, this`aiText, this`aiIsError, this`chat, this`loading, this`status, this`aiPrompt
      ensures Shown(aiText, aiIsError) == AIShown(reply)
      ensures chat == old(chat) + [ChatEntry(Assistant, ChatDisplay(aiText))]
      ensures editor == EditorAfterReply(old(editor), action, reply, confirmInsert)
      ensures aiPrompt == (if reply.Http? && reply.ok then "" else old(aiPrompt))
      ensures !loading && status == "Ready"
    {
      var shown := AIShown(reply);
      ShowAIOutput(shown.text, shown.isError);
      AddChatMessage(Assistant, shown.text);
      if reply.Http? && reply.ok {
        if OffersInsert(action, reply) && confirmInsert {
          editor := reply.body.code.value;
        }
        aiPrompt := "";
      }
      loading := false;
      UpdateStatus("Ready");
    }

    /** `clearCode`: empties the editor only when the user confirms. */
    method ClearCode(confirmed: bool)
      modifies this`editor, this`status
      ensures confirmed ==> editor == "" && status == "Code cleared"
      ensures !confirmed ==> unchanged(this)
    {
      if confirmed {
        editor := "";
        UpdateStatus("Code cleared");
      }
    }

    /** `clearOutput`: empties the output pane's text; its styling stays. */
    method ClearOutput()
      modifies this`outputText, this`status
      ensures outputText == "" && status == "Output cleared"
    {
      outputText := "";
      UpdateStatus("Output cleared");
    }

    /** `clearAiOutput`: empties the AI pane; the chat list stays. */
    method ClearAiOutput()
      modifies this`aiText, this`status
      ensures aiText == "" && AiHtml() == "" && status == "AI output cleared"
    {
      aiText := "";
      UpdateStatus("AI output cleared");
    }

    /**
     * `loadThemePreference`: toggles once when a non-empty stored value differs
     * from the current theme, so a stored "dark" or "light" ends up as the theme.
     */
    method LoadThemePreference()
      requires Valid()
      modifies this`theme, this`editorTheme, this`lightMode, this`status, this`storedTheme
      ensures Valid()
      ensures ShouldToggle(old(storedTheme), old(theme)) ==>
                && theme == Flip(old(theme)) && lightMode == !old(lightMode)
                && storedTheme == Some(ThemeName(theme))
                && status == "Theme changed to " + ThemeName(theme) + " mode"
      ensures !ShouldToggle(old(storedTheme), old(theme)) ==> unchanged(this)
      ensures old(storedTheme) == Some("dark") ==> theme == Dark
      ensures old(storedTheme) == Some("light") ==> theme == Light
    {
      var saved := storedTheme;
      if saved.Some? && saved.value != "" && saved.value != ThemeName(theme) {
        ToggleTheme();
      }
    }
  }

  /** Toggling the theme twice restores the page; only the status line and the stored value remain written. */
  method ToggleThemeTwice(s: Session)
    requires s.Valid()
    modifies s`theme, s`editorTheme, s`lightMode, s`status, s`storedTheme
    ensures s.Valid()
    ensures s.theme == old(s.theme) && s.lightMode == old(s.lightMode) && s.editorTheme == old(s.editorTheme)
    ensures s.storedTheme == Some(ThemeName(s.theme))
    ensures s.status == "Theme changed to " + ThemeName(s.theme) + " mode"
  {
    s.ToggleTheme();
    s.ToggleTheme();
  }
}
