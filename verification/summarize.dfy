/** `summarizeText`: capture the page selection, validate it and the API
    key, send one chat-completion request and commit either the trimmed
    reply or an error message. The awaited calls (tab query, script
    injection, completion request) are parameters: their outcomes are
    passed in, and the request the flow would send is returned. */
module Summarize {
  import opened Wrappers
  import opened Strings
  import opened AppState

  /** The error messages the flow can set. */
  const CaptureFailedMessage := "Failed to get selected text"
  const NoTextMessage := "No text selected"
  const MissingKeyMessage := "API key is required"
  const UnknownErrorMessage := "An unknown error occurred"

  /** What the summary falls back to when the reply carries no text. */
  const NoResponse := "No response"

  /** The completion model every request names. */
  const ModelId := "llama3-8b-8192"

  /** The line between the system prompt and the selected text. */
  const Separator := "\nSummarize this:\n"

  /** What the selection-reading script returned in the tab: it failed to
      run, or it ran and `window.getSelection()` gave a selection or null. */
  datatype ScriptOutcome = ScriptFailed | ScriptRan(selection: Option<string>)

  /** The outcome of `getSelectedText`: it threw, or it returned a string. */
  datatype Capture = CaptureFailed | Selected(text: string)

  /** `getSelectedText`. `tabId` is the active tab's id, None when there is
      no active tab or it has no id. Every failure is rethrown as one error,
      and a null selection reads as the empty string. */
  function GetSelectedText(tabId: Option<int>, script: ScriptOutcome): (c: Capture)
    ensures c.CaptureFailed? <==> tabId.None? || tabId == Some(0) || script.ScriptFailed?
    ensures c.Selected? ==> c.text == script.selection.GetOr("")
  {
    if tabId.None? || tabId.value == 0 then CaptureFailed
    else match script
      case ScriptFailed => CaptureFailed
      case ScriptRan(sel) => Selected(OrEmpty(sel))
  }

  datatype Message = Message(role: string, content: string)

  /** A chat-completion request: the key the client is built with, the
      model and the message list. */
  datatype Request = Request(apiKey: string, model: string, messages: seq<Message>)

  /** A value thrown by the completion call: an `Error` with its message,
      or anything else. */
  datatype Thrown = ErrorValue(message: string) | NonError

  /** What the completion call produced: a reply whose first choice may or
      may not carry content, or a thrown value. */
  datatype Completion = Replied(content: Option<string>) | Threw(thrown: Thrown)

  /** The message content: the system prompt, the separator line, then the
      selected text. */
  function Prompt(systemPrompt: string, selected: string): (p: string)
    ensures |p| == |systemPrompt| + |Separator| + |selected|
    ensures p[..|systemPrompt|] == systemPrompt
    ensures p[|systemPrompt|..|systemPrompt| + |Separator|] == Separator
    ensures p[|systemPrompt| + |Separator|..] == selected
  {
    systemPrompt + Separator + selected
  }

  /** The request for a selection and a snapshot of key and prompt. */
  function BuildRequest(apiKey: string, systemPrompt: string, selected: string): (q: Request)
    ensures q.apiKey == apiKey && q.model == ModelId
    ensures |q.messages| == 1 && q.messages[0].role == "user"
    ensures q.messages[0].content == Prompt(systemPrompt, selected)
  {
    Request(apiKey, ModelId, [Message("user", Prompt(systemPrompt, selected))])
  }

  /** The checks before any request: the capture, then an empty selection,
      then the key, in that order. */
  function Validate(capture: Capture, apiKey: string, systemPrompt: string): (r: Result<Request, string>)
    ensures r.Success? <==> capture.Selected? && capture.text != "" && apiKey != ""
    ensures r.Success? ==> r.value == BuildRequest(apiKey, systemPrompt, capture.text)
    ensures capture.CaptureFailed? ==> r == Failure(CaptureFailedMessage)
    ensures capture == Selected("") ==> r == Failure(NoTextMessage)
    ensures capture.Selected? && capture.text != "" && apiKey == "" ==> r == Failure(MissingKeyMessage)
  {
    match capture
    case CaptureFailed => Failure(CaptureFailedMessage)
    case Selected(text) =>
      if text == "" then Failure(NoTextMessage)
      else if apiKey == "" then Failure(MissingKeyMessage)
      else Success(BuildRequest(apiKey, systemPrompt, text))
  }

  /** `content || 'No response'`. */
  function ReplyText(content: Option<string>): (t: string)
    ensures content.Some? && content.value != "" ==> t == content.value
    ensures content.None? || content == Some("") ==> t == NoResponse
  {
    if content.Some? && content.value != "" then content.value else NoResponse
  }

  /** The summary a reply yields: the fallback applied first, then trimmed. */
  function SummaryOf(content: Option<string>): (r: string)
    ensures IsTrimOf(r, ReplyText(content))
  {
    Trim(ReplyText(content))
  }

  /** The message a caught value puts in `error`. */
  function ErrorText(thrown: Thrown): (m: string)
    ensures thrown.ErrorValue? ==> m == thrown.message
    ensures thrown.NonError? ==> m == UnknownErrorMessage
  {
    match thrown
    case ErrorValue(message) => message
    case NonError => UnknownErrorMessage
  }

  /** The first `setState` of `summarizeText`: loading on, error cleared.
      There is no guard: a click while loading starts again. */
  function Start(s: State): (r: State)
    ensures r.isLoading && r.error.None?
    ensures SameSettings(r, s) && r.summary == s.summary
    ensures !SummarizeEnabled(r)
  {
    s.(isLoading := true, error := None)
  }

  /** The error commit of the catch block. */
  function FailWith(s: State, message: string): (r: State)
    ensures r.error == Some(message) && !r.isLoading
    ensures SameSettings(r, s) && r.summary == s.summary
  {
    s.(error := Some(message), isLoading := false)
  }

  /** The success commit: the new summary, loading off, error untouched. */
  function Succeed(s: State, content: Option<string>): (r: State)
    ensures r.summary == SummaryOf(content) && !r.isLoading
    ensures SameSettings(r, s) && r.error == s.error
  {
    s.(summary := SummaryOf(content), isLoading := false)
  }

  /** A finished run: the committed state and the request sent, if any. */
  datatype Outcome = Outcome(state: State, sent: Option<Request>)

  /** Everything after the first `setState`. `s` is the state the commit
      is applied to; `apiKey` and `systemPrompt` are the values the closure
      read when the click happened; `respond` is what the completion
      service does with a request. */
  function Finish(s: State, capture: Capture, apiKey: string, systemPrompt: string,
                  respond: Request -> Completion): (r: Outcome)
    ensures SameSettings(r.state, s) && !r.state.isLoading
    ensures r.sent.Some? <==> capture.Selected? && capture.text != "" && apiKey != ""
    ensures r.sent.Some? ==> r.sent.value == BuildRequest(apiKey, systemPrompt, capture.text)
    ensures r.sent.None? ==> r.state.summary == s.summary && r.state.error.Some?
    ensures capture.CaptureFailed? ==> r.state.error == Some(CaptureFailedMessage)
    ensures capture == Selected("") ==> r.state.error == Some(NoTextMessage)
    ensures capture.Selected? && capture.text != "" && apiKey == "" ==> r.state.error == Some(MissingKeyMessage)
    ensures r.sent.Some? ==> match respond(r.sent.value)
      case Replied(content) => r.state.summary == SummaryOf(content) && r.state.error == s.error
      case Threw(thrown) => r.state.summary == s.summary && r.state.error == Some(ErrorText(thrown))
  {
    match Validate(capture, apiKey, systemPrompt)
    case Failure(message) => Outcome(FailWith(s, message), None)
    case Success(request) =>
      match respond(request)
      case Replied(content) => Outcome(Succeed(s, content), Some(request))
      case Threw(thrown) => Outcome(FailWith(s, ErrorText(thrown)), Some(request))
  }

  /** One click handled without interleaved edits: start, then finish on
      the started state with the key and prompt read at the click. */
  function SummarizeText(s: State, capture: Capture, respond: Request -> Completion): (r: Outcome)
    ensures SameSettings(r.state, s) && !r.state.isLoading
    ensures r.state.error.None? <==> r.sent.Some? && respond(r.sent.value).Replied?
  {
    Finish(Start(s), capture, s.apiKey, s.systemPrompt, respond)
  }

  /** What the tab and the script report decides the capture error: no tab
      id (missing or 0) or a failed script surfaces as "Failed to get
      selected text", and a null or empty selection as "No text selected";
      neither sends a request or touches the summary. */
  lemma CaptureErrors(s: State, tabId: Option<int>, script: ScriptOutcome,
                      apiKey: string, systemPrompt: string, respond: Request -> Completion)
    ensures var r := Finish(s, GetSelectedText(tabId, script), apiKey, systemPrompt, respond);
      && (tabId.None? || tabId == Some(0) || script.ScriptFailed? ==>
            r.state.error == Some(CaptureFailedMessage) && r.sent.None? && r.state.summary == s.summary)
      && (tabId.Some? && tabId != Some(0) && script.ScriptRan? && script.selection.GetOr("") == "" ==>
            r.state.error == Some(NoTextMessage) && r.sent.None? && r.state.summary == s.summary)
  {
  }

  /** The selection is checked before the key: an empty selection reports
      itself even when the key is missing, and a non-empty one reports the
      missing key. */
  lemma ErrorPrecedence(s: State, text: string, respond: Request -> Completion)
    requires s.apiKey == ""
    ensures SummarizeText(s, Selected(""), respond).state.error == Some(NoTextMessage)
    ensures text != "" ==> SummarizeText(s, Selected(text), respond).state.error == Some(MissingKeyMessage)
  {
  }

  /** A failed run sends nothing, so what the service would have answered
      does not matter; the settings are kept and the summary survives. */
  lemma ErrorPathIgnoresService(s: State, capture: Capture, apiKey: string, systemPrompt: string,
                                respond1: Request -> Completion, respond2: Request -> Completion)
    requires Finish(s, capture, apiKey, systemPrompt, respond1).sent.None?
    ensures Finish(s, capture, apiKey, systemPrompt, respond1) == Finish(s, capture, apiKey, systemPrompt, respond2)
    ensures Finish(s, capture, apiKey, systemPrompt, respond1).state.summary == s.summary
  {
  }

  /** A run either commits a summary with no error, or an error with the
      old summary kept; after either the button is enabled exactly when
      the extension is active. */
  lemma SummarizeOutcomes(s: State, capture: Capture, respond: Request -> Completion)
    ensures var r := SummarizeText(s, capture, respond);
      && (r.state.error.None? ==> r.sent.Some? && r.state.summary == SummaryOf(respond(r.sent.value).content))
      && (r.state.error.Some? ==> r.state.summary == s.summary)
      && (SummarizeEnabled(r.state) <==> s.isActive)
  {
  }

  /** A reply with no content, or empty content, shows "No response". */
  lemma MissingContentSaysNoResponse(content: Option<string>)
    requires content.None? || content == Some("")
    ensures SummaryOf(content) == NoResponse
  {
    TrimOfTrimmed(NoResponse);
  }

  /** The fallback is applied before trimming: content made only of
      whitespace is kept and trims to the empty summary. */
  lemma WhitespaceContentGivesEmptySummary(content: string)
    requires content != "" && AllSpace(content)
    ensures SummaryOf(Some(content)) == ""
  {
    TrimEmptyIff(content);
  }

  /** A committed summary never starts or ends with whitespace, and is
      empty only for whitespace-only content. */
  lemma SummaryIsTrimmed(content: Option<string>)
    ensures var r := SummaryOf(content);
      (|r| > 0 ==> !IsSpace(r[0]) && !IsSpace(r[|r| - 1]))
      && (r == "" <==> content.Some? && content.value != "" && AllSpace(content.value))
  {
    var t := ReplyText(content);
    var r := SummaryOf(content);
    var i, j :| TrimAt(r, t, i, j);
    TrimEmptyIff(t);
    assert !AllSpace(NoResponse) by { assert !IsSpace(NoResponse[0]); }
    if content.Some? && content.value != "" {
      assert t == content.value;
    } else {
      assert t == NoResponse;
    }
  }

  /** The selected text is recoverable from the message content given the
      system prompt: distinct selections never yield the same request. */
  lemma PromptDeterminesSelection(systemPrompt: string, a: string, b: string)
    requires Prompt(systemPrompt, a) == Prompt(systemPrompt, b)
    ensures a == b
  {
    var n := |systemPrompt| + |Separator|;
    assert a == Prompt(systemPrompt, a)[n..];
  }

  /** Input edits and the summarize commit touch disjoint fields, so an
      edit made while a request is in flight survives the commit. */
  lemma EditCommutesWithFinish(s: State, key: string, prompt: string, active: bool,
                               capture: Capture, apiKey: string, systemPrompt: string,
                               respond: Request -> Completion)
    ensures Finish(EditApiKey(s, key), capture, apiKey, systemPrompt, respond).state
      == EditApiKey(Finish(s, capture, apiKey, systemPrompt, respond).state, key)
    ensures Finish(EditSystemPrompt(s, prompt), capture, apiKey, systemPrompt, respond).state
      == EditSystemPrompt(Finish(s, capture, apiKey, systemPrompt, respond).state, prompt)
    ensures Finish(EditActive(s, active), capture, apiKey, systemPrompt, respond).state
      == EditActive(Finish(s, capture, apiKey, systemPrompt, respond).state, active)
  {
    match Validate(capture, apiKey, systemPrompt)
    case Failure(_) =>
    case Success(request) =>
  }
}
