/** The popup's single state record and the transitions that only edit it:
    the three input handlers and the predicate that enables the summarize
    button. */
module AppState {
  import opened Wrappers

  /** The component state: the three settings the user edits and saves,
      and the three fields the summarize flow writes. */
  datatype State = State(
    apiKey: string,
    systemPrompt: string,
    isActive: bool,
    summary: string,
    isLoading: bool,
    error: Option<string>)

  /** The state the popup opens with, before stored settings arrive. */
  const Initial: State := State("", "", false, "", false, None)

  /** `a` and `b` agree on the three persisted settings. */
  predicate SameSettings(a: State, b: State)
  {
    a.apiKey == b.apiKey && a.systemPrompt == b.systemPrompt && a.isActive == b.isActive
  }

  /** `a` and `b` agree on the three fields the summarize flow writes. */
  predicate SameOutput(a: State, b: State)
  {
    a.summary == b.summary && a.isLoading == b.isLoading && a.error == b.error
  }

  /** The summarize button is clickable: it is disabled when the extension
      is inactive or a summary is being produced. */
  predicate SummarizeEnabled(s: State)
  {
    s.isActive && !s.isLoading
  }

  /** The API key input's change handler. */
  function EditApiKey(s: State, value: string): (r: State)
    ensures r.apiKey == value
    ensures r.systemPrompt == s.systemPrompt && r.isActive == s.isActive
    ensures SameOutput(r, s)
  {
    s.(apiKey := value)
  }

  /** The system prompt textarea's change handler. */
  function EditSystemPrompt(s: State, value: string): (r: State)
    ensures r.systemPrompt == value
    ensures r.apiKey == s.apiKey && r.isActive == s.isActive
    ensures SameOutput(r, s)
  {
    s.(systemPrompt := value)
  }

  /** The "Activate Extension" checkbox's change handler. */
  function EditActive(s: State, checked: bool): (r: State)
    ensures r.isActive == checked
    ensures r.apiKey == s.apiKey && r.systemPrompt == s.systemPrompt
    ensures SameOutput(r, s)
    ensures SummarizeEnabled(r) <==> checked && !s.isLoading
  {
    s.(isActive := checked)
  }

  /** The popup opens with empty settings, inactive, not loading, with no
      summary and no error, so the summarize button starts disabled. */
  lemma InitialDisabled()
    ensures Initial.apiKey == "" && Initial.systemPrompt == "" && !Initial.isActive
    ensures Initial.summary == "" && !Initial.isLoading && Initial.error.None?
    ensures !SummarizeEnabled(Initial)
  {
  }
}
