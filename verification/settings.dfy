/** Loading the three settings from extension storage when the popup opens,
    and writing them back from the "Save Settings" button. The store itself
    is a parameter: what a read returned, or whether a write succeeded. */
module Settings {
  import opened Wrappers
  import opened AppState

  /** The keys the popup keeps in storage; a key that was never written
      reads as missing. */
  datatype Stored = Stored(apiKey: Option<string>, systemPrompt: Option<string>, isActive: Option<bool>)

  /** A store the popup has never written to. */
  const Empty: Stored := Stored(None, None, None)

  /** `!!value`: a missing flag reads as false. */
  function Truthy(value: Option<bool>): (r: bool)
    ensures r <==> value == Some(true)
  {
    value.Some? && value.value
  }

  /** The storage callback at mount. `read` is None when the read did not
      deliver data (the storage call threw, which is caught and logged);
      the state is then unchanged. */
  function LoadSettings(s: State, read: Option<Stored>): (r: State)
    ensures SameOutput(r, s)
    ensures read.None? ==> r == s
    ensures read.Some? ==> r.apiKey == read.value.apiKey.GetOr("")
    ensures read.Some? ==> r.systemPrompt == read.value.systemPrompt.GetOr("")
    ensures read.Some? ==> (r.isActive <==> read.value.isActive == Some(true))
  {
    match read
    case None => s
    case Some(data) =>
      s.(apiKey := OrEmpty(data.apiKey),
         systemPrompt := OrEmpty(data.systemPrompt),
         isActive := Truthy(data.isActive))
  }

  /** The record "Save Settings" writes: exactly the three settings of the
      current state. */
  function Saved(s: State): (d: Stored)
    ensures d.apiKey == Some(s.apiKey) && d.systemPrompt == Some(s.systemPrompt)
    ensures d.isActive == Some(s.isActive)
  {
    Stored(Some(s.apiKey), Some(s.systemPrompt), Some(s.isActive))
  }

  /** What a save leaves behind. */
  datatype SaveOutcome = SaveOutcome(state: State, store: Stored)

  /** "Save Settings": the write replaces the three keys when it succeeds
      and leaves the store as it was when it fails. Either way only an
      alert follows, so the state is untouched. */
  function SaveSettings(s: State, store: Stored, writeOk: bool): (r: SaveOutcome)
    ensures r.state == s
    ensures writeOk ==> r.store == Saved(s)
    ensures !writeOk ==> r.store == store
  {
    SaveOutcome(s, if writeOk then Saved(s) else store)
  }

  /** Saving and then loading, possibly into another popup's state,
      restores exactly the saved settings and touches nothing else. */
  lemma SaveThenLoad(s: State, t: State, store: Stored)
    ensures var loaded := LoadSettings(t, Some(SaveSettings(s, store, true).store));
      SameSettings(loaded, s) && SameOutput(loaded, t)
  {
  }

  /** Loading what the current state would save changes nothing. */
  lemma LoadSavedIsIdentity(s: State)
    ensures LoadSettings(s, Some(Saved(s))) == s
  {
  }

  /** Loading from a store that was never written yields empty settings
      with the extension inactive. */
  lemma LoadEmpty(s: State)
    ensures var r := LoadSettings(s, Some(Empty));
      r.apiKey == "" && r.systemPrompt == "" && !r.isActive && !SummarizeEnabled(r)
  {
  }
}
