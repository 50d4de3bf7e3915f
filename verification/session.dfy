/** The popup as a sequence of events: edits, the storage callback, saves,
    clicks on the summarize button and the completion of an outstanding
    summarize run. A click takes the key and prompt snapshot the closure
    reads; the run's outcome arrives later, possibly after further edits.
    The store outlives the popup: a popup opens on whatever an earlier one
    left behind. */
module Session {
  import opened Wrappers
  import opened AppState
  import opened Settings
  import opened Summarize

  /** The key and prompt a click's closure captured. */
  datatype Snapshot = Snapshot(apiKey: string, systemPrompt: string)

  /** The component state, the run still outstanding (if any) and the store. */
  datatype Popup = Popup(state: State, inFlight: Option<Snapshot>, store: Stored)

  datatype Event =
    | TypeApiKey(value: string)
    | TypeSystemPrompt(value: string)
    | ToggleActive(checked: bool)
    | StorageLoaded(readOk: bool)
    | SaveClicked(writeOk: bool)
    | SummarizeClicked
    | RunSettled(capture: Capture, respond: Request -> Completion)

  /** A popup as it opens on the store earlier popups left behind. */
  function OpenedWith(store: Stored): (p: Popup)
    ensures p.state == Initial && p.inFlight.None? && p.store == store
  {
    Popup(Initial, None, store)
  }

  /** `isLoading` is on exactly while a run is outstanding. */
  predicate Consistent(p: Popup)
  {
    p.state.isLoading <==> p.inFlight.Some?
  }

  /** One event. A disabled button delivers no click, a settlement with no
      run outstanding has nothing to settle, and the storage callback reads
      the store unless the read fails. */
  function Step(p: Popup, e: Event): (r: Popup)
    ensures Consistent(p) ==> Consistent(r)
    ensures e.SummarizeClicked? && p.inFlight.Some? && Consistent(p) ==> r == p
    ensures e.SummarizeClicked? && SummarizeEnabled(p.state) ==>
      r.state == Start(p.state) && r.inFlight == Some(Snapshot(p.state.apiKey, p.state.systemPrompt))
    ensures e.TypeApiKey? ==> r.state == EditApiKey(p.state, e.value)
    ensures e.TypeSystemPrompt? ==> r.state == EditSystemPrompt(p.state, e.value)
    ensures e.ToggleActive? ==> r.state == EditActive(p.state, e.checked)
    ensures e.SaveClicked? ==> r.state == p.state && r.store == SaveSettings(p.state, p.store, e.writeOk).store
    ensures !e.RunSettled? && !e.SummarizeClicked? ==> r.inFlight == p.inFlight
    ensures e.RunSettled? && p.inFlight.Some? ==>
      && r.inFlight.None? && r.store == p.store
      && r.state == Finish(p.state, e.capture, p.inFlight.value.apiKey,
                           p.inFlight.value.systemPrompt, e.respond).state
    ensures e.StorageLoaded? ==>
      r.state == LoadSettings(p.state, if e.readOk then Some(p.store) else None)
    ensures !e.SaveClicked? ==> r.store == p.store
  {
    match e
    case TypeApiKey(v) => p.(state := EditApiKey(p.state, v))
    case TypeSystemPrompt(v) => p.(state := EditSystemPrompt(p.state, v))
    case ToggleActive(b) => p.(state := EditActive(p.state, b))
    case StorageLoaded(ok) => p.(state := LoadSettings(p.state, if ok then Some(p.store) else None))
    case SaveClicked(ok) =>
      var saved := SaveSettings(p.state, p.store, ok);
      p.(state := saved.state, store := saved.store)
    case SummarizeClicked =>
      if SummarizeEnabled(p.state) then
        Popup(Start(p.state), Some(Snapshot(p.state.apiKey, p.state.systemPrompt)), p.store)
      else p
    case RunSettled(capture, respond) =>
      match p.inFlight
      case None => p
      case Some(snap) =>
        var done := Finish(p.state, capture, snap.apiKey, snap.systemPrompt, respond);
        p.(state := done.state, inFlight := None)
  }

  /** A sequence of events, first to last. */
  function Run(p: Popup, events: seq<Event>): (r: Popup)
    ensures Consistent(p) ==> Consistent(r)
    ensures (p.inFlight.Some? && Consistent(p)
      && forall k :: 0 <= k < |events| ==> !events[k].RunSettled?) ==> r.inFlight == p.inFlight
    decreases |events|
  {
    if |events| == 0 then p
    else Run(Step(p, events[0]), events[1..])
  }

  /** Whatever store it opens on, every popup reachable from opening is
      consistent: at most one run is outstanding, and the button stays
      disabled until it ends. */
  lemma ReachableConsistent(store: Stored, events: seq<Event>)
    ensures Consistent(Run(OpenedWith(store), events))
    ensures Run(OpenedWith(store), events).inFlight.Some? ==>
      !SummarizeEnabled(Run(OpenedWith(store), events).state)
  {
  }

  /** A click does something exactly when the button is enabled. */
  lemma ClickGate(p: Popup)
    ensures Step(p, SummarizeClicked) != p <==> SummarizeEnabled(p.state)
  {
  }

  /** A run sends the key and prompt of its click, whatever edits, toggles,
      loads, saves and dropped clicks happen before it settles; the commit
      keeps the settings those events left. */
  lemma SettleUsesClickSnapshot(p: Popup, events: seq<Event>,
                                capture: Capture, respond: Request -> Completion)
    requires Consistent(p) && SummarizeEnabled(p.state)
    requires forall k :: 0 <= k < |events| ==> !events[k].RunSettled?
    ensures var q := Run(Step(p, SummarizeClicked), events);
      var r := Step(q, RunSettled(capture, respond));
      var done := Finish(q.state, capture, p.state.apiKey, p.state.systemPrompt, respond);
      && q.inFlight == Some(Snapshot(p.state.apiKey, p.state.systemPrompt))
      && r.state == done.state && r.inFlight.None?
      && SameSettings(r.state, q.state)
      && (done.sent.Some? ==> done.sent.value.apiKey == p.state.apiKey)
  {
  }

  /** A successful save is what the next popup loads: it opens on the saved
      store and, once the read succeeds, shows the saved settings. */
  lemma ReopenRestoresSaved(p: Popup)
    ensures var saved := Step(p, SaveClicked(true));
      var reopened := Step(OpenedWith(saved.store), StorageLoaded(true));
      SameSettings(reopened.state, p.state) && SameOutput(reopened.state, Initial)
  {
  }
}
