# Text summarizer popup — a Dafny model

This project models the popup component of a browser extension that summarizes the text selected on the current page (`src/App.tsx`). The component keeps one state record with six fields: `apiKey`, `systemPrompt`, `isActive`, `summary`, `isLoading` and `error`. Every change goes through a `setState(prev => ({...prev, ...}))` updater, and each updater names the fields it writes. The model gives each updater a pure Dafny function on an immutable `State`:

- **Input edits** (`AppState`). The API key field, the system prompt textarea and the "Activate Extension" checkbox each write one field.
- **Settings** (`Settings`). At mount, the stored `apiKey`, `systemPrompt` and `isActive` are loaded with JavaScript's `|| ""` and `!!` defaults. "Save Settings" writes exactly those three keys back.
- **Summarize** (`Summarize`). `summarizeText` is split into two functions. `Start` sets loading and clears the error. `Finish` does the rest:
  - it receives the selection capture and the completion service's answer as parameters;
  - it validates the selection first and the key second;
  - it builds the single-message request;
  - it commits either the trimmed reply (falling back to "No response") or an error message.
  
  `Finish` also returns the request it would send, so "no request on an error path" can be stated.
- **Trim** (`Strings`). `String.prototype.trim` is specified by `IsTrimOf`: cut off a leading and a trailing run of whitespace, so that neither end of the result is whitespace. `Trim` is proved to meet this characterization, and the characterization is proved to have only one solution.
- **Session** (`Session`). The popup is modelled as a stream of events over a store that outlives it. A click is delivered only while the button is enabled (`isActive && !isLoading`), and it captures a snapshot of the key and prompt. The run's outcome arrives as a later event, possibly after further edits. Every reachable popup satisfies `isLoading` ⇔ "a run is outstanding".

Three properties of the component shape the model:

- `summarizeText` has no entry guard of its own. A second run is kept from starting only by the disabled button, so `Start` is total, and `Session.Step` drops clicks on a disabled button.
- An empty selection is reported as "No text selected".
- Saving writes the settings without checking that the key is set.

## Model

| member | source | states |
|---|---|---|
| Strings.IsSpace | src/App.tsx:112 | the characters `trim` strips are exactly the WhiteSpace and LineTerminator code points of ECMA-262 |
| Strings.SkipForward | src/App.tsx:112 | the forward scan stops at the first non-space character, having passed only whitespace |
| Strings.SkipBackward | src/App.tsx:112 | the backward scan stops after the last non-space character, having passed only whitespace |
| Strings.Trim | src/App.tsx:112 | the summary text is the reply with a leading and a trailing whitespace run removed and no whitespace left at either end |
| Strings.TrimUnique | src/App.tsx:112 | that characterization of trimming determines the result uniquely |
| Strings.TrimOfTrimmed | src/App.tsx:112 | a string with no whitespace at either end is unchanged by trimming |
| Strings.TrimIdempotent | src/App.tsx:112 | trimming twice gives the same result as trimming once |
| Strings.TrimEmptyIff | src/App.tsx:112 | the trimmed text is empty exactly when the input is all whitespace |
| AppState.EditApiKey | src/App.tsx:135-138 | typing a key sets `apiKey` to the typed value and changes no other field |
| AppState.EditSystemPrompt | src/App.tsx:147-150 | typing a prompt sets `systemPrompt` and changes no other field |
| AppState.EditActive | src/App.tsx:161-164 | toggling the checkbox sets `isActive`, changes no other field, and enables the button iff it is checked and nothing is loading |
| AppState.InitialDisabled | src/App.tsx:8-15 | the popup opens with empty key and prompt, inactive, not loading, an empty summary and no error, so the summarize button is disabled |
| AppState.SummarizeEnabled | src/App.tsx:171 | the summarize button is enabled exactly when the extension is active and nothing is loading |
| Wrappers.OrEmpty | src/App.tsx:31-32 | the falsy fallback to `""` keeps any stored string, including the empty one, and turns a missing key into `""` |
| Settings.Truthy | src/App.tsx:33 | double negation of the stored flag is true exactly when the stored flag is `true` |
| Settings.LoadSettings | src/App.tsx:21-40 | loading sets the three settings from the store, with `""`/false for missing keys, leaves `summary`, `isLoading` and `error` alone, and leaves the state unchanged when the read fails |
| Settings.Saved | src/App.tsx:44-48 | the record written holds exactly the current key, prompt and flag |
| Settings.SaveSettings | src/App.tsx:42-53 | saving never changes the state; a successful write replaces the stored settings and a failed one leaves the store as it was |
| Settings.SaveThenLoad | src/App.tsx:26-48 | loading what was saved restores exactly the saved settings and leaves the loading state's other fields alone |
| Settings.LoadSavedIsIdentity | src/App.tsx:26-48 | loading the state's own saved record changes nothing |
| Settings.LoadEmpty | src/App.tsx:29-34 | an empty store yields empty settings and an inactive extension, with the button disabled |
| Summarize.GetSelectedText | src/App.tsx:55-73 | capture fails exactly when there is no active tab id (missing or 0) or the script fails; otherwise it yields the selection, with null read as `""` |
| Summarize.Prompt | src/App.tsx:101 | the message content is the system prompt, then "\nSummarize this:\n", then the selection, in that order and nothing else |
| Summarize.BuildRequest | src/App.tsx:92-105 | the request is built with the snapshot key and model `llama3-8b-8192` and carries exactly one user message whose content is the prompt |
| Summarize.Validate | src/App.tsx:80-89 | a failed capture, then an empty selection, then an empty key are rejected in that order with their messages; otherwise the request is built |
| Summarize.ReplyText | src/App.tsx:107-108 | present, non-empty content is used as is; missing or empty content becomes "No response" |
| Summarize.SummaryOf | src/App.tsx:107-112 | the summary is the trim of the reply text after the fallback |
| Summarize.ErrorText | src/App.tsx:118 | a thrown `Error` contributes its message; anything else gives "An unknown error occurred" |
| Summarize.Start | src/App.tsx:76 | starting sets loading, clears the error, keeps settings and summary, and leaves the button disabled |
| Summarize.FailWith | src/App.tsx:116-120 | the error commit sets the message and clears loading, keeping settings and summary |
| Summarize.Succeed | src/App.tsx:110-114 | the success commit sets the summary and clears loading, keeping settings and error |
| Summarize.Finish | src/App.tsx:78-122 | a request is sent iff the selection is non-empty and the key is set; it is exactly the built request; each error path sets its message and keeps the summary; a reply commits its summary; a thrown error commits its message; settings are never touched |
| Summarize.SummarizeText | src/App.tsx:75-123 | a whole run keeps the settings, ends not loading, and ends with no error exactly when a request was sent and answered |
| Summarize.CaptureErrors | src/App.tsx:55-85 | no tab id (missing or 0) or a failed script ends the run with "Failed to get selected text", a null or empty selection with "No text selected", and neither sends a request or changes the summary |
| Summarize.ErrorPrecedence | src/App.tsx:80-89 | with no key, an empty selection reports "No text selected" and a non-empty one reports "API key is required" |
| Summarize.ErrorPathIgnoresService | src/App.tsx:83-97 | when nothing is sent, the outcome does not depend on the completion service and the summary is kept |
| Summarize.SummarizeOutcomes | src/App.tsx:75-123 | a run ends either with no error and the new summary, or with an error and the old summary; afterwards the button is enabled iff the extension is active |
| Summarize.MissingContentSaysNoResponse | src/App.tsx:107-112 | a reply with missing or empty content shows "No response" |
| Summarize.WhitespaceContentGivesEmptySummary | src/App.tsx:107-112 | whitespace-only content escapes the fallback and yields an empty summary |
| Summarize.SummaryIsTrimmed | src/App.tsx:107-112 | a summary never starts or ends with whitespace, and is empty exactly for non-empty whitespace-only content |
| Summarize.PromptDeterminesSelection | src/App.tsx:101 | for a fixed system prompt, different selections give different message contents |
| Summarize.EditCommutesWithFinish | src/App.tsx:110-164 | an input edit and the summarize commit write disjoint fields, so applying them in either order gives the same state |
| Session.Step | src/App.tsx:21-174 | every event keeps `isLoading` equivalent to "a run is outstanding"; each input event applies its edit handler; an enabled click applies `Start` (loading on, error cleared) and records the key and prompt snapshot; a click while loading changes nothing; a settle commits `Finish` with that snapshot and clears it; the storage callback loads the current store unless the read fails; a save leaves the state alone and writes the three settings when it succeeds; only a save changes the store, and only a click or a settle changes the outstanding run |
| Session.Run | src/App.tsx:168-174 | any event sequence preserves that equivalence, and the outstanding run survives until a settle event |
| Session.OpenedWith | src/App.tsx:8-34 | a popup opens with the initial state, no run outstanding, on the store an earlier popup left behind |
| Session.ReachableConsistent | src/App.tsx:171 | whatever store it opens on, every reachable popup has at most one run outstanding and the button disabled while it is |
| Session.ClickGate | src/App.tsx:169-171 | a click has an effect exactly when the button is enabled |
| Session.SettleUsesClickSnapshot | src/App.tsx:87-101 | after any sequence of events without a settle (edits, toggles, loads, saves, dropped clicks), the run still holds its click's key and prompt, settling commits `Finish` with them, and the settings those events left are kept |
| Session.ReopenRestoresSaved | src/App.tsx:26-48 | after a successful save, the next popup opens on the saved store and loading it shows exactly the saved settings |

## Left out

- Browser storage, tab query and script injection are not called. Their outcomes are parameters: whether a storage read or write succeeded, `tabId` and `ScriptOutcome`.
- The completion client and its network call are not modelled. Only the request built and the `Completion` answer (reply content or thrown value) appear, and the answer comes through the `respond` parameter.
- `alert` and `console` output, the rendering of the component and the button label are left out, because they are display and logging only.
- A summarize run is modelled on the key and prompt snapshot its closure captured at the click. Other interleavings of the component's asynchronous callbacks are not modelled beyond the event stream of `Session`.
- Settings.LoadSettings: only strings and booleans are modelled as stored values, since those are the only values the save button writes. A stored value of another JavaScript type, such as a number, is not modelled.
- Settings.SaveSettings: the model assumes a failed write leaves the store unchanged. A partial write by the storage layer is not modelled.
- Summarize.GetSelectedText: every failure of the script injection counts as `ScriptFailed`, including an empty result array.
- Summarize.SummaryOf: assumes the reply content is a string. A non-string content value, which would make `trim` throw, is not modelled.
- Strings.IsSpace: lists the whitespace and line-terminator code points of ECMA-262 (sections 12.2 and 12.3) under the current Unicode space separators. A later Unicode version that adds separators is not tracked.
- Text is a sequence of Unicode scalar values, while JavaScript strings are UTF-16 code units, so a selection holding a lone surrogate cannot be represented. `trim` and the emptiness checks are unaffected, because every code point `trim` strips is in the Basic Multilingual Plane.
