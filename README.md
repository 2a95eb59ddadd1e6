# Cross-Realm Atlas: session and plot-progress core in Dafny

This project models the state logic of the Cross-Realm Atlas, an interactive-story web app.
A user uploads or picks an image. A generative service turns it into a "world": setting,
identity, companion, opening narrative, choices and a plot tree of story nodes. The user
then converses turn by turn to advance the story, and the app saves progress locally.

The service, the clock and the local store are inputs of the model. A service reply is
either a transport failure or a response text with its parsed JSON. `None` stands for a
text that `JSON.parse` rejects. Timestamps are parameters. The store is a field of the app
that holds the last record written.

Modules, one per source file:

- `Types` (types.ts): the records as datatypes. Optional and nullable fields are `Option`.
  `OrDefault` is JavaScript's `s || d` on a string: a missing or empty string gives `d`.
- `Text`: the JavaScript built-ins the core relies on. These are `trim`, ASCII
  `toUpperCase`, `join`, `substring(0, n)` and the decimal text of a number.
- `PlotTree` (services/geminiService.ts): the per-node transition applied to the plot tree.
- `Gemini` (services/geminiService.ts): normalising a world-generation reply, shaping a
  chat turn's result or its fallback, the history and plot summaries, and the image prompt.
- `Registry` (App.tsx): the pure list transformations of the template list.
- `Atlas` (App.tsx): class `App` with the app's fields and handlers.
- `WorldScreen` (components/WorldView.tsx): class `WorldView` with the turn submission,
  and the derived views `LastModelMessage` and `CurrentChapter`.
- `Profile` (components/SoulProfile.tsx): class `SoulProfile`, the profile editor.

Each asynchronous handler is split at its `await` on the service. `EnterWorld`,
`HandleUpload` and `BeginSend` raise the busy flag and record what the rest of the handler
needs, including the template list the handler's closure saw (`Pending.snapshot`,
`WorldView.sendSnapshot`). `FinishGeneration` and `FinishSend` take the service's outcome
and lower the flag.
The single-flight guards (`isGenerating`, `isLoading`) are therefore real state checks.

In these places the code does not do what its names and comments suggest; the model follows the code:

- The plot transition does not keep "at most one active node". It re-activates a
  `completed` node whose id is named as activated. Both are shown by
  `DuplicateIdsCanActivateTwo` and `CompletedNodeCanBeReactivated`. One active node is
  proved only under the conditions of `ActiveStaysUnique`.
- The auto-save write-back updates every template with the world's id, not exactly one.
  It does not refresh the template's name. Only the first save of a freshly generated
  custom world (`SaveFreshInto`) copies the name.
- A saved state is resumed only when the template is also marked custom.
- An uploaded template's description prints a missing era as `undefined`
  (`A captured memory from undefined.`). The world itself gets "Unknown" as its era.
  An era given as JSON `null` would print `null` instead; the model's `Option` does not
  tell `null` from a missing field, so it shows only the `undefined` case.
- The generated `visualStyle` is never stored in the world: both construction paths leave
  it out.
- A generation that ends after the list changed writes into the list the handler saw when
  it started (`Pending.snapshot`). The full-screen overlay shown while generating blocks
  the atlas, but not a turn already in flight: one sent before the user went back can
  land during the generation, and the generation's write then discards its save (see
  "## Findings").

## Model

| member | source | states |
|---|---|---|
| `Types.OrDefault` | services/geminiService.ts:179 | a missing or empty string yields the default, any other string is kept |
| `Text.TrimStart` | components/WorldView.tsx:26 | the dropped prefix is all whitespace and what remains does not start with whitespace |
| `Text.TrimEnd` | components/WorldView.tsx:26 | the dropped suffix is all whitespace and what remains does not end with whitespace |
| `Text.BlankIffAllWhitespace` | components/WorldView.tsx:26 | `text.trim()` is empty exactly when every character is JavaScript whitespace |
| `Text.ToUpper` | services/geminiService.ts:207 | same length, each ASCII letter upper-cased, every other character kept |
| `Text.Trim` | components/WorldView.tsx:26 | `s.trim()`, the leading trim followed by the trailing trim; no contract of its own, `TrimStart` and `TrimEnd` state what each half drops |
| `Text.IsBlank` | components/WorldView.tsx:26 | `!text.trim()`, the trimmed text is empty; `BlankIffAllWhitespace` characterises it |
| `Text.Join` | services/geminiService.ts:204 | `xs.join(sep)`; no contract of its own, `JoinSnoc` states its order |
| `Text.JoinSnoc` | services/geminiService.ts:204 | joining one more entry appends separator and entry, so entries appear in order |
| `Text.Prefix` | services/geminiService.ts:47 | `substring(0, n)` keeps the first `n` characters, or all of a shorter string |
| `Text.NatToString` | App.tsx:92 | the decimal text of a timestamp is non-empty and all digits |
| `Text.NatToStringInjective` | App.tsx:141 | distinct timestamps render as distinct texts |
| `PlotTree.NextStatus` | services/geminiService.ts:256-258 | the per-node status choice, completed id tested before activated id; its effect on the tree is stated by `ApplyPlotUpdates` |
| `PlotTree.ApplyPlotUpdates` | services/geminiService.ts:255-259 | length and order kept, only `status` changes, completed id wins, then activated id, other nodes unchanged |
| `PlotTree.UnmatchedUpdateIsIdentity` | services/geminiService.ts:255-258 | ids that name no node leave the tree equal to the input |
| `PlotTree.EmptyUpdateIsIdentity` | services/geminiService.ts:255-258 | an update with neither id changes nothing |
| `PlotTree.ActiveStaysUnique` | services/geminiService.ts:255-259 | with unique ids, at most one active node stays so if the active node is the completed one |
| `PlotTree.DuplicateIdsCanActivateTwo` | services/geminiService.ts:257 | with duplicate ids one update can leave two nodes active |
| `PlotTree.CompletedNodeCanBeReactivated` | services/geminiService.ts:257 | a completed node named as activated becomes active again |
| `PlotTree.AdvanceOneChapter` | services/geminiService.ts:256-257 | completing node 1 and activating node 2 gives completed, active |
| `PlotTree.CompletionWins` | services/geminiService.ts:256-257 | a node named by both ids becomes completed |
| `Gemini.ScenePrompt` | services/geminiService.ts:45 | the scene prompt template before truncation; `SafePrompt` states what is sent |
| `Gemini.SafePrompt` | services/geminiService.ts:45-47 | the image prompt is a prefix of the scene prompt, at most 1500 characters, whole when short enough |
| `Gemini.ProfileText` | services/geminiService.ts:140-143 | no profile gives "Generic Traveler", otherwise name and analysis |
| `Gemini.GenerateWorld` | services/geminiService.ts:170-190 | empty text, parse failure and transport failure are errors; otherwise fields pass through with the style, choices and plot-tree defaults |
| `Gemini.HistoryEntries` | services/geminiService.ts:202-204 | one entry per message, in order, labelled User or Atlas Keeper |
| `Gemini.MemoryContext` | services/geminiService.ts:202-204 | the history summary, the labelled entries joined by blank lines; `HistoryEntries` and `MemoryContextSnoc` state its content and order |
| `Gemini.MemoryContextSnoc` | services/geminiService.ts:202-204 | a new message adds its labelled entry at the end of the history summary |
| `Gemini.StatusLabels` | services/geminiService.ts:207 | the upper-cased statuses are LOCKED, ACTIVE and COMPLETED |
| `Gemini.StatusLines` | services/geminiService.ts:206-208 | one line per node, in tree order, `- [STATUS] title: description` |
| `Gemini.PlotStatus` | services/geminiService.ts:206-208 | the plot summary, the status lines joined by newlines; `StatusLines` and `PlotStatusSnoc` state its content and order |
| `Gemini.PlotStatusSnoc` | services/geminiService.ts:206-208 | a new node adds its line at the end of the plot summary |
| `Gemini.Fallback` | services/geminiService.ts:272-286 | a model message with one choice `retry`/`resolve` and no plot tree |
| `Gemini.SendChatMessage` | services/geminiService.ts:247-286 | a usable reply gives its model message and, only with plot updates, the transitioned tree; every failure gives the fallback |
| `Gemini.TurnKeepsTreeShape` | services/geminiService.ts:253-269 | a returned tree has the world tree's length, order and nodes, only statuses differ |
| `Registry.SaveStateInto` | App.tsx:61-66 | templates with the world's id get it as saved state, all else kept, length and order kept |
| `Registry.SaveWithoutMatchIsIdentity` | App.tsx:61-66 | with no template of that id the list is returned unchanged |
| `Registry.SaveOverridesSave` | App.tsx:61-66 | a later write-back of the same id fully replaces an earlier one |
| `Registry.RemoveById` | App.tsx:50 | the result holds exactly the templates whose id differs |
| `Registry.RemoveDistributes` | App.tsx:50 | removal works entry by entry, so kept entries stay in order |
| `Registry.RemoveAbsentIsIdentity` | App.tsx:50 | deleting an absent id is a no-op |
| `Registry.RemoveIsIdempotent` | App.tsx:50 | deleting twice equals deleting once |
| `Registry.RemoveAfterSave` | App.tsx:48-66 | deleting after a write-back equals deleting without it |
| `Registry.ChooseEntry` | App.tsx:74-78 | resume exactly when the template is custom and has a saved state, with that state verbatim |
| `Registry.ResumeAfterSave` | App.tsx:59-78 | a custom world written back is exactly what entering its template resumes |
| `Registry.MintedIdsDiffer` | App.tsx:92 | preset instance ids from distinct times differ and never equal an upload id |
| `Registry.FreshWorld` | App.tsx:91-107 | id is the template's for custom else minted, name falls back to the template's, one model message, tree from the reply, custom flag from the template |
| `Registry.FreshWorldStartsConversation` | App.tsx:99-104 | a fresh world's history is one model message, "You arrive..." when no narrative came back |
| `Registry.SaveFreshInto` | App.tsx:110-115 | the template with that id takes the world as saved state and its name, all else kept |
| `Registry.UploadedWorld` | App.tsx:141-160 | id `custom-<time>`, custom, the uploaded image, "New Realm" default name, one model message |
| `Registry.UploadedTemplate` | App.tsx:162-170 | shares the world's id and name, is custom, embeds the world, describes the era |
| `Registry.UploadIsResumable` | App.tsx:162-170 | entering an uploaded template resumes its world |
| `Registry.PresetsAlwaysGenerate` | constants.ts:71-100 | every preset takes the generate path |
| `Atlas.LoadOr` | App.tsx:19-33 | a parsed record gives its value, a missing or unparseable one the default |
| `Atlas.AutoSaved` | App.tsx:56-69 | the auto-save's outcome for a world: a custom world is written back into the list and the store holds the whole list, a preset leaves both as they were |
| `Atlas.App.constructor` | App.tsx:11-15 | starts on the atlas, idle, with no world, no templates and no profile, over the given store |
| `Atlas.App.LoadStore` | App.tsx:19-33 | a stored record that parses replaces the default list or profile; a missing or unparseable one leaves the default |
| `Atlas.App.HandleSaveProfile` | App.tsx:36-39 | the profile is kept verbatim in memory and in the store |
| `Atlas.App.PersistCustomWorlds` | App.tsx:42-45 | the stored list equals the in-memory list |
| `Atlas.App.DeleteCustomWorld` | App.tsx:48-52 | the list and the store lose exactly the entries with that id |
| `Atlas.App.HandleWorldUpdate` | App.tsx:56-69 | shows the world and leaves list and store `AutoSaved`: custom worlds are written back and persisted, presets leave list and store unchanged |
| `Atlas.App.HandleStaleWorldUpdate` | App.tsx:56-69 | the auto-save as an earlier render created it: shows the world; a custom world is written into the list that render saw and persisted; a preset leaves list and store unchanged |
| `Atlas.App.Back` | App.tsx:191 | the back action returns to the atlas |
| `Atlas.App.EnterWorld` | App.tsx:72-89 | ignored while generating; resume opens the saved state, otherwise a generation starts |
| `Atlas.App.HandleUpload` | App.tsx:128-139 | ignored while generating, otherwise a generation starts |
| `Atlas.App.FinishGeneration` | App.tsx:85-185 | success opens the new world and stores it for custom templates and uploads (prepended), in the list the handler started from; failure changes nothing; the busy flag is cleared |
| `Atlas.App.FinishGenerationIntoCurrent` | App.tsx:110-174 | corrected: the same completion as `FinishGeneration`, but a custom template's fresh world or an uploaded template is written into the list as it stands when the generation ends |
| `Atlas.App.FinishUploadAsWritten` | App.tsx:135-184 | as written: a successful upload completes as in `FinishGeneration`; a failed one changes nothing, so the app stays busy with the upload pending |
| `Atlas.EmptyReplyBlocksUploadAsWritten` | App.tsx:128-184 | as written, after an empty reply to an upload the app is still busy, and selecting a template and uploading again are both ignored |
| `Atlas.EmptyReplyReleasesUpload` | App.tsx:128-184 | with the corrected completion the same empty reply leaves the app idle and the next upload starts |
| `WorldScreen.UserMessage` | components/WorldView.tsx:29-34 | the user message of a turn: role `user`, the text as typed, the send time, no choices, no image |
| `WorldScreen.PendingWorld` | components/WorldView.tsx:36-38 | the world shown while the turn is in flight, the old history plus the user message; `TurnAppendsTwoMessages` states it |
| `WorldScreen.AnsweredWorld` | components/WorldView.tsx:45-50 | the answered world: the model message appended, the tree replaced only when one came back, `lastActive` set; `TurnAppendsTwoMessages` states it |
| `WorldScreen.Turn` | components/WorldView.tsx:29-50 | a whole turn from the world before it; `TurnAppendsTwoMessages` and `TurnShowsItsReply` state what it does |
| `WorldScreen.TurnAppendsTwoMessages` | components/WorldView.tsx:29-50 | a turn appends the user message then one model message, fallback included; tree kept or transitioned; other fields kept |
| `WorldScreen.Reversed` | components/WorldView.tsx:67 | the reversed history has the same messages in reverse order |
| `WorldScreen.FirstModelMessage` | components/WorldView.tsx:67 | `find` returns the first model message, or none when there is none |
| `WorldScreen.LastModelMessageIsLatest` | components/WorldView.tsx:67 | the derived message is a model message followed only by user messages |
| `WorldScreen.LastModelMessage` | components/WorldView.tsx:67 | the search of the reversed history for a model message; `LastModelMessageIsLatest` states what it finds |
| `WorldScreen.TurnShowsItsReply` | components/WorldView.tsx:45-67 | after a turn the latest model message is the appended one |
| `WorldScreen.CurrentChapter` | components/WorldView.tsx:70 | the first active node, or none when no node is active |
| `WorldScreen.CurrentChapterIsTheActiveNode` | components/WorldView.tsx:70 | with at most one active node the chapter is that node |
| `WorldScreen.WorldView.constructor` | components/WorldView.tsx:14-16 | shows the app's current world, idle, with empty input |
| `WorldScreen.WorldView.SetInputText` | components/WorldView.tsx:221 | typing sets the input text |
| `WorldScreen.WorldView.BeginSend` | components/WorldView.tsx:25-39 | blank text or a turn in flight changes nothing; otherwise appends the user message, saves (a custom world is written back and the store holds the list, a preset leaves list and store alone), clears the input, becomes busy, and keeps the list from before its save |
| `WorldScreen.WorldView.FinishSend` | components/WorldView.tsx:41-57 | appends the turn's model message, replaces the tree only when one came back, saves into the app's current list as `BeginSend` does, becomes idle; the corrected completion of the Findings row below |
| `WorldScreen.WorldView.FinishSendAsWritten` | components/WorldView.tsx:41-57 | as written: the same answered world, but a custom world is saved into the list the send saw before its first save |
| `WorldScreen.DeleteDuringTurnAsWritten` | components/WorldView.tsx:45-52 | as written, a template deleted while its turn is in flight is back in the list and the store after the reply, holding the answered world |
| `WorldScreen.DeleteDuringTurn` | components/WorldView.tsx:45-52 | with the corrected completion the deletion stands, and the store holds the list |
| `WorldScreen.SubmitTurn` | components/WorldView.tsx:25-58 | with the completion as written (`FinishSendAsWritten`): blank text changes nothing; a non-blank turn grows the history by exactly two, clears the input, leaves the screen idle, and leaves a custom world's template holding the answered world with the store equal to the list |
| `WorldScreen.UploadDuringTurnAsWritten` | App.tsx:163-174 | as written, an upload started while a custom world's turn is in flight ends with the list as it was before the reply, behind the uploaded template: the answered world is stored nowhere |
| `WorldScreen.UploadDuringTurn` | App.tsx:163-174 | with the corrected completions the template after the uploaded one holds the answered world |
| `Profile.SoulProfile.constructor` | components/SoulProfile.tsx:11-14 | fields from the existing profile or empty; open exactly when there is none |
| `Profile.SoulProfile.SetName` | components/SoulProfile.tsx:65 | typing sets the name |
| `Profile.SoulProfile.SetDesc` | components/SoulProfile.tsx:75 | typing sets the description |
| `Profile.SoulProfile.Edit` | components/SoulProfile.tsx:36 | the Edit button opens the editor |
| `Profile.OpenAtlasAsWritten` | App.tsx:15-33 | as written, with a profile in the store the editor mounted by the first render is open with empty fields |
| `Profile.OpenAtlas` | App.tsx:15-33 | mounted after loading, the editor starts from the loaded profile and is open exactly when there is none |
| `Profile.SoulProfile.HandleSave` | components/SoulProfile.tsx:16-21 | a blank name changes nothing; otherwise saves name and description as typed and closes |

## Left out

- Calls into the generative service are left out: the text, image and video models,
  `fetch`, `FileReader` and base64 conversion. Their results are inputs.
- The image-model fallback chain and the video polling loop are left out. Only the
  truncation of the image prompt is modelled. These parts are I/O and timers.
- The prompt prose is left out. This covers the system instruction, the world prompt and
  its `{{USER_PROFILE}}` substitution, and the turn prompt. These are constant texts.
- `JSON.parse` and `JSON.stringify` are left out. A parsed reply or stored record is a
  value of the model's datatypes, not checked against a schema, and writing a record
  stores that value unchanged.
- A parsed world reply is assumed to carry an `identity`. The source casts it with
  `as any`, so a missing identity would be stored as `undefined`.
- A parsed turn reply is assumed to carry `content`. A missing one would give a message
  with undefined content.
- `Date.now()` is a parameter. Entering a world and uploading each read the clock twice
  within a few statements, once for the id and once for the message. The model uses one
  reading.
- The language is an abstract parameter. `enterWorld` and `handleSend` pass none, and
  `handleUpload` passes the file's MIME type in its place. Only `'zh'` selects the Chinese
  texts, so every call site gets the English fallback text.
- JavaScript strings are UTF-16 and `substring` counts code units. The model counts
  Unicode scalar values. `toUpperCase` is modelled for ASCII, which is all the status
  names contain.
- Rendering, scrolling, animation and the alerts shown on a failed generation are left
  out. The model keeps only the state change, which is none.
- WorldScreen.WorldView.FinishSend: does not model a turn that comes back after the user
  left the world and opened another one. It requires the screen's world to still be the
  app's current world.
- WorldScreen.WorldView.FinishSendAsWritten: has the same requirement as `FinishSend`.
- WorldScreen.SubmitTurn: requires an idle screen. The busy case is specified by
  `BeginSend`.
- Round-tripping the stored records through their serialised text is not modelled,
  because serialisation is left out.

## Findings

| source | as written | input that shows it | evidently intended | confidence | as-written member | corrected member |
|---|---|---|---|---|---|---|
| App.tsx:135-184 | a generation failure inside the file reader's `onloadend` callback rejects that callback's promise. The awaited promise is never resolved, so neither `catch` nor `finally` runs and `isGenerating` stays true | an upload whose generation reply has an empty text | the failure is reported and the busy flag is cleared, as in `enterWorld` | high, not executed | `Atlas.App.FinishUploadAsWritten` (shown by `Atlas.EmptyReplyBlocksUploadAsWritten`) | `Atlas.App.FinishGeneration` (shown by `Atlas.EmptyReplyReleasesUpload`) |
| App.tsx:15-33 | `userProfile` starts as `null` and is loaded by an effect that runs after the first render. That render already mounts the profile editor (App.tsx:213), whose state is initialised only at mount (components/SoulProfile.tsx:12-14), so it opens with empty fields even when a profile is stored | a store holding a saved profile, at start-up | the editor starts closed, showing the stored profile | high, not executed | `Profile.OpenAtlasAsWritten` | `Profile.OpenAtlas` |
| components/WorldView.tsx:45-52 | the send handler keeps the `onUpdateWorld` callback of the render in which it started across its `await`. That callback is the app's auto-save from the same render, so the reply's save maps over the template list as it was before the turn (App.tsx:61) and overwrites any change made to the list meanwhile | a custom world's turn in flight, the user going back to the atlas and deleting that world's template before the reply | the reply is saved into the list as it stands, so the deletion lasts | high, not executed | `WorldScreen.WorldView.FinishSendAsWritten` (shown by `WorldScreen.DeleteDuringTurnAsWritten`) | `WorldScreen.WorldView.FinishSend` (shown by `WorldScreen.DeleteDuringTurn`) |
| App.tsx:110-172 | a successful generation writes into the `customWorlds` of the render in which its handler started (App.tsx:111 and App.tsx:172). The overlay blocks the atlas, but a turn sent before the user went back to the atlas can land during the generation and save the answered world into the list (App.tsx:61-66); the generation's write then replaces the list with its older copy | a custom world's turn in flight, the user going back to the atlas and uploading a file; the turn's reply arrives before the upload's generation | the new template is added to the list as it stands, so the turn's save is kept | medium, not executed | `Atlas.App.FinishGeneration` (shown by `WorldScreen.UploadDuringTurnAsWritten`) | `Atlas.App.FinishGenerationIntoCurrent` (shown by `WorldScreen.UploadDuringTurn`) |
