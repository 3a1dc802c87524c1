# MedDoc Prescriber: a Dafny model of its controller, analysis pipeline and symptom catalogue

MedDoc Prescriber is a React application for education. A user enters a
patient's details, picks an anatomical region and ticks the symptoms offered
for it. The application then asks a hosted language model (Gemini) for example
conditions, prescriptions and lifestyle advice, shows the answer, and keeps a
history of past analyses in the browser's `localStorage`.

This project models the parts of that application that carry logic, and proves
properties about them:

- `App.tsx`:
  - the controller. The `App` component's state (screen, live/mock mode,
    settings modal, the two error slots, history, storage) becomes the class
    `MedDocApp.App`, and its handlers become methods.
  - the intake form's state becomes the class `Intake.IntakeForm`. Its
    selection toggle, validity test and region reset are included.
  - the settings modal's save step becomes `MedDocApp.KeyToSave`.
- `api.ts`:
  - the response schema handed to the model;
  - `buildPrompt`;
  - the repair of the model's text (trim, then the first ```` ```json ```` fence);
  - the error policy;
  - `getAIAnalysis`, a method over two oracles: the hosted model and `JSON.parse`.
- `constants.ts`: the three storage keys and the symptom table.

Other files:

- `Types.dfy` holds the declarations of `types.ts`.
- `JsString.dfy` holds the JavaScript string operations the code uses: `trim`,
  `includes` and `join`, plus a first-occurrence search (the semantics of
  `indexOf` for a non-empty pattern) on which `includes` and the fence step
  of the response repair are built.
- `Wrappers.dfy` holds `Option`.

The browser store is a `map<string, string>`. An absent key and an empty value
both count as "missing", as `!localStorage.getItem(k)` does. Values that
JavaScript tests for truthiness are modelled with that test: an empty regex
capture, `e.message || …`, and `analysisResult && intakeData`.

## Model

| member | source | states |
|---|---|---|
| JsString.Trim | api.ts:128 | `trim()`: the result neither starts nor ends with whitespace |
| JsString.TrimIsCore | App.tsx:18-19 | the trimmed text is a contiguous piece `s[a..b]` of the input, and everything cut off on either side is whitespace |
| JsString.TrimIdempotent | App.tsx:18-19 | trimming a trimmed text changes nothing |
| JsString.FindFrom | api.ts:132 | the first-occurrence search behind `includes` and the fence match (the semantics of `indexOf(p, k)`): the reported index holds `p` and is the first such index at or after `k`; `None` means there is none |
| JsString.Includes | api.ts:148 | `includes(t)` holds exactly when `t` occurs somewhere |
| JsString.Join | api.ts:96 | `join` of no parts is the empty string |
| JsString.JoinPlacesEach | api.ts:96 | `join(sep)` places part k at its offset, with the separator after every part but the last |
| JsString.JoinEndsWithLast | api.ts:96 | the joined string ends with its last part: nothing follows it |
| Constants.IdsDistinctWithinPart | constants.ts:7-62 | no two symptoms of one region's list share an id |
| Constants.CatalogueIdsDistinct | constants.ts:7-62 | the table holds 36 symptoms, and no id occurs twice anywhere in it |
| Constants.BodyPartOrderIsComplete | constants.ts:7-62 | the table's key order lists each of the nine regions exactly once |
| Constants.EveryListIsNonEmpty | constants.ts:8-61 | every region offers at least one symptom |
| Constants.LongestListHasEight | constants.ts:8-61 | no list has more than eight entries, and the Head list has eight |
| Constants.StorageKeysDistinct | constants.ts:3-5 | the three storage keys are pairwise distinct |
| Api.PropertyNames | api.ts:14-93 | the names of an object schema's properties, one per property, in order |
| Api.AnalysisRequiresEveryList | api.ts:14-92 | the top-level required list is exactly the declared `conditions`, `prescriptions`, `lifestyleAdvice` |
| Api.ConditionRequiresEveryField | api.ts:21-32 | a condition item requires each of its declared fields |
| Api.LifestyleAdviceRequiresEveryField | api.ts:77-88 | a lifestyle-advice item requires each of its declared fields |
| Api.PrescriptionFieldNames | api.ts:39-69 | a prescription item declares name, dosage, form, route, frequency, purpose and description, in that order |
| Api.AnalysisRequiredAreDeclared | api.ts:14-93 | every required name, at every depth of the schema, is declared beside it |
| Api.PrescriptionOptionalFields | api.ts:39-70 | a prescription item requires only name, purpose and description; dosage, form, route and frequency are optional |
| Api.SymptomNames | api.ts:96 | the names of the selected symptoms, one per symptom, in selection order |
| Api.HeadPieces | api.ts:97-100 | the template before the symptom list holds the intro and the four labels in their fixed slots, and the name, age, gender and region in the slots between them |
| Api.HeadOccursInPrompt | api.ts:95-111 | whatever stands in the part before the symptom list stands at the same place in the prompt |
| Api.PromptStatesPiece | api.ts:97-100 | the prompt holds each label and the patient's name, age, gender and region verbatim, each piece starting where the one before ends |
| Api.PromptListsSymptom | api.ts:96-101 | the prompt lists the symptom names in selection order, separated by ", " |
| Api.PromptHeadEndsWithSymptomsLabel | api.ts:101 | the part before the symptom list ends with the "- Symptoms: " label, so the names follow that label directly |
| Api.PromptEndsWithInstructions | api.ts:101-111 | the instructions follow the symptom list directly and end the prompt |
| Api.ExtractTakesFirstMatch | api.ts:132-135 | the fence step agrees with the regular expression's leftmost, lazy match; an empty capture leaves the text as it is |
| Api.ExtractWithoutBlock | api.ts:132-135 | a text in which no opening fence is followed by a closing one passes unchanged |
| Api.FirstMatchExists | api.ts:132 | when some opening fence is followed by a closing one, the leftmost lazy match exists |
| Api.FenceRoundTrip | api.ts:128-135 | repairing ```` "```json\n" + s + "\n```" ```` gives back `s` for every non-empty `s` without a closing fence |
| Api.MissingKeyMessageNamesKey | api.ts:7-9 | the missing-key error mentions "API key" |
| Api.GenericMessageLacksKey | api.ts:154 | the generic failure message does not mention "API key" |
| Api.UndefinedTextMessageLacksKey | api.ts:127-128 | the error raised by trimming an absent response text does not mention "API key" |
| Api.ClassifyFailure | api.ts:146-154 | a message mentioning "API key" passes unchanged; any other becomes the generic message; so the outcome mentions "API key" exactly when the input did |
| Api.ClassifyIdempotent | api.ts:146-154 | classifying a classified message changes nothing |
| Api.StoredApiKey | api.ts:6-10 | a key is found exactly when the entry exists and is not empty, and it is the stored value |
| Api.GetAIAnalysis | api.ts:113-156 | without a key: nothing is sent, and the failure is the key error. With a key: exactly the built request is sent. A parsed reply is returned as it is. Every failure goes through the error policy, so its message is the generic one or mentions "API key" |
| Intake.HasId | App.tsx:203 | `some(s => s.id === id)` holds exactly when an entry has that id |
| Intake.RemoveId | App.tsx:204 | `filter(s => s.id !== id)` keeps exactly the entries with another id, and is no longer than its input |
| Intake.RemoveIdCounts | App.tsx:204 | filtering keeps each entry with another id as often as it occurs and drops every entry with that id |
| Intake.RemoveIdConcat | App.tsx:204 | filtering a concatenation is concatenating the filtered pieces, so the kept entries stay in their order |
| Intake.Toggle | App.tsx:201-207 | the id's presence flips, no entry with another id is gained or lost, and only the toggled symptom can be new |
| Intake.ToggleAppendsWhenAbsent | App.tsx:201-207 | toggling a symptom whose id is absent appends it at the end |
| Intake.ToggleRemovesInPlace | App.tsx:201-207 | toggling a selected symptom, with distinct ids, removes that entry and keeps the others in order |
| Intake.ToggleTwiceRestores | App.tsx:201-207 | toggling twice from a selection without the id restores the selection |
| Intake.TogglePreservesDistinct | App.tsx:201-207 | toggling keeps the selected ids distinct |
| Intake.RemoveIdKeepsDistinct | App.tsx:204 | filtering keeps ids distinct |
| Intake.RemoveIdAt | App.tsx:204 | with distinct ids, filtering out entry k's id removes exactly entry k |
| Intake.IntakeForm.constructor | App.tsx:197-199 | blank details with gender Male, no region, empty selection |
| Intake.IntakeForm.SetPatientInfo | App.tsx:197 | only the patient details change |
| Intake.IntakeForm.HandleSymptomToggle | App.tsx:201-207 | the selection becomes its toggle; ids stay distinct; when the symptom is offered for the chosen region, every selected symptom still is |
| Intake.IntakeForm.HandleBodyPartChange | App.tsx:209-212 | the region is set and the selection emptied, so the selection is trivially from the region |
| Intake.IntakeForm.HandleSubmit | App.tsx:214-220 | an intake is handed on exactly when the trimmed name and the age are non-empty, a region is chosen and a symptom is selected, and it is the form's content |
| Intake.SubmittedIntakeIsConsistent | App.tsx:209-220 | a submitted intake lists only symptoms of its region, with distinct ids |
| MedDocApp.GetItem | App.tsx:606 | `getItem(k)` gives the stored value, or nothing for an absent key |
| MedDocApp.NormaliseMode | App.tsx:606-607 | the mode read back is mock exactly when "mock" is stored, and live otherwise |
| MedDocApp.ModeRoundTrip | App.tsx:606-607 | a stored mode reads back as the mode written |
| MedDocApp.ModeWriteKeepsOtherEntries | App.tsx:635-637 | writing the mode leaves the stored key and history as they were |
| MedDocApp.FailureText | App.tsx:669 | `e.message || …`: a non-empty message is kept, an empty one becomes "An unknown error occurred. Please try again." |
| MedDocApp.RouteFailure | App.tsx:669-677 | a failure opens the settings modal exactly in live mode with a message mentioning "API key"; otherwise the form shows the message |
| MedDocApp.MissingKeyOpensSettings | App.tsx:669-677 | in live mode the missing-key error opens the settings modal |
| MedDocApp.MockNeverOpensSettings | App.tsx:669-677 | in mock mode every failure is shown on the form |
| MedDocApp.PipelineFailureRoutes | App.tsx:669-677 | the generic failure always goes to the form; a key failure in live mode always opens the modal |
| MedDocApp.KeyToSave | App.tsx:17-21 | a key is saved exactly when the trimmed input is not blank; the saved key is the trimmed input |
| MedDocApp.KeyToSaveIdempotent | App.tsx:17-21 | saving the saved key again saves the same key |
| MedDocApp.SavedKeyIsFound | App.tsx:17-21 | a key saved through the modal is found by the analysis's key check |
| MedDocApp.RecordedAnalysisReopens | App.tsx:700-718 | a recorded analysis is shown again from the history exactly when its result is truthy |
| MedDocApp.LoadedHistory | App.tsx:616-625 | an absent or empty history entry keeps the current list; a non-empty one gives the decoded list, or the empty list when it does not parse |
| MedDocApp.HistoryReloads | App.tsx:616-625 | with a codec that reads back what it writes, a written history is the one loaded at the next start |
| MedDocApp.App.constructor | App.tsx:595-602 | the welcome screen, nothing loaded, no errors, empty history, modal closed, live mode |
| MedDocApp.App.LoadOnMount | App.tsx:604-626 | the mode is normalised; the modal opens when live without a key; the history is loaded |
| MedDocApp.App.HandleSaveApiKey | App.tsx:628-633 | the key is stored, the modal closes, both errors clear |
| MedDocApp.App.HandleSettingsSave | App.tsx:17-21 | a blank input changes nothing; otherwise the trimmed key is stored, the modal closes, both errors clear, and no key is missing afterwards |
| MedDocApp.App.HandleModeChange | App.tsx:635-645 | the mode is set and stored; the modal is open exactly when live without a stored key |
| MedDocApp.App.HandleAnalyze | App.tsx:647-680 | success: exactly one record appended, the new list stored, results shown. Failure: history and store unchanged, back to the form, error routed by `RouteFailure` |
| MedDocApp.App.HandleStartNew | App.tsx:682-687 | back to the welcome screen with intake, result and error cleared, history untouched |
| MedDocApp.App.HandleStart | App.tsx:689-696 | live without a key opens the modal; otherwise the form is shown |
| MedDocApp.App.HandleViewHistory | App.tsx:698 | the history screen is shown; nothing else changes |
| MedDocApp.App.HandleViewHistoryItem | App.tsx:700-704 | the record's intake and result are shown on the results screen; nothing else changes |
| MedDocApp.App.RenderContent | App.tsx:706-725 | the screen for the state. Results without something to show fall back to the form and draw nothing, so the results screen is only drawn with a result; no other field changes |
| MedDocApp.App.ReopenRecord | App.tsx:700-718 | choosing a history entry and drawing the next frame keeps the results screen exactly when the record has intake data and a truthy result, and otherwise returns to the form drawing nothing; the store, history and error are untouched |
| MedDocApp.App.OpenSettings | App.tsx:754 | the settings modal opens; nothing else changes |
| MedDocApp.App.CloseSettings | App.tsx:763 | the settings modal closes; nothing else changes |
| MedDocApp.App.DismissError | App.tsx:244 | the form's error is cleared; nothing else changes |

## Left out

- The Gemini client and its `generateContent` call are a foreign network service. `respond` stands for them: it returns a text, an absent text, or a raised error.
- `JSON.parse` and `JSON.stringify` are library calls. They are oracles: `parse` in `GetAIAnalysis`, and `encode`/`decode` in `App`. A history text that fails to parse is `decode` giving nothing, which empties the history as the catch block does. A history entry that parses to something other than a list of records is not modelled.
- `new Date()` ids and timestamps depend on the clock. They are parameters of `HandleAnalyze`.
- `async`/`await` is sequentialised: the loading state is entered and left within one `HandleAnalyze` call.
- `console.error` logging is left out.
- `getAIAnalysis` makes one request, with no retry, and returns the parsed value without checking it against the schema. The history list has no length cap. The model has neither, as the code has neither.
- The catch block of `getAIAnalysis` rethrows an "API key" error only when it is an `Error` object. The model takes every raised value, and every parse failure, to be an `Error` with a message: the Gemini client and `JSON.parse` throw only `Error` objects. A thrown non-`Error` value is not modelled.
- JSX rendering, styling, the about modal, tabs and the icons are presentation.
- App.tsx imports `getAnalysis`, which api.ts does not export; api.ts exports `getAIAnalysis`. So `HandleAnalyze` takes the settled outcome as a parameter, and `GetAIAnalysis` is modelled on its own.
- The `type` and `summary` fields of `AnalysisRecord` are never set by the code, so the record here does not have them.
- The vision and chat types in types.ts are not used by the modelled code.
- The `default` case of `renderContent` cannot be reached, because `appState` is always one of the five states.
- JSON numbers are `real`; NaN, which JSON cannot produce, is not modelled.
- JavaScript strings are sequences of UTF-16 code units; they are modelled as `seq<char>`, which agrees with them for every character that `trim` removes.
- Intake.IntakeForm.HandleSymptomToggle: keeping "every selected symptom is offered for the region" depends on the toggled symptom being one the form offers for that region. The checkboxes only offer those (App.tsx:295-297); the method states the property under that condition.
- MedDocApp.HistoryReloads: assumes the stored text is not empty, as `JSON.stringify` of a list always starts with "[". An empty text would keep the current list.
