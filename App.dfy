/**
 * The controller of App.tsx: which screen is shown, the live/mock mode, the
 * settings modal, the two error slots, the history, and the browser's
 * key-value store, with the handlers that move between them.
 */
module MedDocApp {
  import opened Wrappers
  import opened JsString
  import opened Types
  import opened Constants
  import opened Api

  datatype AppState = Welcome | IntakeScreen | Loading | Results | HistoryScreen

  datatype AppMode = Live | Mock

  /** What `renderContent` puts on the page; `Nothing` is the `null` it returns. */
  datatype Screen = WelcomeView | IntakeView | LoadingView | ResultsView | HistoryView | Nothing

  /** The string a mode is stored as. */
  function ModeString(m: AppMode): string {
    match m
    case Live => "live"
    case Mock => "mock"
  }

  /** `localStorage.getItem(key)`, with `None` for `null`. */
  function GetItem(store: map<string, string>, key: string): (r: Option<string>)
    ensures r.Some? <==> key in store
    ensures r.Some? ==> r.value == store[key]
  {
    if key in store then Some(store[key]) else None
  }

  /**
   * The mode read back at start-up: "mock" and "live" are kept, anything else
   * (a missing entry included) means live.
   */
  function NormaliseMode(stored: Option<string>): (r: AppMode)
    ensures r == Mock <==> stored == Some("mock")
  {
    if stored == Some("mock") then Mock
    else if stored == Some("live") then Live
    else Live
  }

  /** A stored mode string reads back as the mode it was written for. */
  lemma ModeRoundTrip(m: AppMode)
    ensures NormaliseMode(Some(ModeString(m))) == m
  {
  }

  /**
   * Writing the mode changes only the mode entry: the stored key and history
   * read back as before, and the mode reads back as written.
   */
  lemma ModeWriteKeepsOtherEntries(store: map<string, string>, m: AppMode)
    ensures var after := store[AppModeStorageKey := ModeString(m)];
      && NormaliseMode(GetItem(after, AppModeStorageKey)) == m
      && StoredApiKey(after) == StoredApiKey(store)
      && GetItem(after, HistoryStorageKey) == GetItem(store, HistoryStorageKey)
  {
    StorageKeysDistinct();
  }

  /** The text shown for a failure whose message is empty. */
  const UnknownErrorText: string := "An unknown error occurred. Please try again."

  /** The message a failure is shown with: an empty message falls back to a fixed one. */
  function FailureText(message: string): (r: string)
    ensures r != ""
    ensures message != "" ==> r == message
    ensures message == "" ==> r == UnknownErrorText
  {
    if message != "" then message else UnknownErrorText
  }

  /** Where `handleAnalyze` sends a failure: to the settings modal, or to the form's error banner. */
  datatype FailureRoute = ToSettings(apiKeyError: string) | ToForm(error: string)

  /**
   * The failure branch of `handleAnalyze`: in live mode a message mentioning
   * "API key" becomes the modal's key error; otherwise the message is shown on
   * the form.
   */
  function RouteFailure(mode: AppMode, message: string): (r: FailureRoute)
    ensures r.ToSettings? <==> mode == Live && Includes(FailureText(message), ApiKeyMarker)
    ensures r.ToForm? ==> r.error == FailureText(message)
    ensures r.ToSettings? ==>
      r.apiKeyError == "API Key Error: " + FailureText(message) + ". Please enter a valid key."
  {
    var text := FailureText(message);
    if mode == Live && Includes(text, ApiKeyMarker) then
      ToSettings("API Key Error: " + text + ". Please enter a valid key.")
    else
      ToForm(text)
  }

  /** A missing key, in live mode, sends the user to the settings modal. */
  lemma MissingKeyOpensSettings()
    ensures RouteFailure(Live, MissingKeyMessage).ToSettings?
  {
    MissingKeyMessageNamesKey();
  }

  /** In mock mode no failure opens the settings modal. */
  lemma MockNeverOpensSettings(message: string)
    ensures RouteFailure(Mock, message) == ToForm(FailureText(message))
  {
  }

  /**
   * Every failure of the analysis pipeline is either a key problem, which in
   * live mode goes to the settings modal, or the generic message, which is
   * shown on the form.
   */
  lemma PipelineFailureRoutes(mode: AppMode, message: string)
    requires message == GenericFailureMessage || Includes(message, ApiKeyMarker)
    ensures message == GenericFailureMessage ==> RouteFailure(mode, message) == ToForm(GenericFailureMessage)
    ensures mode == Live && message != GenericFailureMessage ==> RouteFailure(mode, message).ToSettings?
  {
    GenericMessageLacksKey();
  }

  /**
   * `SettingsModal.handleSave`: the trimmed input is saved when it is not
   * blank. A saved key never starts or ends with whitespace.
   */
  function KeyToSave(input: string): (r: Option<string>)
    ensures r.Some? <==> Trim(input) != ""
    ensures r.Some? ==> r.value == Trim(input) && !IsWhitespace(r.value[0]) && !IsWhitespace(r.value[|r.value| - 1])
  {
    var key := Trim(input);
    if key != "" then Some(key) else None
  }

  /** Saving again the key the modal saved saves the same key. */
  lemma KeyToSaveIdempotent(input: string)
    requires KeyToSave(input).Some?
    ensures KeyToSave(KeyToSave(input).value) == KeyToSave(input)
  {
    TrimIdempotent(input);
  }

  /** A key saved through the modal is found by the analysis's key check. */
  lemma SavedKeyIsFound(store: map<string, string>, input: string)
    requires KeyToSave(input).Some?
    ensures StoredApiKey(store[ApiKeyStorageKey := KeyToSave(input).value]) == KeyToSave(input)
  {
  }

  /** The results screen can be drawn: a truthy result and an intake to show it for. */
  predicate CanShowResults(intakeData: Option<IntakeData>, analysisResult: Option<Json>) {
    intakeData.Some? && analysisResult.Some? && Truthy(analysisResult.value)
  }

  /**
   * A record written by a successful analysis is shown again from the
   * history exactly when its result is truthy.
   */
  lemma RecordedAnalysisReopens(id: string, date: string, data: IntakeData, result: Json)
    ensures var record := AnalysisRecord(id, date, Some(data), result);
      CanShowResults(record.intakeData, Some(record.result)) <==> Truthy(result)
  {
  }

  /**
   * The history read back at start-up: an absent or empty entry leaves the
   * current list, a text that does not decode gives the empty list.
   */
  function LoadedHistory(
    store: map<string, string>, decode: string -> Option<seq<AnalysisRecord>>,
    current: seq<AnalysisRecord>): (r: seq<AnalysisRecord>)
    ensures GetItem(store, HistoryStorageKey) in {None, Some("")} ==> r == current
    ensures HistoryStorageKey in store && store[HistoryStorageKey] != "" ==>
      r == match decode(store[HistoryStorageKey]) case Some(h) => h case None => []
  {
    match GetItem(store, HistoryStorageKey)
    case None => current
    case Some(text) =>
      if text == "" then current
      else match decode(text)
        case Some(h) => h
        case None => []
  }

  /**
   * With a codec that reads back what it writes, the history written by an
   * analysis is the history loaded at the next start-up. (`JSON.stringify`
   * of a list is never empty: it starts with '['.)
   */
  lemma HistoryReloads(
    store: map<string, string>, encode: seq<AnalysisRecord> -> string,
    decode: string -> Option<seq<AnalysisRecord>>, h: seq<AnalysisRecord>, current: seq<AnalysisRecord>)
    requires encode(h) != "" && decode(encode(h)) == Some(h)
    ensures LoadedHistory(store[HistoryStorageKey := encode(h)], decode, current) == h
  {
    assert GetItem(store[HistoryStorageKey := encode(h)], HistoryStorageKey) == Some(encode(h));
  }

  /** The application's state, and the handlers of App.tsx. */
  class App {
    var appState: AppState
    var intakeData: Option<IntakeData>
    var analysisResult: Option<Json>
    var error: Option<string>
    var apiKeyError: Option<string>
    var history: seq<AnalysisRecord>
    var settingsOpen: bool
    var mode: AppMode
    /** `localStorage`. */
    var store: map<string, string>
    /** `JSON.stringify` and `JSON.parse` on the history list. */
    const encode: seq<AnalysisRecord> -> string
    const decode: string -> Option<seq<AnalysisRecord>>

    /** A live session without a usable key. */
    predicate NeedsKey()
      reads this
    {
      mode == Live && StoredApiKey(store).None?
    }

    /** The first render: the welcome screen, nothing loaded, live mode. */
    constructor(initialStore: map<string, string>,
                encode: seq<AnalysisRecord> -> string, decode: string -> Option<seq<AnalysisRecord>>)
      ensures appState == Welcome && intakeData == None && analysisResult == None
      ensures error == None && apiKeyError == None && history == []
      ensures !settingsOpen && mode == Live && store == initialStore
      ensures this.encode == encode && this.decode == decode
    {
      appState := Welcome;
      intakeData := None;
      analysisResult := None;
      error := None;
      apiKeyError := None;
      history := [];
      settingsOpen := false;
      mode := Live;
      store := initialStore;
      this.encode := encode;
      this.decode := decode;
    }

    /**
     * The mount effect: the stored mode is normalised, a live session without
     * a key opens the settings modal, and the stored history is loaded.
     */
    method LoadOnMount()
      modifies this
      ensures mode == NormaliseMode(GetItem(store, AppModeStorageKey))
      ensures settingsOpen == (old(settingsOpen) || NeedsKey())
      ensures apiKeyError == if NeedsKey() then None else old(apiKeyError)
      ensures history == LoadedHistory(store, decode, old(history))
      ensures store == old(store) && appState == old(appState) && error == old(error)
      ensures intakeData == old(intakeData) && analysisResult == old(analysisResult)
    {
      var storedMode := GetItem(store, AppModeStorageKey);
      mode := NormaliseMode(storedMode);
      if mode == Live && StoredApiKey(store).None? {
        apiKeyError := None;
        settingsOpen := true;
      }
      var storedHistory := GetItem(store, HistoryStorageKey);
      if storedHistory.Some? && storedHistory.value != "" {
        var parsed := decode(storedHistory.value);
        if parsed.Some? {
          history := parsed.value;
        } else {
          history := [];
        }
      }
    }

    /** `handleSaveApiKey`: the key is stored, the modal closes and both errors clear. */
    method HandleSaveApiKey(key: string)
      modifies this
      ensures store == old(store)[ApiKeyStorageKey := key]
      ensures !settingsOpen && error == None && apiKeyError == None
      ensures appState == old(appState) && mode == old(mode) && history == old(history)
      ensures intakeData == old(intakeData) && analysisResult == old(analysisResult)
    {
      store := store[ApiKeyStorageKey := key];
      settingsOpen := false;
      error := None;
      apiKeyError := None;
    }

    /** The modal's save button: a blank input does nothing, any other is saved trimmed. */
    method HandleSettingsSave(input: string)
      modifies this
      ensures KeyToSave(input).None? ==>
        && store == old(store) && settingsOpen == old(settingsOpen)
        && error == old(error) && apiKeyError == old(apiKeyError)
      ensures KeyToSave(input).Some? ==>
        && store == old(store)[ApiKeyStorageKey := KeyToSave(input).value]
        && !settingsOpen && error == None && apiKeyError == None && !NeedsKey()
      ensures appState == old(appState) && mode == old(mode) && history == old(history)
      ensures intakeData == old(intakeData) && analysisResult == old(analysisResult)
    {
      var key := KeyToSave(input);
      if key.Some? {
        SavedKeyIsFound(store, input);
        HandleSaveApiKey(key.value);
      }
    }

    /**
     * `handleModeChange`: the mode is set and stored, and the modal is open
     * afterwards exactly when the new mode is live and no key is stored.
     */
    method HandleModeChange(m: AppMode)
      modifies this
      ensures mode == m && store == old(store)[AppModeStorageKey := ModeString(m)]
      ensures settingsOpen == (m == Live && StoredApiKey(old(store)).None?)
      ensures apiKeyError == if settingsOpen then None else old(apiKeyError)
      ensures appState == old(appState) && history == old(history) && error == old(error)
      ensures intakeData == old(intakeData) && analysisResult == old(analysisResult)
    {
      ModeWriteKeepsOtherEntries(store, m);
      mode := m;
      store := store[AppModeStorageKey := ModeString(m)];
      if m == Live && StoredApiKey(store).None? {
        settingsOpen := true;
        apiKeyError := None;
      } else {
        settingsOpen := false;
      }
    }

    /**
     * `handleAnalyze(data)`, with `outcome` the settled analysis and `id`,
     * `date` the clock's readings. A result is shown and appended to the
     * history, which is written back to the store; a failure returns to the
     * form with the history and store untouched, routed by `RouteFailure`.
     */
    method HandleAnalyze(data: IntakeData, outcome: AnalysisOutcome, id: string, date: string)
      modifies this
      ensures intakeData == Some(data) && mode == old(mode)
      ensures outcome.Analysed? ==>
        && history == old(history) + [AnalysisRecord(id, date, Some(data), outcome.value)]
        && store == old(store)[HistoryStorageKey := encode(history)]
        && analysisResult == Some(outcome.value)
        && appState == Results && error == None
        && settingsOpen == old(settingsOpen) && apiKeyError == old(apiKeyError)
      ensures outcome.Failed? ==>
        && history == old(history) && store == old(store)
        && analysisResult == old(analysisResult)
        && appState == IntakeScreen
        && match RouteFailure(old(mode), outcome.message)
           case ToSettings(keyError) =>
             settingsOpen && apiKeyError == Some(keyError) && error == None
           case ToForm(message) =>
             error == Some(message) && settingsOpen == old(settingsOpen) && apiKeyError == old(apiKeyError)
    {
      intakeData := Some(data);
      appState := Loading;
      error := None;
      match outcome {
        case Analysed(result) =>
          analysisResult := Some(result);
          var newRecord := AnalysisRecord(id, date, Some(data), result);
          var updatedHistory := history + [newRecord];
          store := store[HistoryStorageKey := encode(updatedHistory)];
          history := updatedHistory;
          appState := Results;
        case Failed(message) =>
          var errorMessage := FailureText(message);
          if mode == Live && Includes(errorMessage, ApiKeyMarker) {
            apiKeyError := Some("API Key Error: " + errorMessage + ". Please enter a valid key.");
            settingsOpen := true;
            error := None;
          } else {
            error := Some(errorMessage);
          }
          appState := IntakeScreen;
      }
    }

    /** `handleStartNew`: back to the welcome screen with the intake, result and error cleared. */
    method HandleStartNew()
      modifies this
      ensures appState == Welcome && intakeData == None && analysisResult == None && error == None
      ensures history == old(history) && store == old(store) && mode == old(mode)
      ensures settingsOpen == old(settingsOpen) && apiKeyError == old(apiKeyError)
    {
      appState := Welcome;
      intakeData := None;
      analysisResult := None;
      error := None;
    }

    /**
     * `handleStart`: a live session without a key opens the settings modal
     * instead of the form.
     */
    method HandleStart()
      modifies this
      ensures old(NeedsKey()) ==> settingsOpen && apiKeyError == None && appState == old(appState)
      ensures !old(NeedsKey()) ==>
        appState == IntakeScreen && settingsOpen == old(settingsOpen) && apiKeyError == old(apiKeyError)
      ensures history == old(history) && store == old(store) && mode == old(mode) && error == old(error)
      ensures intakeData == old(intakeData) && analysisResult == old(analysisResult)
    {
      if mode == Live && StoredApiKey(store).None? {
        apiKeyError := None;
        settingsOpen := true;
      } else {
        appState := IntakeScreen;
      }
    }

    /** `handleViewHistory`. */
    method HandleViewHistory()
      modifies this
      ensures appState == HistoryScreen
      ensures history == old(history) && store == old(store) && intakeData == old(intakeData)
      ensures analysisResult == old(analysisResult) && error == old(error)
      ensures settingsOpen == old(settingsOpen) && apiKeyError == old(apiKeyError) && mode == old(mode)
    {
      appState := HistoryScreen;
    }

    /** `handleViewHistoryItem`: a record's intake and result are put back on the results screen. */
    method HandleViewHistoryItem(record: AnalysisRecord)
      modifies this
      ensures intakeData == record.intakeData && analysisResult == Some(record.result)
      ensures appState == Results
      ensures history == old(history) && store == old(store) && error == old(error)
      ensures settingsOpen == old(settingsOpen) && apiKeyError == old(apiKeyError) && mode == old(mode)
    {
      intakeData := record.intakeData;
      analysisResult := Some(record.result);
      appState := Results;
    }

    /**
     * `renderContent`: the screen for the current state. The results state
     * without something to show falls back to the form and draws nothing,
     * so the results state never stays without a result to show.
     */
    method RenderContent() returns (screen: Screen)
      modifies this
      ensures old(appState) == Results && !CanShowResults(intakeData, analysisResult) ==>
        appState == IntakeScreen && screen == Nothing
      ensures old(appState) != Results || CanShowResults(intakeData, analysisResult) ==>
        appState == old(appState)
      ensures appState == Results ==> CanShowResults(intakeData, analysisResult) && screen == ResultsView
      ensures appState == Welcome ==> screen == WelcomeView
      ensures old(appState) == IntakeScreen ==> screen == IntakeView
      ensures appState == Loading ==> screen == LoadingView
      ensures appState == HistoryScreen ==> screen == HistoryView
      ensures intakeData == old(intakeData) && analysisResult == old(analysisResult)
      ensures history == old(history) && store == old(store) && error == old(error)
      ensures settingsOpen == old(settingsOpen) && apiKeyError == old(apiKeyError) && mode == old(mode)
    {
      match appState {
        case Welcome => screen := WelcomeView;
        case IntakeScreen => screen := IntakeView;
        case Loading => screen := LoadingView;
        case Results =>
          if CanShowResults(intakeData, analysisResult) {
            screen := ResultsView;
          } else {
            appState := IntakeScreen;
            screen := Nothing;
          }
        case HistoryScreen => screen := HistoryView;
      }
    }

    /**
     * Choosing a history entry and drawing the next frame: the results
     * screen stays up exactly when the record holds its intake data and a
     * truthy result; otherwise the form is shown again and nothing is drawn.
     */
    method ReopenRecord(record: AnalysisRecord) returns (screen: Screen)
      modifies this
      ensures appState == Results <==> record.intakeData.Some? && Truthy(record.result)
      ensures appState == Results ==> screen == ResultsView
      ensures appState != Results ==> appState == IntakeScreen && screen == Nothing
      ensures intakeData == record.intakeData && analysisResult == Some(record.result)
      ensures history == old(history) && store == old(store) && error == old(error)
      ensures settingsOpen == old(settingsOpen) && apiKeyError == old(apiKeyError) && mode == old(mode)
    {
      HandleViewHistoryItem(record);
      screen := RenderContent();
    }

    /** The header's settings button. */
    method OpenSettings()
      modifies this
      ensures settingsOpen
      ensures appState == old(appState) && store == old(store) && apiKeyError == old(apiKeyError)
      ensures error == old(error) && history == old(history) && mode == old(mode)
      ensures intakeData == old(intakeData) && analysisResult == old(analysisResult)
    {
      settingsOpen := true;
    }

    /** The modal's close button. */
    method CloseSettings()
      modifies this
      ensures !settingsOpen
      ensures appState == old(appState) && store == old(store) && apiKeyError == old(apiKeyError)
      ensures error == old(error) && history == old(history) && mode == old(mode)
      ensures intakeData == old(intakeData) && analysisResult == old(analysisResult)
    {
      settingsOpen := false;
    }

    /** The form's error banner dismiss button. */
    method DismissError()
      modifies this
      ensures error == None
      ensures appState == old(appState) && store == old(store) && history == old(history)
      ensures settingsOpen == old(settingsOpen) && apiKeyError == old(apiKeyError) && mode == old(mode)
      ensures intakeData == old(intakeData) && analysisResult == old(analysisResult)
    {
      error := None;
    }
  }
}
