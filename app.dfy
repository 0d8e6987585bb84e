/**
 * The application controller (src/app/App.tsx): the page's state fields and the event
 * handlers that update them, calling the history store along the way. The network
 * outcome, the clock-derived id and date, and the answer to the confirmation dialog are
 * parameters of the handlers.
 */
module App {
  import opened Wrappers
  import opened MockApi
  import opened RealApi

  /** Shown when something other than an `Error` is thrown during an analysis. */
  const AnalyzeFallbackMessage := "Произошла ошибка при анализе. Попробуйте снова."

  /** The text the catch block puts into `error`. */
  function ErrorText(thrown: Thrown): (s: string)
    ensures thrown.ErrorInstance? ==> s == thrown.message
    ensures thrown.NonError? ==> s == AnalyzeFallbackMessage
  {
    match thrown
    case ErrorInstance(message) => message
    case NonError => AnalyzeFallbackMessage
  }

  /** `h.find(x => x.id === id)`: the first record with that id, if any. */
  function Find(h: seq<SavedAnalysis>, id: string): (r: Option<SavedAnalysis>)
    ensures r.Some? ==> r.value in h && r.value.id == id
    ensures r.None? <==> forall x :: x in h ==> x.id != id
    ensures r.Some? ==> exists i :: 0 <= i < |h| && h[i] == r.value &&
                                    forall j :: 0 <= j < i ==> h[j].id != id
  {
    if h == [] then None
    else if h[0].id == id then Some(h[0])
    else
      var rest := Find(h[1..], id);
      if rest.Some? then
        ghost var k :| 0 <= k < |h[1..]| && h[1..][k] == rest.value &&
                       forall j :: 0 <= j < k ==> h[1..][j].id != id;
        assert h[k + 1] == rest.value;
        rest
      else rest
  }

  /** After deleting an id, looking it up in the list that was written back finds nothing. */
  lemma DeletedIdIsGone(h: seq<SavedAnalysis>, id: string)
    ensures Find(Without(h, id), id) == None
  {
  }

  class Controller {
    var isLoading: bool
    var results: Option<AnalysisResponse>
    var currentTopic: string
    var currentAudioName: string
    var error: Option<string>
    var history: seq<SavedAnalysis>
    var showHistory: bool
    const store: HistoryStore

    /** The initial state, followed by the mount-time `loadHistory`. */
    constructor (store: HistoryStore)
      ensures this.store == store && store.stored == old(store.stored)
      ensures !isLoading && results == None && error == None
      ensures currentTopic == "" && currentAudioName == ""
      ensures history == History(store.stored) && showHistory == (|history| > 0)
    {
      this.store := store;
      isLoading := false;
      results := None;
      currentTopic := "";
      currentAudioName := "";
      error := None;
      history := [];
      showHistory := false;
      new;
      LoadHistory();
    }

    /** `loadHistory`: show the stored list, and the panel exactly when it is non-empty. */
    method LoadHistory()
      modifies this
      ensures history == History(store.stored)
      ensures showHistory <==> |history| > 0
      ensures isLoading == old(isLoading) && results == old(results) && error == old(error)
      ensures currentTopic == old(currentTopic) && currentAudioName == old(currentAudioName)
    {
      var savedHistory := store.GetAnalysisHistory();
      history := savedHistory;
      showHistory := |savedHistory| > 0;
    }

    /** `handleAnalyze`: submit, then either show and save the result or show the error. */
    method HandleAnalyze(topic: string, audio: File, fetched: Fetched, id: string, date: string)
      modifies this, store
      ensures !isLoading
      ensures currentTopic == topic && currentAudioName == audio.name
      ensures Outcome(fetched).Success? ==>
                && results == Some(Outcome(fetched).value)
                && error == None
                && store.stored == Stored(SaveInto(History(old(store.stored)),
                                            SavedAnalysis(Outcome(fetched).value, id, topic, date, audio.name)))
                && history == store.stored.records
                && history[0] == SavedAnalysis(Outcome(fetched).value, id, topic, date, audio.name)
                && showHistory
      ensures Outcome(fetched).Failure? ==>
                && error == Some(ErrorText(Outcome(fetched).error))
                && results == old(results)
                && store.stored == old(store.stored)
                && history == old(history) && showHistory == old(showHistory)
    {
      isLoading := true;
      error := None;
      currentTopic := topic;
      currentAudioName := audio.name;

      var request, outcome := AnalyzeAudio(topic, audio, fetched);
      match outcome {
        case Success(response) =>
          results := Some(response);
          var savedAnalysis := SavedAnalysis(response, id, topic, date, audio.name);
          store.SaveAnalysis(savedAnalysis);
          LoadHistory();
        case Failure(thrown) =>
          error := Some(ErrorText(thrown));
      }
      isLoading := false;
    }

    /** `handleReset`: back to the empty form; the history is untouched. */
    method HandleReset()
      modifies this
      ensures results == None && error == None && currentTopic == "" && currentAudioName == ""
      ensures history == old(history) && showHistory == old(showHistory) && isLoading == old(isLoading)
    {
      results := None;
      error := None;
      currentTopic := "";
      currentAudioName := "";
    }

    /** `handleSelectAnalysis`: replay a stored record; no request, no change to the history. */
    method HandleSelectAnalysis(analysis: SavedAnalysis)
      modifies this
      ensures results == Some(analysis.response)
      ensures currentTopic == analysis.topic && currentAudioName == analysis.audioName
      ensures error == old(error) && isLoading == old(isLoading)
      ensures history == old(history) && showHistory == old(showHistory)
    {
      results := Some(analysis.response);
      currentTopic := analysis.topic;
      currentAudioName := analysis.audioName;
    }

    /** `handleDeleteAnalysis`: delete, reload, and reset when the id is gone, which after the
        filter it always is. */
    method HandleDeleteAnalysis(id: string)
      modifies this, store
      ensures store.stored == Stored(Without(History(old(store.stored)), id))
      ensures history == Without(History(old(store.stored)), id)
      ensures results == None && error == None && currentTopic == "" && currentAudioName == ""
      ensures showHistory == old(showHistory) && isLoading == old(isLoading)
    {
      store.DeleteAnalysis(id);
      var updatedHistory := store.GetAnalysisHistory();
      history := updatedHistory;
      if Find(updatedHistory, id).None? {
        HandleReset();
      }
    }

    /** `handleClearHistory`: only when the user confirms; resets only a shown result. */
    method HandleClearHistory(confirmed: bool)
      modifies this, store
      ensures !confirmed ==>
                && store.stored == old(store.stored) && history == old(history)
                && showHistory == old(showHistory) && results == old(results) && error == old(error)
                && currentTopic == old(currentTopic) && currentAudioName == old(currentAudioName)
      ensures confirmed ==> store.stored == Missing && history == [] && !showHistory
      ensures confirmed && old(results).Some? ==>
                results == None && error == None && currentTopic == "" && currentAudioName == ""
      ensures confirmed && old(results).None? ==>
                results == None && error == old(error)
                && currentTopic == old(currentTopic) && currentAudioName == old(currentAudioName)
      ensures isLoading == old(isLoading)
    {
      if confirmed {
        store.ClearAnalysisHistory();
        LoadHistory();
        if results.Some? {
          HandleReset();
        }
      }
    }

    /** The header button that shows or hides the history panel. */
    method ToggleHistory()
      modifies this
      ensures showHistory == !old(showHistory)
      ensures history == old(history) && results == old(results) && error == old(error)
      ensures isLoading == old(isLoading) && currentTopic == old(currentTopic)
      ensures currentAudioName == old(currentAudioName)
    {
      showHistory := !showHistory;
    }
  }

  /** A client of the controller: a successful analysis is saved as the newest record; a
      failing one afterwards shows the backend's message and leaves the history alone. */
  method Scenario(audio: File)
    requires audio.name == "answer.mp3"
  {
    var store := new HistoryStore(Missing);
    var app := new Controller(store);
    assert app.history == [];

    var analysis := BackendAnalysis(Defined(Finite(7.5)), Defined(["A"]), Defined(["B"]), Defined(["C"]));
    var ok := Response(true, "OK", Json(Payload(Undefined, Defined("..."), Defined(analysis))));
    app.HandleAnalyze("Photosynthesis", audio, ok, "1", "2024-01-01T00:00:00.000Z");
    var expected := AnalysisResponse("...", Number(7.5), ["A"], ["B"], ["C"]);
    assert app.results == Some(expected);
    assert app.history == [SavedAnalysis(expected, "1", "Photosynthesis", "2024-01-01T00:00:00.000Z", "answer.mp3")];
    var before := app.history;

    var failed := Response(false, "Internal Server Error", Json(Payload(Defined("transcription failed"), Undefined, Undefined)));
    app.HandleAnalyze("Photosynthesis", audio, failed, "2", "2024-01-01T00:01:00.000Z");
    assert app.error == Some("transcription failed");
    assert app.history == before && store.stored == Stored(before);

    var garbled := Response(false, "Internal Server Error", NotJson("Unexpected token"));
    app.HandleAnalyze("Photosynthesis", audio, garbled, "3", "2024-01-01T00:02:00.000Z");
    assert app.error == Some("Internal Server Error");

    app.HandleDeleteAnalysis("1");
    assert app.history == [] && app.results == None;
  }
}
