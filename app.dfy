/** One run of the script: load the model, make sure a page is set, then let the
    current page react to the user's action. */
module App {
  import opened Survey
  import opened Encoder
  import opened Factors
  import opened Results
  import opened Session

  /** The outcome of loading the pickled classifier (lines 19-28). */
  datatype Loaded = ModelMissing | ModelLoaded(model: Classifier)

  /** What the user did before this run: nothing (first load or a plain rerun),
      submitted the form with these answers, or pressed "Predict Again". */
  datatype Event = PageLoad | FormSubmitted(answers: Response) | PredictAgainClicked

  /** Lines 262-306: the store after a submit with answers r. */
  function AfterSubmit(s: Store, model: Classifier, r: Response): Store {
    var row := Row(model.featureNames, r);
    Submitted(s, model.predict(row), model.predictProba(row), FactorTable(r))
  }

  /** The session store after one run. A missing model stops the run before the
      page is touched (lines 31-34); the form exists only on the main page and the
      button only on the results page (lines 414-417). */
  function Step(s: Store, loaded: Loaded, e: Event): Store {
    if loaded.ModelMissing? then s
    else
      var t := Initialised(s);
      match e
      case PageLoad => t
      case FormSubmitted(r) => if Route(t) == MainView then AfterSubmit(t, loaded.model, r) else t
      case PredictAgainClicked => if Route(t) == ResultsView then Reset(t) else t
  }

  /** The store after a sequence of runs, the first event first. */
  function Run(s: Store, loaded: Loaded, events: seq<Event>): Store
    decreases |events|
  {
    if |events| == 0 then s else Run(Step(s, loaded, events[0]), loaded, events[1..])
  }

  /** A run keeps the invariant, and with a model it establishes it from a store
      that has no page yet. */
  lemma {:induction false} StepKeepsConsistent(s: Store, loaded: Loaded, e: Event)
    requires PageKey !in s || Consistent(s)
    ensures (loaded.ModelLoaded? || Consistent(s)) ==> Consistent(Step(s, loaded, e))
  {
    if loaded.ModelLoaded? {
      var t := Initialised(s);
      assert Consistent(t);
      TransitionsKeepConsistent(t, 0, Proba(0.0, 0.0), []);
      match e {
        case PageLoad =>
        case FormSubmitted(r) =>
          var row := Row(loaded.model.featureNames, r);
          TransitionsKeepConsistent(t, loaded.model.predict(row), loaded.model.predictProba(row), FactorTable(r));
        case PredictAgainClicked =>
      }
    }
  }

  /** Whatever the user does, once the model has loaded every page the router
      shows in a new session is a real page, and the results page always finds
      its results. */
  lemma {:induction false} SessionsStayConsistent(model: Classifier, events: seq<Event>, s: Store)
    requires PageKey !in s || Consistent(s)
    ensures |events| > 0 ==> Consistent(Run(s, ModelLoaded(model), events))
    ensures Consistent(s) ==> Consistent(Run(s, ModelLoaded(model), events))
    decreases |events|
  {
    if |events| > 0 {
      StepKeepsConsistent(s, ModelLoaded(model), events[0]);
      SessionsStayConsistent(model, events[1..], Step(s, ModelLoaded(model), events[0]));
    }
  }

  /** A submit followed by "Predict Again" returns the store to where it was
      before the submit, whatever the model said. */
  lemma {:induction false} SubmitThenPredictAgain(s: Store, model: Classifier, r: Response)
    requires Consistent(s) && s[PageKey] == PageValue(MainPage) && s.Keys !! ResultKeySet
    ensures Run(s, ModelLoaded(model), [FormSubmitted(r), PredictAgainClicked]) == s
  {
    InitialisedFrame(s, PageKey);
    var row := Row(model.featureNames, r);
    var t := AfterSubmit(s, model, r);
    SubmitEstablishes(s, model.predict(row), model.predictProba(row), FactorTable(r), PageKey);
    InitialisedFrame(t, PageKey);
    ResetUndoesSubmit(s, model.predict(row), model.predictProba(row), FactorTable(r));
    assert Step(s, ModelLoaded(model), FormSubmitted(r)) == t;
    assert Step(t, ModelLoaded(model), PredictAgainClicked) == s;
    var events := [FormSubmitted(r), PredictAgainClicked];
    assert events[1..] == [PredictAgainClicked] && events[1..][1..] == [];
    assert Run(s, ModelLoaded(model), events) == Run(t, ModelLoaded(model), [PredictAgainClicked]);
    assert Run(t, ModelLoaded(model), [PredictAgainClicked]) == Run(s, ModelLoaded(model), []);
  }

  /** Lines 262-306: encode the answers against the model's feature list, ask
      the model, and store the results with the annotation table. */
  method SubmitForm(session: SessionState, model: Classifier, r: Response)
    modifies session
    ensures session.store == AfterSubmit(old(session.store), model, r)
  {
    var row := EncodeRow(model.featureNames, r);
    var prediction := model.predict(row);
    var proba := model.predictProba(row);
    session.Submit(prediction, proba, FactorTable(r));
  }

  /** Lines 310-410: what the results page shows, read from the store. */
  method ShowResults(session: SessionState) returns (summary: Summary, columns: seq<seq<Card>>)
    requires HasResults(session.store)
    ensures summary == Summarise(session.store[PredictionKey].prediction, session.store[ProbaKey].proba)
    ensures var inputs := session.store[InputsKey].factors;
      && |columns| == 2
      && |columns[0]| == (|inputs| + 1) / 2 && |columns[1]| == |inputs| / 2
      && (forall j :: 0 <= j < |columns[0]| ==> columns[0][j] == CardOf(inputs[2 * j]))
      && (forall j :: 0 <= j < |columns[1]| ==> columns[1][j] == CardOf(inputs[2 * j + 1]))
  {
    summary := Summarise(session.store[PredictionKey].prediction, session.store[ProbaKey].proba);
    columns := LayoutCards(session.store[InputsKey].factors);
  }

  /** One whole run of the script against the session store. */
  method Rerun(session: SessionState, loaded: Loaded, e: Event)
    modifies session
    ensures session.store == Step(old(session.store), loaded, e)
  {
    if loaded.ModelMissing? {
      return;
    }
    session.EnsurePage();
    match e {
      case PageLoad =>
      case FormSubmitted(r) =>
        if Route(session.store) == MainView {
          SubmitForm(session, loaded.model, r);
        }
      case PredictAgainClicked =>
        if Route(session.store) == ResultsView {
          session.PredictAgain();
        }
    }
  }
}
