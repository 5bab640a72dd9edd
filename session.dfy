/** The per-browser session store and its two-page state machine: the page
    key, the three result keys written on submit and deleted on "Predict Again". */
module Session {
  import opened Survey
  import opened Factors

  datatype Page = MainPage | ResultsPage

  /** A value held in the session store. OtherValue stands for entries this
      application does not own, which its transitions must leave alone. */
  datatype Value =
    | PageValue(page: Page)
    | PredictionValue(prediction: Label)
    | ProbaValue(proba: Proba)
    | InputsValue(factors: seq<Factor>)
    | OtherValue(tag: string)

  type Store = map<string, Value>

  const PageKey: string := "page"
  const PredictionKey: string := "prediction"
  const ProbaKey: string := "prediction_proba"
  const InputsKey: string := "inputs"

  /** The keys "Predict Again" deletes, in the order it deletes them. */
  const ResultKeys: seq<string> := [PredictionKey, ProbaKey, InputsKey]
  const ResultKeySet: set<string> := {PredictionKey, ProbaKey, InputsKey}

  /** Lines 200-201: a session without a page starts on the main page. */
  function Initialised(s: Store): Store {
    if PageKey in s then s else s[PageKey := PageValue(MainPage)]
  }

  /** Lines 293-306: store the prediction, its probabilities and the annotation
      table, then switch to the results page. */
  function Submitted(s: Store, prediction: Label, proba: Proba, inputs: seq<Factor>): Store {
    s[PredictionKey := PredictionValue(prediction)][ProbaKey := ProbaValue(proba)]
     [InputsKey := InputsValue(inputs)][PageKey := PageValue(ResultsPage)]
  }

  /** Lines 371-376: back to the main page, the three result keys removed. */
  function Reset(s: Store): Store {
    s[PageKey := PageValue(MainPage)] - ResultKeySet
  }

  /** What the router at lines 414-417 shows. */
  datatype View = MainView | ResultsView | NoView

  function Route(s: Store): View {
    if PageKey in s && s[PageKey] == PageValue(MainPage) then MainView
    else if PageKey in s && s[PageKey] == PageValue(ResultsPage) then ResultsView
    else NoView
  }

  /** The results that the results page reads are all present. */
  predicate HasResults(s: Store) {
    && PredictionKey in s && s[PredictionKey].PredictionValue?
    && ProbaKey in s && s[ProbaKey].ProbaValue?
    && InputsKey in s && s[InputsKey].InputsValue?
  }

  /** The invariant of the state machine: there is a page, and the results page
      is current only while the results it reads are stored. */
  predicate Consistent(s: Store) {
    && PageKey in s && s[PageKey].PageValue?
    && (s[PageKey] == PageValue(ResultsPage) ==> HasResults(s))
  }

  /** A fresh session is routed to the main page. */
  lemma FreshSessionStartsOnMain()
    ensures Consistent(Initialised(map[]))
    ensures Route(Initialised(map[])) == MainView
  {
  }

  /** The page initialisation changes nothing in a session that already has a
      page, and otherwise adds only the page key. */
  lemma InitialisedFrame(s: Store, k: string)
    ensures Initialised(Initialised(s)) == Initialised(s)
    ensures Initialised(s).Keys == s.Keys + {PageKey}
    ensures k in s ==> Initialised(s)[k] == s[k]
    ensures Consistent(s) ==> Initialised(s) == s
  {
  }

  /** Submit always lands on the results page with its results stored, and
      touches no key outside the page and the three result keys. */
  lemma SubmitEstablishes(s: Store, prediction: Label, proba: Proba, inputs: seq<Factor>, k: string)
    ensures var t := Submitted(s, prediction, proba, inputs);
      && Consistent(t) && Route(t) == ResultsView
      && t[PredictionKey] == PredictionValue(prediction) && t[ProbaKey] == ProbaValue(proba)
      && t[InputsKey] == InputsValue(inputs)
      && t.Keys == s.Keys + {PageKey} + ResultKeySet
      && (k in s && k != PageKey && k !in ResultKeySet ==> t[k] == s[k])
  {
  }

  /** "Predict Again" lands on the main page, removes exactly the three result
      keys and leaves every other key as it was. */
  lemma ResetEstablishes(s: Store, k: string)
    ensures var t := Reset(s);
      && Consistent(t) && Route(t) == MainView
      && t.Keys == (s.Keys + {PageKey}) - ResultKeySet
      && (k in s && k != PageKey && k !in ResultKeySet ==> t[k] == s[k])
  {
  }

  /** "Predict Again" discards everything a submit stored: the session is as if
      the submit had never happened, apart from the page. */
  lemma {:induction false} ResetUndoesSubmit(s: Store, prediction: Label, proba: Proba, inputs: seq<Factor>)
    ensures Reset(Submitted(s, prediction, proba, inputs)) == Reset(s)
    ensures Consistent(s) && s[PageKey] == PageValue(MainPage) && s.Keys !! ResultKeySet ==>
      Reset(Submitted(s, prediction, proba, inputs)) == s
  {
    var t := Reset(Submitted(s, prediction, proba, inputs));
    assert t.Keys == Reset(s).Keys;
    if Consistent(s) && s[PageKey] == PageValue(MainPage) && s.Keys !! ResultKeySet {
      assert Reset(s).Keys == s.Keys;
      assert forall k :: k in s ==> Reset(s)[k] == s[k];
    }
  }

  /** Every transition keeps the invariant. */
  lemma {:induction false} TransitionsKeepConsistent(s: Store, prediction: Label, proba: Proba, inputs: seq<Factor>)
    requires Consistent(s)
    ensures Consistent(Initialised(s)) && Consistent(Reset(s))
    ensures Consistent(Submitted(s, prediction, proba, inputs))
  {
    SubmitEstablishes(s, prediction, proba, inputs, PageKey);
    ResetEstablishes(s, PageKey);
    InitialisedFrame(s, PageKey);
  }

  /** Under the invariant the router always finds a page, and the results page
      always finds the results it reads. */
  lemma {:induction false} RouteFindsPage(s: Store)
    requires Consistent(s)
    ensures Route(s) != NoView
    ensures Route(s) == ResultsView ==> HasResults(s)
  {
    assert s[PageKey] == PageValue(s[PageKey].page);
    match s[PageKey].page {
      case MainPage =>
      case ResultsPage =>
    }
  }

  /** The session store of one browser session, updated in place by the form
      handler and the "Predict Again" button. */
  class SessionState {
    var store: Store

    /** A new browser session holds nothing. */
    constructor ()
      ensures store == map[]
    {
      store := map[];
    }

    /** Lines 200-201, run at the top of every script run. */
    method EnsurePage()
      modifies this
      ensures store == Initialised(old(store))
    {
      if PageKey !in store {
        store := store[PageKey := PageValue(MainPage)];
      }
    }

    /** Lines 293-306, from the prediction on. */
    method Submit(prediction: Label, proba: Proba, inputs: seq<Factor>)
      modifies this
      ensures store == Submitted(old(store), prediction, proba, inputs)
    {
      store := store[PredictionKey := PredictionValue(prediction)];
      store := store[ProbaKey := ProbaValue(proba)];
      store := store[InputsKey := InputsValue(inputs)];
      store := store[PageKey := PageValue(ResultsPage)];
    }

    /** Lines 371-376: the page is set first, then each result key is deleted
      if present. */
    method PredictAgain()
      modifies this
      ensures store == Reset(old(store))
    {
      store := store[PageKey := PageValue(MainPage)];
      ghost var start := store;
      for i := 0 to |ResultKeys|
        invariant store == start - (set j | 0 <= j < i :: ResultKeys[j])
      {
        var key := ResultKeys[i];
        if key in store {
          store := store - {key};
        }
        assert (set j | 0 <= j < i + 1 :: ResultKeys[j]) == (set j | 0 <= j < i :: ResultKeys[j]) + {key};
      }
      ghost var removed := set j | 0 <= j < |ResultKeys| :: ResultKeys[j];
      assert ResultKeys[0] in removed && ResultKeys[1] in removed && ResultKeys[2] in removed;
      assert removed == ResultKeySet;
    }
  }
}
