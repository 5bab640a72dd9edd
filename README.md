# Student Depression Predictor — verified model of the form handler and results page

The application is a two-page Streamlit script, `app.py`. On the main page a
student answers eleven survey questions. On submit, the script does three things.
First it encodes the answers into a one-row table, in the exact column order of the
loaded random-forest classifier's feature schema. Then it asks the classifier for a
label and class probabilities. Finally it stores those, together with a
six-entry annotation table, in the per-browser session store and switches to
the results page. That page shows a verdict box and a guidance box chosen by
the label. It also shows one colour-coded card per annotation, dealt over two
columns, and a "Predict Again" button that returns to the main page and
discards the stored results.

This project models that logic in Dafny and proves what it guarantees:

- `survey.dfy`: module `Survey`. The eleven answers, the form's widget domains, the
  classifier as an uninterpreted pair of functions over its feature schema.
- `encoder.dfy`: module `Encoder`. The data-preparation block. It builds the
  dictionary in place, step by step, as the script does (`BuildInputData`).
  It then projects the dictionary onto the schema (`Project`). The result is
  proved equal to a reference row `Row`, a closed form of every cell. Lemmas
  about `Row` state the encoding rules column family by column family.
- `factors.dfy`: module `Factors`. The annotation table, with its integer
  thresholds, and the card-class cascade, proved equal to its closed form.
- `results.dfy`: module `Results`. The verdict and guidance choice, and the
  round-robin card loop (`LayoutCards`, with `col_idx` kept as in the script).
- `session.dfy`: module `Session`. The session store as a class whose `store`
  map the page initialisation, the submit and "Predict Again" update in place.
  Each method is tied to a pure transition (`Initialised`, `Submitted`,
  `Reset`), and lemmas prove the transitions' effect, their frame and the
  invariant `Consistent`. That invariant says a page is set, and the results
  page is current only while its results are stored.
- `app.dfy`: module `App`. One whole script run (`Rerun`/`Step`): the model
  load, the page initialisation and the router. It also proves that every
  session of runs keeps the invariant.

## Model

| member | source | states |
|---|---|---|
| Encoder.BuildInputData | app.py:269-289 | the dictionary before projection holds exactly the schema columns, the eight updated columns and the activated indicator keys; each key holds the numeric answer, 0 for the three uncollected columns, 1 for an activated indicator, and 0 otherwise |
| Encoder.DictionaryAt | app.py:270-289 | after the comprehension, the update and the first n indicator writes, a key is present iff it is a schema column, an updated column or an indicator written so far, and it holds the reference value |
| Encoder.DictionaryBase | app.py:270-276 | after the comprehension and the update, the keys are the schema plus the eight updated columns, with the answers or 0 |
| Encoder.Project | app.py:290 | selecting the schema columns from the dictionary yields one cell per column, in the column order, with that column's dictionary value |
| Encoder.EncodeRow | app.py:269-290 | the encoded row has exactly one cell per schema column, in schema order (no extras, none missing), and equals the reference row |
| Encoder.PassthroughColumns | app.py:271-276 | Age, Academic Pressure, Study Satisfaction, Financial Stress and Work/Study Hours carry the answers; Work Pressure, CGPA and Job Satisfaction are 0 |
| Encoder.BinaryIndicators | app.py:277-281 | Gender_Male, the suicidal-thoughts column and the family-history column are 1 iff the answer is Male / Yes / Yes, and 0 otherwise |
| Encoder.TemplatedIndicators | app.py:278-279 | a sleep or diet column is 1 iff it is the column templated from the answer; when that templated name is not in the schema, the whole family stays 0 |
| Encoder.DegreeIndicators | app.py:283-289 | among the degree columns exactly the chosen one is 1: the templated column when the schema has it, Degree_Others otherwise, whatever degree was selected |
| Encoder.DegreeExactlyOne | app.py:283-289 | before projection, a degree key holds 1 iff it is the chosen degree column, so exactly one degree key is set |
| Encoder.UnwrittenColumnsStayZero | app.py:270-289 | a schema column that is neither updated nor switched on keeps its initial 0 |
| Factors.YesNoFactor | app.py:298-300 | a yes/no annotation shows the answer, is a risk iff the answer is Yes, and always reads "High Impact" |
| Factors.StressFactor | app.py:299-301 | a pressure or stress annotation shows n/5, is a risk iff n > 3; the text is High iff n > 3, Low iff n < 2, Neutral iff 2 <= n <= 3 |
| Factors.SleepFactor | app.py:302 | the sleep annotation is a risk iff the answer is one of the two short-sleep options; the text is High exactly then, Low otherwise |
| Factors.SatisfactionFactor | app.py:303 | the satisfaction annotation shows n/5, is a risk iff n < 2; the text is High iff n < 2, Low iff n > 3, Neutral iff 2 <= n <= 3 |
| Factors.FactorTable | app.py:297-304 | the table has six entries with the six titles in insertion order; each entry shows its own answer (or its n/5 score) and follows its own rule: the two yes/no entries are a risk iff Yes and always "High Impact"; pressure and stress are a risk iff > 3, High iff > 3, Low iff < 2, Neutral iff 2-3; sleep is a risk and High iff a short-sleep option, else Low; satisfaction is a risk iff < 2, High iff < 2, Low iff > 3, Neutral iff 2-3; every risk entry reads "High Impact" |
| Factors.CardClassOf | app.py:390-396 | the initial choice followed by the two overrides equals: high for a risk, else neutral for a "Neutral Impact" text, else low |
| Factors.TableCards | app.py:297-396 | on the table, a card is high iff its entry is a risk, and neutral iff it is one of the three scales with a middle score (2 or 3) |
| Factors.FavourableHighIsShownLow | app.py:395-396 | a "High Impact" entry that is not a risk is shown with the low-impact class |
| Factors.AllHighScenario | app.py:297-304 | for the all-risk answer set, which the form can produce, every entry is a risk reading "High Impact" and every card is high |
| Factors.AllLowScenario | app.py:297-304 | for the no-risk answer set, no entry is a risk and every card is low, including both yes/no entries whose text still reads "High Impact" |
| Results.Summarise | app.py:320-367 | label 1 gets the high-risk box with the probability of class 1 and the next-steps guidance; any other label gets the low-risk box with the probability of class 0 and the well-being tips |
| Results.CardOf | app.py:390-405 | a card prints its entry's title, shown input and impact text; its CSS class is "high-impact" iff the entry is a risk, "neutral-impact" iff it is no risk and reads "Neutral Impact", and "low-impact" otherwise |
| Results.LayoutCards | app.py:385-410 | the cards fill two columns, the first with ceil(n/2) and the second with floor(n/2) cards; column 0 holds cards 0, 2, 4, … and column 1 holds cards 1, 3, 5, …, each card built from its entry |
| Results.CardPlacement | app.py:386-410 | the i-th card is at row i / 2 of column i % 2 |
| Session.FreshSessionStartsOnMain | app.py:200-201 | a new session, once initialised, is consistent and routed to the main page |
| Session.InitialisedFrame | app.py:200-201 | initialisation is idempotent, adds only the page key, keeps every existing entry, and leaves a consistent store unchanged |
| Session.SubmitEstablishes | app.py:293-306 | after submit, the store is consistent and on the results page with the given label, probability row and table; only the page and the three result keys are added or changed |
| Session.ResetEstablishes | app.py:371-376 | after "Predict Again", the store is consistent and on the main page; it has exactly the old keys plus the page minus the three result keys, and every other entry is unchanged |
| Session.ResetUndoesSubmit | app.py:371-376 | "Predict Again" after a submit gives the same store as "Predict Again" alone, and gives back the pre-submit store when that was a clean main-page store |
| Session.TransitionsKeepConsistent | app.py:200-376 | initialisation, submit and "Predict Again" each preserve the invariant |
| Session.RouteFindsPage | app.py:414-417 | in a consistent store the router always shows one of the two pages, and the results page finds all three results |
| Session.SessionState.constructor | app.py:200 | a new browser session holds no entries |
| Session.SessionState.EnsurePage | app.py:200-201 | the store becomes its initialised form |
| Session.SessionState.Submit | app.py:293-306 | the store becomes its submitted form |
| Session.SessionState.PredictAgain | app.py:371-376 | setting the page and then deleting each present result key in turn leaves the store in its reset form |
| App.SubmitForm | app.py:269-306 | the store becomes the submitted form, with the classifier's answers on the encoded row of the answers and the table of the answers |
| App.ShowResults | app.py:320-410 | the results page's summary and card columns are computed from the stored label, probabilities and table |
| App.Rerun | app.py:28-417 | one run of the script moves the store to its reference next state: unchanged when the model is missing; otherwise initialised, then submitted only from the main page and reset only from the results page |
| App.StepKeepsConsistent | app.py:200-417 | with the model loaded, one run makes a page-less or consistent store consistent; without the model, a consistent store stays consistent |
| App.SessionsStayConsistent | app.py:414-417 | after any non-empty sequence of runs with the model loaded, starting from a fresh or consistent store, the store is consistent |
| App.SubmitThenPredictAgain | app.py:293-377 | a submit followed by "Predict Again" restores a clean main-page store exactly, whatever the classifier answered |

The contracts above are stated against these reference definitions, which
compute without a contract of their own:

- `Encoder.Dictionary` (app.py:270-289): the dictionary after the comprehension,
  the update and the first n indicator writes, each test made on the dictionary itself.
- `Encoder.Row` (app.py:269-290): the closed form of the encoded row, one cell per
  schema column.
- `Session.Initialised` (app.py:200-201): the store with `page` set to main when
  it had no page.
- `Session.Submitted` (app.py:293-306): the store with the three results written,
  then `page` set to results.
- `Session.Reset` (app.py:371-376): the store with `page` set to main and the three
  result keys removed.
- `Session.Route` (app.py:414-417): which page the router shows.
- `App.AfterSubmit` (app.py:269-306): the store after submitting one answer set to
  one classifier.
- `App.Step` (app.py:28-417): the store after one run of the script for one user action.
- `App.Run` (app.py:28-417): the store after a sequence of runs, first action first.

## Left out

- Streamlit rendering, the CSS and the HTML strings: markup with no contract. The
  model computes which box, which guidance and which card class is shown, not the markup.
- Model loading with `joblib` and `@st.cache_resource` is file I/O. It is modelled
  only by its outcome (`App.Loaded`), and the fatal-error path as a run that
  stops before the page is touched. The error messages are not modelled.
- `model.predict` and `model.predict_proba` belong to a foreign random-forest
  library. They are uninterpreted functions of the encoded row. `predict` returns
  a label in {0, 1}, and `predict_proba` returns the first row of the probability
  output as two reals. Nothing is assumed about those reals (that they are
  probabilities, or that they sum to 1).
- Encoder.BuildInputData: the `float()` casts on the numeric answers are not modelled:
  every answer is an integer before the cast, so the row is `seq<int>`.
- The percentage formatting `*100:.2f` is floating-point presentation. The model
  stops at which probability (index 0 or 1) is shown.
- `time.sleep(2)`, the spinner and `st.rerun()` are timing and framework control
  flow. A rerun is modelled as the next `App.Rerun`.
- The pandas data frame is modelled only as selecting the schema columns from the
  dictionary, in order (`Encoder.Project`).
- Factors.FactorTable: the "value" string `f"{n}/5"` is modelled as the datatype
  `OutOfFive(n)`, not as the formatted text. The table dictionary is modelled as a
  sequence in its insertion order: the order its `.items()` loop visits it.
- Other session keys Streamlit or other widgets may own are modelled as opaque
  `OtherValue` entries; the proofs show they are left alone.
- The classifier's probability row is stored as that row, not as the whole
  two-dimensional array `predict_proba` returns. The results page reads only row 0.
- The code has no check for an empty or malformed feature list: an empty schema
  gives an empty row, and nothing fails.
