# Diabetes risk app: prediction-serving core in Dafny

This project models the serving side of a small diabetes-risk web app (`app.py`). A form submits eight
clinical measurements. A fitted scaler and a fitted binary classifier turn them into a risk probability.
The rounded percentage is put into one of three risk tiers, each with fixed advice text. The resulting
record is prepended to a bounded, newest-first history file and written to a single "latest" file.

Modules:

- `Wrappers`: `Option` (`None` = the call raised, or the file is missing or corrupt) and a `Result` usable with `:-`.
- `Probability`: the fallback chain of `get_probability`. A classifier is the datatype of what its three
  probes (`predict_proba`, `decision_function`, `predict`) return on one input row; an absent value
  means the probe raised. Indexing an empty matrix, row or array also counts as raising.
- `Tiering`: the band ladder (label, alert type, colour) over an exact real percentage. Also the advice
  ladder over the label, and the recommendation lines inside the '\n'-joined text.
- `Lines`: Python's `str.split` and `str.join` on one separator character, with both round trips.
- `Records`: the eight features, their display names and order, and the decision record.
- `History`: the history file (`HistoryFile`, a class whose field is what loading the file yields).
  `save_history`, the home-page preview, the 50-record bound over any number of saves, and the
  single-record `LatestFile`.
- `Pipeline`: the `predict` request. Form reading (a missing field is 0; a value `float()` rejects
  raises) → scaler → label and probability → tiering → record → history and latest slot. Any failure
  before the record exists renders the error page and leaves both files unchanged.

Parameters stand for collaborators the model does not contain: the fitted scaler (which may raise), the
classifier's probes on a scaled row, the logistic function `1/(1+e^-x)`, the rounding
`round(prob*100, 1)`, the generated uuid and the timestamp.

Form reading follows `app.py:125-132`: only a *missing* field defaults to 0. A value that `float()`
rejects raises, and the handler at `app.py:193-194` renders the error page. `Pipeline.ReadAll` and
`Pipeline.Evaluate` state this behaviour.

## Model

| member | source | states |
|---|---|---|
| Probability.GetProbability | app.py:30-43 | the result is exactly the value of the first rule, in the order probability / decision score / label, that succeeds on its own; it is absent (the exception escapes) exactly when all three fail |
| Probability.ProbabilityRuleWins | app.py:32-34 | with a non-empty first probability row the result is that row's last entry, whatever the decision and label probes would return |
| Probability.DecisionRuleIsSecond | app.py:35-39 | when the probability rule fails and a score exists, the result is the logistic of the first score, whatever the label probe would return |
| Probability.LabelRuleIsLast | app.py:40-43 | when both guarded rules fail the result is exactly 0.85 for label 1, 0.15 for any other label, and absent when `predict` raises |
| Probability.ProbabilityInUnitInterval | app.py:30-43 | if the probabilities read are in [0,1] and the logistic maps into [0,1], the result is in [0,1] |
| Tiering.TierOf | app.py:144-155 | the tier returned is one whose interval holds the percentage |
| Tiering.Classify | app.py:144-155 | the band chosen is that of tier t exactly when the percentage lies in t's interval (≥ 65 High, [35, 65) Medium, < 35 Low) |
| Tiering.TiersPartition | app.py:144-155 | every percentage lies in exactly one tier's interval |
| Tiering.BoundaryValues | app.py:144-155 | 65.0 is High, 64.9 Medium, 35.0 Medium, 34.9 Low |
| Tiering.ClassifyMonotone | app.py:144-155 | a higher percentage never gets a lower tier |
| Tiering.HighRecoIsJoined | app.py:160 | the High recommendation text is its five lines joined by '\n' |
| Tiering.MediumRecoIsJoined | app.py:163 | the Medium recommendation text is its three lines joined by '\n' |
| Tiering.LowRecoIsJoined | app.py:166 | the Low recommendation text is its two lines joined by '\n' |
| Tiering.AdviceFor | app.py:157-166 | a tier's label gets that tier's advice line, and its recommendation text splits on '\n' into exactly that tier's lines, in order; any label other than High's or Medium's gets Low's advice and lines |
| Tiering.RecommendationLineCounts | app.py:144-166 | split on '\n', the recommendation text for a percentage has 5 lines if High, 3 if Medium, 2 if Low |
| Lines.SplitJoin | app.py:92 | splitting the join of separator-free lines gives the lines back |
| Lines.JoinSplit | app.py:92 | joining the pieces of a split gives the original string back |
| Records.Named | app.py:134-138 | the recorded features are the eight display names paired, in order, with exactly the values of the row handed to the scaler |
| History.Pushed | app.py:53-55 | the stored list has the new record at index 0, followed by the loaded records in their original order, and its length is min(50, loaded + 1) |
| History.SaveAllKeepsNewest | app.py:53-55 | any sequence of saves into a list within capacity leaves the newest 50 of all records, newest first |
| History.SaveAllBounded | app.py:55 | after any number of saves the list holds at most 50 records |
| History.FiftyOneSaves | app.py:53-55 | after 51 saves into an empty history exactly the 50 newest remain, newest first, and the first record saved is gone |
| History.HistoryFile.Save | app.py:45-57 | the file afterwards holds the record prepended to the tolerantly loaded list and truncated to 50; a missing or corrupt file yields exactly `[r]` and no error |
| History.HistoryFile.Preview | app.py:112-119 | the preview is the first min(5, n) records of the tolerantly loaded history |
| History.LatestFile.Write | app.py:180-183 | the latest slot afterwards holds exactly the record |
| Pipeline.ReadAll | app.py:125-132 | the fields are read in order: all readable gives their values (missing ones 0.0); otherwise the error names the first field whose value `float()` rejects |
| Pipeline.ReadFeatures | app.py:125-136 | the eight form reads give the feature row field by field, or the error for the first unreadable field |
| Pipeline.Evaluate | app.py:123-176 | form errors come first; then a raising scaler gives the transform error; then a raising `predict` gives the predict error; otherwise the record echoes the features, its percentage is the rounded probability, and its label, alert type, colour, advice line and recommendation lines are those of the tier the percentage lies in |
| Pipeline.Predict | app.py:121-194 | on success the record is prepended to the history and written to the latest slot, which then equals the head of the history; on failure the error page carries the error and neither file changes |
| Pipeline.LowRiskScenario | app.py:138-166 | the sample patient with probability 0.20 gets 20.0 percent, "Low Risk" and the routine-checkup advice |
| Pipeline.HighRiskScenario | app.py:138-166 | the sample patient with probability 0.70 gets 70.0 percent, "High Risk" and five recommendation lines |

## Left out

- Flask routes, template rendering and `send_file` (app.py:105-119, 185-216) are web plumbing and are not modelled. This covers `about`, the 500 handler, `download_report` (its "No report available" 404 when `latest.json` is absent) and the `/history` page. Note that `/history` has no guard against a corrupt file, unlike the tolerant load modelled here.
- JSON reading and writing, `os.path.exists`, and the joblib/pickle loading together with the start-up check for the two artifacts (app.py:8-28) are file I/O. A load is modelled only by its outcome: a list of records, or `None` for missing or unparseable.
- A history file that parses but is not a list (then `data.insert` raises) is not modelled: the load outcome is always a list or `None`.
- A failing write of `history.json` or `latest.json` is not modelled; the model assumes writes succeed.
- `create_pdf_report` (app.py:59-102) is reportlab layout on float page coordinates. The model keeps only its `split('\n')` of the recommendation text (`Lines.Split`).
- `np.exp` in the logistic and `round(prob*100, 1)` are floating-point numerics. They are the parameters `logistic` and `toPercent`; tiering works on the exact percentage.
- `uuid.uuid4()` and `datetime.now()` are nondeterministic; they are the parameters `id` and `timestamp`.
- `scaler.transform` and the sklearn internals of `predict_proba`, `decision_function` and `predict` are foreign calls. They are the parameters `scale` (with `None` for a transform that raises) and `model`; each output is taken as given.
- Form values, the probability and the percentage are exact reals. `float()` also accepts "nan", "inf" and "1e999", which `Numeric(v)` cannot express. A NaN percentage fails both `>=` tests at app.py:144-148 and is labelled Low; the model cannot produce a NaN percentage.
- A multi-class `decision_function` returning a 2-D array (where `float(df[0])` raises) is not modelled: the decision probe yields one score per input row.
- The round trip of a record through JSON is not modelled, since the JSON encoding itself is left out.
- The lost-update race between concurrent requests on `history.json` and `latest.json` is concurrency and out of scope.
- main.py, src/evaluate.py, src/train.py, src/predict.py, data/data_loader.py and model/SVM/model.py are training and evaluation scripts over sklearn, pandas and joblib. They are not part of this model.
