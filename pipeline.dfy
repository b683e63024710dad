/**
 * The `predict` request of app.py as one pipeline: read the eight form
 * fields, scale them, ask the classifier for a label and a probability, tier
 * the percentage, build the record, prepend it to the history and overwrite
 * the latest slot.  Any failure before the record is built renders the error
 * page instead and leaves both files as they were.
 *
 * Collaborators outside the model are parameters: the fitted scaler
 * (`scale`, `None` when it raises), the fitted classifier's probes on a scaled row (`model`), the
 * logistic function, the rounding of `prob * 100` to one decimal
 * (`toPercent`), and the generated id and timestamp.
 */
module Pipeline {
  import opened Wrappers
  import opened Records
  import Probability
  import Tiering
  import Lines
  import History

  /** A submitted form value: one `float()` accepts, or one it rejects. */
  datatype Entry = Numeric(value: real) | NotNumeric

  /** The submitted form: field name to value; an absent name is a missing field. */
  type Form = map<string, Entry>

  /** Why the error page is shown. */
  datatype Error =
    | InvalidNumber(field: string)  // float() raised on this field
    | TransformRaised               // scaler.transform raised
    | PredictRaised                 // model.predict raised or returned no label

  /** The form field names, in the order they are read. */
  const FieldKeys: seq<string> := ["preg", "glucose", "bp", "skin", "insulin", "bmi", "dpf", "age"]

  /** A field that does not make `float()` raise: missing, or numeric. */
  predicate Readable(form: Form, key: string)
  {
    key !in form || form[key].Numeric?
  }

  /** The value a readable field contributes: 0 when missing. */
  function FieldValue(form: Form, key: string): real
  {
    if key in form && form[key].Numeric? then form[key].value else 0.0
  }

  /** `float(request.form.get(key, 0))` */
  function ReadField(form: Form, key: string): Result<real, Error>
  {
    if key !in form then Success(0.0)
    else match form[key]
      case Numeric(v) => Success(v)
      case NotNumeric => Failure(InvalidNumber(key))
  }

  /** The fields `keys` read one after the other; the first that raises stops the reading. */
  function ReadAll(form: Form, keys: seq<string>): (r: Result<seq<real>, Error>)
    ensures r.Success? <==> forall i :: 0 <= i < |keys| ==> Readable(form, keys[i])
    ensures r.Success? ==> |r.value| == |keys|
    ensures r.Success? ==> forall i :: 0 <= i < |keys| ==> r.value[i] == FieldValue(form, keys[i])
    ensures r.Failure? ==>
              exists i :: 0 <= i < |keys| && !Readable(form, keys[i]) &&
                          (forall j :: 0 <= j < i ==> Readable(form, keys[j])) &&
                          r.error == InvalidNumber(keys[i])
  {
    if |keys| == 0 then Success([])
    else
      var v :- ReadField(form, keys[0]);
      var rest :- ReadAll(form, keys[1..]);
      Success([v] + rest)
  }

  /**
   * The eight reads of the form, in order: with every field readable it gives
   * the features (missing ones 0); otherwise the first unreadable field names
   * the error.
   */
  function ReadFeatures(form: Form): (r: Result<Features, Error>)
    ensures r.Success? <==> forall i :: 0 <= i < |FieldKeys| ==> Readable(form, FieldKeys[i])
    ensures r.Success? ==> forall i :: 0 <= i < |FieldKeys| ==> Row(r.value)[i] == FieldValue(form, FieldKeys[i])
    ensures r.Failure? ==>
              exists i :: 0 <= i < |FieldKeys| && !Readable(form, FieldKeys[i]) &&
                          (forall j :: 0 <= j < i ==> Readable(form, FieldKeys[j])) &&
                          r.error == InvalidNumber(FieldKeys[i])
  {
    var row :- ReadAll(form, FieldKeys);
    Success(Features(row[0], row[1], row[2], row[3], row[4], row[5], row[6], row[7]))
  }

  /** What the result page shows besides the record: the band's alert type and colour. */
  datatype Assessment = Assessment(record: Record, alertType: string, color: string)

  /** The rendered outcome of one request. */
  datatype Page = ResultPage(assessment: Assessment) | ErrorPage(error: Error)

  /**
   * The body of the `try` in `predict` up to the record: the assessment, or
   * the error that the `except` renders.  The label computed at the start is
   * used only for the exception it may raise.
   */
  function Evaluate(form: Form, scale: seq<real> -> Option<seq<real>>, model: seq<real> -> Probability.Classifier,
                    logistic: real -> real, toPercent: real -> real,
                    id: string, timestamp: string): (r: Result<Assessment, Error>)
    ensures ReadFeatures(form).Failure? ==> r == Failure(ReadFeatures(form).error)
    ensures ReadFeatures(form).Success? && scale(Row(ReadFeatures(form).value)).None? ==>
              r == Failure(TransformRaised)
    ensures ReadFeatures(form).Success? && scale(Row(ReadFeatures(form).value)).Some? ==>
              var c := model(scale(Row(ReadFeatures(form).value)).value);
              (r.Failure? <==> c.labels.None? || |c.labels.value| == 0) &&
              (r.Failure? ==> r.error == PredictRaised) &&
              (r.Success? ==>
                 Probability.GetProbability(c, logistic).Some? &&
                 r.value.record.riskPct == toPercent(Probability.GetProbability(c, logistic).value) &&
                 r.value.record.features == Named(ReadFeatures(form).value))
    ensures r.Success? ==>
              var rec := r.value.record;
              rec.id == id && rec.timestamp == timestamp &&
              forall t :: Tiering.InTier(rec.riskPct, t) ==>
                rec.riskLabel == Tiering.BandOf(t).riskLabel &&
                r.value.alertType == Tiering.BandOf(t).alertType &&
                r.value.color == Tiering.BandOf(t).color &&
                rec.adviceShort == Tiering.AdviceShortOf(t) &&
                Lines.Split(rec.doctorReco, '\n') == Tiering.RecommendationLines(t)
  {
    var features :- ReadFeatures(form);
    var scaled :- match scale(Row(features)) {
      case Some(row) => Success(row)
      case None => Failure(TransformRaised)
    };
    var c := model(scaled);
    if c.labels.None? || |c.labels.value| == 0 then Failure(PredictRaised)
    else
      var prob := Probability.GetProbability(c, logistic).value;
      var riskPct := toPercent(prob);
      var band := Tiering.Classify(riskPct);
      var advice := Tiering.AdviceFor(band.riskLabel);
      Tiering.TiersPartition(riskPct);
      Success(Assessment(Record(id, timestamp, Named(features), band.riskLabel, riskPct,
                                advice.adviceShort, advice.doctorReco),
                         band.alertType, band.color))
  }

  /**
   * The `predict` request: on success the record is prepended to the history
   * and becomes the latest record, so the latest slot equals the head of the
   * history; on failure the error page is shown and neither file changes.
   */
  method Predict(form: Form, scale: seq<real> -> Option<seq<real>>, model: seq<real> -> Probability.Classifier,
                 logistic: real -> real, toPercent: real -> real, id: string, timestamp: string,
                 history: History.HistoryFile, latest: History.LatestFile)
    returns (page: Page)
    modifies history, latest
    ensures page.ResultPage? <==> Evaluate(form, scale, model, logistic, toPercent, id, timestamp).Success?
    ensures page.ResultPage? ==>
              var rec := page.assessment.record;
              page.assessment == Evaluate(form, scale, model, logistic, toPercent, id, timestamp).value &&
              history.contents == Some(History.Pushed(rec, History.Tolerant(old(history.contents)))) &&
              latest.slot == Some(rec) &&
              latest.slot == Some(history.Records()[0])
    ensures page.ErrorPage? ==>
              page.error == Evaluate(form, scale, model, logistic, toPercent, id, timestamp).error &&
              unchanged(history) && unchanged(latest)
  {
    var outcome := Evaluate(form, scale, model, logistic, toPercent, id, timestamp);
    match outcome {
      case Success(assessment) =>
        history.Save(assessment.record);
        latest.Write(assessment.record);
        page := ResultPage(assessment);
      case Failure(e) =>
        page := ErrorPage(e);
    }
  }

  /** The sample patient (5, 116, 74, 0, 0, 25.6, 0.201, 30), every field submitted. */
  const SampleForm: Form := map[
    "preg" := Numeric(5.0), "glucose" := Numeric(116.0), "bp" := Numeric(74.0), "skin" := Numeric(0.0),
    "insulin" := Numeric(0.0), "bmi" := Numeric(25.6), "dpf" := Numeric(0.201), "age" := Numeric(30.0)]

  const SampleRow: seq<real> := [5.0, 116.0, 74.0, 0.0, 0.0, 25.6, 0.201, 30.0]

  lemma SampleFormReads()
    ensures ReadFeatures(SampleForm).Success?
    ensures Row(ReadFeatures(SampleForm).value) == SampleRow
  {
    assert SampleForm["preg"] == Numeric(5.0) && SampleForm["glucose"] == Numeric(116.0);
    assert SampleForm["bp"] == Numeric(74.0) && SampleForm["skin"] == Numeric(0.0);
    assert SampleForm["insulin"] == Numeric(0.0) && SampleForm["bmi"] == Numeric(25.6);
    assert SampleForm["dpf"] == Numeric(0.201) && SampleForm["age"] == Numeric(30.0);
    var keys := FieldKeys;
    forall i | 0 <= i < |keys| ensures Readable(SampleForm, keys[i]) && FieldValue(SampleForm, keys[i]) == SampleRow[i] {
      assert keys[i] in SampleForm;
    }
    var row := Row(ReadFeatures(SampleForm).value);
    assert forall i :: 0 <= i < |keys| ==> row[i] == SampleRow[i];
  }

  /** A classifier whose probability for the sample is 0.20 gives 20.0 percent, Low Risk. */
  lemma LowRiskScenario(scale: seq<real> -> Option<seq<real>>, model: seq<real> -> Probability.Classifier,
                        logistic: real -> real, toPercent: real -> real, id: string, timestamp: string)
    requires scale(SampleRow).Some?
    requires model(scale(SampleRow).value).probaMatrix == Some([[0.8, 0.2]])
    requires model(scale(SampleRow).value).labels.Some? && |model(scale(SampleRow).value).labels.value| > 0
    requires toPercent(0.2) == 20.0
    ensures Evaluate(SampleForm, scale, model, logistic, toPercent, id, timestamp).Success?
    ensures Evaluate(SampleForm, scale, model, logistic, toPercent, id, timestamp).value.record.riskPct == 20.0
    ensures Evaluate(SampleForm, scale, model, logistic, toPercent, id, timestamp).value.record.riskLabel == "Low Risk"
    ensures Evaluate(SampleForm, scale, model, logistic, toPercent, id, timestamp).value.record.adviceShort ==
            "Maintain healthy lifestyle; routine checkups."
  {
    SampleFormReads();
    assert Row(ReadFeatures(SampleForm).value) == SampleRow;
    var c := model(scale(SampleRow).value);
    assert Probability.GetProbability(c, logistic) == Some(0.2);
  }

  /** A classifier whose probability for the sample is 0.70 gives 70.0 percent, High Risk, five recommendations. */
  lemma HighRiskScenario(scale: seq<real> -> Option<seq<real>>, model: seq<real> -> Probability.Classifier,
                         logistic: real -> real, toPercent: real -> real, id: string, timestamp: string)
    requires scale(SampleRow).Some?
    requires model(scale(SampleRow).value).probaMatrix == Some([[0.3, 0.7]])
    requires model(scale(SampleRow).value).labels.Some? && |model(scale(SampleRow).value).labels.value| > 0
    requires toPercent(0.7) == 70.0
    ensures Evaluate(SampleForm, scale, model, logistic, toPercent, id, timestamp).Success?
    ensures Evaluate(SampleForm, scale, model, logistic, toPercent, id, timestamp).value.record.riskPct == 70.0
    ensures Evaluate(SampleForm, scale, model, logistic, toPercent, id, timestamp).value.record.riskLabel == "High Risk"
    ensures |Lines.Split(Evaluate(SampleForm, scale, model, logistic, toPercent, id, timestamp).value.record.doctorReco, '\n')| == 5
  {
    SampleFormReads();
    assert Row(ReadFeatures(SampleForm).value) == SampleRow;
    var c := model(scale(SampleRow).value);
    assert Probability.GetProbability(c, logistic) == Some(0.7);
    assert Tiering.InTier(70.0, Tiering.High);
  }
}
