/**
 * The decision record that `predict` (app.py) builds and persists: the eight
 * input features under their display names, the tier outputs, an id and a
 * timestamp (both generated outside the model and taken as given).
 */
module Records {

  /** The eight Pima features, in the order the scaler and the classifier expect them. */
  datatype Features = Features(
    pregnancies: real, glucose: real, bloodPressure: real, skinThickness: real,
    insulin: real, bmi: real, dpf: real, age: real)

  /** The display names under which the features are recorded, in order. */
  const FeatureNames: seq<string> :=
    ["Pregnancies", "Glucose", "Blood Pressure", "Skin Thickness", "Insulin", "BMI", "DPF", "Age"]

  /** The single input row handed to the scaler. */
  function Row(f: Features): (row: seq<real>)
    ensures |row| == 8
  {
    [f.pregnancies, f.glucose, f.bloodPressure, f.skinThickness, f.insulin, f.bmi, f.dpf, f.age]
  }

  /** The features mapping of a record, as (name, value) pairs in insertion order. */
  function Named(f: Features): (pairs: seq<(string, real)>)
    ensures |pairs| == |FeatureNames| == |Row(f)|
    ensures forall i :: 0 <= i < |pairs| ==> pairs[i] == (FeatureNames[i], Row(f)[i])
  {
    [("Pregnancies", f.pregnancies), ("Glucose", f.glucose), ("Blood Pressure", f.bloodPressure),
     ("Skin Thickness", f.skinThickness), ("Insulin", f.insulin), ("BMI", f.bmi),
     ("DPF", f.dpf), ("Age", f.age)]
  }

  /** One history entry. `doctorReco` is the recommendation lines joined by '\n'. */
  datatype Record = Record(
    id: string,
    timestamp: string,
    features: seq<(string, real)>,
    riskLabel: string,
    riskPct: real,
    adviceShort: string,
    doctorReco: string)
}
