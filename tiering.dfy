/**
 * Risk tiering inside `predict` (app.py): the rounded percentage picks one of
 * three bands (label, alert type, colour), and the label then picks the short
 * advice and the '\n'-joined doctor recommendations.
 *
 * The percentage is an exact real here; how it is rounded from the
 * probability is not part of this module.
 */
module Tiering {
  import Lines

  datatype Tier = Low | Medium | High

  /** Lower bounds (inclusive) of the High and Medium bands, in percent. */
  const HighThreshold: real := 65.0
  const MediumThreshold: real := 35.0

  /** What the band ladder assigns: the risk label, the alert type and the colour of the result page. */
  datatype Band = Band(riskLabel: string, alertType: string, color: string)

  /** What the advice ladder assigns. `doctorReco` holds the recommendation lines joined by '\n'. */
  datatype Advice = Advice(adviceShort: string, doctorReco: string)

  /** The interval of percentages each tier covers. */
  predicate InTier(pct: real, t: Tier)
  {
    match t
    case High => pct >= HighThreshold
    case Medium => MediumThreshold <= pct < HighThreshold
    case Low => pct < MediumThreshold
  }

  /** The band shown for each tier. */
  function BandOf(t: Tier): Band
  {
    match t
    case High => Band("High Risk", "danger", "#d9534f")
    case Medium => Band("Medium Risk", "warning", "#f0ad4e")
    case Low => Band("Low Risk", "success", "#5cb85c")
  }

  /** The recommendation lines of each tier, in order. */
  const HighLines: seq<string> := ["1) Fasting Blood Sugar", "2) HbA1c test", "3) Consult Endocrinologist",
                                   "4) Personalized diet plan", "5) Regular follow-ups"]
  const MediumLines: seq<string> := ["1) Monitor fasting glucose monthly", "2) Consult Dietitian if weight gain",
                                     "3) Increase daily activity"]
  const LowLines: seq<string> := ["1) Annual checkup", "2) Maintain healthy diet and exercise"]

  /** The recommendation text of each tier, as the advice ladder stores it. */
  const HighReco: string := "1) Fasting Blood Sugar" + "\n" + "2) HbA1c test" + "\n" + "3) Consult Endocrinologist" + "\n" +
                            "4) Personalized diet plan" + "\n" + "5) Regular follow-ups"
  const MediumReco: string := "1) Monitor fasting glucose monthly" + "\n" + "2) Consult Dietitian if weight gain" + "\n" +
                              "3) Increase daily activity"
  const LowReco: string := "1) Annual checkup" + "\n" + "2) Maintain healthy diet and exercise"

  function RecommendationLines(t: Tier): seq<string>
  {
    match t
    case High => HighLines
    case Medium => MediumLines
    case Low => LowLines
  }

  /** The short advice line of each tier. */
  function AdviceShortOf(t: Tier): string
  {
    match t
    case High => "Immediate lifestyle changes and medical checkup recommended."
    case Medium => "Reduce sugar & carbs; increase physical activity."
    case Low => "Maintain healthy lifestyle; routine checkups."
  }

  /** The tier whose interval holds `pct`: the ladder's thresholds, tested from the top. */
  function TierOf(pct: real): (t: Tier)
    ensures InTier(pct, t)
  {
    if pct >= HighThreshold then High
    else if pct >= MediumThreshold then Medium
    else Low
  }

  /** The band ladder: the band of the one tier whose interval holds `pct`. */
  function Classify(pct: real): (b: Band)
    ensures forall t :: b == BandOf(t) <==> InTier(pct, t)
  {
    BandOf(TierOf(pct))
  }

  /**
   * The advice ladder.  It reads only the risk label: a tier's label gets that
   * tier's advice line and recommendation lines, and any label other than
   * High's or Medium's gets Low's.
   */
  function AdviceFor(riskLabel: string): (a: Advice)
    ensures forall t :: riskLabel == BandOf(t).riskLabel ==>
              a.adviceShort == AdviceShortOf(t) && Lines.Split(a.doctorReco, '\n') == RecommendationLines(t)
    ensures riskLabel != BandOf(High).riskLabel && riskLabel != BandOf(Medium).riskLabel ==>
              a.adviceShort == AdviceShortOf(Low) && Lines.Split(a.doctorReco, '\n') == RecommendationLines(Low)
  {
    assert "High Risk"[0] != "Medium Risk"[0] && "High Risk"[0] != "Low Risk"[0] && "Medium Risk"[0] != "Low Risk"[0];
    if riskLabel == "High Risk" then
      HighRecoIsJoined();
      HighLinesHaveNoNewline();
      Lines.SplitJoin(HighLines, '\n');
      Advice("Immediate lifestyle changes and medical checkup recommended.", HighReco)
    else if riskLabel == "Medium Risk" then
      MediumRecoIsJoined();
      MediumLinesHaveNoNewline();
      Lines.SplitJoin(MediumLines, '\n');
      Advice("Reduce sugar & carbs; increase physical activity.", MediumReco)
    else
      LowRecoIsJoined();
      LowLinesHaveNoNewline();
      Lines.SplitJoin(LowLines, '\n');
      Advice("Maintain healthy lifestyle; routine checkups.", LowReco)
  }

  /** Every percentage lies in exactly one tier. */
  lemma TiersPartition(pct: real)
    ensures InTier(pct, Low) || InTier(pct, Medium) || InTier(pct, High)
    ensures forall t, u :: InTier(pct, t) && InTier(pct, u) ==> t == u
  {
  }

  /** Exactly 65 is High, 64.9 Medium, exactly 35 Medium and 34.9 Low. */
  lemma BoundaryValues()
    ensures Classify(65.0) == BandOf(High)
    ensures Classify(64.9) == BandOf(Medium)
    ensures Classify(35.0) == BandOf(Medium)
    ensures Classify(34.9) == BandOf(Low)
  {
  }

  /** A higher percentage never gets a lower tier. */
  lemma ClassifyMonotone(p: real, q: real, t: Tier, u: Tier)
    requires p <= q && Classify(p) == BandOf(t) && Classify(q) == BandOf(u)
    ensures t == High ==> u == High
    ensures t == Medium ==> u != Low
  {
  }

  /** No recommendation line holds a '\n'. */
  lemma HighLinesHaveNoNewline()
    ensures Lines.NoSeparator(HighLines, '\n')
  {
  }

  lemma MediumLinesHaveNoNewline()
    ensures Lines.NoSeparator(MediumLines, '\n')
  {
  }

  lemma LowLinesHaveNoNewline()
    ensures Lines.NoSeparator(LowLines, '\n')
  {
  }

  /** Each tier's recommendation text is its lines joined by '\n'. */
  lemma HighRecoIsJoined()
    ensures HighReco == Lines.Join(HighLines, '\n')
  {
    var l := HighLines;
    assert Lines.Join(l[4..], '\n') == l[4];
    assert Lines.Join(l[3..], '\n') == l[3] + "\n" + Lines.Join(l[4..], '\n');
    assert Lines.Join(l[2..], '\n') == l[2] + "\n" + Lines.Join(l[3..], '\n');
    assert Lines.Join(l[1..], '\n') == l[1] + "\n" + Lines.Join(l[2..], '\n');
  }

  lemma MediumRecoIsJoined()
    ensures MediumReco == Lines.Join(MediumLines, '\n')
  {
  }

  lemma LowRecoIsJoined()
    ensures LowReco == Lines.Join(LowLines, '\n')
  {
  }

  /**
   * Split on '\n', the recommendation text of the band `pct` falls in has
   * five lines for High, three for Medium and two for Low.
   */
  lemma RecommendationLineCounts(pct: real)
    ensures |Lines.Split(AdviceFor(Classify(pct).riskLabel).doctorReco, '\n')| ==
            if pct >= 65.0 then 5 else if pct >= 35.0 then 3 else 2
  {
    assert Classify(pct) == BandOf(TierOf(pct));
  }
}
