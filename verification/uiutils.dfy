/** The display helpers of `frontend/src/lib/utils.ts`: a label and a colour
    for a confidence, and a colour for a risk tolerance. */
module UiUtils {
  import opened DnaTypes

  /** Confidences from here up are labelled high. */
  const HighThreshold: real := 0.8
  /** Confidences from here up (and below the high threshold) are medium. */
  const MediumThreshold: real := 0.5

  /** `getConfidenceLabel`. */
  function ConfidenceLabel(confidence: real): (name: string)
    ensures name == "High" <==> confidence >= HighThreshold
    ensures name == "Medium" <==> MediumThreshold <= confidence < HighThreshold
    ensures name == "Low" <==> confidence < MediumThreshold
  {
    if confidence >= 0.8 then "High"
    else if confidence >= 0.5 then "Medium"
    else "Low"
  }

  /** `getConfidenceColor`. */
  function ConfidenceColor(confidence: real): (color: string)
    ensures color == "text-green-600" <==> confidence >= HighThreshold
    ensures color == "text-amber-600" <==> MediumThreshold <= confidence < HighThreshold
    ensures color == "text-red-600" <==> confidence < MediumThreshold
  {
    LabelColor(ConfidenceLabel(confidence))
  }

  /** The order of the labels, lowest first. */
  function LabelRank(name: string): nat {
    if name == "High" then 2 else if name == "Medium" then 1 else 0
  }

  /** The colour that goes with each label. */
  function LabelColor(name: string): string {
    if name == "High" then "text-green-600"
    else if name == "Medium" then "text-amber-600"
    else "text-red-600"
  }

  /** A higher confidence never gets a lower label. */
  lemma LabelIsMonotone(a: real, b: real)
    requires a <= b
    ensures LabelRank(ConfidenceLabel(a)) <= LabelRank(ConfidenceLabel(b))
  {
  }

  /** The two helpers use the same thresholds: the colour is always the
      label's colour. */
  lemma ColorMatchesLabel(confidence: real)
    ensures ConfidenceColor(confidence) == LabelColor(ConfidenceLabel(confidence))
  {
  }

  /** `getRiskColor`. */
  function RiskColor(risk: RiskTolerance): (color: string)
    ensures risk == Low ==> color == "text-green-600 bg-green-50"
    ensures risk == Medium ==> color == "text-amber-600 bg-amber-50"
    ensures risk == High ==> color == "text-red-600 bg-red-50"
  {
    match risk
    case Low => "text-green-600 bg-green-50"
    case Medium => "text-amber-600 bg-amber-50"
    case High => "text-red-600 bg-red-50"
  }

  /** Each risk tolerance has its own colour. */
  lemma RiskColorsDistinct(a: RiskTolerance, b: RiskTolerance)
    requires a != b
    ensures RiskColor(a) != RiskColor(b)
  {
  }
}
