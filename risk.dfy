/** Risk bands: the fixed thresholds that turn a numeric score into a band, and the
    colour code the dashboard uses for each band name (utils/helpers.py). */
module Risk {
  import opened Optional

  datatype RiskBand = Low | Medium | High | Critical

  /** The four bands in ascending order of risk. */
  const AllBands: seq<RiskBand> := [Low, Medium, High, Critical]

  /** The colour shown for a name that is not a band. */
  const DefaultColor: string := "#6c757d"

  /** Position of a band in the order Low < Medium < High < Critical. */
  function Rank(b: RiskBand): nat
  {
    match b
    case Low => 0
    case Medium => 1
    case High => 2
    case Critical => 3
  }

  /** The band's name as the source spells it. */
  function BandName(b: RiskBand): string
  {
    match b
    case Low => "Low"
    case Medium => "Medium"
    case High => "High"
    case Critical => "Critical"
  }

  /** The smallest score of each band above Low; Low has no lower bound. */
  function LowerBound(b: RiskBand): Option<real>
  {
    match b
    case Low => None
    case Medium => Some(40.0)
    case High => Some(60.0)
    case Critical => Some(80.0)
  }

  /** calculate_risk_band: thresholds compared from the top, each lower bound inclusive. */
  function CalculateRiskBand(score: real): (b: RiskBand)
    ensures b == Critical <==> 80.0 <= score
    ensures b == High <==> 60.0 <= score < 80.0
    ensures b == Medium <==> 40.0 <= score < 60.0
    ensures b == Low <==> score < 40.0
  {
    if score >= 80.0 then Critical
    else if score >= 60.0 then High
    else if score >= 40.0 then Medium
    else Low
  }

  /** A higher score never gives a lower band. */
  lemma RiskBandMonotone(s1: real, s2: real)
    requires s1 <= s2
    ensures Rank(CalculateRiskBand(s1)) <= Rank(CalculateRiskBand(s2))
  {
  }

  /** Every band's lower bound belongs to that band, and every score below it to a lower band. */
  lemma LowerBoundsInclusive(b: RiskBand, score: real)
    requires LowerBound(b).Some?
    ensures CalculateRiskBand(LowerBound(b).value) == b
    ensures score < LowerBound(b).value ==> Rank(CalculateRiskBand(score)) < Rank(b)
  {
  }

  /** Boundary examples: each threshold and a score just below it; 79.9 is High, since the
      test for 60 comes before the test for 40. */
  lemma RiskBandExamples()
    ensures CalculateRiskBand(80.0) == Critical
    ensures CalculateRiskBand(79.9) == High
    ensures CalculateRiskBand(40.0) == Medium
    ensures CalculateRiskBand(39.9) == Low
  {
  }

  /** get_risk_color: a lookup in a fixed table of the four band names, with a default. */
  function RiskColor(name: string): (c: string)
    ensures name == "Low" ==> c == "#28a745"
    ensures name == "Medium" ==> c == "#ffc107"
    ensures name == "High" ==> c == "#fd7e14"
    ensures name == "Critical" ==> c == "#dc3545"
    ensures name !in {"Low", "Medium", "High", "Critical"} ==> c == DefaultColor
  {
    var colorMap := map["Low" := "#28a745", "Medium" := "#ffc107",
                        "High" := "#fd7e14", "Critical" := "#dc3545"];
    if name in colorMap then colorMap[name] else DefaultColor
  }

  /** Recovers the band from a colour code: the inverse of RiskColor on band names. */
  function BandOfColor(c: string): Option<RiskBand>
  {
    if c == "#28a745" then Some(Low)
    else if c == "#ffc107" then Some(Medium)
    else if c == "#fd7e14" then Some(High)
    else if c == "#dc3545" then Some(Critical)
    else None
  }

  /** Each band has its own colour, none of them the default, and the colour identifies the band. */
  lemma BandColorsDistinct(b1: RiskBand, b2: RiskBand)
    ensures BandOfColor(RiskColor(BandName(b1))) == Some(b1)
    ensures RiskColor(BandName(b1)) != DefaultColor
    ensures b1 != b2 ==> RiskColor(BandName(b1)) != RiskColor(BandName(b2))
  {
  }

  /** Every name that is not a band gets the default colour, which identifies no band. */
  lemma UnknownNameGetsDefault(name: string)
    requires forall b: RiskBand :: BandName(b) != name
    ensures RiskColor(name) == DefaultColor
    ensures BandOfColor(RiskColor(name)) == None
  {
    assert BandName(Low) != name && BandName(Medium) != name;
    assert BandName(High) != name && BandName(Critical) != name;
  }
}
