/**
 * The risk register (src/pages/risks/RisksPage.tsx): the 1-to-5 scales of
 * probability and impact, the colour bands of a risk score, the five-by-five
 * risk matrix with its per-cell counts, and the search and status filter.
 */
module RisksPage {
  import opened Common
  import opened Types

  // ---------------------------------------------------------------------
  // Scales
  // ---------------------------------------------------------------------

  /** `probabilityConfig[p].value`. */
  function ProbabilityValue(p: RiskProbability): (r: int)
    ensures 1 <= r <= 5
  {
    match p
    case VeryLow => 1
    case LowProbability => 2
    case MediumProbability => 3
    case HighProbability => 4
    case VeryHigh => 5
  }

  /** `impactConfig[i].value`. */
  function ImpactValue(i: RiskImpact): (r: int)
    ensures 1 <= r <= 5
  {
    match i
    case Negligible => 1
    case Minor => 2
    case Moderate => 3
    case Major => 4
    case Severe => 5
  }

  /** The levels in the order the configuration lists them, lowest first. */
  const ProbabilityScale: seq<RiskProbability> := [VeryLow, LowProbability, MediumProbability, HighProbability, VeryHigh]
  const ImpactScale: seq<RiskImpact> := [Negligible, Minor, Moderate, Major, Severe]

  /** Each scale lists every level once, valued 1 to 5 in strictly increasing order. */
  lemma ScalesAreOneToFive()
    ensures |ProbabilityScale| == 5 && |ImpactScale| == 5
    ensures forall k | 0 <= k < 5 :: ProbabilityValue(ProbabilityScale[k]) == k + 1
    ensures forall k | 0 <= k < 5 :: ImpactValue(ImpactScale[k]) == k + 1
    ensures forall j, k | 0 <= j < k < 5 :: ProbabilityValue(ProbabilityScale[j]) < ProbabilityValue(ProbabilityScale[k])
    ensures forall j, k | 0 <= j < k < 5 :: ImpactValue(ImpactScale[j]) < ImpactValue(ImpactScale[k])
    ensures forall p: RiskProbability :: ProbabilityScale[ProbabilityValue(p) - 1] == p
    ensures forall i: RiskImpact :: ImpactScale[ImpactValue(i) - 1] == i
  {
    forall p: RiskProbability ensures ProbabilityScale[ProbabilityValue(p) - 1] == p {
      match p
      case VeryLow =>
      case LowProbability =>
      case MediumProbability =>
      case HighProbability =>
      case VeryHigh =>
    }
    forall i: RiskImpact ensures ImpactScale[ImpactValue(i) - 1] == i {
      match i
      case Negligible =>
      case Minor =>
      case Moderate =>
      case Major =>
      case Severe =>
    }
  }

  /** Two levels with the same value are the same level. */
  lemma ValuesIdentifyLevels(p1: RiskProbability, p2: RiskProbability, i1: RiskImpact, i2: RiskImpact)
    ensures ProbabilityValue(p1) == ProbabilityValue(p2) ==> p1 == p2
    ensures ImpactValue(i1) == ImpactValue(i2) ==> i1 == i2
  {
  }

  // ---------------------------------------------------------------------
  // Score colours
  // ---------------------------------------------------------------------

  datatype ScoreBand = DangerBand | OrangeBand | WarningBand | SuccessBand

  /** `getRiskScoreColor`, whose thresholds the matrix cells repeat. */
  function ScoreColor(score: int): (r: ScoreBand)
    ensures r == DangerBand <==> score >= 15
    ensures r == OrangeBand <==> 10 <= score < 15
    ensures r == WarningBand <==> 5 <= score < 10
    ensures r == SuccessBand <==> score < 5
  {
    if score >= 15 then DangerBand
    else if score >= 10 then OrangeBand
    else if score >= 5 then WarningBand
    else SuccessBand
  }

  function BandRank(b: ScoreBand): nat
  {
    match b
    case SuccessBand => 0
    case WarningBand => 1
    case OrangeBand => 2
    case DangerBand => 3
  }

  /** A higher score is never shown in a milder colour. */
  lemma ScoreColorMonotone(s1: int, s2: int)
    requires s1 <= s2
    ensures BandRank(ScoreColor(s1)) <= BandRank(ScoreColor(s2))
  {
  }

  // ---------------------------------------------------------------------
  // The matrix
  // ---------------------------------------------------------------------

  /** Row `pIdx` lists "Very High" first; column `iIdx` lists "Negligible" first. */
  function RowProbability(pIdx: int): RiskProbability
    requires 0 <= pIdx < 5
  {
    ProbabilityScale[4 - pIdx]
  }

  function ColumnImpact(iIdx: int): RiskImpact
    requires 0 <= iIdx < 5
  {
    ImpactScale[iIdx]
  }

  /** `(5 - pIdx) * (iIdx + 1)`: the product of the row's and the column's values. */
  function MatrixScore(pIdx: int, iIdx: int): (r: int)
    requires 0 <= pIdx < 5 && 0 <= iIdx < 5
    ensures r == ProbabilityValue(RowProbability(pIdx)) * ImpactValue(ColumnImpact(iIdx))
    ensures 1 <= r <= 25
  {
    ScalesAreOneToFive();
    MulMonotone(5 - pIdx, 1, iIdx + 1);
    MulMonotone(iIdx + 1, 5 - pIdx, 5);
    MulMonotone(5, iIdx + 1, 5);
    (5 - pIdx) * (iIdx + 1)
  }

  /** The corner cells: the top right is the worst score, the bottom left the mildest. */
  lemma MatrixCorners()
    ensures MatrixScore(0, 4) == 25 && ScoreColor(MatrixScore(0, 4)) == DangerBand
    ensures MatrixScore(4, 0) == 1 && ScoreColor(MatrixScore(4, 0)) == SuccessBand
  {
  }

  /** As written: a cell counts the risks whose stored score equals the cell's score. */
  function CellCountAsWritten(risks: seq<Risk>, pIdx: int, iIdx: int): nat
    requires 0 <= pIdx < 5 && 0 <= iIdx < 5
  {
    var score := MatrixScore(pIdx, iIdx);
    CountIf(risks, (r: Risk) => r.riskScore == score)
  }

  /** The number drawn in a cell: nothing for 0 (`count > 0 && count`). */
  function CellLabel(count: nat): (r: Option<nat>)
    ensures r.None? <==> count == 0
    ensures r.Some? ==> r.value == count
  {
    if count > 0 then Some(count) else None
  }

  // ---------------------------------------------------------------------
  // The demonstration register
  // ---------------------------------------------------------------------

  const DemoRisks: seq<Risk> := [
    Risk("r1", "1", "RSK-001", "Vendor resource availability", "Resource",
      HighProbability, Major, 16, Mitigating, "John Smith"),
    Risk("r2", "1", "RSK-002", "Scope creep from change requests", "Scope",
      MediumProbability, Major, 12, MonitoringRisk, "Lisa Park"),
    Risk("r3", "1", "RSK-003", "Data migration complexity", "Technical",
      HighProbability, Moderate, 12, Analyzing, "Mike Chen"),
    Risk("r4", "1", "RSK-004", "Integration with legacy systems", "Technical",
      MediumProbability, Moderate, 9, Identified, "Sarah Lee"),
    Risk("r5", "1", "RSK-005", "User adoption resistance", "Organizational",
      MediumProbability, Minor, 6, MonitoringRisk, "Lisa Park")
  ]

  /** The stored score of a risk is its probability value times its impact value. */
  predicate ScoredConsistently(r: Risk)
  {
    r.riskScore == ProbabilityValue(r.probability) * ImpactValue(r.impact)
  }

  lemma DemoRisksScoredConsistently()
    ensures forall i | 0 <= i < |DemoRisks| :: ScoredConsistently(DemoRisks[i])
  {
  }

  /** With scores counted alone, a register holding only "Scope creep" (Medium
      probability, Major impact, score 12) shows a 1 in its own cell and another in
      the High/Moderate cell, whose product is 12 as well. */
  lemma ScoreOnlyCountsSharedProducts()
    ensures RowProbability(2) == MediumProbability && ColumnImpact(3) == Major
    ensures RowProbability(1) == HighProbability && ColumnImpact(2) == Moderate
    ensures CellCountAsWritten([DemoRisks[1]], 2, 3) == 1
    ensures CellCountAsWritten([DemoRisks[1]], 1, 2) == 1
    ensures CellCount([DemoRisks[1]], 2, 3) == 1 && CellCount([DemoRisks[1]], 1, 2) == 0
  {
    var r := DemoRisks[1];
    CountIfCons(r, [], (x: Risk) => x.riskScore == 12);
    CountIfCons(r, [], InCell(2, 3));
    CountIfCons(r, [], InCell(1, 2));
    assert [r] + [] == [r];
  }

  /** A risk belongs to the cell of its own probability row and impact column. */
  function InCell(pIdx: int, iIdx: int): Risk -> bool
    requires 0 <= pIdx < 5 && 0 <= iIdx < 5
  {
    var p, i := RowProbability(pIdx), ColumnImpact(iIdx);
    (r: Risk) => r.probability == p && r.impact == i
  }

  /** The row and column a risk is drawn in. */
  function CellOf(r: Risk): (cell: (int, int))
    ensures 0 <= cell.0 < 5 && 0 <= cell.1 < 5
    ensures RowProbability(cell.0) == r.probability && ColumnImpact(cell.1) == r.impact
  {
    (5 - ProbabilityValue(r.probability), ImpactValue(r.impact) - 1)
  }

  /** The count of a cell by probability and impact. */
  function CellCount(risks: seq<Risk>, pIdx: int, iIdx: int): nat
    requires 0 <= pIdx < 5 && 0 <= iIdx < 5
  {
    CountIf(risks, InCell(pIdx, iIdx))
  }

  /** Each risk is counted in exactly one cell, the one of its own levels. */
  lemma RiskInExactlyOneCell(r: Risk, pIdx: int, iIdx: int)
    requires 0 <= pIdx < 5 && 0 <= iIdx < 5
    ensures InCell(pIdx, iIdx)(r) <==> (pIdx, iIdx) == CellOf(r)
  {
  }

  /** A consistently scored risk in a cell has that cell's score, so the score-only
      count never shows less than the corrected one. */
  lemma {:induction false} CellCountAtMostAsWritten(risks: seq<Risk>, pIdx: int, iIdx: int)
    requires 0 <= pIdx < 5 && 0 <= iIdx < 5
    requires forall k | 0 <= k < |risks| :: ScoredConsistently(risks[k])
    ensures CellCount(risks, pIdx, iIdx) <= CellCountAsWritten(risks, pIdx, iIdx)
    decreases |risks|
  {
    if |risks| > 0 {
      var score := MatrixScore(pIdx, iIdx);
      CellCountAtMostAsWritten(risks[1..], pIdx, iIdx);
      CountIfFirst(risks, InCell(pIdx, iIdx));
      CountIfFirst(risks, (r: Risk) => r.riskScore == score);
    }
  }

  // ---------------------------------------------------------------------
  // Search and status filter
  // ---------------------------------------------------------------------

  function MatchesRisk(r: Risk, query: string, status: Option<RiskStatus>): bool
  {
    SearchMatches(r.title, query) && (status.None? || r.status == status.value)
  }

  function FilteredRisks(risks: seq<Risk>, query: string, status: Option<RiskStatus>): (r: seq<Risk>)
    ensures Subsequence(r, risks)
    ensures forall k | 0 <= k < |r| :: SearchMatches(r[k].title, query)
    ensures status.Some? ==> forall k | 0 <= k < |r| :: r[k].status == status.value
  {
    KeepIfSatisfies(risks, (x: Risk) => MatchesRisk(x, query, status));
    KeepIf(risks, (x: Risk) => MatchesRisk(x, query, status))
  }

  lemma NoFilterKeepsAll(risks: seq<Risk>)
    ensures FilteredRisks(risks, "", None) == risks
  {
    forall k | 0 <= k < |risks| ensures MatchesRisk(risks[k], "", None) {
      EmptyQueryMatches(risks[k].title);
    }
  }

  lemma FilteredKeepsMatches(risks: seq<Risk>, query: string, status: Option<RiskStatus>)
    ensures forall x | x in risks && MatchesRisk(x, query, status) :: x in FilteredRisks(risks, query, status)
  {
    KeepIfMembers(risks, (x: Risk) => MatchesRisk(x, query, status));
  }
}
