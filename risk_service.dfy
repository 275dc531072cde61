/** The shared risk rule: three yes/no factors add up to an integer score,
    and two thresholds turn the score into a LOW, MEDIUM or HIGH level. */
module RiskService {
  import opened Builtins

  /** Flag the anomaly detector returns for an anomalous row (1 is normal). */
  const AnomalyDetected: int := -1

  const AnomalyDetectedWeight: int := 40
  const ExtremeAnomalyThreshold: real := 0.15
  const ExtremeAnomalyWeight: int := 10
  const HighRiskClusters: seq<int> := [6, 7]
  const ClusterRiskWeight: int := 20

  const HighRiskThreshold: int := 60
  const MediumRiskThreshold: int := 30

  datatype RiskLevel = LOW | MEDIUM | HIGH {
    /** The level's position in LOW < MEDIUM < HIGH. */
    function Rank(): nat {
      match this
      case LOW => 0
      case MEDIUM => 1
      case HIGH => 2
    }
  }

  /** The `(risk_score, risk_level)` pair. */
  datatype Risk = Risk(score: int, level: RiskLevel)

  /** The risk dictionary: risk_score, risk_level, cluster, anomaly, anomaly_score. */
  datatype RiskAnalysis = RiskAnalysis(
    riskScore: int,
    riskLevel: RiskLevel,
    cluster: int,
    anomaly: int,
    anomalyScore: real)

  predicate IsHighRiskCluster(clusterId: int) {
    clusterId in HighRiskClusters
  }

  /** The anomaly score is "extreme" when its magnitude strictly exceeds the threshold. */
  predicate IsExtreme(anomalyScore: real) {
    Abs(anomalyScore) > ExtremeAnomalyThreshold
  }

  /** The score accumulated from the three factors. Each factor can be read
      back from the score alone: the anomaly from the tens above 30, the
      cluster bonus from the remainder modulo 40, the extreme bonus from the
      remainder modulo 20. */
  function Score(anomalyFlag: int, anomalyScore: real, clusterId: int): (score: int)
    ensures score in {0, 10, 20, 30, 40, 50, 60, 70}
    ensures score >= 40 <==> anomalyFlag == AnomalyDetected
    ensures score % 40 >= 20 <==> IsHighRiskCluster(clusterId)
    ensures score % 20 == 10 <==> IsExtreme(anomalyScore)
  {
    (if anomalyFlag == AnomalyDetected then AnomalyDetectedWeight else 0)
    + (if IsExtreme(anomalyScore) then ExtremeAnomalyWeight else 0)
    + (if IsHighRiskCluster(clusterId) then ClusterRiskWeight else 0)
  }

  /** The level a score falls into; the three bands are disjoint and cover every score. */
  function LevelOf(score: int): (level: RiskLevel)
    ensures level == HIGH <==> score >= HighRiskThreshold
    ensures level == MEDIUM <==> MediumRiskThreshold <= score < HighRiskThreshold
    ensures level == LOW <==> score < MediumRiskThreshold
  {
    if score >= HighRiskThreshold then HIGH
    else if score >= MediumRiskThreshold then MEDIUM
    else LOW
  }

  /** `calculate_risk_score`. HIGH exactly when an anomaly is flagged in a
      high-risk cluster; LOW exactly when there is no anomaly and not both
      the cluster and the extreme bonus. */
  function CalculateRiskScore(anomalyFlag: int, anomalyScore: real, clusterId: int): (r: Risk)
    ensures 0 <= r.score <= 70
    ensures r.level == LevelOf(r.score)
    ensures r.level == HIGH <==> anomalyFlag == AnomalyDetected && IsHighRiskCluster(clusterId)
    ensures r.level == LOW <==>
      anomalyFlag != AnomalyDetected && !(IsHighRiskCluster(clusterId) && IsExtreme(anomalyScore))
  {
    var score := Score(anomalyFlag, anomalyScore, clusterId);
    Risk(score, LevelOf(score))
  }

  /** `calculate_risk_from_analysis`: the score and level of
      `calculate_risk_score`, with the three inputs echoed unchanged. */
  function CalculateRiskFromAnalysis(anomalyFlag: int, anomalyScore: real, clusterId: int): (r: RiskAnalysis)
    ensures Risk(r.riskScore, r.riskLevel) == CalculateRiskScore(anomalyFlag, anomalyScore, clusterId)
    ensures r.cluster == clusterId && r.anomaly == anomalyFlag && r.anomalyScore == anomalyScore
  {
    var risk := CalculateRiskScore(anomalyFlag, anomalyScore, clusterId);
    RiskAnalysis(risk.score, risk.level, clusterId, anomalyFlag, anomalyScore)
  }

  /** Only the flag value -1 contributes the anomaly weight. */
  lemma AnomalyWeightOnlyForFlag(anomalyFlag: int, anomalyScore: real, clusterId: int)
    ensures Score(anomalyFlag, anomalyScore, clusterId)
         == Score(1, anomalyScore, clusterId) + (if anomalyFlag == AnomalyDetected then 40 else 0)
  {
  }

  /** The extreme bonus is strict and symmetric: a magnitude of exactly 0.15
      adds nothing, any larger magnitude of either sign adds 10. */
  lemma ExtremeBonusIsStrict(anomalyFlag: int, anomalyScore: real, clusterId: int)
    ensures Score(anomalyFlag, 0.15, clusterId) == Score(anomalyFlag, 0.0, clusterId)
    ensures Score(anomalyFlag, -0.15, clusterId) == Score(anomalyFlag, 0.0, clusterId)
    ensures Score(anomalyFlag, anomalyScore, clusterId) == Score(anomalyFlag, -anomalyScore, clusterId)
    ensures Score(anomalyFlag, anomalyScore, clusterId)
         == Score(anomalyFlag, 0.0, clusterId) + (if Abs(anomalyScore) > 0.15 then 10 else 0)
  {
  }

  /** The level never decreases as the score grows. */
  lemma LevelMonotone(s1: int, s2: int)
    requires s1 <= s2
    ensures LevelOf(s1).Rank() <= LevelOf(s2).Rank()
  {
  }

  /** Turning a factor on never lowers the score or the level. */
  lemma RiskMonotone(flag1: int, score1: real, cluster1: int, flag2: int, score2: real, cluster2: int)
    requires flag1 == AnomalyDetected ==> flag2 == AnomalyDetected
    requires IsExtreme(score1) ==> IsExtreme(score2)
    requires IsHighRiskCluster(cluster1) ==> IsHighRiskCluster(cluster2)
    ensures CalculateRiskScore(flag1, score1, cluster1).score <= CalculateRiskScore(flag2, score2, cluster2).score
    ensures CalculateRiskScore(flag1, score1, cluster1).level.Rank() <= CalculateRiskScore(flag2, score2, cluster2).level.Rank()
  {
    LevelMonotone(Score(flag1, score1, cluster1), Score(flag2, score2, cluster2));
  }
}
