/** The `/risk` endpoint. The handler repeats the scoring rule inline with
    literal weights and thresholds; the anomaly detector's flag and score and
    the clustering model's cluster id are its inputs here. */
module RiskRoute {
  import opened Builtins
  import opened RiskService

  /** `risk(data)` after the two model calls: the inline score, the inline
      level and the response dictionary. It agrees with the shared service on
      every input, and echoes the model outputs unmodified. */
  function Risk(anomalyFlag: int, anomalyScore: real, clusterId: int): (r: RiskAnalysis)
    ensures r == CalculateRiskFromAnalysis(anomalyFlag, anomalyScore, clusterId)
    ensures r.cluster == clusterId && r.anomaly == anomalyFlag && r.anomalyScore == anomalyScore
    ensures 0 <= r.riskScore <= 70
  {
    var score :=
      (if anomalyFlag == -1 then 40 else 0)
      + (if Abs(anomalyScore) > 0.15 then 10 else 0)
      + (if clusterId in [6, 7] then 20 else 0);
    var level :=
      if score >= 60 then HIGH
      else if score >= 30 then MEDIUM
      else LOW;
    RiskAnalysis(score, level, clusterId, anomalyFlag, anomalyScore)
  }
}
