/** The `/alerts` endpoint: the risk result of the `/risk` handler turned into
    an ordered list of warnings, with a fallback line when there is none. */
module AlertsRoute {
  import opened RiskService
  import RiskRoute

  const AnomalyFlagDetected: int := -1
  const HighRiskClusterIds: seq<int> := [6, 7]

  const HighRiskWarning: string := "\U{26A0} High operational risk detected"
  const AnomalyWarning: string := "\U{26A0} Anomaly detected in sales behavior"
  const ClusterWarning: string := "\U{26A0} Store belongs to high-risk behavior group"
  const NormalMessage: string := "No alerts. Situation normal."

  datatype AlertsResponse = AlertsResponse(alerts: seq<string>, details: RiskAnalysis)

  /** The position each known line takes in the list; anything else is unknown. */
  function AlertRank(line: string): nat {
    if line == HighRiskWarning then 0
    else if line == AnomalyWarning then 1
    else if line == ClusterWarning then 2
    else if line == NormalMessage then 3
    else 4
  }

  predicate HighRiskCondition(r: RiskAnalysis) { r.riskLevel == HIGH }
  predicate AnomalyCondition(r: RiskAnalysis) { r.anomaly == AnomalyFlagDetected }
  predicate ClusterCondition(r: RiskAnalysis) { r.cluster in HighRiskClusterIds }

  /** What a correct alert list for `r` looks like: each warning present
      exactly when its condition holds, the fallback present exactly when no
      warning is, only known lines, each at most once and in the fixed order. */
  ghost predicate AlertsFor(r: RiskAnalysis, lines: seq<string>) {
    && (HighRiskWarning in lines <==> HighRiskCondition(r))
    && (AnomalyWarning in lines <==> AnomalyCondition(r))
    && (ClusterWarning in lines <==> ClusterCondition(r))
    && (NormalMessage in lines <==> !HighRiskCondition(r) && !AnomalyCondition(r) && !ClusterCondition(r))
    && (forall i :: 0 <= i < |lines| ==> AlertRank(lines[i]) < 4)
    && (forall i, j :: 0 <= i < j < |lines| ==> AlertRank(lines[i]) < AlertRank(lines[j]))
  }

  /** `alerts(data)`, with the two model outputs and the score taken as inputs. */
  method Alerts(anomalyFlag: int, anomalyScore: real, clusterId: int) returns (response: AlertsResponse)
    ensures response.details == RiskRoute.Risk(anomalyFlag, anomalyScore, clusterId)
    ensures AlertsFor(response.details, response.alerts)
    ensures |response.alerts| >= 1
    ensures NormalMessage in response.alerts ==> response.alerts == [NormalMessage]
  {
    var r := RiskRoute.Risk(anomalyFlag, anomalyScore, clusterId);
    var warnings: seq<string> := [];
    if r.riskLevel == HIGH {
      warnings := warnings + [HighRiskWarning];
    }
    if r.anomaly == AnomalyFlagDetected {
      warnings := warnings + [AnomalyWarning];
    }
    if r.cluster in HighRiskClusterIds {
      warnings := warnings + [ClusterWarning];
    }
    if warnings == [] {
      warnings := warnings + [NormalMessage];
    }
    response := AlertsResponse(warnings, r);
  }

  /** Strictly increasing ranks below 4 leave room for at most four lines,
      and four lines must run through every rank from 0 to 3. */
  lemma {:induction false} StrictRanksFit(lines: seq<string>)
    requires forall i :: 0 <= i < |lines| ==> AlertRank(lines[i]) < 4
    requires forall i, j :: 0 <= i < j < |lines| ==> AlertRank(lines[i]) < AlertRank(lines[j])
    ensures forall i :: 0 <= i < |lines| ==> AlertRank(lines[i]) + |lines| <= 4 + i
    ensures |lines| <= 4
    ensures |lines| == 4 ==> AlertRank(lines[0]) == 0 && AlertRank(lines[3]) == 3
  {
    if |lines| > 1 {
      var tail := lines[1..];
      StrictRanksFit(tail);
      forall i | 0 <= i < |lines|
        ensures AlertRank(lines[i]) + |lines| <= 4 + i
      {
        if i == 0 {
          assert AlertRank(lines[0]) < AlertRank(tail[0]);
        } else {
          assert lines[i] == tail[i - 1];
        }
      }
      if |lines| == 4 {
        assert AlertRank(lines[0]) < AlertRank(lines[1]) < AlertRank(lines[2]) < AlertRank(lines[3]);
      }
    }
  }

  /** A list that meets AlertsFor holds at most three lines and never lists
      the fallback beside a warning. */
  lemma AlertsForShape(r: RiskAnalysis, lines: seq<string>)
    requires AlertsFor(r, lines)
    ensures |lines| <= 3
    ensures NormalMessage in lines ==> lines == [NormalMessage]
  {
    StrictRanksFit(lines);
    assert |lines| >= 2 ==> AlertRank(lines[0]) < AlertRank(lines[1]);
    forall i | 0 <= i < |lines|
      ensures NormalMessage in lines ==> lines[i] == NormalMessage
    {
      assert lines[i] in lines;
    }
  }

  /** Under the scoring rule a HIGH level means both an anomaly and a
      high-risk cluster, so all three warnings are raised, in order. */
  lemma {:induction false} HighRiskRaisesAllWarnings(anomalyFlag: int, anomalyScore: real, clusterId: int, lines: seq<string>)
    requires AlertsFor(RiskRoute.Risk(anomalyFlag, anomalyScore, clusterId), lines)
    requires RiskRoute.Risk(anomalyFlag, anomalyScore, clusterId).riskLevel == HIGH
    ensures lines == [HighRiskWarning, AnomalyWarning, ClusterWarning]
  {
    var r := RiskRoute.Risk(anomalyFlag, anomalyScore, clusterId);
    assert AnomalyCondition(r) && ClusterCondition(r);
    AlertsForShape(r, lines);
    var h :| 0 <= h < |lines| && lines[h] == HighRiskWarning;
    var a :| 0 <= a < |lines| && lines[a] == AnomalyWarning;
    var c :| 0 <= c < |lines| && lines[c] == ClusterWarning;
    assert h < a < c by {
      assert AlertRank(lines[h]) == 0 && AlertRank(lines[a]) == 1 && AlertRank(lines[c]) == 2;
    }
  }
}
