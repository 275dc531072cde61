/** The IoT ingest endpoint: after the API-key check, one sensor reading is
    scored with the shared risk rule, logged to the database session in a
    fixed order (with an Alert row when the level is HIGH), committed, and
    pushed to the WebSocket clients. The two model calls are inputs, the
    session is a list of added rows, and the clock is a parameter. */
module IotRoute {
  import opened Wrappers
  import opened RiskService
  import opened Auth
  import opened WebSocketManager

  /** `anomaly` values of the detector, and `is_anomaly` values of the log row. */
  const AnomalyDetectedFlag: int := -1
  const IsAnomalyTrue: int := 1
  const IsAnomalyFalse: int := 0

  const HighRiskAlertText: string := "\U{26A0} High risk detected from IoT update"
  const SuccessStatus: string := "success"

  /** The request body. */
  datatype IoTInput = IoTInput(
    timestamp: string,
    store: int,
    dept: int,
    weeklySales: real,
    temperature: real,
    fuelPrice: real,
    cpi: real,
    unemployment: real,
    isHoliday: int)

  /** The rows the endpoint adds to the session. */
  datatype Record =
    | AnomalyLog(timestamp: string, value: real, score: real, isAnomaly: int)
    | ClusterLog(store: int, dept: int, cluster: int, features: IoTInput)
    | RiskLog(store: int, dept: int, riskScore: int, riskLevel: RiskLevel, anomaly: int, cluster: int)
    | Alert(store: int, dept: int, message: string, riskScore: int)

  /** The endpoint's JSON reply. */
  datatype IngestResponse = IngestResponse(
    status: string,
    anomaly: int,
    anomalyScore: real,
    cluster: int,
    riskLevel: RiskLevel,
    riskScore: int)

  /** The request body's column names, in field order. */
  const IotColumns: seq<string> :=
    ["timestamp", "store", "dept", "Weekly_Sales", "Temperature", "Fuel_Price", "CPI", "Unemployment", "IsHoliday"]

  /** The rename applied to the data frame before it reaches the models. */
  const ColumnRenames: map<string, string> := map[
    "store" := "Store",
    "dept" := "Dept",
    "IsHoliday" := "IsHoliday",
    "Weekly_Sales" := "Weekly_Sales",
    "Temperature" := "Temperature",
    "Fuel_Price" := "Fuel_Price",
    "CPI" := "CPI",
    "Unemployment" := "Unemployment"]

  /** One column through `DataFrame.rename`: only `store` and `dept` change. */
  function RenameColumn(column: string): (renamed: string)
    ensures column == "store" ==> renamed == "Store"
    ensures column == "dept" ==> renamed == "Dept"
    ensures column != "store" && column != "dept" ==> renamed == column
  {
    if column in ColumnRenames then ColumnRenames[column] else column
  }

  function RenameColumns(columns: seq<string>): (renamed: seq<string>)
    ensures |renamed| == |columns|
    ensures forall i :: 0 <= i < |columns| ==> renamed[i] == RenameColumn(columns[i])
  {
    seq(|columns|, i requires 0 <= i < |columns| => RenameColumn(columns[i]))
  }

  /** The request's columns after the rename: the capitalised `Store` and
      `Dept` the models were trained with, every other name untouched. */
  lemma IotColumnsRenamed()
    ensures RenameColumns(IotColumns)
         == ["timestamp", "Store", "Dept", "Weekly_Sales", "Temperature", "Fuel_Price", "CPI", "Unemployment", "IsHoliday"]
  {
  }

  /** The `is_anomaly` column: 1 for the anomaly flag -1, 0 for anything else. */
  function IsAnomalyValue(anomalyFlag: int): (v: int)
    ensures v == IsAnomalyTrue || v == IsAnomalyFalse
    ensures v == 1 <==> anomalyFlag == AnomalyDetectedFlag
  {
    if anomalyFlag == AnomalyDetectedFlag then IsAnomalyTrue else IsAnomalyFalse
  }

  /** The rows one reading adds: an anomaly log, a cluster log, a risk log
      carrying the shared score and level, then an Alert exactly when the
      level is HIGH, carrying the score and the fixed text. */
  function IngestRecords(data: IoTInput, anomalyFlag: int, anomalyScore: real, clusterId: int): (records: seq<Record>)
    ensures var risk := CalculateRiskScore(anomalyFlag, anomalyScore, clusterId);
      && |records| == (if risk.level == HIGH then 4 else 3)
      && records[0] == AnomalyLog(data.timestamp, data.weeklySales, anomalyScore, IsAnomalyValue(anomalyFlag))
      && records[1] == ClusterLog(data.store, data.dept, clusterId, data)
      && records[2] == RiskLog(data.store, data.dept, risk.score, risk.level, anomalyFlag, clusterId)
      && (|records| == 4 ==> records[3] == Alert(data.store, data.dept, HighRiskAlertText, risk.score))
    ensures (exists i :: 0 <= i < |records| && records[i].Alert?) <==>
      anomalyFlag == AnomalyDetectedFlag && IsHighRiskCluster(clusterId)
  {
    var risk := CalculateRiskScore(anomalyFlag, anomalyScore, clusterId);
    var logs := [
      AnomalyLog(data.timestamp, data.weeklySales, anomalyScore, IsAnomalyValue(anomalyFlag)),
      ClusterLog(data.store, data.dept, clusterId, data),
      RiskLog(data.store, data.dept, risk.score, risk.level, anomalyFlag, clusterId)];
    if risk.level == HIGH then logs + [Alert(data.store, data.dept, HighRiskAlertText, risk.score)] else logs
  }

  /** The pushes one reading causes: the IoT update, then the alert exactly
      when the level is HIGH. Each message carries the time its own
      broadcast read from the clock. */
  function IngestPushes(data: IoTInput, anomalyFlag: int, anomalyScore: real, clusterId: int, updateTime: string, alertTime: string): (pushes: seq<Message>)
    ensures var risk := CalculateRiskScore(anomalyFlag, anomalyScore, clusterId);
      && |pushes| == (if risk.level == HIGH then 2 else 1)
      && pushes[0].Type() == "iot_update"
      && (pushes[0].analysis.anomalyDetected <==> anomalyFlag == AnomalyDetectedFlag)
      && pushes[0].analysis.riskScore == risk.score && pushes[0].analysis.riskLevel == risk.level
      && pushes[0].timestamp == updateTime
      && (|pushes| == 2 ==> pushes[1].Type() == "alert" && pushes[1].riskScore == risk.score
                            && pushes[1].timestamp == alertTime)
  {
    var analysis := CalculateRiskFromAnalysis(anomalyFlag, anomalyScore, clusterId);
    var update := IotUpdateMessage(
      IotData(data.store, data.dept, data.weeklySales, data.temperature, data.isHoliday), analysis, updateTime);
    if analysis.riskLevel == HIGH then
      [update, AlertMessage(data.store, data.dept, HighRiskAlertText, analysis.riskScore, alertTime)]
    else [update]
  }

  /** The database session: the rows added so far, and how many of them are committed. */
  class Session {
    var added: seq<Record>
    var committed: nat

    constructor ()
      ensures added == [] && committed == 0
    {
      added := [];
      committed := 0;
    }

    /** `db.add(row)` */
    method Add(row: Record)
      modifies this
      ensures added == old(added) + [row]
      ensures committed == old(committed)
    {
      added := added + [row];
    }

    /** `db.commit()` */
    method Commit()
      modifies this
      ensures added == old(added)
      ensures committed == |added|
    {
      committed := |added|;
    }
  }

  /** `iot_ingest`. A request the API-key check rejects gets the check's 401
      and touches neither the session nor the clients. Otherwise the rows of
      IngestRecords are added and committed, the IngestPushes messages are
      broadcast, and the reply echoes the model outputs with the shared
      score and level; the reply does not depend on how the pushes went. */
  method IotIngest(
    config: AuthConfig, apiKeyHeader: Option<string>,
    data: IoTInput, anomalyFlag: int, anomalyScore: real, clusterId: int,
    db: Session, manager: ConnectionManager, updateTime: string, alertTime: string,
    updateDelivers: Socket -> bool, alertDelivers: Socket -> bool)
    returns (response: Result<IngestResponse, HttpError>, pushed: seq<Message>)
    requires manager.Valid()
    modifies db, manager
    ensures manager.Valid()
    ensures response.Failure? <==> VerifyApiKey(config, apiKeyHeader).Failure?
    ensures response.Failure? ==>
      response.error == VerifyApiKey(config, apiKeyHeader).error
      && unchanged(db) && unchanged(manager) && pushed == []
    ensures response.Success? ==>
      var risk := CalculateRiskScore(anomalyFlag, anomalyScore, clusterId);
      && response.value == IngestResponse(SuccessStatus, anomalyFlag, anomalyScore, clusterId, risk.level, risk.score)
      && db.added == old(db.added) + IngestRecords(data, anomalyFlag, anomalyScore, clusterId)
      && db.committed == |db.added|
      && pushed == IngestPushes(data, anomalyFlag, anomalyScore, clusterId, updateTime, alertTime)
      && manager.activeConnections ==
           (if risk.level == HIGH
            then Kept(Kept(old(manager.activeConnections), updateDelivers), alertDelivers)
            else Kept(old(manager.activeConnections), updateDelivers))
      && manager.infoOrder ==
           (if risk.level == HIGH
            then Kept(Kept(old(manager.infoOrder), updateDelivers), alertDelivers)
            else Kept(old(manager.infoOrder), updateDelivers))
      && manager.connectionInfo ==
           (if risk.level == HIGH
            then KeepDelivered(KeepDelivered(old(manager.connectionInfo), updateDelivers), alertDelivers)
            else KeepDelivered(old(manager.connectionInfo), updateDelivers))
  {
    var auth := VerifyApiKey(config, apiKeyHeader);
    if auth.Failure? {
      return Failure(auth.error), [];
    }

    db.Add(AnomalyLog(
      data.timestamp,
      data.weeklySales,
      anomalyScore,
      if anomalyFlag == AnomalyDetectedFlag then IsAnomalyTrue else IsAnomalyFalse));

    db.Add(ClusterLog(data.store, data.dept, clusterId, data));

    var risk := CalculateRiskScore(anomalyFlag, anomalyScore, clusterId);
    var score, level := risk.score, risk.level;
    db.Add(RiskLog(data.store, data.dept, score, level, anomalyFlag, clusterId));

    if level == HIGH {
      db.Add(Alert(data.store, data.dept, HighRiskAlertText, score));
    }

    db.Commit();
    assert db.added == old(db.added) + IngestRecords(data, anomalyFlag, anomalyScore, clusterId);

    var update := manager.BroadcastIotUpdate(
      IotData(data.store, data.dept, data.weeklySales, data.temperature, data.isHoliday),
      RiskAnalysis(score, level, clusterId, anomalyFlag, anomalyScore),
      updateTime,
      updateDelivers);
    pushed := [update];

    if level == HIGH {
      var alert := manager.BroadcastAlert(data.store, data.dept, HighRiskAlertText, score, alertTime, alertDelivers);
      pushed := pushed + [alert];
    }
    assert pushed == IngestPushes(data, anomalyFlag, anomalyScore, clusterId, updateTime, alertTime);

    response := Success(IngestResponse(SuccessStatus, anomalyFlag, anomalyScore, clusterId, level, score));
  }
}
