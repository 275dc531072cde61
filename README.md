# Risk decision layer of the sales-analytics backend, in Dafny

This project models the decision layer of the sales-analytics backend. That layer covers:

- the rule that turns the anomaly detector's flag and score and the clustering model's cluster id into a risk score and a LOW / MEDIUM / HIGH level;
- the copy of that rule inlined in the `/risk` endpoint;
- the warning list of the `/alerts` endpoint;
- the API-key gate;
- the WebSocket connection registry with its broadcasts;
- the sequence of database rows and pushes that the IoT ingest endpoint produces for one reading.

The machine-learning models are not modelled. Their outputs (`anomaly_flag`, `anomaly_score`, `cluster_id`) are inputs. The database session is a list of added rows. Clock readings are parameters. Whether a send to a socket succeeds is given by an oracle `delivers: Socket -> bool`.

Modules, one per source file:

- `RiskService` models `backend/services/risk_service.py`.
- `RiskRoute` models `backend/routes/risk.py`.
- `AlertsRoute` models `backend/routes/alerts.py`.
- `Auth` models `backend/auth.py`.
- `WebSocketManager` models `backend/websocket_manager.py`. The class `ConnectionManager` is in this module.
- `IotRoute` models `backend/routes/iot.py`. The class `Session` and the method `IotIngest` are in this module.
- `Wrappers` (Option, Result) and `Builtins` (`abs`, ASCII `str.lower`, `str(n)`) support the others.

Main results:

- **Risk level.** The level is HIGH exactly when an anomaly is flagged in cluster 6 or 7.
- **Risk rule.** The inline copy in `/risk` agrees with the shared service on every input.
- **Alerts.** Under the risk rule, a HIGH result yields exactly the three warnings, in order.
- **Broadcast.** Removing each failed connection's first occurrence, one by one, leaves exactly the connections whose send succeeded, in their original order, even if a socket is listed twice.
- **IoT ingest.** The rows and pushes for one reading are fixed, and the reply is independent of how the pushes went.

## Model

| member | source | states |
|---|---|---|
| `RiskService.Score` | backend/services/risk_service.py:51-63 | The score is one of 0, 10, …, 70. Each factor can be read back from it: the anomaly iff score ≥ 40, the cluster bonus iff score mod 40 ≥ 20, the extreme bonus iff score mod 20 = 10. |
| `RiskService.LevelOf` | backend/services/risk_service.py:65-71 | HIGH iff score ≥ 60, MEDIUM iff 30 ≤ score < 60, LOW iff score < 30. The three bands are disjoint and cover every score. |
| `RiskService.CalculateRiskScore` | backend/services/risk_service.py:29-73 | The score lies in [0,70] and the level is its band. HIGH iff flag = -1 and cluster ∈ {6,7}. LOW iff there is no anomaly and not both the cluster and the extreme bonus. |
| `RiskService.CalculateRiskFromAnalysis` | backend/services/risk_service.py:76-102 | Same score and level as `calculate_risk_score`. Cluster, flag and anomaly score are echoed unchanged. |
| `RiskService.AnomalyWeightOnlyForFlag` | backend/services/risk_service.py:54-55 | Only the flag value -1 adds 40. Every other flag adds nothing. |
| `RiskService.ExtremeBonusIsStrict` | backend/services/risk_service.py:58-59 | A magnitude of exactly 0.15 adds nothing, either sign. A larger magnitude adds 10. The score is symmetric in the sign of the anomaly score. |
| `RiskService.LevelMonotone` | backend/services/risk_service.py:66-71 | A higher score never gives a lower level. |
| `RiskService.RiskMonotone` | backend/services/risk_service.py:51-71 | Turning any factor on never lowers the score or the level. |
| `RiskRoute.Risk` | backend/routes/risk.py:26-55 | The inline score, inline level and response dict equal `calculate_risk_from_analysis` on the same model outputs. The outputs are echoed unmodified. The score lies in [0,70]. |
| `AlertsRoute.Alerts` | backend/routes/alerts.py:12-32 | `details` is the `/risk` result. Each warning is present iff its condition holds (level HIGH, flag -1, cluster ∈ {6,7}). Warnings come in the fixed order, each at most once. The fallback line is present iff no warning is, and is then the only entry. The list is never empty. |
| `AlertsRoute.AlertsForShape` | backend/routes/alerts.py:15-27 | Any list meeting the alert rules has at most three lines and never mixes the fallback with a warning. |
| `AlertsRoute.HighRiskRaisesAllWarnings` | backend/routes/alerts.py:17-24 | When `/risk` reports HIGH, the list is exactly [high-risk, anomaly, cluster]. |
| `Auth.AuthEnabled` | backend/auth.py:17-21 | Authentication is on iff `API_KEY` is set (even to "") or `AUTH_ENABLED` (default "false") lower-cases to "true". |
| `Auth.LoadConfig` | backend/auth.py:17-21 | The module settings: the required key is `API_KEY` as read, and the gate is on as `AuthEnabled` says. |
| `Auth.VerifyApiKey` | backend/auth.py:24-68 | Off: "disabled" whatever the header. On with the header missing or empty: 401 "API key required. Provide X-API-Key header.". On with a non-empty header other than the key: 401 "Invalid API key". Success returns the header, and only when it equals the configured key. Every error is a 401 with the `ApiKey` challenge. |
| `Auth.AcceptedIff` | backend/auth.py:45-68 | A request passes iff the gate is off or it carries the configured key, non-empty. |
| `Auth.EnabledWithoutKeyRejectsAll` | backend/auth.py:21 | Turned on by `AUTH_ENABLED` with no `API_KEY`, the gate rejects every request. |
| `Auth.EmptyKeyRejectsAll` | backend/auth.py:17-21 | An `API_KEY` set to "" turns the gate on and rejects every request. |
| `WebSocketManager.RemoveFirst` | backend/websocket_manager.py:46-47 | The guarded `list.remove`. A socket not in the list leaves it unchanged. Otherwise the list gets one entry shorter. |
| `WebSocketManager.RemoveFirstCutsFirstOccurrence` | backend/websocket_manager.py:46-47 | The guarded `list.remove` takes out the first occurrence and keeps every other entry in order. A list without the socket is unchanged. |
| `WebSocketManager.RemoveFirstKeepsOthers` | backend/websocket_manager.py:46-47 | Removing one socket does not change whether any other socket is listed. |
| `WebSocketManager.RemoveFirstDistinct` | backend/websocket_manager.py:46-49 | On a list without repeats (the info dict's keys), removal leaves no copy of the socket and no repeat. |
| `WebSocketManager.FailedKeptMembers` | backend/websocket_manager.py:80-92 | The collected `disconnected` list holds exactly the connections whose send failed. The survivors are exactly those whose send succeeded. |
| `WebSocketManager.DisconnectFailedLeavesDelivered` | backend/websocket_manager.py:80-99 | Disconnecting the failed connections one after the other leaves exactly the successful ones in their original order, repeated entries included. |
| `WebSocketManager.RemoveEachFromDistinct` | backend/websocket_manager.py:94-99 | On the info dict's key order, the same clean-up leaves exactly the keys whose send succeeded, in order. |
| `WebSocketManager.KeepDelivered` | backend/websocket_manager.py:94-99 | The info entries left after a broadcast are exactly those of connections whose send succeeded, with their values unchanged. |
| `WebSocketManager.InfoValues` | backend/websocket_manager.py:163-165 | The `clients` list has one entry per info key, in dictionary order. |
| `WebSocketManager.IotUpdateMessage` | backend/websocket_manager.py:108-125 | The type is "iot_update". `anomaly_detected` is true iff the analysis flag is -1. Data, score, level, risk score and cluster are echoed. |
| `WebSocketManager.AlertMessage` | backend/websocket_manager.py:140-148 | The type is always "alert" and the priority always "HIGH". Store, dept, text and risk score are echoed. |
| `WebSocketManager.ClientIdFor` | backend/websocket_manager.py:39 | A non-empty supplied id is kept. An absent or empty one becomes "client_" followed by the decimal digits of the new connection count, with no leading zero, as `str(n)` writes it. |
| `WebSocketManager.ConnectionManager.constructor` | backend/websocket_manager.py:28-32 | The registry starts with no connections and no info. |
| `WebSocketManager.ConnectionManager.Connect` | backend/websocket_manager.py:34-42 | The socket is appended at the end. Its info entry is (re)written with the client id for the new count and the time. A new key goes last in dictionary order. The registry invariant is kept. |
| `WebSocketManager.ConnectionManager.Disconnect` | backend/websocket_manager.py:44-50 | The first occurrence leaves the list and the info entry is deleted. An unknown socket changes nothing. The invariant is kept. |
| `WebSocketManager.ConnectionManager.SendPersonalMessage` | backend/websocket_manager.py:52-67 | A delivered message changes nothing. Any failure disconnects the target. |
| `WebSocketManager.ConnectionManager.SendToEach` | backend/websocket_manager.py:80-92 | One send is attempted per connection, in list order, and the failed ones are collected in order. |
| `WebSocketManager.ConnectionManager.DisconnectEach` | backend/websocket_manager.py:94-99 | `disconnect` runs on each collected socket in turn. |
| `WebSocketManager.ConnectionManager.Broadcast` | backend/websocket_manager.py:69-99 | Every connection is attempted in order. Afterwards the list, the key order and the info map hold exactly the connections whose send succeeded, in their original order. With no connections nothing changes. |
| `WebSocketManager.ConnectionManager.BroadcastIotUpdate` | backend/websocket_manager.py:101-131 | Broadcasts the update message, with the registry changed as by `Broadcast`. |
| `WebSocketManager.ConnectionManager.BroadcastAlert` | backend/websocket_manager.py:133-153 | Broadcasts the alert message, with the registry changed as by `Broadcast`. |
| `WebSocketManager.ConnectionManager.ConnectionCount` | backend/websocket_manager.py:155-157 | `get_connection_count`: the number of entries in the connection list, repeats included. |
| `WebSocketManager.ConnectionManager.ConnectionStatsReport` | backend/websocket_manager.py:155-166 | `active_connections` is the connection count (`get_connection_count`). `clients` has one entry per info record, in dictionary order. |
| `IotRoute.RenameColumn` | backend/routes/iot.py:77-86 | Only `store`→`Store` and `dept`→`Dept` change. Every other column keeps its name. |
| `IotRoute.IotColumnsRenamed` | backend/routes/iot.py:77-86 | The request's columns after the rename. |
| `IotRoute.IsAnomalyValue` | backend/routes/iot.py:22-27 | The stored `is_anomaly` is 1 iff the flag is -1, else 0. |
| `IotRoute.IngestRecords` | backend/routes/iot.py:101-142 | Rows come in the order AnomalyLog, ClusterLog, RiskLog (with the shared score and level), then an Alert iff the level is HIGH. The Alert carries the score and the fixed text. An Alert row exists iff the flag is -1 and the cluster is high-risk. |
| `IotRoute.IngestPushes` | backend/routes/iot.py:147-180 | The IoT update is always pushed. The alert push is attempted iff the level is HIGH. Each push carries its own timestamp. |
| `IotRoute.Session.constructor` | backend/routes/iot.py:32-37 | A fresh session has no rows. |
| `IotRoute.Session.Add` | backend/routes/iot.py:101 | `db.add` appends one row. |
| `IotRoute.Session.Commit` | backend/routes/iot.py:144 | `db.commit` commits every added row. |
| `IotRoute.IotIngest` | backend/routes/iot.py:54-189 | A request the key check rejects gets that 401 and touches neither the session nor the clients. Otherwise the rows of `IngestRecords` are added and committed, the pushes of `IngestPushes` go out, each stamped with its own clock reading. The connection list, the key order and the info map keep exactly the sockets that took the update and, when the level is HIGH, also the alert. The reply echoes flag, anomaly score, cluster, level and score, independent of the send outcomes. |

## Left out

- The anomaly detector, the clustering model and the data-frame handling (`pd.DataFrame`, `astype(int)`, the `int(...)` and `float(...)` conversions) are not modelled. Their results are inputs. Anomaly scores and sensor values are `real`, so float rounding, NaN and infinities are not modelled.
- Async execution is not modelled. Nothing else can touch the registry while a broadcast awaits a send.
- The real `accept`, `send_json` and `close` are not modelled, and neither is logging.
- `accept()` is assumed to succeed. A failing handshake, which would raise before the socket is appended, is not modelled.
- The send oracle is a function of the socket, so a socket listed twice gets the same outcome on both attempts of one broadcast.
- Each `datetime.utcnow()` reading is a string parameter: `now` for `connect`, `updateTime` and `alertTime` for the two pushes of one ingest.
- The rate limiter (`100/minute`, 429 replies) is not modelled.
- The `get_db` generator and the closing of the session are not modelled. Committed rows are a count in `Session`.
- `IotIngest`: the `try`/`except` blocks around the two broadcasts are not modelled. In the model, `broadcast` itself catches every send failure, so neither broadcast can raise.
- `Auth.AuthEnabled`: `str.lower` is modelled on ASCII letters only. No other character lower-cases to one of `t`, `r`, `u`, `e`, so the comparison with "true" is exact.
- The response schemas of `routes/schemas` are not part of this model.
- The admin login routes (`backend/routes/auth.py`) depend on a JWT module that is not part of this model.
- The forecast, KPI, anomaly and cluster routes and their services are not modelled. They are model wrappers and pandas statistics.
- The dashboard client is not part of this model.
