/** The WebSocket connection registry: the list of active connections, the
    per-connection info dictionary, targeted sends, broadcasts that drop the
    connections a send failed on, and the two broadcast message shapes.
    A socket is an abstract identity; whether a send to it succeeds is told
    by an oracle, so the accept handshake, JSON framing and the network are
    not part of the model. */
module WebSocketManager {
  import opened Wrappers
  import opened Builtins
  import opened RiskService

  datatype Socket = Socket(id: nat)

  /** The info record kept per connection (`client_id`, `connected_at`). */
  datatype ConnectionInfo = ConnectionInfo(clientId: string, connectedAt: string)

  /** The reply of `get_connection_stats`. */
  datatype ConnectionStats = ConnectionStats(activeConnections: nat, clients: seq<ConnectionInfo>)

  /** The `data` part of an IoT update. */
  datatype IotData = IotData(store: int, dept: int, weeklySales: real, temperature: real, isHoliday: int)

  /** The `analysis` part of an IoT update. */
  datatype UpdateAnalysis = UpdateAnalysis(
    anomalyDetected: bool,
    anomalyScore: real,
    riskLevel: RiskLevel,
    riskScore: int,
    cluster: int)

  /** The two messages the service pushes to its clients. */
  datatype Message =
    | IotUpdate(timestamp: string, data: IotData, analysis: UpdateAnalysis)
    | AlertPush(priority: string, timestamp: string, store: int, dept: int, message: string, riskScore: int)
  {
    /** The message's `type` field. */
    function Type(): string {
      match this
      case IotUpdate(_, _, _) => "iot_update"
      case AlertPush(_, _, _, _, _, _) => "alert"
    }
  }

  // ---------------------------------------------------------------------
  // List operations the registry is built from
  // ---------------------------------------------------------------------

  predicate NoDuplicates(s: seq<Socket>) {
    forall i, j :: 0 <= i < j < |s| ==> s[i] != s[j]
  }

  /** The position of the first occurrence of `x`. */
  function IndexOf(s: seq<Socket>, x: Socket): (i: nat)
    requires x in s
    ensures i < |s| && s[i] == x
    ensures x !in s[..i]
  {
    if s[0] == x then 0 else 1 + IndexOf(s[1..], x)
  }

  /** `list.remove(x)` guarded by `x in list`. */
  function RemoveFirst(s: seq<Socket>, x: Socket): (r: seq<Socket>)
    ensures x !in s ==> r == s
    ensures x in s ==> |r| == |s| - 1
  {
    if s == [] then []
    else if s[0] == x then s[1..]
    else [s[0]] + RemoveFirst(s[1..], x)
  }

  /** RemoveFirst takes out the first occurrence of `x` and keeps everything
      else in its relative order; a list without `x` is left as it is. */
  lemma {:induction false} RemoveFirstCutsFirstOccurrence(s: seq<Socket>, x: Socket)
    ensures x !in s ==> RemoveFirst(s, x) == s
    ensures x in s ==> RemoveFirst(s, x) == s[..IndexOf(s, x)] + s[IndexOf(s, x) + 1..]
  {
    if s != [] && s[0] != x {
      var t := s[1..];
      RemoveFirstCutsFirstOccurrence(t, x);
      assert s == [s[0]] + t;
      if x in s {
        var k := IndexOf(t, x);
        assert s[..k + 1] == [s[0]] + t[..k];
        assert s[k + 2..] == t[k + 1..];
      }
    }
  }

  /** Removing `x` leaves every other socket's membership alone. */
  lemma {:induction false} RemoveFirstKeepsOthers(s: seq<Socket>, x: Socket)
    ensures forall y :: y != x ==> (y in RemoveFirst(s, x) <==> y in s)
  {
    if s != [] && s[0] != x {
      RemoveFirstKeepsOthers(s[1..], x);
      assert s == [s[0]] + s[1..];
      assert RemoveFirst(s, x) == [s[0]] + RemoveFirst(s[1..], x);
    }
  }

  /** On a list without repeats, removing `x` leaves no `x` behind and no repeat. */
  lemma {:induction false} RemoveFirstDistinct(s: seq<Socket>, x: Socket)
    requires NoDuplicates(s)
    ensures NoDuplicates(RemoveFirst(s, x)) && x !in RemoveFirst(s, x)
  {
    if s != [] {
      assert s[0] !in s[1..] by {
        forall j | 1 <= j < |s| ensures s[j] != s[0] { assert s[0] != s[j]; }
      }
      if s[0] != x {
        var rest := RemoveFirst(s[1..], x);
        RemoveFirstDistinct(s[1..], x);
        RemoveFirstKeepsOthers(s[1..], x);
        assert RemoveFirst(s, x) == [s[0]] + rest;
        assert s[0] !in rest;
      }
    }
  }

  /** The connections a send failed on, in list order. */
  function Failed(s: seq<Socket>, delivers: Socket -> bool): seq<Socket>
  {
    if s == [] then []
    else (if delivers(s[0]) then [] else [s[0]]) + Failed(s[1..], delivers)
  }

  /** The connections a send succeeded on, in list order. */
  function Kept(s: seq<Socket>, delivers: Socket -> bool): seq<Socket>
  {
    if s == [] then []
    else (if delivers(s[0]) then [s[0]] else []) + Kept(s[1..], delivers)
  }

  /** Failed grows by the new connection exactly when its send fails. */
  lemma {:induction false} FailedSnoc(s: seq<Socket>, x: Socket, delivers: Socket -> bool)
    ensures Failed(s + [x], delivers) == Failed(s, delivers) + (if delivers(x) then [] else [x])
  {
    if s != [] {
      assert (s + [x])[1..] == s[1..] + [x];
      FailedSnoc(s[1..], x, delivers);
    }
  }

  /** Failed holds exactly the failing members and Kept exactly the succeeding ones. */
  lemma {:induction false} FailedKeptMembers(s: seq<Socket>, delivers: Socket -> bool)
    ensures forall y :: y in Failed(s, delivers) <==> y in s && !delivers(y)
    ensures forall y :: y in Kept(s, delivers) <==> y in s && delivers(y)
  {
    if s != [] {
      FailedKeptMembers(s[1..], delivers);
      assert s == [s[0]] + s[1..];
    }
  }

  /** Disconnecting each listed socket in turn. */
  function RemoveEach(s: seq<Socket>, xs: seq<Socket>): seq<Socket>
    decreases xs
  {
    if xs == [] then s else RemoveEach(RemoveFirst(s, xs[0]), xs[1..])
  }

  /** The info entries of the connections a send succeeded on. */
  function KeepDelivered(info: map<Socket, ConnectionInfo>, delivers: Socket -> bool): (r: map<Socket, ConnectionInfo>)
    ensures forall k :: k in r <==> k in info && delivers(k)
    ensures forall k :: k in r ==> r[k] == info[k]
  {
    map k | k in info && delivers(k) :: info[k]
  }

  /** The info values in dictionary order. */
  function InfoValues(order: seq<Socket>, info: map<Socket, ConnectionInfo>): (r: seq<ConnectionInfo>)
    requires forall k :: k in order ==> k in info
    ensures |r| == |order|
    ensures forall i :: 0 <= i < |order| ==> r[i] == info[order[i]]
  {
    if order == [] then [] else [info[order[0]]] + InfoValues(order[1..], info)
  }

  /** Removing a socket other than `x` commutes with keeping `x` at the front. */
  lemma {:induction false} RemoveEachSkipsHead(x: Socket, t: seq<Socket>, xs: seq<Socket>)
    requires x !in xs
    ensures RemoveEach([x] + t, xs) == [x] + RemoveEach(t, xs)
    decreases xs
  {
    if xs != [] {
      assert ([x] + t)[1..] == t;
      assert RemoveFirst([x] + t, xs[0]) == [x] + RemoveFirst(t, xs[0]);
      RemoveEachSkipsHead(x, RemoveFirst(t, xs[0]), xs[1..]);
    }
  }

  /** The heart of `broadcast`: disconnecting, one after the other, the
      connections whose send failed leaves exactly the connections whose
      send succeeded, in their original order (repeated entries included). */
  lemma {:induction false} DisconnectFailedLeavesDelivered(s: seq<Socket>, delivers: Socket -> bool)
    ensures RemoveEach(s, Failed(s, delivers)) == Kept(s, delivers)
  {
    if s != [] {
      var x, t := s[0], s[1..];
      DisconnectFailedLeavesDelivered(t, delivers);
      if delivers(x) {
        assert Failed(s, delivers) == Failed(t, delivers);
        assert Kept(s, delivers) == [x] + Kept(t, delivers);
        FailedKeptMembers(t, delivers);
        assert s == [x] + t;
        RemoveEachSkipsHead(x, t, Failed(t, delivers));
      } else {
        assert Failed(s, delivers) == [x] + Failed(t, delivers);
        assert Kept(s, delivers) == Kept(t, delivers);
        assert RemoveFirst(s, x) == t;
      }
    }
  }

  /** Keeping every element of a list whose elements all succeed changes nothing. */
  lemma {:induction false} KeptAll(s: seq<Socket>, delivers: Socket -> bool)
    requires forall y :: y in s ==> delivers(y)
    ensures Kept(s, delivers) == s
  {
    if s != [] {
      KeptAll(s[1..], delivers);
    }
  }

  /** Removing a failed socket does not change which sockets succeed. */
  lemma {:induction false} KeptIgnoresFailed(s: seq<Socket>, y: Socket, delivers: Socket -> bool)
    requires !delivers(y)
    ensures Kept(RemoveFirst(s, y), delivers) == Kept(s, delivers)
  {
    if s == [] {
    } else if s[0] == y {
      assert RemoveFirst(s, y) == s[1..];
    } else {
      var rest := RemoveFirst(s[1..], y);
      KeptIgnoresFailed(s[1..], y, delivers);
      assert RemoveFirst(s, y) == [s[0]] + rest;
      assert ([s[0]] + rest)[1..] == rest;
    }
  }

  /** On a list without repeats, removing a set of failed sockets that covers
      all of its failed entries leaves exactly its successful entries. */
  lemma {:induction false} RemoveEachFromDistinct(s: seq<Socket>, xs: seq<Socket>, delivers: Socket -> bool)
    requires NoDuplicates(s)
    requires forall y :: y in xs ==> !delivers(y)
    requires forall y :: y in s && !delivers(y) ==> y in xs
    ensures RemoveEach(s, xs) == Kept(s, delivers)
    decreases xs
  {
    if xs == [] {
      KeptAll(s, delivers);
    } else {
      var s' := RemoveFirst(s, xs[0]);
      RemoveFirstKeepsOthers(s, xs[0]);
      RemoveFirstDistinct(s, xs[0]);
      forall y | y in s' && !delivers(y)
        ensures y in xs[1..]
      {
        assert y != xs[0];
        assert y in xs;
      }
      RemoveEachFromDistinct(s', xs[1..], delivers);
      KeptIgnoresFailed(s, xs[0], delivers);
    }
  }

  /** A list without repeats has as many entries as it has distinct elements. */
  lemma {:induction false} DistinctCardinality(s: seq<Socket>)
    requires NoDuplicates(s)
    ensures |set y | y in s| == |s|
  {
    if s != [] {
      DistinctCardinality(s[1..]);
      assert (set y | y in s) == {s[0]} + (set y | y in s[1..]);
      assert s[0] !in s[1..];
    }
  }

  // ---------------------------------------------------------------------
  // Message builders
  // ---------------------------------------------------------------------

  /** The message `broadcast_iot_update` sends: the sensor data, and the
      analysis with the anomaly flag turned into a boolean. */
  function IotUpdateMessage(data: IotData, analysis: RiskAnalysis, timestamp: string): (m: Message)
    ensures m.IotUpdate? && m.Type() == "iot_update"
    ensures m.analysis.anomalyDetected <==> analysis.anomaly == AnomalyDetected
    ensures m.data == data && m.timestamp == timestamp
    ensures m.analysis.anomalyScore == analysis.anomalyScore && m.analysis.cluster == analysis.cluster
    ensures m.analysis.riskLevel == analysis.riskLevel && m.analysis.riskScore == analysis.riskScore
  {
    IotUpdate(
      timestamp,
      data,
      UpdateAnalysis(
        analysis.anomaly == -1,
        analysis.anomalyScore,
        analysis.riskLevel,
        analysis.riskScore,
        analysis.cluster))
  }

  /** The message `broadcast_alert` sends: always of type "alert" and priority "HIGH". */
  function AlertMessage(store: int, dept: int, text: string, riskScore: int, timestamp: string): (m: Message)
    ensures m.AlertPush? && m.Type() == "alert" && m.priority == "HIGH"
    ensures m.store == store && m.dept == dept && m.message == text && m.riskScore == riskScore
    ensures m.timestamp == timestamp
  {
    AlertPush("HIGH", timestamp, store, dept, text, riskScore)
  }

  /** The client id a new connection gets: the one supplied unless it is
      absent or empty, otherwise "client_" and the new connection count. */
  function ClientIdFor(clientId: Option<string>, count: nat): (id: string)
    ensures clientId.Some? && clientId.value != "" ==> id == clientId.value
    ensures clientId.None? || clientId.value == "" ==>
      && |id| > 7 && id[..7] == "client_"
      && var digits := id[7..];
         && (forall i :: 0 <= i < |digits| ==> IsDigit(digits[i]))
         && DecimalValue(digits) == count
         && (|digits| > 1 ==> digits[0] != '0')
  {
    NatToStringRoundTrip(count);
    if clientId.Some? && clientId.value != "" then clientId.value
    else
      var id := "client_" + NatToString(count);
      assert id[7..] == NatToString(count);
      id
  }

  // ---------------------------------------------------------------------
  // The manager
  // ---------------------------------------------------------------------

  class ConnectionManager {
    /** `active_connections`, in connection order. */
    var activeConnections: seq<Socket>
    /** The key order of `connection_info` (a Python dict keeps insertion order). */
    var infoOrder: seq<Socket>
    /** `connection_info`. */
    var connectionInfo: map<Socket, ConnectionInfo>

    /** Each info entry appears once in the key order and belongs to an
        active connection. */
    ghost predicate Valid()
      reads this
    {
      && NoDuplicates(infoOrder)
      && (forall k :: k in infoOrder <==> k in connectionInfo)
      && (forall k :: k in connectionInfo ==> k in activeConnections)
    }

    constructor ()
      ensures Valid()
      ensures activeConnections == [] && infoOrder == [] && connectionInfo == map[]
    {
      activeConnections := [];
      infoOrder := [];
      connectionInfo := map[];
    }

    /** `connect`: the socket goes to the end of the list and its info entry
        is (re)written; a new key goes to the end of the dictionary order. */
    method Connect(websocket: Socket, clientId: Option<string>, now: string)
      requires Valid()
      modifies this
      ensures Valid()
      ensures activeConnections == old(activeConnections) + [websocket]
      ensures connectionInfo == old(connectionInfo)[websocket := ConnectionInfo(ClientIdFor(clientId, |activeConnections|), now)]
      ensures infoOrder == if websocket in old(connectionInfo) then old(infoOrder) else old(infoOrder) + [websocket]
    {
      activeConnections := activeConnections + [websocket];
      var id := ClientIdFor(clientId, |activeConnections|);
      if websocket !in connectionInfo {
        infoOrder := infoOrder + [websocket];
      }
      connectionInfo := connectionInfo[websocket := ConnectionInfo(id, now)];
    }

    /** `disconnect`: the first occurrence of the socket leaves the list and
        its info entry is deleted; an unknown socket changes nothing. */
    method Disconnect(websocket: Socket)
      requires Valid()
      modifies this
      ensures Valid()
      ensures activeConnections == RemoveFirst(old(activeConnections), websocket)
      ensures connectionInfo == old(connectionInfo) - {websocket}
      ensures infoOrder == RemoveFirst(old(infoOrder), websocket)
      ensures websocket !in old(activeConnections) ==> unchanged(this)
    {
      RemoveFirstKeepsOthers(activeConnections, websocket);
      RemoveFirstKeepsOthers(infoOrder, websocket);
      RemoveFirstDistinct(infoOrder, websocket);
      assert websocket in connectionInfo ==> websocket in activeConnections;
      assert websocket !in connectionInfo ==> connectionInfo - {websocket} == connectionInfo;
      if websocket in activeConnections {
        activeConnections := RemoveFirst(activeConnections, websocket);
      }
      if websocket in connectionInfo {
        infoOrder := RemoveFirst(infoOrder, websocket);
        connectionInfo := connectionInfo - {websocket};
      }
    }

    /** `send_personal_message`: a delivered message changes nothing, a
        failed one disconnects the target. */
    method SendPersonalMessage(message: Message, websocket: Socket, delivered: bool)
      requires Valid()
      modifies this
      ensures Valid()
      ensures delivered ==> unchanged(this)
      ensures !delivered ==> activeConnections == RemoveFirst(old(activeConnections), websocket)
      ensures !delivered ==> connectionInfo == old(connectionInfo) - {websocket}
      ensures !delivered ==> infoOrder == RemoveFirst(old(infoOrder), websocket)
    {
      if !delivered {
        Disconnect(websocket);
      }
    }

    /** The sending pass of `broadcast`: one send per connection, in list
        order (returned as `attempted`), collecting the connections whose
        send failed. */
    static method SendToEach(connections: seq<Socket>, delivers: Socket -> bool)
      returns (attempted: seq<Socket>, disconnected: seq<Socket>)
      ensures attempted == connections
      ensures disconnected == Failed(connections, delivers)
    {
      attempted, disconnected := [], [];
      var i := 0;
      while i < |connections|
        invariant 0 <= i <= |connections|
        invariant attempted == connections[..i]
        invariant disconnected == Failed(connections[..i], delivers)
      {
        var connection := connections[i];
        attempted := attempted + [connection];
        if !delivers(connection) {
          disconnected := disconnected + [connection];
        }
        assert connections[..i + 1] == connections[..i] + [connection];
        FailedSnoc(connections[..i], connection, delivers);
        i := i + 1;
      }
      assert connections[..i] == connections;
    }

    /** The clean-up pass of `broadcast`: `disconnect` on each listed
        socket in turn. */
    method DisconnectEach(disconnected: seq<Socket>)
      requires Valid()
      modifies this
      ensures Valid()
      ensures activeConnections == RemoveEach(old(activeConnections), disconnected)
      ensures infoOrder == RemoveEach(old(infoOrder), disconnected)
      ensures forall k :: k in connectionInfo <==> k in old(connectionInfo) && k !in disconnected
      ensures forall k :: k in connectionInfo ==> connectionInfo[k] == old(connectionInfo)[k]
    {
      var j := 0;
      while j < |disconnected|
        invariant 0 <= j <= |disconnected|
        invariant Valid()
        invariant RemoveEach(activeConnections, disconnected[j..]) == RemoveEach(old(activeConnections), disconnected)
        invariant RemoveEach(infoOrder, disconnected[j..]) == RemoveEach(old(infoOrder), disconnected)
        invariant forall k :: k in connectionInfo <==> k in old(connectionInfo) && k !in disconnected[..j]
        invariant forall k :: k in connectionInfo ==> connectionInfo[k] == old(connectionInfo)[k]
      {
        assert disconnected[j..][1..] == disconnected[j + 1..];
        assert disconnected[..j + 1] == disconnected[..j] + [disconnected[j]];
        Disconnect(disconnected[j]);
        j := j + 1;
      }
      assert disconnected[j..] == [] && disconnected[..j] == disconnected;
    }

    /** `broadcast`: one send per connection, in list order; then the
        connections whose send failed are disconnected. What is left is
        exactly the connections whose send succeeded, in their original
        order, with their info entries. */
    method Broadcast(message: Message, delivers: Socket -> bool) returns (attempted: seq<Socket>)
      requires Valid()
      modifies this
      ensures Valid()
      ensures attempted == old(activeConnections)
      ensures activeConnections == Kept(old(activeConnections), delivers)
      ensures infoOrder == Kept(old(infoOrder), delivers)
      ensures connectionInfo == KeepDelivered(old(connectionInfo), delivers)
    {
      if activeConnections == [] {
        assert connectionInfo == KeepDelivered(connectionInfo, delivers);
        return [];
      }
      var connections := activeConnections;
      var disconnected;
      attempted, disconnected := SendToEach(connections, delivers);
      DisconnectEach(disconnected);
      DisconnectFailedLeavesDelivered(connections, delivers);
      FailedKeptMembers(connections, delivers);
      RemoveEachFromDistinct(old(infoOrder), disconnected, delivers);
      assert connectionInfo == KeepDelivered(old(connectionInfo), delivers);
    }

    /** `broadcast_iot_update`: builds the update message and broadcasts it. */
    method BroadcastIotUpdate(data: IotData, analysis: RiskAnalysis, now: string, delivers: Socket -> bool)
      returns (message: Message)
      requires Valid()
      modifies this
      ensures Valid()
      ensures message == IotUpdateMessage(data, analysis, now)
      ensures activeConnections == Kept(old(activeConnections), delivers)
      ensures infoOrder == Kept(old(infoOrder), delivers)
      ensures connectionInfo == KeepDelivered(old(connectionInfo), delivers)
    {
      message := IotUpdateMessage(data, analysis, now);
      var _ := Broadcast(message, delivers);
    }

    /** `broadcast_alert`: builds the alert message and broadcasts it. */
    method BroadcastAlert(store: int, dept: int, text: string, riskScore: int, now: string, delivers: Socket -> bool)
      returns (message: Message)
      requires Valid()
      modifies this
      ensures Valid()
      ensures message == AlertMessage(store, dept, text, riskScore, now)
      ensures activeConnections == Kept(old(activeConnections), delivers)
      ensures infoOrder == Kept(old(infoOrder), delivers)
      ensures connectionInfo == KeepDelivered(old(connectionInfo), delivers)
    {
      message := AlertMessage(store, dept, text, riskScore, now);
      var _ := Broadcast(message, delivers);
    }

    /** `get_connection_count` */
    function ConnectionCount(): nat
      reads this
    {
      |activeConnections|
    }

    /** `get_connection_stats`: the connection count, and one client entry per
        info record, in dictionary order. */
    function ConnectionStatsReport(): (stats: ConnectionStats)
      reads this
      requires Valid()
      ensures stats.activeConnections == ConnectionCount()
      ensures |stats.clients| == |infoOrder| == |connectionInfo|
      ensures forall i :: 0 <= i < |infoOrder| ==> stats.clients[i] == connectionInfo[infoOrder[i]]
    {
      DistinctCardinality(infoOrder);
      assert (set k | k in infoOrder) == connectionInfo.Keys;
      ConnectionStats(|activeConnections|, InfoValues(infoOrder, connectionInfo))
    }
  }
}
