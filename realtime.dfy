/** The real-time push layer (backend/websocket_manager.py): a connection
    manager holding sockets per named channel and per watched player, and a
    notifier that routes each kind of data-update message to them. A socket is
    an opaque id; `send_json` is modelled by appending a delivery to `outbox`,
    and the sockets whose send raises during one call are a parameter. */
module Realtime {
  import opened Wrappers

  type Socket = nat

  /** The messages the notifier builds; the clock reading is a parameter and
      dictionary payloads are opaque text. */
  datatype Message =
    | PlayerUpdate(timestamp: string, playerId: string, data: string)
    | HighlightAdded(timestamp: string, data: string, highlightPlayer: Option<string>)
    | AnalysisComplete(timestamp: string, analysisId: string, playerId: string, results: string)
    | ReportGenerated(timestamp: string, reportId: string, playerId: string)
    | StatsUpdate(timestamp: string, data: string)
  {
    /** The message's `"type"` field. */
    function Kind(): string {
      match this
      case PlayerUpdate(_, _, _) => "player_update"
      case HighlightAdded(_, _, _) => "highlight_added"
      case AnalysisComplete(_, _, _, _) => "analysis_complete"
      case ReportGenerated(_, _, _) => "report_generated"
      case StatsUpdate(_, _) => "stats_update"
    }
  }

  datatype Delivery = Delivery(socket: Socket, message: Message)

  type Channels = map<string, set<Socket>>

  /** `d.get(key, set())` */
  function Members(m: Channels, key: string): set<Socket> {
    if key in m then m[key] else {}
  }

  /** The sockets of `key` whose send does not raise. */
  function Alive(m: Channels, key: string, failing: set<Socket>): set<Socket> {
    Members(m, key) - failing
  }

  /** The table after a broadcast to `key` (when there is one) has dropped the
      sockets whose send raised; every other key keeps its sockets. */
  function Pruned(m: Channels, key: Option<string>, failing: set<Socket>): (r: Channels)
    ensures r.Keys == m.Keys
    ensures forall k :: k in m ==> r[k] == if key == Some(k) then m[k] - failing else m[k]
  {
    if key.Some? && key.value in m then m[key.value := m[key.value] - failing] else m
  }

  /** `connect` / `connect_player_channel` on the table. */
  function ConnectTo(m: Channels, key: string, ws: Socket): (r: Channels)
    ensures r.Keys == m.Keys + {key}
    ensures ws in r[key] && r[key] - {ws} == Members(m, key) - {ws}
    ensures forall k :: k in m && k != key ==> r[k] == m[k]
  {
    m[key := Members(m, key) + {ws}]
  }

  /** `disconnect` / `disconnect_player_channel` on the table; an unknown key
      is a no-op. */
  function DisconnectFrom(m: Channels, key: string, ws: Socket): (r: Channels)
    ensures r.Keys == m.Keys
    ensures key in m ==> r[key] == m[key] - {ws}
    ensures forall k :: k in m && k != key ==> r[k] == m[k]
  {
    if key in m then m[key := m[key] - {ws}] else m
  }

  /** Disconnecting undoes connecting a socket that was not yet subscribed; on
      a new key it leaves the key behind with no sockets. */
  lemma DisconnectUndoesConnect(m: Channels, key: string, ws: Socket)
    requires ws !in Members(m, key)
    ensures key in m ==> DisconnectFrom(ConnectTo(m, key, ws), key, ws) == m
    ensures key !in m ==> DisconnectFrom(ConnectTo(m, key, ws), key, ws) == m[key := {}]
  {
    var r := DisconnectFrom(ConnectTo(m, key, ws), key, ws);
    assert r[key] == Members(m, key);
  }

  /** Disconnecting twice is disconnecting once, and disconnecting an absent
      socket or from an unknown key changes nothing. */
  lemma DisconnectIdempotent(m: Channels, key: string, ws: Socket)
    ensures DisconnectFrom(DisconnectFrom(m, key, ws), key, ws) == DisconnectFrom(m, key, ws)
    ensures ws !in Members(m, key) ==> DisconnectFrom(m, key, ws) == m
  {
    if key in m {
      assert DisconnectFrom(m, key, ws)[key] - {ws} == m[key] - {ws};
      if ws !in m[key] {
        assert m[key] - {ws} == m[key];
      }
    }
  }

  /** The number of sockets summed over every key. */
  ghost function Total(m: Channels): nat
    decreases |m.Keys|
  {
    if m == map[] then 0
    else
      var k :| k in m;
      |m[k]| + Total(m - {k})
  }

  function Restrict(m: Channels, keys: set<string>): (r: Channels)
    requires keys <= m.Keys
    ensures r.Keys == keys && forall k :: k in keys ==> r[k] == m[k]
  {
    map k | k in keys :: m[k]
  }

  /** Total does not depend on which key is taken first. */
  lemma {:induction false} TotalSplit(m: Channels, k: string)
    requires k in m
    ensures Total(m) == |m[k]| + Total(m - {k})
    decreases |m.Keys|
  {
    var j :| j in m && Total(m) == |m[j]| + Total(m - {j});
    if j != k {
      assert |(m - {j}).Keys| < |m.Keys| by { assert m.Keys == (m - {j}).Keys + {j}; }
      TotalSplit(m - {j}, k);
      assert |(m - {k}).Keys| < |m.Keys| by { assert m.Keys == (m - {k}).Keys + {k}; }
      TotalSplit(m - {k}, j);
      assert m - {j} - {k} == m - {k} - {j};
    }
  }

  lemma TotalUpdate(m: Channels, k: string, v: set<Socket>)
    ensures Total(m[k := v]) == Total(m) - |Members(m, k)| + |v|
  {
    var m' := m[k := v];
    TotalSplit(m', k);
    assert m' - {k} == m - {k};
    if k in m {
      TotalSplit(m, k);
    } else {
      assert m - {k} == m;
    }
  }

  /** Connecting a socket not yet on the key adds exactly one to the count;
      connecting it again changes nothing. */
  lemma ConnectCount(m: Channels, key: string, ws: Socket)
    ensures ws !in Members(m, key) ==> Total(ConnectTo(m, key, ws)) == Total(m) + 1
    ensures ws in Members(m, key) ==> Total(ConnectTo(m, key, ws)) == Total(m)
  {
    TotalUpdate(m, key, Members(m, key) + {ws});
    if ws in Members(m, key) {
      assert Members(m, key) + {ws} == Members(m, key);
    }
  }

  /** The sockets `ds` delivers to. */
  function Recipients(ds: seq<Delivery>): (r: set<Socket>)
    ensures forall d :: d in ds ==> d.socket in r
    ensures forall x :: x in r ==> exists d :: d in ds && d.socket == x
  {
    if ds == [] then {} else Recipients(ds[..|ds| - 1]) + {ds[|ds| - 1].socket}
  }

  lemma RecipientsAppend(ds: seq<Delivery>, d: Delivery)
    ensures Recipients(ds + [d]) == Recipients(ds) + {d.socket}
  {
    assert (ds + [d])[..|ds|] == ds;
  }

  predicate Carries(ds: seq<Delivery>, message: Message) {
    forall d :: d in ds ==> d.message == message
  }

  /** Appending one delivery of `message` to a socket not yet reached keeps
      the deliveries one per recipient. */
  lemma DeliverStep(added: seq<Delivery>, sent: set<Socket>, c: Socket, message: Message)
    requires |added| == |sent| && Recipients(added) == sent && Carries(added, message) && c !in sent
    ensures |added + [Delivery(c, message)]| == |sent + {c}|
    ensures Recipients(added + [Delivery(c, message)]) == sent + {c}
    ensures Carries(added + [Delivery(c, message)], message)
  {
    RecipientsAppend(added, Delivery(c, message));
  }

  /** `after` is `before` followed by one delivery of `message` to each of
      `recipients`, and to nobody else. */
  ghost predicate Delivered(before: seq<Delivery>, after: seq<Delivery>, recipients: set<Socket>, message: Message) {
    && |before| <= |after|
    && after[..|before|] == before
    && |after| == |before| + |recipients|
    && Recipients(after[|before|..]) == recipients
    && Carries(after[|before|..], message)
  }

  lemma AppendOne(before: seq<Delivery>, added: seq<Delivery>, d: Delivery)
    ensures (before + added) + [d] == before + (added + [d])
  {
  }

  lemma DeliveredAppend(before: seq<Delivery>, added: seq<Delivery>, recipients: set<Socket>, message: Message)
    requires |added| == |recipients| && Recipients(added) == recipients && Carries(added, message)
    ensures Delivered(before, before + added, recipients, message)
  {
    assert (before + added)[..|before|] == before;
    assert (before + added)[|before|..] == added;
  }

  /** The channels a message is broadcast on: the watched player's channel
      and/or one of the named channels. */
  function Targets(m: Message): (r: (Option<string>, Option<string>))
    ensures r.0.Some? <==> !m.StatsUpdate? && !(m.HighlightAdded? && (m.highlightPlayer.None? || m.highlightPlayer.value == ""))
    ensures r.1.Some? <==> !m.ReportGenerated?
    ensures r.0.Some? && !m.HighlightAdded? ==> r.0.value == m.playerId
    ensures r.1 == Some("players") <==> m.PlayerUpdate?
    ensures r.1 == Some("highlights") <==> m.HighlightAdded?
    ensures r.1 == Some("analytics") <==> m.AnalysisComplete? || m.StatsUpdate?
  {
    match m
    case PlayerUpdate(_, pid, _) => (Some(pid), Some("players"))
    case HighlightAdded(_, _, pid) =>
      (if pid.Some? && pid.value != "" then pid else None, Some("highlights"))
    case AnalysisComplete(_, _, pid, _) => (Some(pid), Some("analytics"))
    case ReportGenerated(_, _, pid) => (Some(pid), None)
    case StatsUpdate(_, _) => (None, Some("analytics"))
  }

  /** Removes each of `doomed` from the set under `key`, one at a time. */
  method DiscardAll(m: Channels, key: string, doomed: set<Socket>) returns (r: Channels)
    requires key in m
    ensures r == m[key := m[key] - doomed]
  {
    r := m;
    var pending := doomed;
    assert m[key] - (doomed - pending) == m[key];
    while pending != {}
      invariant pending <= doomed
      invariant r == m[key := m[key] - (doomed - pending)]
      decreases |pending|
    {
      var c :| c in pending;
      assert m[key] - (doomed - (pending - {c})) == (m[key] - (doomed - pending)) - {c};
      r := r[key := r[key] - {c}];
      pending := pending - {c};
    }
    assert doomed - pending == doomed;
  }

  /** One step of a loop that visits `members` one socket at a time. */
  lemma VisitStep(members: set<Socket>, failing: set<Socket>, visited: set<Socket>, rest: set<Socket>, c: Socket)
    requires visited + rest == members && visited !! rest && c in rest
    ensures (visited + {c}) + (rest - {c}) == members && (visited + {c}) !! (rest - {c})
    ensures c !in visited - failing && |rest - {c}| < |rest|
    ensures c in failing ==> (visited + {c}) - failing == visited - failing && (visited + {c}) * failing == visited * failing + {c}
    ensures c !in failing ==> (visited + {c}) - failing == (visited - failing) + {c} && (visited + {c}) * failing == visited * failing
  {
  }

  class ConnectionManager {
    var active: Channels
    var players: Channels
    var outbox: seq<Delivery>

    /** The four named channels, all empty; no player channels. */
    constructor ()
      ensures active == map["global" := {}, "players" := {}, "highlights" := {}, "analytics" := {}]
      ensures players == map[] && outbox == []
    {
      active := map["global" := {}, "players" := {}, "highlights" := {}, "analytics" := {}];
      players := map[];
      outbox := [];
    }

    method Connect(ws: Socket, channel: string)
      modifies this
      ensures active == ConnectTo(old(active), channel, ws)
      ensures players == old(players) && outbox == old(outbox)
    {
      if channel !in active {
        active := active[channel := {}];
      }
      active := active[channel := active[channel] + {ws}];
    }

    method ConnectPlayerChannel(ws: Socket, playerId: string)
      modifies this
      ensures players == ConnectTo(old(players), playerId, ws)
      ensures active == old(active) && outbox == old(outbox)
    {
      if playerId !in players {
        players := players[playerId := {}];
      }
      players := players[playerId := players[playerId] + {ws}];
    }

    method Disconnect(ws: Socket, channel: string)
      modifies this
      ensures active == DisconnectFrom(old(active), channel, ws)
      ensures players == old(players) && outbox == old(outbox)
    {
      if channel in active {
        active := active[channel := active[channel] - {ws}];
      }
    }

    method DisconnectPlayerChannel(ws: Socket, playerId: string)
      modifies this
      ensures players == DisconnectFrom(old(players), playerId, ws)
      ensures active == old(active) && outbox == old(outbox)
    {
      if playerId in players {
        players := players[playerId := players[playerId] - {ws}];
      }
    }

    /** Sends `message` to each of `members`, collecting those whose send raises. */
    method SendAll(members: set<Socket>, message: Message, failing: set<Socket>) returns (disconnected: set<Socket>)
      modifies this`outbox
      ensures disconnected == members * failing
      ensures Delivered(old(outbox), outbox, members - failing, message)
    {
      var rest := members;
      disconnected := {};
      ghost var visited: set<Socket> := {};
      ghost var sent: set<Socket> := {};
      ghost var added: seq<Delivery> := [];
      while rest != {}
        invariant visited + rest == members && visited !! rest
        invariant sent == visited - failing
        invariant disconnected == visited * failing
        invariant outbox == old(outbox) + added
        invariant |added| == |sent|
        invariant Recipients(added) == sent
        invariant Carries(added, message)
        decreases |rest|
      {
        var c :| c in rest;
        VisitStep(members, failing, visited, rest, c);
        if c in failing {
          disconnected := disconnected + {c};
        } else {
          DeliverStep(added, sent, c, message);
          AppendOne(old(outbox), added, Delivery(c, message));
          outbox := outbox + [Delivery(c, message)];
          added := added + [Delivery(c, message)];
          sent := sent + {c};
        }
        rest := rest - {c};
        visited := visited + {c};
      }
      assert visited == members;
      DeliveredAppend(old(outbox), added, sent, message);
    }

    /** `broadcast`: every live socket of the channel gets the message once, and
        the sockets whose send raised leave the channel. */
    method Broadcast(message: Message, channel: string, failing: set<Socket>)
      modifies this
      ensures active == (if channel in old(active) then old(active)[channel := old(active)[channel] - failing] else old(active))
      ensures players == old(players)
      ensures Delivered(old(outbox), outbox, Alive(old(active), channel, failing), message)
    {
      if channel !in active {
        assert outbox[|outbox|..] == [];
        return;
      }
      var disconnected := SendAll(active[channel], message, failing);
      assert active[channel] - disconnected == active[channel] - failing;
      active := DiscardAll(active, channel, disconnected);
    }

    /** `broadcast_to_player`, the same on the player's channel. */
    method BroadcastToPlayer(message: Message, playerId: string, failing: set<Socket>)
      modifies this
      ensures players == (if playerId in old(players) then old(players)[playerId := old(players)[playerId] - failing] else old(players))
      ensures active == old(active)
      ensures Delivered(old(outbox), outbox, Alive(old(players), playerId, failing), message)
    {
      if playerId !in players {
        assert outbox[|outbox|..] == [];
        return;
      }
      var disconnected := SendAll(players[playerId], message, failing);
      assert players[playerId] - disconnected == players[playerId] - failing;
      players := DiscardAll(players, playerId, disconnected);
    }

    /** `send_personal_message`: a failed send is swallowed and nothing else changes. */
    method SendPersonalMessage(message: Message, ws: Socket, fails: bool)
      modifies this`outbox
      ensures outbox == old(outbox) + (if fails then [] else [Delivery(ws, message)])
    {
      if !fails {
        outbox := outbox + [Delivery(ws, message)];
      }
    }

    /** `get_connection_count`: the named channel's size when a non-empty name
        is given, otherwise the sum over the named channels (player channels
        are not counted). */
    method GetConnectionCount(channel: Option<string>) returns (n: nat)
      ensures channel.Some? && channel.value != "" ==> n == |Members(active, channel.value)|
      ensures channel.None? || channel.value == "" ==> n == Total(active)
    {
      if channel.Some? && channel.value != "" {
        return |Members(active, channel.value)|;
      }
      n := 0;
      var keys := active.Keys;
      assert Restrict(active, keys) == active;
      while keys != {}
        invariant keys <= active.Keys
        invariant n + Total(Restrict(active, keys)) == Total(active)
        decreases |keys|
      {
        var k :| k in keys;
        TotalSplit(Restrict(active, keys), k);
        assert Restrict(active, keys) - {k} == Restrict(active, keys - {k});
        n := n + |active[k]|;
        keys := keys - {k};
      }
      assert Restrict(active, keys) == map[];
    }
  }

  /** True when `outbox` is `before` followed by the player broadcast and then
      the channel broadcast that `Targets` names for `m`. */
  ghost predicate Routed(before: seq<Delivery>, outbox: seq<Delivery>, active: Channels, players: Channels,
                         m: Message, failing: set<Socket>)
  {
    var (player, channel) := Targets(m);
    exists k :: |before| <= k <= |outbox| &&
      Delivered(before, outbox[..k], if player.Some? then Alive(players, player.value, failing) else {}, m) &&
      Delivered(outbox[..k], outbox, if channel.Some? then Alive(active, channel.value, failing) else {}, m)
  }

  /** `DataUpdateNotifier`: each `notify_*` method builds its message and hands it
      to `Notify`. */
  class DataUpdateNotifier {
    const manager: ConnectionManager

    constructor (manager: ConnectionManager)
      ensures this.manager == manager
    {
      this.manager := manager;
    }

    /** Broadcasts to the player's channel, then to the named channel. */
    method Notify(m: Message, failing: set<Socket>)
      modifies manager
      ensures Routed(old(manager.outbox), manager.outbox, old(manager.active), old(manager.players), m, failing)
      ensures manager.players == Pruned(old(manager.players), Targets(m).0, failing)
      ensures manager.active == Pruned(old(manager.active), Targets(m).1, failing)
    {
      var (player, channel) := Targets(m);
      var mid := |manager.outbox|;
      if player.Some? {
        manager.BroadcastToPlayer(m, player.value, failing);
      } else {
        assert manager.outbox[mid..] == [];
      }
      ghost var afterPlayer := manager.outbox;
      assert afterPlayer[..mid] == old(manager.outbox);
      var k := |manager.outbox|;
      if channel.Some? {
        manager.Broadcast(m, channel.value, failing);
      } else {
        assert manager.outbox[k..] == [];
      }
      assert manager.outbox[..k] == afterPlayer;
      assert Delivered(old(manager.outbox), manager.outbox[..k],
                       if player.Some? then Alive(old(manager.players), player.value, failing) else {}, m);
    }

    method NotifyPlayerUpdate(playerId: string, playerData: string, timestamp: string, failing: set<Socket>)
      modifies manager
      ensures Routed(old(manager.outbox), manager.outbox, old(manager.active), old(manager.players),
                     PlayerUpdate(timestamp, playerId, playerData), failing)
      ensures manager.players == Pruned(old(manager.players), Targets(PlayerUpdate(timestamp, playerId, playerData)).0, failing)
      ensures manager.active == Pruned(old(manager.active), Targets(PlayerUpdate(timestamp, playerId, playerData)).1, failing)
    {
      Notify(PlayerUpdate(timestamp, playerId, playerData), failing);
    }

    method NotifyHighlightAdded(highlightData: string, highlightPlayer: Option<string>, timestamp: string, failing: set<Socket>)
      modifies manager
      ensures Routed(old(manager.outbox), manager.outbox, old(manager.active), old(manager.players),
                     HighlightAdded(timestamp, highlightData, highlightPlayer), failing)
      ensures manager.players == Pruned(old(manager.players), Targets(HighlightAdded(timestamp, highlightData, highlightPlayer)).0, failing)
      ensures manager.active == Pruned(old(manager.active), Targets(HighlightAdded(timestamp, highlightData, highlightPlayer)).1, failing)
    {
      Notify(HighlightAdded(timestamp, highlightData, highlightPlayer), failing);
    }

    method NotifyAnalysisComplete(analysisId: string, playerId: string, results: string, timestamp: string, failing: set<Socket>)
      modifies manager
      ensures Routed(old(manager.outbox), manager.outbox, old(manager.active), old(manager.players),
                     AnalysisComplete(timestamp, analysisId, playerId, results), failing)
      ensures manager.players == Pruned(old(manager.players), Targets(AnalysisComplete(timestamp, analysisId, playerId, results)).0, failing)
      ensures manager.active == Pruned(old(manager.active), Targets(AnalysisComplete(timestamp, analysisId, playerId, results)).1, failing)
    {
      Notify(AnalysisComplete(timestamp, analysisId, playerId, results), failing);
    }

    method NotifyReportGenerated(reportId: string, playerId: string, timestamp: string, failing: set<Socket>)
      modifies manager
      ensures Routed(old(manager.outbox), manager.outbox, old(manager.active), old(manager.players),
                     ReportGenerated(timestamp, reportId, playerId), failing)
      ensures manager.players == Pruned(old(manager.players), Targets(ReportGenerated(timestamp, reportId, playerId)).0, failing)
      ensures manager.active == Pruned(old(manager.active), Targets(ReportGenerated(timestamp, reportId, playerId)).1, failing)
    {
      Notify(ReportGenerated(timestamp, reportId, playerId), failing);
    }

    method NotifyStatsUpdate(statsData: string, timestamp: string, failing: set<Socket>)
      modifies manager
      ensures Routed(old(manager.outbox), manager.outbox, old(manager.active), old(manager.players),
                     StatsUpdate(timestamp, statsData), failing)
      ensures manager.players == Pruned(old(manager.players), Targets(StatsUpdate(timestamp, statsData)).0, failing)
      ensures manager.active == Pruned(old(manager.active), Targets(StatsUpdate(timestamp, statsData)).1, failing)
    {
      Notify(StatsUpdate(timestamp, statsData), failing);
    }
  }
}
