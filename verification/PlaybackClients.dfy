/** What connections mean to watchers and outputs: who is shown, and who plays when clients come and go. */
module PlaybackClients {
  import opened Common
  import opened Playback
  import opened PlaybackLive
  import opened Recovery

  // ----- who is shown -----

  /** The last of the connections that stand for a client. */
  predicate IsLatest(connections: seq<Connection>, at: nat, clientId: string) {
    && at < |connections| && IsClient(connections[at], clientId)
    && forall i :: at < i < |connections| ==> !IsClient(connections[i], clientId)
  }

  /** A client is shown exactly if some connection stands for it, under the name the operator remembers, else its own,
      as the latest such connection has it. */
  lemma {:induction false} ClientsAreShown(connections: seq<Connection>, clientId: string)
    ensures clientId in Clients(connections) <==> HasClient(connections, clientId)
    ensures forall at: nat :: IsLatest(connections, at, clientId) ==>
              var r := connections[at].registration.value;
              && clientId in Clients(connections)
              && Clients(connections)[clientId] ==
                 Client(if r.rememberedName.Some? then r.rememberedName.value else r.name, r.isDefaultOutput)
    decreases |connections|
  {
    if connections != [] {
      var n := |connections| - 1;
      var front := connections[..n];
      ClientsAreShown(front, clientId);
      assert HasClient(connections, clientId) <==> HasClient(front, clientId) || IsClient(connections[n], clientId) by {
        if IsClient(connections[n], clientId) {
        } else if HasClient(connections, clientId) {
          var i :| 0 <= i < |connections| && IsClient(connections[i], clientId);
          assert IsClient(front[i], clientId);
        }
        if HasClient(front, clientId) {
          var i :| 0 <= i < |front| && IsClient(front[i], clientId);
          assert IsClient(connections[i], clientId);
        }
      }
      forall at: nat | IsLatest(connections, at, clientId) && at < n ensures IsLatest(front, at, clientId) {
        assert forall i :: at < i < n ==> front[i] == connections[i];
      }
    }
  }

  // ----- who plays -----

  /** Of the devices that played, this one may have stopped; all others play on, and none started. */
  ghost predicate MayStop(before: seq<string>, after: seq<string>, deviceId: string) {
    forall d :: d in after <==> d in before && (d != deviceId || deviceId in after)
  }

  /** A change that is carried out leaves these connections, outputs and volumes. */
  lemma ChangeIsAdopted(l: Live, step: RoomStep, connections: seq<Connection>, nowMs: u64, reply: Reply)
    requires RoomChange(l, step, connections, nowMs, reply).1.Ok? && (!step.changed ==> step.room == l.state.room)
    ensures var t := RoomChange(l, step, connections, nowMs, reply).0;
            && t.connections == connections && t.state.room.activeOutputs == step.room.activeOutputs
            && t.state.room.deviceVolumes == step.room.deviceVolumes
  {
  }

  lemma LeavingStops(room: Room, left: Option<string>)
    ensures var t := LeaveRoom(room, left).room;
            && t == room.(activeOutputs := t.activeOutputs)
            && forall d :: d in t.activeOutputs <==> d in room.activeOutputs && Some(d) != left
    ensures !LeaveRoom(room, left).changed ==> LeaveRoom(room, left).room == room
  {
  }

  /** A connection that closes is gone. If no other connection stands for its client, the client no longer plays; all
      other clients play on. */
  lemma ClosingTakesOutput(l: Live, id: u64, nowMs: u64, reply: Reply)
    requires IndexOf(l.connections, id).Some? && DisconnectStep(l, id, nowMs, reply).1.Ok?
    ensures var at := IndexOf(l.connections, id).value; var t := DisconnectStep(l, id, nowMs, reply).0;
            && t.connections == l.connections[..at] + l.connections[at + 1..]
            && match l.connections[at].registration
               case None => t.state.room.activeOutputs == l.state.room.activeOutputs
               case Some(r) =>
                 var before, after := l.state.room.activeOutputs, t.state.room.activeOutputs;
                 && MayStop(before, after, r.clientId)
                 && (r.clientId in after <==> r.clientId in before && HasClient(t.connections, r.clientId))
  {
    var at := IndexOf(l.connections, id).value;
    var connections := l.connections[..at] + l.connections[at + 1..];
    var left := Departed(l.connections[at].registration, connections);
    LeavingStops(l.state.room, left);
    ChangeIsAdopted(l, LeaveRoom(l.state.room, left), connections, nowMs, reply);
  }

  /** Who plays once a connection stands for another client: the client it stood for no longer does, unless another
      connection stands for it; the new one does if it did, or if it is a default output and there is room; all others
      play on. */
  ghost predicate Takes(before: Room, after: Room, left: Option<string>, r: Registration) {
    && (forall d :: d != r.clientId ==> (d in after.activeOutputs <==> d in before.activeOutputs && Some(d) != left))
    && (r.clientId in after.activeOutputs <==>
        || r.clientId in before.activeOutputs
        || (r.isDefaultOutput && (before.multipleOutputs || forall d :: d in before.activeOutputs ==> Some(d) == left)))
    && r.clientId in after.deviceVolumes
  }

  lemma ReplacingTakes(room: Room, connection: Connection, connections: seq<Connection>, r: Registration)
    ensures Takes(room, ReplaceClientStep(room, connection, connections, r).room,
                  Displaced(connection, connections, r), r)
  {
    var left := Displaced(connection, connections, r);
    var leave := LeaveRoom(room, left);
    LeavingStops(room, left);
    assert left.Some? ==> left.value != r.clientId;
    assert leave.room.activeOutputs == [] <==> forall d :: d in room.activeOutputs ==> Some(d) == left by {
      if leave.room.activeOutputs != [] {
        var d := leave.room.activeOutputs[0];
        assert d in leave.room.activeOutputs && d in room.activeOutputs && Some(d) != left;
      }
      if d :| d in room.activeOutputs && Some(d) != left {
        assert d in leave.room.activeOutputs;
      }
    }
  }

  /** Whoever the connection stood for and no other connection stands for now. */
  predicate IsDisplaced(before: Connection, connections: seq<Connection>, r: Registration, clientId: string) {
    && before.registration.Some? && before.registration.value.clientId == clientId != r.clientId
    && !exists i :: 0 <= i < |connections| && connections[i].id != before.id && IsClient(connections[i], clientId)
  }

  lemma DisplacedExactly(before: Connection, connections: seq<Connection>, r: Registration)
    ensures forall c :: Displaced(before, connections, r) == Some(c) <==> IsDisplaced(before, connections, r, c)
  {
  }

  lemma ReplacingIsNoted(room: Room, connection: Connection, connections: seq<Connection>, r: Registration)
    ensures var step := ReplaceClientStep(room, connection, connections, r); !step.changed ==> step.room == room
  {
    LeavingStops(room, Displaced(connection, connections, r));
  }

  /** A connection that announces another client stands for it from then on. */
  lemma RegisteringTakesOutput(l: Live, id: u64, r: Registration, nowMs: u64, reply: Reply)
    returns (left: Option<string>)
    requires IndexOf(l.connections, id).Some? && RegisterStep(l, id, r, nowMs, reply).1.Ok?
    requires l.connections[IndexOf(l.connections, id).value].registration != Some(r)
    ensures var at := IndexOf(l.connections, id).value; var t := RegisterStep(l, id, r, nowMs, reply).0;
            && t.connections == l.connections[at := l.connections[at].(registration := Some(r))]
            && (forall c :: left == Some(c) <==> IsDisplaced(l.connections[at], t.connections, r, c))
            && Takes(l.state.room, t.state.room, left, r)
  {
    var at := IndexOf(l.connections, id).value;
    var connections := l.connections[at := l.connections[at].(registration := Some(r))];
    left := Displaced(l.connections[at], connections, r);
    ReplacingTakes(l.state.room, l.connections[at], connections, r);
    ReplacingIsNoted(l.state.room, l.connections[at], connections, r);
    ChangeIsAdopted(l, ReplaceClientStep(l.state.room, l.connections[at], connections, r), connections, nowMs, reply);
    DisplacedExactly(l.connections[at], connections, r);
  }
}
