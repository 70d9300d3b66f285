/**
 * INSERT into each table. A row is stored only when every declared
 * constraint still holds afterwards; otherwise the statement is rejected
 * and no table changes. Where several constraints fail at once the error
 * reported follows PostgreSQL's order: check constraints first, then the
 * primary key and unique indexes, then the foreign keys.
 */
module Inserts {
  import opened Wrappers
  import opened Schema

  /** Some stored event already has these (world_id, tick, seq_in_tick) columns. */
  predicate TickSeqTaken(events: map<Uuid, EventStore>, key: (Uuid, int, int)) {
    exists id :: id in events && events[id].TickSeq() == key
  }

  /** Some stored snapshot already has these (world_id, tick) columns. */
  predicate WorldTickTaken(snapshots: map<Uuid, Snapshot>, key: (Uuid, int)) {
    exists id :: id in snapshots && snapshots[id].WorldTick() == key
  }

  /** A nullable foreign key is satisfied by NULL or by an existing parent. */
  predicate Refers<V>(ref: Option<Uuid>, parents: map<Uuid, V>) {
    ref.None? || ref.value in parents
  }

  function InsertWorld(t: Tables, w: World): (r: Result<Tables, Violation>)
    ensures w.worldId in t.worlds ==> r == Failure(PrimaryKeyViolation)
    ensures r.Success? ==> r.value.worlds == t.worlds[w.worldId := w] && r.value.(worlds := t.worlds) == t
  {
    if w.worldId in t.worlds then Failure(PrimaryKeyViolation)
    else Success(t.(worlds := t.worlds[w.worldId := w]))
  }

  function InsertWorldTile(t: Tables, tile: WorldTile): (r: Result<Tables, Violation>)
    ensures tile.Key() in t.tiles ==> r == Failure(PrimaryKeyViolation)
    ensures tile.worldId !in t.worlds ==> r.Failure?
    ensures r.Success? ==> r.value.tiles == t.tiles[tile.Key() := tile] && r.value.(tiles := t.tiles) == t
  {
    if tile.Key() in t.tiles then Failure(PrimaryKeyViolation)
    else if tile.worldId !in t.worlds then Failure(ForeignKeyViolation("world_id"))
    else Success(t.(tiles := t.tiles[tile.Key() := tile]))
  }

  function InsertWorldMap(t: Tables, m: WorldMap): (r: Result<Tables, Violation>)
    ensures m.worldId in t.maps ==> r == Failure(PrimaryKeyViolation)
    ensures m.worldId !in t.worlds ==> r.Failure?
    ensures r.Success? ==> r.value.maps == t.maps[m.worldId := m] && r.value.(maps := t.maps) == t
  {
    if m.worldId in t.maps then Failure(PrimaryKeyViolation)
    else if m.worldId !in t.worlds then Failure(ForeignKeyViolation("world_id"))
    else Success(t.(maps := t.maps[m.worldId := m]))
  }

  function InsertAgent(t: Tables, a: Agent): (r: Result<Tables, Violation>)
    ensures a.agentId in t.agents ==> r == Failure(PrimaryKeyViolation)
    ensures a.agentId !in t.agents && a.worldId !in t.worlds ==> r == Failure(ForeignKeyViolation("world_id"))
    ensures r.Success? ==> r.value.agents == t.agents[a.agentId := a] && r.value.(agents := t.agents) == t
  {
    if a.agentId in t.agents then Failure(PrimaryKeyViolation)
    else if a.worldId !in t.worlds then Failure(ForeignKeyViolation("world_id"))
    else Success(t.(agents := t.agents[a.agentId := a]))
  }

  function InsertRelationship(t: Tables, rel: Relationship): (r: Result<Tables, Violation>)
    ensures rel.Key() in t.relationships ==> r == Failure(PrimaryKeyViolation)
    ensures rel.worldId !in t.worlds || rel.a !in t.agents || rel.b !in t.agents ==> r.Failure?
    ensures r.Success? ==> r.value.relationships == t.relationships[rel.Key() := rel]
                           && r.value.(relationships := t.relationships) == t
  {
    if rel.Key() in t.relationships then Failure(PrimaryKeyViolation)
    else if rel.worldId !in t.worlds then Failure(ForeignKeyViolation("world_id"))
    else if rel.a !in t.agents then Failure(ForeignKeyViolation("a_agent_id"))
    else if rel.b !in t.agents then Failure(ForeignKeyViolation("b_agent_id"))
    else Success(t.(relationships := t.relationships[rel.Key() := rel]))
  }

  /**
   * The foreign-key check on caused_by_event_id runs after the row is in
   * place, so an event may name itself as its cause.
   */
  function InsertEvent(t: Tables, e: EventStore): (r: Result<Tables, Violation>)
    ensures e.seqInTick < 0 ==> r == Failure(CheckViolation(EventSeqCheck))
    ensures e.seqInTick >= 0 && e.eventId in t.events ==> r == Failure(PrimaryKeyViolation)
    ensures e.seqInTick >= 0 && e.eventId !in t.events && TickSeqTaken(t.events, e.TickSeq())
            ==> r == Failure(UniqueViolation(EventTickSeqConstraint))
    ensures e.worldId !in t.worlds || !Refers(e.actor, t.agents) || !Refers(e.target, t.agents) ==> r.Failure?
    ensures !Refers(e.causedBy, t.events[e.eventId := e]) ==> r.Failure?
    ensures r.Success? ==> r.value.events == t.events[e.eventId := e] && r.value.(events := t.events) == t
  {
    if e.seqInTick < 0 then Failure(CheckViolation(EventSeqCheck))
    else if e.eventId in t.events then Failure(PrimaryKeyViolation)
    else if TickSeqTaken(t.events, e.TickSeq()) then Failure(UniqueViolation(EventTickSeqConstraint))
    else if e.worldId !in t.worlds then Failure(ForeignKeyViolation("world_id"))
    else if !Refers(e.actor, t.agents) then Failure(ForeignKeyViolation("actor_agent_id"))
    else if !Refers(e.target, t.agents) then Failure(ForeignKeyViolation("target_agent_id"))
    else if e.causedBy.Some? && e.causedBy.value != e.eventId && e.causedBy.value !in t.events
    then Failure(ForeignKeyViolation("caused_by_event_id"))
    else Success(t.(events := t.events[e.eventId := e]))
  }

  function InsertSnapshot(t: Tables, s: Snapshot): (r: Result<Tables, Violation>)
    ensures s.snapshotId in t.snapshots ==> r == Failure(PrimaryKeyViolation)
    ensures s.snapshotId !in t.snapshots && WorldTickTaken(t.snapshots, s.WorldTick())
            ==> r == Failure(UniqueViolation(SnapshotTickConstraint))
    ensures s.worldId !in t.worlds ==> r.Failure?
    ensures r.Success? ==> r.value.snapshots == t.snapshots[s.snapshotId := s] && r.value.(snapshots := t.snapshots) == t
  {
    if s.snapshotId in t.snapshots then Failure(PrimaryKeyViolation)
    else if WorldTickTaken(t.snapshots, s.WorldTick()) then Failure(UniqueViolation(SnapshotTickConstraint))
    else if s.worldId !in t.worlds then Failure(ForeignKeyViolation("world_id"))
    else Success(t.(snapshots := t.snapshots[s.snapshotId := s]))
  }

  function InsertAgentSnapshot(t: Tables, s: AgentSnapshot): (r: Result<Tables, Violation>)
    ensures s.Key() in t.agentSnapshots ==> r == Failure(PrimaryKeyViolation)
    ensures s.snapshotId !in t.snapshots || s.agentId !in t.agents ==> r.Failure?
    ensures r.Success? ==> r.value.agentSnapshots == t.agentSnapshots[s.Key() := s]
                           && r.value.(agentSnapshots := t.agentSnapshots) == t
  {
    if s.Key() in t.agentSnapshots then Failure(PrimaryKeyViolation)
    else if s.snapshotId !in t.snapshots then Failure(ForeignKeyViolation("snapshot_id"))
    else if s.agentId !in t.agents then Failure(ForeignKeyViolation("agent_id"))
    else Success(t.(agentSnapshots := t.agentSnapshots[s.Key() := s]))
  }

  // ---------------------------------------------------------------------
  // An insert is accepted exactly when the key is free and the tables with
  // the new row satisfy every declared constraint.
  // ---------------------------------------------------------------------

  lemma InsertWorldAccepted(t: Tables, w: World)
    requires Valid(t)
    ensures InsertWorld(t, w).Success? <==> w.worldId !in t.worlds && Valid(t.(worlds := t.worlds[w.worldId := w]))
  {
  }

  lemma InsertWorldTileAccepted(t: Tables, tile: WorldTile)
    requires Valid(t)
    ensures InsertWorldTile(t, tile).Success? <==> tile.Key() !in t.tiles && Valid(t.(tiles := t.tiles[tile.Key() := tile]))
  {
    if InsertWorldTile(t, tile).Success? {
      InsertWorldTileKeepsValid(t, tile);
    }
    if tile.Key() !in t.tiles && Valid(t.(tiles := t.tiles[tile.Key() := tile])) {
      ValidWorldTileInsertPassesChecks(t, tile);
    }
  }

  lemma InsertWorldTileKeepsValid(t: Tables, tile: WorldTile)
    requires Valid(t) && InsertWorldTile(t, tile).Success?
    ensures Valid(t.(tiles := t.tiles[tile.Key() := tile]))
  {
  }

  lemma ValidWorldTileInsertPassesChecks(t: Tables, tile: WorldTile)
    requires tile.Key() !in t.tiles && Valid(t.(tiles := t.tiles[tile.Key() := tile]))
    ensures InsertWorldTile(t, tile).Success?
  {
    var t' := t.(tiles := t.tiles[tile.Key() := tile]);
    assert t'.tiles[tile.Key()] == tile;
    assert tile.worldId in t.worlds;
  }

  lemma InsertWorldMapAccepted(t: Tables, m: WorldMap)
    requires Valid(t)
    ensures InsertWorldMap(t, m).Success? <==> m.worldId !in t.maps && Valid(t.(maps := t.maps[m.worldId := m]))
  {
    if InsertWorldMap(t, m).Success? {
      InsertWorldMapKeepsValid(t, m);
    }
    if m.worldId !in t.maps && Valid(t.(maps := t.maps[m.worldId := m])) {
      ValidWorldMapInsertPassesChecks(t, m);
    }
  }

  lemma InsertWorldMapKeepsValid(t: Tables, m: WorldMap)
    requires Valid(t) && InsertWorldMap(t, m).Success?
    ensures Valid(t.(maps := t.maps[m.worldId := m]))
  {
  }

  lemma ValidWorldMapInsertPassesChecks(t: Tables, m: WorldMap)
    requires m.worldId !in t.maps && Valid(t.(maps := t.maps[m.worldId := m]))
    ensures InsertWorldMap(t, m).Success?
  {
    var t' := t.(maps := t.maps[m.worldId := m]);
    assert t'.maps[m.worldId] == m;
    assert m.worldId in t.worlds;
  }

  lemma InsertAgentAccepted(t: Tables, a: Agent)
    requires Valid(t)
    ensures InsertAgent(t, a).Success? <==> a.agentId !in t.agents && Valid(t.(agents := t.agents[a.agentId := a]))
  {
    if InsertAgent(t, a).Success? {
      InsertAgentKeepsValid(t, a);
    }
    if a.agentId !in t.agents && Valid(t.(agents := t.agents[a.agentId := a])) {
      ValidAgentInsertPassesChecks(t, a);
    }
  }

  lemma InsertAgentKeepsValid(t: Tables, a: Agent)
    requires Valid(t) && InsertAgent(t, a).Success?
    ensures Valid(t.(agents := t.agents[a.agentId := a]))
  {
  }

  lemma ValidAgentInsertPassesChecks(t: Tables, a: Agent)
    requires a.agentId !in t.agents && Valid(t.(agents := t.agents[a.agentId := a]))
    ensures InsertAgent(t, a).Success?
  {
    var t' := t.(agents := t.agents[a.agentId := a]);
    assert t'.agents[a.agentId] == a;
    assert a.worldId in t.worlds;
  }

  lemma InsertRelationshipAccepted(t: Tables, rel: Relationship)
    requires Valid(t)
    ensures InsertRelationship(t, rel).Success?
        <==> rel.Key() !in t.relationships && Valid(t.(relationships := t.relationships[rel.Key() := rel]))
  {
    if InsertRelationship(t, rel).Success? {
      InsertRelationshipKeepsValid(t, rel);
    }
    if rel.Key() !in t.relationships && Valid(t.(relationships := t.relationships[rel.Key() := rel])) {
      ValidRelationshipInsertPassesChecks(t, rel);
    }
  }

  lemma InsertRelationshipKeepsValid(t: Tables, rel: Relationship)
    requires Valid(t) && InsertRelationship(t, rel).Success?
    ensures Valid(t.(relationships := t.relationships[rel.Key() := rel]))
  {
    var t' := t.(relationships := t.relationships[rel.Key() := rel]);
    assert KeysMatch(t');
    assert WorldRefsHold(t');
    assert AgentRefsHold(t');
  }

  lemma ValidRelationshipInsertPassesChecks(t: Tables, rel: Relationship)
    requires rel.Key() !in t.relationships && Valid(t.(relationships := t.relationships[rel.Key() := rel]))
    ensures InsertRelationship(t, rel).Success?
  {
    var t' := t.(relationships := t.relationships[rel.Key() := rel]);
    assert t'.relationships[rel.Key()] == rel;
    assert rel.worldId in t.worlds && rel.a in t.agents && rel.b in t.agents;
  }

  lemma InsertEventAccepted(t: Tables, e: EventStore)
    requires Valid(t)
    ensures InsertEvent(t, e).Success?
        <==> e.eventId !in t.events && Valid(t.(events := t.events[e.eventId := e]))
  {
    if InsertEvent(t, e).Success? {
      InsertEventKeepsValid(t, e);
    }
    if e.eventId !in t.events && Valid(t.(events := t.events[e.eventId := e])) {
      ValidEventInsertPassesChecks(t, e);
    }
  }

  lemma InsertEventKeepsValid(t: Tables, e: EventStore)
    requires Valid(t) && InsertEvent(t, e).Success?
    ensures Valid(t.(events := t.events[e.eventId := e]))
  {
    var t' := t.(events := t.events[e.eventId := e]);
    assert KeysMatch(t');
    assert ChecksHold(t');
    assert EventTickSeqUnique(t'.events) by {
      forall i, j | i in t'.events && j in t'.events && i != j
        ensures t'.events[i].TickSeq() != t'.events[j].TickSeq()
      {
        if i == e.eventId {
          assert j in t.events;
        } else if j == e.eventId {
          assert i in t.events;
        }
      }
    }
    assert WorldRefsHold(t');
    assert AgentRefsHold(t');
    assert OtherRefsHold(t');
  }

  lemma ValidEventInsertPassesChecks(t: Tables, e: EventStore)
    requires e.eventId !in t.events && Valid(t.(events := t.events[e.eventId := e]))
    ensures InsertEvent(t, e).Success?
  {
    var t' := t.(events := t.events[e.eventId := e]);
    assert t'.events[e.eventId] == e;
    assert e.seqInTick >= 0;
    assert !TickSeqTaken(t.events, e.TickSeq()) by {
      forall id | id in t.events ensures t.events[id].TickSeq() != e.TickSeq() {
        assert t'.events[id] == t.events[id];
      }
    }
    assert e.worldId in t.worlds;
    assert Refers(e.actor, t.agents) && Refers(e.target, t.agents);
    assert Refers(e.causedBy, t'.events);
  }

  lemma InsertSnapshotAccepted(t: Tables, s: Snapshot)
    requires Valid(t)
    ensures InsertSnapshot(t, s).Success?
        <==> s.snapshotId !in t.snapshots && Valid(t.(snapshots := t.snapshots[s.snapshotId := s]))
  {
    if InsertSnapshot(t, s).Success? {
      InsertSnapshotKeepsValid(t, s);
    }
    if s.snapshotId !in t.snapshots && Valid(t.(snapshots := t.snapshots[s.snapshotId := s])) {
      ValidSnapshotInsertPassesChecks(t, s);
    }
  }

  lemma InsertSnapshotKeepsValid(t: Tables, s: Snapshot)
    requires Valid(t) && InsertSnapshot(t, s).Success?
    ensures Valid(t.(snapshots := t.snapshots[s.snapshotId := s]))
  {
    var t' := t.(snapshots := t.snapshots[s.snapshotId := s]);
    assert KeysMatch(t');
    assert SnapshotTickUnique(t'.snapshots) by {
      forall i, j | i in t'.snapshots && j in t'.snapshots && i != j
        ensures t'.snapshots[i].WorldTick() != t'.snapshots[j].WorldTick()
      {
        if i == s.snapshotId {
          assert j in t.snapshots;
        } else if j == s.snapshotId {
          assert i in t.snapshots;
        }
      }
    }
    assert WorldRefsHold(t');
    assert OtherRefsHold(t');
  }

  lemma ValidSnapshotInsertPassesChecks(t: Tables, s: Snapshot)
    requires s.snapshotId !in t.snapshots && Valid(t.(snapshots := t.snapshots[s.snapshotId := s]))
    ensures InsertSnapshot(t, s).Success?
  {
    var t' := t.(snapshots := t.snapshots[s.snapshotId := s]);
    assert t'.snapshots[s.snapshotId] == s;
    assert !WorldTickTaken(t.snapshots, s.WorldTick()) by {
      forall id | id in t.snapshots ensures t.snapshots[id].WorldTick() != s.WorldTick() {
        assert t'.snapshots[id] == t.snapshots[id];
      }
    }
    assert s.worldId in t.worlds;
  }

  lemma InsertAgentSnapshotAccepted(t: Tables, s: AgentSnapshot)
    requires Valid(t)
    ensures InsertAgentSnapshot(t, s).Success? <==> s.Key() !in t.agentSnapshots && Valid(t.(agentSnapshots := t.agentSnapshots[s.Key() := s]))
  {
    if InsertAgentSnapshot(t, s).Success? {
      InsertAgentSnapshotKeepsValid(t, s);
    }
    if s.Key() !in t.agentSnapshots && Valid(t.(agentSnapshots := t.agentSnapshots[s.Key() := s])) {
      ValidAgentSnapshotInsertPassesChecks(t, s);
    }
  }

  lemma InsertAgentSnapshotKeepsValid(t: Tables, s: AgentSnapshot)
    requires Valid(t) && InsertAgentSnapshot(t, s).Success?
    ensures Valid(t.(agentSnapshots := t.agentSnapshots[s.Key() := s]))
  {
    var t' := t.(agentSnapshots := t.agentSnapshots[s.Key() := s]);
    assert KeysMatch(t');
    assert AgentRefsHold(t');
    assert OtherRefsHold(t');
  }

  lemma ValidAgentSnapshotInsertPassesChecks(t: Tables, s: AgentSnapshot)
    requires s.Key() !in t.agentSnapshots && Valid(t.(agentSnapshots := t.agentSnapshots[s.Key() := s]))
    ensures InsertAgentSnapshot(t, s).Success?
  {
    var t' := t.(agentSnapshots := t.agentSnapshots[s.Key() := s]);
    assert t'.agentSnapshots[s.Key()] == s;
    assert s.snapshotId in t.snapshots && s.agentId in t.agents;
  }

  // ---------------------------------------------------------------------
  // Consequences for the event log, snapshots and relationships
  // ---------------------------------------------------------------------

  /** An event whose seq_in_tick is omitted is stored with seq_in_tick 0, and so passes the check. */
  lemma OmittedSeqDefaultsToZero(t: Tables, eventId: Uuid, worldId: Uuid, tick: int, eventType: string,
                                 actor: Option<Uuid>, target: Option<Uuid>, x: Option<int>, y: Option<int>,
                                 payload: Json, causedBy: Option<Uuid>, schemaVersion: Option<int>)
    ensures var e := NewEventStore(eventId, worldId, tick, None, eventType, actor, target, x, y,
                                   payload, causedBy, schemaVersion);
            var r := InsertEvent(t, e);
            && e.seqInTick == 0
            && r != Failure(CheckViolation(EventSeqCheck))
            && (r.Success? ==> r.value.events[eventId].seqInTick == 0)
  {
  }

  /** A second snapshot at an already captured (world_id, tick) is rejected, whatever its id. */
  lemma SecondSnapshotRejected(t: Tables, first: Uuid, s: Snapshot)
    requires first in t.snapshots && t.snapshots[first].WorldTick() == s.WorldTick()
    ensures InsertSnapshot(t, s).Failure?
  {
  }

  /**
   * Relationships are directed: with (w, a, b) stored, the reversed pair
   * (w, b, a) is a separate row that the store accepts and keeps beside it.
   */
  lemma ReversedRelationshipIsSeparateRow(t: Tables, forward: Relationship, backward: Relationship)
    requires Valid(t) && forward.Key() in t.relationships
    requires backward.worldId == forward.worldId && backward.a == forward.b && backward.b == forward.a
    requires forward.a != forward.b && backward.Key() !in t.relationships
    ensures InsertRelationship(t, backward).Success?
    ensures var r := InsertRelationship(t, backward).value;
            r.relationships[forward.Key()] == t.relationships[forward.Key()]
            && r.relationships[backward.Key()] == backward
            && |r.relationships| == |t.relationships| + 1
  {
  }
}
