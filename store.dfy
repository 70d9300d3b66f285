/**
 * The world store as a mutable object: one field per table, INSERT methods
 * that check the declared constraints before adding a row, and DELETE
 * methods that rewrite the dependent tables in place as the ON DELETE rules
 * demand. Each method is tied to its specification in Inserts or Deletes.
 */
module Store {
  import opened Wrappers
  import opened Schema
  import Inserts
  import Deletes

  /** The method's outcome and new state are those the specification prescribes. */
  ghost predicate Committed(r: Outcome<Violation>, spec: Result<Tables, Violation>, before: Tables, after: Tables) {
    match spec
    case Success(t) => r == Pass && after == t
    case Failure(v) => r == Fail(v) && after == before
  }

  class WorldStore {
    var worlds: map<Uuid, World>
    var tiles: map<TileKey, WorldTile>
    var maps: map<Uuid, WorldMap>
    var agents: map<Uuid, Agent>
    var relationships: map<RelationshipKey, Relationship>
    var events: map<Uuid, EventStore>
    var snapshots: map<Uuid, Snapshot>
    var agentSnapshots: map<AgentSnapshotKey, AgentSnapshot>

    function State(): Tables
      reads this
    {
      Tables(worlds, tiles, maps, agents, relationships, events, snapshots, agentSnapshots)
    }

    ghost predicate Valid()
      reads this
    {
      Schema.Valid(State())
    }

    constructor ()
      ensures Valid() && State() == Empty
    {
      worlds, tiles, maps, agents := map[], map[], map[], map[];
      relationships, events, snapshots, agentSnapshots := map[], map[], map[], map[];
      EmptyIsValid();
    }

    method InsertWorld(w: World) returns (r: Outcome<Violation>)
      requires Valid()
      modifies this
      ensures Valid() && Committed(r, Inserts.InsertWorld(old(State()), w), old(State()), State())
    {
      Inserts.InsertWorldAccepted(State(), w);
      if w.worldId in worlds {
        return Fail(PrimaryKeyViolation);
      }
      worlds := worlds[w.worldId := w];
      r := Pass;
    }

    method InsertWorldTile(tile: WorldTile) returns (r: Outcome<Violation>)
      requires Valid()
      modifies this
      ensures Valid() && Committed(r, Inserts.InsertWorldTile(old(State()), tile), old(State()), State())
    {
      Inserts.InsertWorldTileAccepted(State(), tile);
      if tile.Key() in tiles {
        return Fail(PrimaryKeyViolation);
      }
      if tile.worldId !in worlds {
        return Fail(ForeignKeyViolation("world_id"));
      }
      tiles := tiles[tile.Key() := tile];
      r := Pass;
    }

    method InsertWorldMap(m: WorldMap) returns (r: Outcome<Violation>)
      requires Valid()
      modifies this
      ensures Valid() && Committed(r, Inserts.InsertWorldMap(old(State()), m), old(State()), State())
    {
      Inserts.InsertWorldMapAccepted(State(), m);
      if m.worldId in maps {
        return Fail(PrimaryKeyViolation);
      }
      if m.worldId !in worlds {
        return Fail(ForeignKeyViolation("world_id"));
      }
      maps := maps[m.worldId := m];
      r := Pass;
    }

    method InsertAgent(a: Agent) returns (r: Outcome<Violation>)
      requires Valid()
      modifies this
      ensures Valid() && Committed(r, Inserts.InsertAgent(old(State()), a), old(State()), State())
    {
      Inserts.InsertAgentAccepted(State(), a);
      if a.agentId in agents {
        return Fail(PrimaryKeyViolation);
      }
      if a.worldId !in worlds {
        return Fail(ForeignKeyViolation("world_id"));
      }
      agents := agents[a.agentId := a];
      r := Pass;
    }

    method InsertRelationship(rel: Relationship) returns (r: Outcome<Violation>)
      requires Valid()
      modifies this
      ensures Valid() && Committed(r, Inserts.InsertRelationship(old(State()), rel), old(State()), State())
    {
      Inserts.InsertRelationshipAccepted(State(), rel);
      if rel.Key() in relationships {
        return Fail(PrimaryKeyViolation);
      }
      if rel.worldId !in worlds {
        return Fail(ForeignKeyViolation("world_id"));
      }
      if rel.a !in agents {
        return Fail(ForeignKeyViolation("a_agent_id"));
      }
      if rel.b !in agents {
        return Fail(ForeignKeyViolation("b_agent_id"));
      }
      relationships := relationships[rel.Key() := rel];
      r := Pass;
    }

    method InsertEvent(e: EventStore) returns (r: Outcome<Violation>)
      requires Valid()
      modifies this
      ensures Valid() && Committed(r, Inserts.InsertEvent(old(State()), e), old(State()), State())
    {
      Inserts.InsertEventAccepted(State(), e);
      if e.seqInTick < 0 {
        return Fail(CheckViolation(EventSeqCheck));
      }
      if e.eventId in events {
        return Fail(PrimaryKeyViolation);
      }
      if Inserts.TickSeqTaken(events, e.TickSeq()) {
        return Fail(UniqueViolation(EventTickSeqConstraint));
      }
      if e.worldId !in worlds {
        return Fail(ForeignKeyViolation("world_id"));
      }
      if !Inserts.Refers(e.actor, agents) {
        return Fail(ForeignKeyViolation("actor_agent_id"));
      }
      if !Inserts.Refers(e.target, agents) {
        return Fail(ForeignKeyViolation("target_agent_id"));
      }
      if e.causedBy.Some? && e.causedBy.value != e.eventId && e.causedBy.value !in events {
        return Fail(ForeignKeyViolation("caused_by_event_id"));
      }
      events := events[e.eventId := e];
      r := Pass;
    }

    method InsertSnapshot(s: Snapshot) returns (r: Outcome<Violation>)
      requires Valid()
      modifies this
      ensures Valid() && Committed(r, Inserts.InsertSnapshot(old(State()), s), old(State()), State())
    {
      Inserts.InsertSnapshotAccepted(State(), s);
      if s.snapshotId in snapshots {
        return Fail(PrimaryKeyViolation);
      }
      if Inserts.WorldTickTaken(snapshots, s.WorldTick()) {
        return Fail(UniqueViolation(SnapshotTickConstraint));
      }
      if s.worldId !in worlds {
        return Fail(ForeignKeyViolation("world_id"));
      }
      snapshots := snapshots[s.snapshotId := s];
      r := Pass;
    }

    method InsertAgentSnapshot(s: AgentSnapshot) returns (r: Outcome<Violation>)
      requires Valid()
      modifies this
      ensures Valid() && Committed(r, Inserts.InsertAgentSnapshot(old(State()), s), old(State()), State())
    {
      Inserts.InsertAgentSnapshotAccepted(State(), s);
      if s.Key() in agentSnapshots {
        return Fail(PrimaryKeyViolation);
      }
      if s.snapshotId !in snapshots {
        return Fail(ForeignKeyViolation("snapshot_id"));
      }
      if s.agentId !in agents {
        return Fail(ForeignKeyViolation("agent_id"));
      }
      agentSnapshots := agentSnapshots[s.Key() := s];
      r := Pass;
    }

    /**
     * Deletes the parents in g and runs every ON DELETE rule over the
     * dependent tables, overwriting each field with its table as
     * Deletes.Remove computes it. g must already hold every row a CASCADE on
     * world_id reaches, so the store stays valid.
     */
    method Cascade(g: Deletes.Removed)
      requires Valid() && Deletes.Closed(State(), g)
      modifies this
      ensures Valid() && State() == Deletes.Remove(old(State()), g)
    {
      var r := Deletes.Remove(State(), g);
      worlds, tiles, maps, agents := r.worlds, r.tiles, r.maps, r.agents;
      relationships, events, snapshots, agentSnapshots := r.relationships, r.events, r.snapshots, r.agentSnapshots;
      assert State() == r;
      assert Valid() by {
        Deletes.RemoveKeepsValid(old(State()), g);
      }
    }

    method DeleteWorld(w: Uuid)
      requires Valid()
      modifies this
      ensures Valid() && State() == Deletes.DeleteWorld(old(State()), w)
    {
      Deletes.DeleteWorldKeepsValid(State(), w);
      Cascade(Deletes.WorldCascade(State(), {w}));
    }

    method DeleteAgent(a: Uuid)
      requires Valid()
      modifies this
      ensures Valid() && State() == Deletes.DeleteAgent(old(State()), a)
    {
      Deletes.DeleteAgentKeepsValid(State(), a);
      Cascade(Deletes.Removed({}, {a}, {}, {}));
    }

    method DeleteEvent(e: Uuid)
      requires Valid()
      modifies this
      ensures Valid() && State() == Deletes.DeleteEvent(old(State()), e)
    {
      Deletes.DeleteEventKeepsValid(State(), e);
      Cascade(Deletes.Removed({}, {}, {e}, {}));
    }

    method DeleteSnapshot(s: Uuid)
      requires Valid()
      modifies this
      ensures Valid() && State() == Deletes.DeleteSnapshot(old(State()), s)
    {
      Deletes.DeleteSnapshotKeepsValid(State(), s);
      Cascade(Deletes.Removed({}, {}, {}, {s}));
    }
  }
}
