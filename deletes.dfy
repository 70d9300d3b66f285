/**
 * DELETE from the parent tables, with the ON DELETE rules the foreign keys
 * declare: CASCADE removes the referencing rows, SET NULL clears the
 * referencing column and keeps the row.
 *
 *   world_id (every table but agent_snapshots) -> worlds       CASCADE
 *   a_agent_id, b_agent_id, agent_snapshots.agent_id -> agents CASCADE
 *   actor_agent_id, target_agent_id -> agents                  SET NULL
 *   caused_by_event_id -> event_store                          SET NULL
 *   agent_snapshots.snapshot_id -> snapshots                   CASCADE
 */
module Deletes {
  import opened Wrappers
  import opened Schema

  /** The parent rows one DELETE removes, once CASCADE has followed world_id. */
  datatype Removed = Removed(worlds: set<Uuid>, agents: set<Uuid>, events: set<Uuid>, snapshots: set<Uuid>)

  /** The rows removed when the worlds ws are deleted: the worlds and every agent, event and snapshot they own. */
  function WorldCascade(t: Tables, ws: set<Uuid>): (g: Removed)
    ensures g.worlds == ws
    ensures forall id :: id in g.agents <==> id in t.agents && t.agents[id].worldId in ws
    ensures forall id :: id in g.events <==> id in t.events && t.events[id].worldId in ws
    ensures forall id :: id in g.snapshots <==> id in t.snapshots && t.snapshots[id].worldId in ws
  {
    Removed(ws,
            set id | id in t.agents && t.agents[id].worldId in ws,
            set id | id in t.events && t.events[id].worldId in ws,
            set id | id in t.snapshots && t.snapshots[id].worldId in ws)
  }

  /** All rows a CASCADE on world_id would remove with g's worlds are in g. */
  ghost predicate Closed(t: Tables, g: Removed) {
    && (forall id :: id in t.agents && t.agents[id].worldId in g.worlds ==> id in g.agents)
    && (forall id :: id in t.events && t.events[id].worldId in g.worlds ==> id in g.events)
    && (forall id :: id in t.snapshots && t.snapshots[id].worldId in g.worlds ==> id in g.snapshots)
  }

  /** A nullable reference that names one of the given rows. */
  predicate Names(ref: Option<Uuid>, ids: set<Uuid>) {
    ref.Some? && ref.value in ids
  }

  /** ON DELETE SET NULL on one nullable reference. */
  function NullIfRemoved(ref: Option<Uuid>, gone: set<Uuid>): (r: Option<Uuid>)
    ensures r.Some? <==> ref.Some? && ref.value !in gone
    ensures r.Some? ==> r == ref
  {
    if ref.Some? && ref.value in gone then None else ref
  }

  /** The surviving event with its SET NULL references cleared. */
  function ClearReferences(e: EventStore, g: Removed): EventStore {
    e.(actor := NullIfRemoved(e.actor, g.agents),
       target := NullIfRemoved(e.target, g.agents),
       causedBy := NullIfRemoved(e.causedBy, g.events))
  }

  /**
   * The tables after the parents in g are deleted and every ON DELETE rule has
   * run: every surviving row was there before, and none refers to a deleted
   * parent; a row without such a reference survives unchanged; a surviving
   * event differs from its old self only in that each SET NULL column that
   * named a deleted parent is now NULL.
   */
  function Remove(t: Tables, g: Removed): (r: Tables)
    ensures r.worlds == t.worlds - g.worlds && r.agents == t.agents - g.agents && r.snapshots == t.snapshots - g.snapshots
    ensures r.events.Keys == t.events.Keys - g.events
    ensures forall k :: k in r.tiles ==> k in t.tiles && r.tiles[k] == t.tiles[k] && r.tiles[k].worldId !in g.worlds
    ensures forall k :: k in r.maps ==> k in t.maps && r.maps[k] == t.maps[k] && r.maps[k].worldId !in g.worlds
    ensures forall k :: k in r.relationships ==>
              k in t.relationships && r.relationships[k] == t.relationships[k]
              && r.relationships[k].worldId !in g.worlds && r.relationships[k].a !in g.agents && r.relationships[k].b !in g.agents
    ensures forall k :: k in r.agentSnapshots ==>
              k in t.agentSnapshots && r.agentSnapshots[k] == t.agentSnapshots[k]
              && r.agentSnapshots[k].snapshotId !in g.snapshots && r.agentSnapshots[k].agentId !in g.agents
    ensures forall id :: id in r.events ==>
              !Names(r.events[id].actor, g.agents) && !Names(r.events[id].target, g.agents)
              && !Names(r.events[id].causedBy, g.events)
    ensures forall k :: k in t.tiles && t.tiles[k].worldId !in g.worlds ==> k in r.tiles && r.tiles[k] == t.tiles[k]
    ensures forall k :: k in t.maps && t.maps[k].worldId !in g.worlds ==> k in r.maps && r.maps[k] == t.maps[k]
    ensures forall k :: k in t.relationships && t.relationships[k].worldId !in g.worlds
                        && t.relationships[k].a !in g.agents && t.relationships[k].b !in g.agents
                        ==> k in r.relationships && r.relationships[k] == t.relationships[k]
    ensures forall k :: k in t.agentSnapshots && t.agentSnapshots[k].snapshotId !in g.snapshots
                        && t.agentSnapshots[k].agentId !in g.agents
                        ==> k in r.agentSnapshots && r.agentSnapshots[k] == t.agentSnapshots[k]
    ensures forall id :: id in r.events ==>
              var before, after := t.events[id], r.events[id];
              && after.(actor := before.actor, target := before.target, causedBy := before.causedBy) == before
              && after.actor == (if Names(before.actor, g.agents) then None else before.actor)
              && after.target == (if Names(before.target, g.agents) then None else before.target)
              && after.causedBy == (if Names(before.causedBy, g.events) then None else before.causedBy)
  {
    Tables(
      worlds := t.worlds - g.worlds,
      tiles := map k | k in t.tiles && t.tiles[k].worldId !in g.worlds :: t.tiles[k],
      maps := map k | k in t.maps && t.maps[k].worldId !in g.worlds :: t.maps[k],
      agents := t.agents - g.agents,
      relationships := map k | k in t.relationships && t.relationships[k].worldId !in g.worlds
                                 && t.relationships[k].a !in g.agents && t.relationships[k].b !in g.agents
                               :: t.relationships[k],
      events := map id | id in t.events && id !in g.events :: ClearReferences(t.events[id], g),
      snapshots := t.snapshots - g.snapshots,
      agentSnapshots := map k | k in t.agentSnapshots && t.agentSnapshots[k].snapshotId !in g.snapshots
                                  && t.agentSnapshots[k].agentId !in g.agents
                                :: t.agentSnapshots[k])
  }

  // ---------------------------------------------------------------------
  // Removing a closed set of parents keeps every declared constraint.
  // ---------------------------------------------------------------------

  lemma RemoveKeepsKeys(t: Tables, g: Removed)
    requires KeysMatch(t)
    ensures KeysMatch(Remove(t, g))
  {
  }

  lemma RemoveKeepsChecksAndUniques(t: Tables, g: Removed)
    requires ChecksHold(t) && UniquesHold(t)
    ensures ChecksHold(Remove(t, g)) && UniquesHold(Remove(t, g))
  {
  }

  lemma RemoveKeepsWorldRefs(t: Tables, g: Removed)
    requires WorldRefsHold(t) && Closed(t, g)
    ensures WorldRefsHold(Remove(t, g))
  {
  }

  lemma RemoveKeepsAgentRefs(t: Tables, g: Removed)
    requires AgentRefsHold(t)
    ensures AgentRefsHold(Remove(t, g))
  {
  }

  lemma RemoveKeepsOtherRefs(t: Tables, g: Removed)
    requires OtherRefsHold(t)
    ensures OtherRefsHold(Remove(t, g))
  {
  }

  lemma RemoveKeepsValid(t: Tables, g: Removed)
    requires Valid(t) && Closed(t, g)
    ensures Valid(Remove(t, g))
  {
    RemoveKeepsKeys(t, g);
    RemoveKeepsChecksAndUniques(t, g);
    RemoveKeepsWorldRefs(t, g);
    RemoveKeepsAgentRefs(t, g);
    RemoveKeepsOtherRefs(t, g);
  }

  // ---------------------------------------------------------------------
  // DELETE FROM worlds
  // ---------------------------------------------------------------------

  predicate AgentOfWorld(t: Tables, id: Uuid, w: Uuid) {
    id in t.agents && t.agents[id].worldId == w
  }

  predicate SnapshotOfWorld(t: Tables, id: Uuid, w: Uuid) {
    id in t.snapshots && t.snapshots[id].worldId == w
  }

  /** A nullable reference to an agent of world w. */
  predicate NamesAgentOf(t: Tables, ref: Option<Uuid>, w: Uuid) {
    ref.Some? && AgentOfWorld(t, ref.value, w)
  }

  /** A nullable reference to an event of world w. */
  predicate NamesEventOf(t: Tables, ref: Option<Uuid>, w: Uuid) {
    ref.Some? && ref.value in t.events && t.events[ref.value].worldId == w
  }

  /**
   * DELETE FROM worlds: the world's own rows go by CASCADE on world_id, and so
   * do relationships and agent snapshots naming one of its agents or
   * snapshots, whatever world they belong to. Every surviving row is kept as
   * it was, except that an event's actor, target or cause that was a row of
   * the deleted world becomes NULL.
   */
  function DeleteWorld(t: Tables, w: Uuid): (r: Tables)
    ensures r.worlds == t.worlds - {w}
    ensures forall k :: k in r.tiles <==> k in t.tiles && t.tiles[k].worldId != w
    ensures forall k :: k in r.maps <==> k in t.maps && t.maps[k].worldId != w
    ensures forall id :: id in r.agents <==> id in t.agents && t.agents[id].worldId != w
    ensures forall id :: id in r.events <==> id in t.events && t.events[id].worldId != w
    ensures forall id :: id in r.snapshots <==> id in t.snapshots && t.snapshots[id].worldId != w
    ensures forall k :: k in r.relationships <==>
              k in t.relationships && t.relationships[k].worldId != w
              && !AgentOfWorld(t, t.relationships[k].a, w) && !AgentOfWorld(t, t.relationships[k].b, w)
    ensures forall k :: k in r.agentSnapshots <==>
              k in t.agentSnapshots && !SnapshotOfWorld(t, t.agentSnapshots[k].snapshotId, w)
              && !AgentOfWorld(t, t.agentSnapshots[k].agentId, w)
    ensures forall k :: k in r.tiles ==> r.tiles[k] == t.tiles[k]
    ensures forall k :: k in r.maps ==> r.maps[k] == t.maps[k]
    ensures forall id :: id in r.agents ==> r.agents[id] == t.agents[id]
    ensures forall id :: id in r.snapshots ==> r.snapshots[id] == t.snapshots[id]
    ensures forall k :: k in r.relationships ==> r.relationships[k] == t.relationships[k]
    ensures forall k :: k in r.agentSnapshots ==> r.agentSnapshots[k] == t.agentSnapshots[k]
    ensures forall id :: id in r.events ==>
              var e := t.events[id];
              r.events[id] == e.(actor := if NamesAgentOf(t, e.actor, w) then None else e.actor,
                                 target := if NamesAgentOf(t, e.target, w) then None else e.target,
                                 causedBy := if NamesEventOf(t, e.causedBy, w) then None else e.causedBy)
  {
    Remove(t, WorldCascade(t, {w}))
  }

  lemma DeleteWorldKeepsValid(t: Tables, w: Uuid)
    requires Valid(t)
    ensures Valid(DeleteWorld(t, w))
  {
    RemoveKeepsValid(t, WorldCascade(t, {w}));
  }

  /**
   * When no row refers across worlds, deleting w leaves every row of every
   * other world exactly as it was. For tiles, maps, agents and snapshots this
   * is a corollary of DeleteWorld's own contract and needs no hypothesis; the
   * relationship, event and agent-snapshot clauses are the ones that need
   * SameWorldRefs.
   */
  lemma DeleteWorldKeepsOtherWorlds(t: Tables, w: Uuid)
    requires Valid(t) && SameWorldRefs(t)
    ensures var r := DeleteWorld(t, w);
      && (forall k :: k in t.tiles && t.tiles[k].worldId != w ==> k in r.tiles && r.tiles[k] == t.tiles[k])
      && (forall k :: k in t.maps && t.maps[k].worldId != w ==> k in r.maps && r.maps[k] == t.maps[k])
      && (forall id :: id in t.agents && t.agents[id].worldId != w ==> id in r.agents && r.agents[id] == t.agents[id])
      && (forall k :: k in t.relationships && t.relationships[k].worldId != w
                      ==> k in r.relationships && r.relationships[k] == t.relationships[k])
      && (forall id :: id in t.events && t.events[id].worldId != w ==> id in r.events && r.events[id] == t.events[id])
      && (forall id :: id in t.snapshots && t.snapshots[id].worldId != w
                       ==> id in r.snapshots && r.snapshots[id] == t.snapshots[id])
      && (forall k :: k in t.agentSnapshots && t.snapshots[t.agentSnapshots[k].snapshotId].worldId != w
                      ==> k in r.agentSnapshots && r.agentSnapshots[k] == t.agentSnapshots[k])
  {
    KeepsOtherRelationships(t, w);
    KeepsOtherEvents(t, w);
    KeepsOtherCaptures(t, w);
  }

  lemma KeepsOtherRelationships(t: Tables, w: Uuid)
    requires Valid(t) && SameWorldRefs(t)
    ensures var r := DeleteWorld(t, w);
      forall k :: k in t.relationships && t.relationships[k].worldId != w
                  ==> k in r.relationships && r.relationships[k] == t.relationships[k]
  {
  }

  lemma KeepsOtherEvents(t: Tables, w: Uuid)
    requires Valid(t) && SameWorldRefs(t)
    ensures var r := DeleteWorld(t, w);
      forall id :: id in t.events && t.events[id].worldId != w ==> id in r.events && r.events[id] == t.events[id]
  {
  }

  lemma KeepsOtherCaptures(t: Tables, w: Uuid)
    requires Valid(t) && SameWorldRefs(t)
    ensures var r := DeleteWorld(t, w);
      forall k :: k in t.agentSnapshots && t.snapshots[t.agentSnapshots[k].snapshotId].worldId != w
                  ==> k in r.agentSnapshots && r.agentSnapshots[k] == t.agentSnapshots[k]
  {
  }

  /**
   * The schema does not tie a relationship's agents to its own world, so a
   * relationship of world 2 between two agents of world 1 is accepted, and
   * deleting world 1 removes it from world 2.
   */
  lemma CrossWorldRelationshipIsCascaded()
    ensures var t := Tables(
              map[1 := World(1, None, 0, "v1", 0, 60_000, "CREATED"), 2 := World(2, None, 0, "v1", 0, 60_000, "CREATED")],
              map[], map[],
              map[10 := Agent(10, 1, "A", 0, 0, None, 0, 0, "{}", None), 11 := Agent(11, 1, "B", 0, 0, None, 0, 0, "{}", None)],
              map[(2, 10, 11) := Relationship(2, 10, 11, 0.0, 0.0, 0.0, 0.0, 0, None)],
              map[], map[], map[]);
      Valid(t) && !SameWorldRefs(t)
      && (2, 10, 11) in t.relationships && (2, 10, 11) !in DeleteWorld(t, 1).relationships
  {
    var t := Tables(
      map[1 := World(1, None, 0, "v1", 0, 60_000, "CREATED"), 2 := World(2, None, 0, "v1", 0, 60_000, "CREATED")],
      map[], map[],
      map[10 := Agent(10, 1, "A", 0, 0, None, 0, 0, "{}", None), 11 := Agent(11, 1, "B", 0, 0, None, 0, 0, "{}", None)],
      map[(2, 10, 11) := Relationship(2, 10, 11, 0.0, 0.0, 0.0, 0.0, 0, None)],
      map[], map[], map[]);
    var g := WorldCascade(t, {1});
    assert 10 in g.agents;
    assert t.relationships[(2, 10, 11)].Key() == (2, 10, 11);
  }

  /** Deleting a world that does not exist changes nothing. */
  lemma DeleteMissingWorldIsNoOp(t: Tables, w: Uuid)
    requires Valid(t) && w !in t.worlds
    ensures DeleteWorld(t, w) == t
  {
    var g := WorldCascade(t, {w});
    assert g.agents == {} && g.events == {} && g.snapshots == {} by {
      assert WorldRefsHold(t);
    }
    RemoveNothingIsNoOp(t, g);
  }

  /** Removing parents that no row refers to, and that are not stored, changes nothing. */
  lemma RemoveNothingIsNoOp(t: Tables, g: Removed)
    requires WorldRefsHold(t) && g.agents == {} && g.events == {} && g.snapshots == {}
    requires g.worlds !! t.worlds.Keys
    ensures Remove(t, g) == t
  {
  }

  // ---------------------------------------------------------------------
  // DELETE FROM agents
  // ---------------------------------------------------------------------

  function DeleteAgent(t: Tables, a: Uuid): (r: Tables)
    ensures r.agents == t.agents - {a}
    ensures forall k :: k in r.relationships <==> k in t.relationships && t.relationships[k].a != a && t.relationships[k].b != a
    ensures forall k :: k in r.agentSnapshots <==> k in t.agentSnapshots && t.agentSnapshots[k].agentId != a
    ensures r.events.Keys == t.events.Keys
    ensures forall id :: id in r.events ==> r.events[id].actor != Some(a) && r.events[id].target != Some(a)
    ensures r.worlds == t.worlds && r.tiles == t.tiles && r.maps == t.maps && r.snapshots == t.snapshots
    ensures forall k :: k in r.relationships ==> r.relationships[k] == t.relationships[k]
    ensures forall k :: k in r.agentSnapshots ==> r.agentSnapshots[k] == t.agentSnapshots[k]
    ensures forall id :: id in r.events ==>
              var e := t.events[id];
              r.events[id] == e.(actor := if e.actor == Some(a) then None else e.actor,
                                 target := if e.target == Some(a) then None else e.target)
  {
    Remove(t, Removed({}, {a}, {}, {}))
  }

  lemma DeleteAgentKeepsValid(t: Tables, a: Uuid)
    requires Valid(t)
    ensures Valid(DeleteAgent(t, a))
  {
    RemoveKeepsValid(t, Removed({}, {a}, {}, {}));
  }

  // ---------------------------------------------------------------------
  // DELETE FROM event_store
  // ---------------------------------------------------------------------

  function DeleteEvent(t: Tables, e: Uuid): (r: Tables)
    ensures r.events.Keys == t.events.Keys - {e}
    ensures forall id :: id in r.events ==> r.events[id].causedBy != Some(e)
    ensures r.(events := t.events) == t
  {
    Remove(t, Removed({}, {}, {e}, {}))
  }

  /** Events that named the deleted event as their cause lose only that reference. */
  lemma DeleteEventClearsCause(t: Tables, e: Uuid, id: Uuid)
    requires id in t.events && id != e
    ensures var before, after := t.events[id], DeleteEvent(t, e).events[id];
      && after.(causedBy := before.causedBy) == before
      && after.causedBy == (if before.causedBy == Some(e) then None else before.causedBy)
  {
  }

  lemma DeleteEventKeepsValid(t: Tables, e: Uuid)
    requires Valid(t)
    ensures Valid(DeleteEvent(t, e))
  {
    RemoveKeepsValid(t, Removed({}, {}, {e}, {}));
  }

  // ---------------------------------------------------------------------
  // DELETE FROM snapshots
  // ---------------------------------------------------------------------

  function DeleteSnapshot(t: Tables, s: Uuid): (r: Tables)
    ensures r.snapshots == t.snapshots - {s}
    ensures forall k :: k in r.agentSnapshots <==> k in t.agentSnapshots && t.agentSnapshots[k].snapshotId != s
    ensures forall k :: k in r.agentSnapshots ==> r.agentSnapshots[k] == t.agentSnapshots[k]
    ensures r.(snapshots := t.snapshots, agentSnapshots := t.agentSnapshots) == t
  {
    Remove(t, Removed({}, {}, {}, {s}))
  }

  lemma DeleteSnapshotKeepsValid(t: Tables, s: Uuid)
    requires Valid(t)
    ensures Valid(DeleteSnapshot(t, s))
  {
    RemoveKeepsValid(t, Removed({}, {}, {}, {s}));
  }
}
