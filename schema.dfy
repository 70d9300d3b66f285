/**
 * The world store's relational schema: one row datatype per table, the
 * declared column defaults, and the integrity rules the database enforces
 * (primary keys, unique constraints, the check constraint and the foreign
 * keys), gathered in the predicate Valid.
 */
module Schema {
  import opened Wrappers

  /** A UUID primary or foreign key, supplied by the caller and otherwise opaque. */
  type Uuid = nat
  /** A JSON (JSONB on PostgreSQL) document, kept as its text and never interpreted. */
  type Json = string
  newtype Byte = x: int | 0 <= x < 256

  // Column defaults, applied when an insert omits the column.
  const DefaultCurrentTick: int := 0
  const DefaultTickUnitMs: int := 60_000
  const DefaultStatus: string := "CREATED"
  const DefaultIsBlocked: bool := false
  const DefaultResourceType: int := 0
  const DefaultResourceAmount: int := 0
  const DefaultMapFormat: string := "zstd+msgpack"
  const DefaultSex: int := 0
  const DefaultBirthTick: int := 0
  const DefaultCoordinate: int := 0
  const DefaultScore: real := 0.0
  const DefaultLastTick: int := 0
  const DefaultSeqInTick: int := 0
  const DefaultSchemaVersion: int := 1

  // Names of the declared table constraints.
  const EventTickSeqConstraint: string := "uq_events_tick_seq"
  const EventSeqCheck: string := "ck_events_seq_nonneg"
  const SnapshotTickConstraint: string := "uq_snapshot_world_tick"

  /** Why the database rejects an INSERT. */
  datatype Violation =
    | CheckViolation(constraint: string)
    | PrimaryKeyViolation
    | UniqueViolation(constraint: string)
    | ForeignKeyViolation(column: string)

  type TileKey = (Uuid, int, int)
  type RelationshipKey = (Uuid, Uuid, Uuid)
  type AgentSnapshotKey = (Uuid, Uuid)

  /** Table "worlds". */
  datatype World = World(
    worldId: Uuid,
    name: Option<string>,
    seed: int,
    generatorVersion: string,
    currentTick: int,
    tickUnitMs: int,
    status: string)

  /** Table "world_tiles", primary key (world_id, x, y). */
  datatype WorldTile = WorldTile(
    worldId: Uuid,
    x: int,
    y: int,
    terrainType: int,
    isBlocked: bool,
    resourceType: int,
    resourceAmount: int,
    meta: Option<Json>)
  {
    function Key(): TileKey { (worldId, x, y) }
  }

  /** Table "world_maps", primary key world_id: at most one map blob per world. */
  datatype WorldMap = WorldMap(
    worldId: Uuid,
    format: string,
    width: int,
    height: int,
    dataBlob: seq<Byte>,
    checksum: string)

  /** Table "agents", the agent projection. */
  datatype Agent = Agent(
    agentId: Uuid,
    worldId: Uuid,
    name: string,
    sex: int,
    birthTick: int,
    deathTick: Option<int>,
    x: int,
    y: int,
    state: Json,
    personality: Option<Json>)

  /** Table "relationships", a directed edge a -> b, primary key (world_id, a_agent_id, b_agent_id). */
  datatype Relationship = Relationship(
    worldId: Uuid,
    a: Uuid,
    b: Uuid,
    affinity: real,
    trust: real,
    hostility: real,
    familiarity: real,
    lastTick: int,
    meta: Option<Json>)
  {
    function Key(): RelationshipKey { (worldId, a, b) }
  }

  /** Table "event_store", the append-only event log. */
  datatype EventStore = EventStore(
    eventId: Uuid,
    worldId: Uuid,
    tick: int,
    seqInTick: int,
    eventType: string,
    actor: Option<Uuid>,
    target: Option<Uuid>,
    x: Option<int>,
    y: Option<int>,
    payload: Json,
    causedBy: Option<Uuid>,
    schemaVersion: int)
  {
    /** The columns of the unique constraint uq_events_tick_seq. */
    function TickSeq(): (Uuid, int, int) { (worldId, tick, seqInTick) }
  }

  /** Table "snapshots". */
  datatype Snapshot = Snapshot(
    snapshotId: Uuid,
    worldId: Uuid,
    tick: int,
    worldState: Json,
    mapRef: Option<string>)
  {
    /** The columns of the unique constraint uq_snapshot_world_tick. */
    function WorldTick(): (Uuid, int) { (worldId, tick) }
  }

  /** Table "agent_snapshots", primary key (snapshot_id, agent_id). */
  datatype AgentSnapshot = AgentSnapshot(
    snapshotId: Uuid,
    agentId: Uuid,
    agentState: Json)
  {
    function Key(): AgentSnapshotKey { (snapshotId, agentId) }
  }

  /** The contents of the eight tables, each indexed by its primary key. */
  datatype Tables = Tables(
    worlds: map<Uuid, World>,
    tiles: map<TileKey, WorldTile>,
    maps: map<Uuid, WorldMap>,
    agents: map<Uuid, Agent>,
    relationships: map<RelationshipKey, Relationship>,
    events: map<Uuid, EventStore>,
    snapshots: map<Uuid, Snapshot>,
    agentSnapshots: map<AgentSnapshotKey, AgentSnapshot>)

  const Empty: Tables := Tables(map[], map[], map[], map[], map[], map[], map[], map[])

  // ---------------------------------------------------------------------
  // Rows built with the declared column defaults
  // ---------------------------------------------------------------------

  function NewWorld(worldId: Uuid, name: Option<string>, seed: int, generatorVersion: string,
                    currentTick: Option<int>, tickUnitMs: Option<int>, status: Option<string>): (r: World)
    ensures r.worldId == worldId && r.name == name && r.seed == seed && r.generatorVersion == generatorVersion
    ensures r.currentTick == (if currentTick.None? then 0 else currentTick.value)
    ensures r.tickUnitMs == (if tickUnitMs.None? then 60_000 else tickUnitMs.value)
    ensures r.status == (if status.None? then "CREATED" else status.value)
  {
    World(worldId, name, seed, generatorVersion, currentTick.GetOr(DefaultCurrentTick),
          tickUnitMs.GetOr(DefaultTickUnitMs), status.GetOr(DefaultStatus))
  }

  function NewWorldTile(worldId: Uuid, x: int, y: int, terrainType: int, isBlocked: Option<bool>,
                        resourceType: Option<int>, resourceAmount: Option<int>, meta: Option<Json>): (r: WorldTile)
    ensures r.Key() == (worldId, x, y) && r.terrainType == terrainType && r.meta == meta
    ensures r.isBlocked == (isBlocked.Some? && isBlocked.value)
    ensures r.resourceType == (if resourceType.None? then 0 else resourceType.value)
    ensures r.resourceAmount == (if resourceAmount.None? then 0 else resourceAmount.value)
  {
    WorldTile(worldId, x, y, terrainType, isBlocked.GetOr(DefaultIsBlocked),
              resourceType.GetOr(DefaultResourceType), resourceAmount.GetOr(DefaultResourceAmount), meta)
  }

  function NewWorldMap(worldId: Uuid, format: Option<string>, width: int, height: int,
                       dataBlob: seq<Byte>, checksum: string): (r: WorldMap)
    ensures r.worldId == worldId && r.width == width && r.height == height
    ensures r.dataBlob == dataBlob && r.checksum == checksum
    ensures r.format == (if format.None? then "zstd+msgpack" else format.value)
  {
    WorldMap(worldId, format.GetOr(DefaultMapFormat), width, height, dataBlob, checksum)
  }

  function NewAgent(agentId: Uuid, worldId: Uuid, name: string, sex: Option<int>, birthTick: Option<int>,
                    deathTick: Option<int>, x: Option<int>, y: Option<int>, state: Json,
                    personality: Option<Json>): (r: Agent)
    ensures r.agentId == agentId && r.worldId == worldId && r.name == name
    ensures r.deathTick == deathTick && r.state == state && r.personality == personality
    ensures r.sex == (if sex.None? then 0 else sex.value)
    ensures r.birthTick == (if birthTick.None? then 0 else birthTick.value)
    ensures r.x == (if x.None? then 0 else x.value) && r.y == (if y.None? then 0 else y.value)
  {
    Agent(agentId, worldId, name, sex.GetOr(DefaultSex), birthTick.GetOr(DefaultBirthTick), deathTick,
          x.GetOr(DefaultCoordinate), y.GetOr(DefaultCoordinate), state, personality)
  }

  function NewRelationship(worldId: Uuid, a: Uuid, b: Uuid, affinity: Option<real>, trust: Option<real>,
                           hostility: Option<real>, familiarity: Option<real>, lastTick: Option<int>,
                           meta: Option<Json>): (r: Relationship)
    ensures r.Key() == (worldId, a, b) && r.meta == meta
    ensures r.affinity == (if affinity.None? then 0.0 else affinity.value)
    ensures r.trust == (if trust.None? then 0.0 else trust.value)
    ensures r.hostility == (if hostility.None? then 0.0 else hostility.value)
    ensures r.familiarity == (if familiarity.None? then 0.0 else familiarity.value)
    ensures r.lastTick == (if lastTick.None? then 0 else lastTick.value)
  {
    Relationship(worldId, a, b, affinity.GetOr(DefaultScore), trust.GetOr(DefaultScore),
                 hostility.GetOr(DefaultScore), familiarity.GetOr(DefaultScore),
                 lastTick.GetOr(DefaultLastTick), meta)
  }

  function NewEventStore(eventId: Uuid, worldId: Uuid, tick: int, seqInTick: Option<int>, eventType: string,
                         actor: Option<Uuid>, target: Option<Uuid>, x: Option<int>, y: Option<int>,
                         payload: Json, causedBy: Option<Uuid>, schemaVersion: Option<int>): (r: EventStore)
    ensures r.eventId == eventId && r.worldId == worldId && r.tick == tick && r.eventType == eventType
    ensures r.actor == actor && r.target == target && r.x == x && r.y == y
    ensures r.payload == payload && r.causedBy == causedBy
    ensures r.seqInTick == (if seqInTick.None? then 0 else seqInTick.value)
    ensures r.schemaVersion == (if schemaVersion.None? then 1 else schemaVersion.value)
  {
    EventStore(eventId, worldId, tick, seqInTick.GetOr(DefaultSeqInTick), eventType, actor, target, x, y,
               payload, causedBy, schemaVersion.GetOr(DefaultSchemaVersion))
  }

  // ---------------------------------------------------------------------
  // Integrity rules
  // ---------------------------------------------------------------------

  /** Every map is indexed by its rows' primary-key columns. */
  ghost predicate KeysMatch(t: Tables) {
    && (forall k :: k in t.worlds ==> t.worlds[k].worldId == k)
    && (forall k :: k in t.tiles ==> t.tiles[k].Key() == k)
    && (forall k :: k in t.maps ==> t.maps[k].worldId == k)
    && (forall k :: k in t.agents ==> t.agents[k].agentId == k)
    && (forall k :: k in t.relationships ==> t.relationships[k].Key() == k)
    && (forall k :: k in t.events ==> t.events[k].eventId == k)
    && (forall k :: k in t.snapshots ==> t.snapshots[k].snapshotId == k)
    && (forall k :: k in t.agentSnapshots ==> t.agentSnapshots[k].Key() == k)
  }

  /** ck_events_seq_nonneg: seq_in_tick >= 0 on every event. */
  ghost predicate ChecksHold(t: Tables) {
    forall id :: id in t.events ==> t.events[id].seqInTick >= 0
  }

  /** uq_events_tick_seq: no two events share (world_id, tick, seq_in_tick). */
  ghost predicate EventTickSeqUnique(events: map<Uuid, EventStore>) {
    forall i, j :: i in events && j in events && i != j ==> events[i].TickSeq() != events[j].TickSeq()
  }

  /** uq_snapshot_world_tick: no two snapshots share (world_id, tick). */
  ghost predicate SnapshotTickUnique(snapshots: map<Uuid, Snapshot>) {
    forall i, j :: i in snapshots && j in snapshots && i != j ==> snapshots[i].WorldTick() != snapshots[j].WorldTick()
  }

  ghost predicate UniquesHold(t: Tables) {
    EventTickSeqUnique(t.events) && SnapshotTickUnique(t.snapshots)
  }

  /** Rows whose foreign keys point at "worlds". */
  ghost predicate WorldRefsHold(t: Tables) {
    && (forall k :: k in t.tiles ==> t.tiles[k].worldId in t.worlds)
    && (forall k :: k in t.maps ==> t.maps[k].worldId in t.worlds)
    && (forall k :: k in t.agents ==> t.agents[k].worldId in t.worlds)
    && (forall k :: k in t.relationships ==> t.relationships[k].worldId in t.worlds)
    && (forall k :: k in t.events ==> t.events[k].worldId in t.worlds)
    && (forall k :: k in t.snapshots ==> t.snapshots[k].worldId in t.worlds)
  }

  /** Non-null references to an agent (in relationships, events and agent snapshots). */
  ghost predicate AgentRefsHold(t: Tables) {
    && (forall k :: k in t.relationships ==> t.relationships[k].a in t.agents && t.relationships[k].b in t.agents)
    && (forall k :: k in t.events && t.events[k].actor.Some? ==> t.events[k].actor.value in t.agents)
    && (forall k :: k in t.events && t.events[k].target.Some? ==> t.events[k].target.value in t.agents)
    && (forall k :: k in t.agentSnapshots ==> t.agentSnapshots[k].agentId in t.agents)
  }

  /** Non-null references to an event or a snapshot. */
  ghost predicate OtherRefsHold(t: Tables) {
    && (forall k :: k in t.events && t.events[k].causedBy.Some? ==> t.events[k].causedBy.value in t.events)
    && (forall k :: k in t.agentSnapshots ==> t.agentSnapshots[k].snapshotId in t.snapshots)
  }

  ghost predicate ForeignKeysHold(t: Tables) {
    WorldRefsHold(t) && AgentRefsHold(t) && OtherRefsHold(t)
  }

  /** Every constraint the schema declares holds. */
  ghost predicate Valid(t: Tables) {
    KeysMatch(t) && ChecksHold(t) && UniquesHold(t) && ForeignKeysHold(t)
  }

  /**
   * References that are intended but not enforced by the schema: related
   * agents, the actor and target of an event, its causal parent, and the agent
   * of an agent snapshot all belong to the citing row's own world.
   */
  ghost predicate SameWorldRefs(t: Tables) {
    && (forall k :: k in t.relationships ==>
          var r := t.relationships[k];
          r.a in t.agents && r.b in t.agents && t.agents[r.a].worldId == r.worldId && t.agents[r.b].worldId == r.worldId)
    && (forall k :: k in t.events && t.events[k].actor.Some? ==>
          t.events[k].actor.value in t.agents && t.agents[t.events[k].actor.value].worldId == t.events[k].worldId)
    && (forall k :: k in t.events && t.events[k].target.Some? ==>
          t.events[k].target.value in t.agents && t.agents[t.events[k].target.value].worldId == t.events[k].worldId)
    && (forall k :: k in t.events && t.events[k].causedBy.Some? ==>
          t.events[k].causedBy.value in t.events && t.events[t.events[k].causedBy.value].worldId == t.events[k].worldId)
    && (forall k :: k in t.agentSnapshots ==>
          var s := t.agentSnapshots[k];
          s.snapshotId in t.snapshots && s.agentId in t.agents && t.agents[s.agentId].worldId == t.snapshots[s.snapshotId].worldId)
  }

  lemma EmptyIsValid()
    ensures Valid(Empty) && SameWorldRefs(Empty)
  {
  }
}
